/** ZplPrinterHelper.GetLabelMultiZpl: one print job holding the setup
    document, one document per label record and the clearing document, each
    document's instructions written back to back and the documents separated
    by the platform's newline. */
module ZplPrinterHelper {
  import opened ZplText
  import opened ZplLabel
  import opened ZplBracketed
  import opened ZplCstMulti

  /** A C# reference that may be null. */
  datatype Option<T> = None | Some(value: T)

  /** The instructions of every record's label, in the order of the
      records. */
  function Rendered(parms: seq<MultiParam>): (ls: seq<seq<string>>)
    ensures |ls| == |parms|
    ensures forall i :: 0 <= i < |parms| ==> ls[i] == GetInstructions(FromParam(parms[i]))
  {
    seq(|parms|, i requires 0 <= i < |parms| => GetInstructions(FromParam(parms[i])))
  }

  /** Each document's instructions written back to back. */
  function Concats(docs: seq<seq<string>>): (ts: seq<string>)
    ensures |ts| == |docs|
    ensures forall i :: 0 <= i < |docs| ==> ts[i] == Concat(docs[i])
  {
    seq(|docs|, i requires 0 <= i < |docs| => Concat(docs[i]))
  }

  /** The documents of a print job, in order: setup, the labels, clear. */
  function Documents(setup: seq<string>, labels: seq<seq<string>>, clear: seq<string>): seq<string> {
    [Concat(setup)] + Concats(labels) + [Concat(clear)]
  }

  /** Joining one more part appends the separator and the part. */
  lemma JoinSnoc(sep: string, parts: seq<string>, x: string)
    requires |parts| >= 1
    ensures Join(sep, parts + [x]) == Join(sep, parts) + sep + x
  {
    assert (parts + [x])[..|parts|] == parts;
  }

  /** Concatenating one more string of a list appends that string. */
  lemma ConcatStep(ss: seq<string>, k: nat)
    requires k < |ss|
    ensures Concat(ss[..k + 1]) == Concat(ss[..k]) + ss[k]
  {
    assert ss[..k + 1][..k] == ss[..k];
  }

  /** StringBuilder.Append of every string of a list, in order. */
  method AppendAll(sb: string, ss: seq<string>) returns (r: string)
    ensures r == sb + Concat(ss)
  {
    r := sb;
    for k := 0 to |ss|
      invariant r == sb + Concat(ss[..k])
    {
      ConcatStep(ss, k);
      r := r + ss[k];
    }
    assert ss[..|ss|] == ss;
  }

  /** One more label document: the job so far, a newline, the label. */
  lemma LabelStep(newLine: string, setup: seq<string>, labels: seq<seq<string>>, i: nat)
    requires i < |labels|
    ensures Join(newLine, [Concat(setup)] + Concats(labels[..i])) + newLine + Concat(labels[i])
         == Join(newLine, [Concat(setup)] + Concats(labels[..i + 1]))
  {
    JoinSnoc(newLine, [Concat(setup)] + Concats(labels[..i]), Concat(labels[i]));
    assert Concats(labels[..i]) + [Concat(labels[i])] == Concats(labels[..i + 1]);
    AppendTwo([Concat(setup)], Concats(labels[..i]), [Concat(labels[i])]);
  }

  /** The clearing document closes the job. */
  lemma ClearStep(newLine: string, setup: seq<string>, labels: seq<seq<string>>, clear: seq<string>)
    ensures Join(newLine, [Concat(setup)] + Concats(labels[..|labels|])) + newLine + Concat(clear)
         == Join(newLine, Documents(setup, labels, clear))
  {
    JoinSnoc(newLine, [Concat(setup)] + Concats(labels[..|labels|]), Concat(clear));
    assert labels[..|labels|] == labels;
  }

  /** The StringBuilder loops of GetLabelMultiZpl: the setup document, then
      for each label a newline and its instructions, then a newline and the
      clearing document. */
  method WriteJob(setup: seq<string>, labels: seq<seq<string>>, clear: seq<string>, newLine: string)
    returns (s: string)
    ensures s == Join(newLine, Documents(setup, labels, clear))
  {
    s := AppendAll("", setup);
    assert [Concat(setup)] + Concats(labels[..0]) == [Concat(setup)];
    for i := 0 to |labels|
      invariant s == Join(newLine, [Concat(setup)] + Concats(labels[..i]))
    {
      LabelStep(newLine, setup, labels, i);
      s := AppendAll(s + newLine, labels[i]);
    }
    ClearStep(newLine, setup, labels, clear);
    s := AppendAll(s + newLine, clear);
  }

  /** GetLabelMultiZpl: null for no records (a null array is modelled as an
      empty one); otherwise the job of the setup document, every record's
      label in order, and the clearing document. */
  method GetLabelMultiZpl(parms: seq<MultiParam>, newLine: string) returns (zpl: Option<string>)
    ensures zpl.None? <==> |parms| == 0
    ensures zpl.Some? ==>
      zpl.value == Join(newLine, Documents(SetupInstructions(), Rendered(parms), ClearInstructions()))
  {
    if |parms| < 1 {
      return None;
    }
    var s := WriteJob(SetupInstructions(), Rendered(parms), ClearInstructions(), newLine);
    return Some(s);
  }

  /** A list's concatenation starts with its first string and ends with its
      last. */
  lemma {:induction false} ConcatEnds(ss: seq<string>)
    requires |ss| >= 1
    ensures |Concat(ss)| >= |ss[0]| && |Concat(ss)| >= |ss[|ss| - 1]|
    ensures Concat(ss)[..|ss[0]|] == ss[0]
    ensures Concat(ss)[|Concat(ss)| - |ss[|ss| - 1]|..] == ss[|ss| - 1]
    decreases |ss|
  {
    var init := ss[..|ss| - 1];
    if |ss| > 1 {
      ConcatEnds(init);
      assert init[0] == ss[0];
      PrefixOfAppend(Concat(init), ss[|ss| - 1]);
      SliceOfSlice(Concat(init) + ss[|ss| - 1], 0, |Concat(init)|, |ss[0]|);
    } else {
      assert Concat(init) == "";
    }
  }

  /** A list none of whose strings holds `c` concatenates to a string
      without `c`. */
  lemma {:induction false} ConcatLacks(ss: seq<string>, c: char)
    requires forall i :: 0 <= i < |ss| ==> c !in ss[i]
    ensures c !in Concat(ss)
    decreases |ss|
  {
    if |ss| > 0 {
      ConcatLacks(ss[..|ss| - 1], c);
    }
  }

  /** An instruction list framed by ^XA and ^XZ. */
  predicate Bracketed(ss: seq<string>) {
    |ss| >= 2 && ss[0] == "^XA" && ss[|ss| - 1] == "^XZ"
  }

  /** A document that is one complete format: it opens with ^XA and closes
      with ^XZ. */
  predicate Complete(d: string) {
    |d| >= 6 && d[..3] == "^XA" && d[|d| - 3..] == "^XZ"
  }

  /** A framed list writes out one complete format. */
  lemma ConcatComplete(ss: seq<string>)
    requires Bracketed(ss)
    ensures Complete(Concat(ss))
  {
    ConcatEnds(ss);
    var t := Concat(ss);
    ConcatEnds(ss[..|ss| - 1]);
    assert ss[..|ss| - 1][0] == "^XA";
    assert |Concat(ss[..|ss| - 1])| >= 3;
  }

  /** Every document of a job whose lists are framed is complete. */
  lemma DocumentsComplete(setup: seq<string>, labels: seq<seq<string>>, clear: seq<string>)
    requires Bracketed(setup) && Bracketed(clear)
    requires forall i :: 0 <= i < |labels| ==> Bracketed(labels[i])
    ensures forall k :: 0 <= k < |Documents(setup, labels, clear)| ==> Complete(Documents(setup, labels, clear)[k])
  {
    var ds := Documents(setup, labels, clear);
    forall k | 0 <= k < |ds| ensures Complete(ds[k]) {
      if k == 0 {
        ConcatComplete(setup);
      } else if k == |ds| - 1 {
        ConcatComplete(clear);
      } else {
        assert ds[k] == Concat(labels[k - 1]);
        ConcatComplete(labels[k - 1]);
      }
    }
  }

  /** Every label's instructions are framed. */
  lemma RenderedBracketed(parms: seq<MultiParam>)
    ensures forall i :: 0 <= i < |parms| ==> Bracketed(Rendered(parms)[i])
  {
    forall i | 0 <= i < |parms| ensures Bracketed(Rendered(parms)[i]) {
      var r := GetInstructions(FromParam(parms[i]));
      assert Rendered(parms)[i] == r;
    }
  }

  /** Every document of a print job is one complete format: the setup, each
      label and the clearing document open with ^XA and close with ^XZ. */
  lemma JobDocumentsComplete(parms: seq<MultiParam>)
    ensures var ds := Documents(SetupInstructions(), Rendered(parms), ClearInstructions());
      forall k :: 0 <= k < |ds| ==> Complete(ds[k])
  {
    RenderedBracketed(parms);
    DocumentsComplete(SetupInstructions(), Rendered(parms), ClearInstructions());
  }

  /** The newline separators can be found again: splitting a job on a
      one-character newline that no document holds gives back the
      documents, so a job of n labels holds exactly n + 1 newlines between
      n + 2 documents. */
  lemma JobSplit(setup: seq<string>, labels: seq<seq<string>>, clear: seq<string>, c: char)
    requires c !in Concat(setup) && c !in Concat(clear)
    requires forall i :: 0 <= i < |labels| ==> c !in Concat(labels[i])
    ensures Split(Join([c], Documents(setup, labels, clear)), c) == Documents(setup, labels, clear)
    ensures |Split(Join([c], Documents(setup, labels, clear)), c)| == |labels| + 2
  {
    var ds := Documents(setup, labels, clear);
    forall k | 0 <= k < |ds| ensures c !in ds[k] {
      if 0 < k < |ds| - 1 {
        assert ds[k] == Concat(labels[k - 1]);
      }
    }
    SplitJoin(ds, c);
  }

  /** Four strings concatenated in order. */
  lemma ConcatFour(a: string, b: string, c: string, d: string)
    ensures Concat([a, b, c, d]) == a + b + c + d
  {
    assert [a][..0] == [];
    assert Concat([a]) == a;
    assert [a, b][..1] == [a];
    assert Concat([a, b]) == a + b;
    assert [a, b, c][..2] == [a, b];
    assert Concat([a, b, c]) == a + b + c;
    assert [a, b, c, d][..3] == [a, b, c];
  }

  /** The bracketing commands hold no control character. */
  lemma BracketLacks(body: seq<string>, c: char)
    requires c < ' '
    requires forall i :: 0 <= i < |body| ==> c !in body[i]
    ensures c !in Concat(Bracket(body))
  {
    var r := Bracket(body);
    forall i | 0 <= i < |r| ensures c !in r[i] {
      if 0 < i < |r| - 1 {
        assert r[i] == r[1..|r| - 1][i - 1];
      }
    }
    ConcatLacks(r, c);
  }

  /** No command of the setup body holds a control character. */
  lemma SetupBodyLacks(c: char)
    requires c < ' '
    ensures forall i :: 0 <= i < |SetupBody()| ==> c !in SetupBody()[i]
  {
  }

  /** No instruction of the setup document holds a control character, so
      a control-character newline never occurs inside it. */
  lemma SetupLacks(c: char)
    requires c < ' '
    ensures c !in Concat(SetupInstructions())
  {
    SetupBodyLacks(c);
    BracketLacks(SetupBody(), c);
  }

  /** A label's document holds a control character only if its record
      does: the commands, numbers, separators, tags and decoration letters
      rendering adds are all printable. */
  lemma LabelLacks(p: MultiParam, c: char)
    requires c < ' ' && RecordLacks(p, c)
    ensures c !in Concat(GetInstructions(FromParam(p)))
  {
    var m := FromParam(p);
    FromParamLacks(p, c);
    LabelBodyLacks(m, c);
    BracketLacks(LabelBody(m), c);
  }

  /** No label document of the job holds a control character that no record
      holds. */
  lemma RenderedLacks(parms: seq<MultiParam>, c: char)
    requires c < ' '
    requires forall i :: 0 <= i < |parms| ==> RecordLacks(parms[i], c)
    ensures forall i :: 0 <= i < |parms| ==> c !in Concat(Rendered(parms)[i])
  {
    forall i | 0 <= i < |parms| ensures c !in Concat(Rendered(parms)[i]) {
      LabelLacks(parms[i], c);
    }
  }

  /** With a control-character newline (such as "\n") that no field of any
      record holds, a job of n labels splits on the newline into exactly its
      n + 2 documents. */
  lemma PrintJobSplit(parms: seq<MultiParam>, c: char)
    requires c < ' '
    requires forall i :: 0 <= i < |parms| ==> RecordLacks(parms[i], c)
    ensures var ds := Documents(SetupInstructions(), Rendered(parms), ClearInstructions());
      Split(Join([c], ds), c) == ds && |Split(Join([c], ds), c)| == |parms| + 2
  {
    SetupLacks(c);
    ClearDocument();
    RenderedLacks(parms, c);
    JobSplit(SetupInstructions(), Rendered(parms), ClearInstructions(), c);
  }

  /** The clearing document as written: "^XA^MCY^LRN^XZ". */
  lemma ClearDocument()
    ensures Concat(ClearInstructions()) == "^XA^MCY^LRN^XZ"
  {
    ConcatFour("^XA", "^MCY", "^LRN", "^XZ");
  }
}
