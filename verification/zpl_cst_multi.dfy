/** The multi-colour label layout (ZplCstMulti). A label record is first
    turned into the label's derived fields (colour code and description,
    decoration code and decoration lines); the instructions are then laid
    out from those fields alone, at fixed dot positions, and bracketed. */
module ZplCstMulti {
  import opened ZplText
  import opened ZplLabel
  import opened ZplBracketed

  /** ZplMultiParam: the label record as the caller fills it in. */
  datatype MultiParam = MultiParam(
    serialNo: string, prodCd: string, descr: string, genNote: string,
    priority: string, pattern: string,
    col1: string, colDescr1: string, col2: string, colDescr2: string,
    col3: string, colDescr3: string,
    emb: string, embThrds: string, embNote: string,
    hs: string, hsNote: string, pi: string, piNote: string,
    prdnOrder: string, shipCd: string)

  /** The properties of a ZplCstMulti once its constructor has run; a
      decoration line that is never set is "". */
  datatype CstMulti = CstMulti(
    serialNo: string, prodCd: string, prodDescr: string,
    colorCd: string, colorDescr: string, decoStr: string,
    priority: string, note: string, pattern: string,
    embStr: string, hsStr: string, perfStr: string,
    prdnOrder: string, shipCd: string)

  const LeftX: int := 38
  const PriorityLeftX: int := 675
  const BarCodeX: int := 512
  const SectSize: int := 34
  const Col2Off: int := 55
  const Line2Off: int := 40
  const SectXOff: int := 340
  const SectYOff: int := 103

  /** The characters available to the colour description line. */
  const ColorWidth: nat := 472

  /** Three tones: a second and a third colour are both given. */
  predicate ThreeTone(p: MultiParam) {
    !Blank(p.col2) && !Blank(p.col3)
  }

  /** Two tones: a second colour but no third. */
  predicate TwoTone(p: MultiParam) {
    !Blank(p.col2) && Blank(p.col3)
  }

  function ToneCount(p: MultiParam): nat {
    if ThreeTone(p) then 3 else if TwoTone(p) then 2 else 1
  }

  /** The detail texts of each decoration, joined with single spaces. */
  function EmbDetails(p: MultiParam): string {
    Join(" ", [p.emb, p.embThrds, p.embNote])
  }

  function HsDetails(p: MultiParam): string {
    Join(" ", [p.hs, p.hsNote])
  }

  function PerfDetails(p: MultiParam): string {
    Join(" ", [p.pi, p.piNote])
  }

  /** Three colour codes joined with '/', and the three descriptions, each
      cut to `len` characters, joined with '/' after the "3T: " tag. */
  function ThreeToneColors(p: MultiParam, len: nat): (c: (string, string))
    ensures c.0 == p.col1 + "/" + p.col2 + "/" + p.col3
    ensures c.1 == "3T: " + SafeSub(p.colDescr1, len) + "/" + SafeSub(p.colDescr2, len) + "/" + SafeSub(p.colDescr3, len)
  {
    var ds := [SafeSub(p.colDescr1, len), SafeSub(p.colDescr2, len), SafeSub(p.colDescr3, len)];
    JoinThree("/", p.col1, p.col2, p.col3);
    JoinThree("/", ds[0], ds[1], ds[2]);
    (Join("/", [p.col1, p.col2, p.col3]), "3T: " + Join("/", ds))
  }

  /** Two colour codes joined with '/', and the two descriptions, each cut
      to `len` characters, joined with '/' after the "2T: " tag. */
  function TwoToneColors(p: MultiParam, len: nat): (c: (string, string))
    ensures c.0 == p.col1 + "/" + p.col2
    ensures c.1 == "2T: " + SafeSub(p.colDescr1, len) + "/" + SafeSub(p.colDescr2, len)
  {
    var ds := [SafeSub(p.colDescr1, len), SafeSub(p.colDescr2, len)];
    JoinTwo("/", p.col1, p.col2);
    JoinTwo("/", ds[0], ds[1]);
    (Join("/", [p.col1, p.col2]), "2T: " + Join("/", ds))
  }

  /** The colour code and description the constructor derives: the width
      left of the barcode (472 characters) is shared equally between the
      tones' descriptions. */
  function ColorFields(p: MultiParam): (c: (string, string))
    ensures ThreeTone(p) ==> c == ThreeToneColors(p, 157)
    ensures TwoTone(p) ==> c == TwoToneColors(p, 236)
    ensures ToneCount(p) == 1 ==> c == (p.col1, SafeSub(p.colDescr1, 472))
  {
    var colLength := BarCodeX - LeftX - 2;
    if !Blank(p.col2) && !Blank(p.col3) then ThreeToneColors(p, colLength / 3)
    else if !Blank(p.col2) && Blank(p.col3) then TwoToneColors(p, colLength / 2)
    else (p.col1, SafeSub(p.colDescr1, colLength))
  }

  /** The ZplCstMulti(ZplMultiParam) constructor. */
  function FromParam(p: MultiParam): (m: CstMulti)
    ensures && m.serialNo == p.serialNo && m.prodCd == p.prodCd
            && m.prodDescr == p.descr && m.note == p.genNote
            && m.priority == p.priority && m.pattern == p.pattern
            && m.prdnOrder == p.prdnOrder && m.shipCd == p.shipCd
    ensures ThreeTone(p) ==>
      && m.colorCd == p.col1 + "/" + p.col2 + "/" + p.col3
      && m.colorDescr == "3T: " + SafeSub(p.colDescr1, 157) + "/"
           + SafeSub(p.colDescr2, 157) + "/" + SafeSub(p.colDescr3, 157)
    ensures TwoTone(p) ==>
      && m.colorCd == p.col1 + "/" + p.col2
      && m.colorDescr == "2T: " + SafeSub(p.colDescr1, 236) + "/" + SafeSub(p.colDescr2, 236)
    ensures ToneCount(p) == 1 ==>
      m.colorCd == p.col1 && m.colorDescr == SafeSub(p.colDescr1, 472)
    ensures m.embStr == (if Blank(EmbDetails(p)) then "" else "E-" + EmbDetails(p))
    ensures m.hsStr == (if Blank(HsDetails(p)) then "" else "H-" + HsDetails(p))
    ensures m.perfStr == (if Blank(PerfDetails(p)) then "" else "P-" + PerfDetails(p))
    ensures m.decoStr == (if Blank(EmbDetails(p)) then "" else "E")
                       + (if Blank(HsDetails(p)) then "" else "H")
                       + (if Blank(PerfDetails(p)) then "" else "P")
  {
    var colors := ColorFields(p);
    var embDtls := Join(" ", [p.emb, p.embThrds, p.embNote]);
    var hsDtls := Join(" ", [p.hs, p.hsNote]);
    var perfDtls := Join(" ", [p.pi, p.piNote]);
    var d0 := "";
    var d1 := if Blank(embDtls) then d0 else d0 + "E";
    var d2 := if Blank(hsDtls) then d1 else d1 + "H";
    var d3 := if Blank(perfDtls) then d2 else d2 + "P";
    CstMulti(
      serialNo := p.serialNo, prodCd := p.prodCd, prodDescr := p.descr,
      colorCd := colors.0, colorDescr := colors.1, decoStr := d3,
      priority := p.priority, note := p.genNote, pattern := p.pattern,
      embStr := if Blank(embDtls) then "" else "E-" + embDtls,
      hsStr := if Blank(hsDtls) then "" else "H-" + hsDtls,
      perfStr := if Blank(perfDtls) then "" else "P-" + perfDtls,
      prdnOrder := p.prdnOrder, shipCd := p.shipCd)
  }

  /** The rank of a decoration letter in the fixed order E, H, P. */
  function DecoRank(c: char): nat {
    if c == 'E' then 0 else if c == 'H' then 1 else 2
  }

  /** The decoration code built from which detail lines are blank: a
      letter per non-blank line, in the order E, H, P. */
  lemma DecoCodeLetters(embBlank: bool, hsBlank: bool, perfBlank: bool)
    ensures var s := (if embBlank then "" else "E") + (if hsBlank then "" else "H")
                     + (if perfBlank then "" else "P");
      && ('E' in s <==> !embBlank) && ('H' in s <==> !hsBlank) && ('P' in s <==> !perfBlank)
      && (forall i :: 0 <= i < |s| ==> s[i] in "EHP")
      && (forall i, j :: 0 <= i < j < |s| ==> DecoRank(s[i]) < DecoRank(s[j]))
  {
    var e := if embBlank then "" else "E";
    var h := if hsBlank then "" else "H";
    var q := if perfBlank then "" else "P";
    var s := e + h + q;
    assert forall i :: 0 <= i < |s| ==>
      (i < |e| ==> s[i] == 'E') &&
      (|e| <= i < |e| + |h| ==> s[i] == 'H') &&
      (|e| + |h| <= i ==> s[i] == 'P');
  }

  /** The detail lines are blank exactly when every field they join is. */
  lemma DetailsBlank(p: MultiParam)
    ensures Blank(EmbDetails(p)) <==> Blank(p.emb) && Blank(p.embThrds) && Blank(p.embNote)
    ensures Blank(HsDetails(p)) <==> Blank(p.hs) && Blank(p.hsNote)
    ensures Blank(PerfDetails(p)) <==> Blank(p.pi) && Blank(p.piNote)
  {
    assert Blank(" ") by { assert IsWhiteSpace(" "[0]); }
    assert Blank(EmbDetails(p)) <==> Blank(p.emb) && Blank(p.embThrds) && Blank(p.embNote) by {
      JoinThree(" ", p.emb, p.embThrds, p.embNote);
      BlankConcat(p.emb + " " + p.embThrds + " ", p.embNote);
      BlankConcat(p.emb + " " + p.embThrds, " ");
      BlankConcat(p.emb + " ", p.embThrds);
      BlankConcat(p.emb, " ");
    }
    assert Blank(HsDetails(p)) <==> Blank(p.hs) && Blank(p.hsNote) by {
      JoinTwo(" ", p.hs, p.hsNote);
      BlankConcat(p.hs + " ", p.hsNote);
      BlankConcat(p.hs, " ");
    }
    JoinTwo(" ", p.pi, p.piNote);
    BlankConcat(p.pi + " ", p.piNote);
    BlankConcat(p.pi, " ");
  }

  /** Each decoration letter appears exactly when one of that decoration's
      detail fields is non-blank, exactly when its detail line is set; the
      code holds nothing else, and its letters keep the order E, H, P (so
      none repeats). */
  lemma DecorationLetters(p: MultiParam)
    ensures var m := FromParam(p);
      && ('E' in m.decoStr <==> !(Blank(p.emb) && Blank(p.embThrds) && Blank(p.embNote)))
      && ('H' in m.decoStr <==> !(Blank(p.hs) && Blank(p.hsNote)))
      && ('P' in m.decoStr <==> !(Blank(p.pi) && Blank(p.piNote)))
      && ('E' in m.decoStr <==> m.embStr != "")
      && ('H' in m.decoStr <==> m.hsStr != "")
      && ('P' in m.decoStr <==> m.perfStr != "")
      && (forall i :: 0 <= i < |m.decoStr| ==> m.decoStr[i] in "EHP")
      && (forall i, j :: 0 <= i < j < |m.decoStr| ==> DecoRank(m.decoStr[i]) < DecoRank(m.decoStr[j]))
  {
    DetailsBlank(p);
    DecoCodeLetters(Blank(EmbDetails(p)), Blank(HsDetails(p)), Blank(PerfDetails(p)));
  }

  /** The colour code splits on '/' back into one code per tone. */
  lemma ColorCodeSplit(p: MultiParam)
    requires '/' !in p.col1 && '/' !in p.col2 && '/' !in p.col3
    ensures Split(FromParam(p).colorCd, '/') == [p.col1, p.col2, p.col3][..ToneCount(p)]
  {
    if ThreeTone(p) {
      SplitThree(p.col1, p.col2, p.col3, '/');
      assert [p.col1, p.col2, p.col3][..3] == [p.col1, p.col2, p.col3];
    } else if TwoTone(p) {
      SplitTwo(p.col1, p.col2, '/');
      assert [p.col1, p.col2, p.col3][..2] == [p.col1, p.col2];
    } else {
      SplitNoSeparator(p.col1, '/');
      assert [p.col1, p.col2, p.col3][..1] == [p.col1];
    }
  }

  /** Every description on the colour line is truncated to its tone's share
      of the line, so the line never exceeds the budget by more than its
      tone tag and separators. */
  lemma ColorLineBudget(p: MultiParam)
    ensures ToneCount(p) * (ColorWidth / ToneCount(p)) <= ColorWidth
    ensures |FromParam(p).colorDescr| <= ColorWidth + 5
    ensures ToneCount(p) == 1 ==> |FromParam(p).colorDescr| <= ColorWidth
  {
  }

  /** A multi-tone description is its tone tag followed by the truncated
      descriptions, which split back apart on '/'. */
  lemma ColorDescrSplit(p: MultiParam)
    requires '/' !in p.colDescr1 && '/' !in p.colDescr2 && '/' !in p.colDescr3
    requires ToneCount(p) > 1
    ensures var m := FromParam(p);
      var w := ColorWidth / ToneCount(p);
      && m.colorDescr[..4] == (if ToneCount(p) == 3 then "3T: " else "2T: ")
      && Split(m.colorDescr[4..], '/')
         == [SafeSub(p.colDescr1, w), SafeSub(p.colDescr2, w), SafeSub(p.colDescr3, w)][..ToneCount(p)]
  {
    var w := ColorWidth / ToneCount(p);
    var d1, d2, d3 := SafeSub(p.colDescr1, w), SafeSub(p.colDescr2, w), SafeSub(p.colDescr3, w);
    PrefixLacks(d1, p.colDescr1, '/');
    PrefixLacks(d2, p.colDescr2, '/');
    PrefixLacks(d3, p.colDescr3, '/');
    if ThreeTone(p) {
      TagOfFive("3T: ", d1, "/", d2, "/", d3);
      SplitThree(d1, d2, d3, '/');
      assert [d1, d2, d3][..3] == [d1, d2, d3];
    } else {
      TagOfThree("2T: ", d1, "/", d2);
      SplitTwo(d1, d2, '/');
      assert [d1, d2, d3][..2] == [d1, d2];
    }
  }

  /** Section captions and label captions are never blank. */
  lemma CaptionsNotBlank()
    ensures !Blank("C#:") && !Blank("P#:") && !Blank("Part#:") && !Blank("Color:")
  {
    assert !IsWhiteSpace("C#:"[0]);
    assert !IsWhiteSpace("P#:"[0]);
    assert !IsWhiteSpace("Part#:"[0]);
    assert !IsWhiteSpace("Color:"[0]);
  }

  /** The serial number a section shows: with the decoration code appended
      when there is one. */
  function SectionSerial(cNo: string, deco: string): string {
    if Blank(deco) then cNo else cNo + " " + deco
  }

  /** The part number a section shows: with the colour code appended when
      there is one. */
  function SectionPart(pNo: string, color: string): string {
    if Blank(color) then pNo else pNo + " " + color
  }

  /** A section's value line is skipped only when both of its sources are
      blank. */
  lemma SectionValuesShown(cNo: string, pNo: string, color: string, deco: string)
    ensures Blank(SectionSerial(cNo, deco)) <==> Blank(cNo) && Blank(deco)
    ensures Blank(SectionPart(pNo, color)) <==> Blank(pNo) && Blank(color)
  {
    BlankConcat(cNo + " ", deco);
    BlankConcat(cNo, " ");
    BlankConcat(pNo + " ", color);
    BlankConcat(pNo, " ");
    assert Blank(" ") by { assert IsWhiteSpace(" "[0]); }
  }

  /** The font command of every section line: font 0, upright, size 34. */
  function SectFont(): string {
    "^A0N," + IntText(SectSize)
  }

  /** The number of instructions one section adds. */
  function SectionLength(cNo: string, pNo: string, color: string, deco: string): nat {
    8 + 4 * Ind(!Blank(SectionSerial(cNo, deco))) + 4 * Ind(!Blank(SectionPart(pNo, color)))
  }

  /** The number of fields one section prints. */
  function SectionFields(cNo: string, pNo: string, color: string, deco: string): nat {
    2 + Ind(!Blank(SectionSerial(cNo, deco))) + Ind(!Blank(SectionPart(pNo, color)))
  }

  /** What one section shows: the "C#:" line with the serial 55 dots to its
      right, and 40 dots below it the "P#:" line with the part number; a
      blank value is skipped, the captions never are. */
  function SectionText(x: int, y: int, cNo: string, pNo: string, color: string, deco: string): seq<string> {
    var serial := SectionSerial(cNo, deco);
    var part := SectionPart(pNo, color);
    TextAt(x, y, SectFont(), "C#:")
      + (if Blank(serial) then [] else TextAt(x + Col2Off, y, SectFont(), serial))
      + TextAt(x, y + Line2Off, SectFont(), "P#:")
      + (if Blank(part) then [] else TextAt(x + Col2Off, y + Line2Off, SectFont(), part))
  }

  /** A section is as long as its shown lines make it. */
  lemma SectionTextLength(x: int, y: int, cNo: string, pNo: string, color: string, deco: string)
    ensures |SectionText(x, y, cNo, pNo, color, deco)| == SectionLength(cNo, pNo, color, deco)
  {
  }

  /** A section prints one field per shown line. */
  lemma SectionTextFields(x: int, y: int, cNo: string, pNo: string, color: string, deco: string)
    ensures FieldCount(SectionText(x, y, cNo, pNo, color, deco)) == SectionFields(cNo, pNo, color, deco)
  {
    var serial := SectionSerial(cNo, deco);
    var part := SectionPart(pNo, color);
    var a := TextAt(x, y, SectFont(), "C#:");
    var b := if Blank(serial) then [] else TextAt(x + Col2Off, y, SectFont(), serial);
    var c := TextAt(x, y + Line2Off, SectFont(), "P#:");
    var d := if Blank(part) then [] else TextAt(x + Col2Off, y + Line2Off, SectFont(), part);
    assert SectFont()[1] == 'A';
    assert FieldCount(a) == 1 by { TextAtFields(x, y, SectFont(), "C#:"); }
    assert FieldCount(c) == 1 by { TextAtFields(x, y + Line2Off, SectFont(), "P#:"); }
    assert FieldCount(b) == Ind(!Blank(serial)) by {
      if Blank(serial) {
        assert FieldCount([]) == 0;
      } else {
        TextAtFields(x + Col2Off, y, SectFont(), serial);
      }
    }
    assert FieldCount(d) == Ind(!Blank(part)) by {
      if Blank(part) {
        assert FieldCount([]) == 0;
      } else {
        TextAtFields(x + Col2Off, y + Line2Off, SectFont(), part);
      }
    }
    FieldCountFour(a, b, c, d);
  }

  /** AddSection: appends the section's text at (x, y) and nothing else. */
  function AddSection(instrs: seq<string>, x: int, y: int, cNo: string, pNo: string, color: string, deco: string): (r: seq<string>)
    ensures r == instrs + SectionText(x, y, cNo, pNo, color, deco)
  {
    var serial := SectionSerial(cNo, deco);
    var i1 := AddText(instrs, x, y, SectSize, "C#:");
    var i2 := AddText(i1, x + Col2Off, y, SectSize, serial);
    var part := SectionPart(pNo, color);
    var i3 := AddText(i2, x, y + Line2Off, SectSize, "P#:");
    var r := AddText(i3, x + Col2Off, y + Line2Off, SectSize, part);
    var a := TextAt(x, y, SectFont(), "C#:");
    var b := if Blank(serial) then [] else TextAt(x + Col2Off, y, SectFont(), serial);
    var c := TextAt(x, y + Line2Off, SectFont(), "P#:");
    var d := if Blank(part) then [] else TextAt(x + Col2Off, y + Line2Off, SectFont(), part);
    assert i1 == instrs + a by { CaptionsNotBlank(); }
    AppendNone(i1);
    assert i3 == i2 + c by { CaptionsNotBlank(); }
    AppendNone(i3);
    AppendFour(instrs, a, b, c, d);
    r
  }

  /** The origins of the first `n` sections of a row at height y: column
      pitch 340 dots from x. */
  function RowOrigins(x: int, y: int, n: nat): (o: seq<(int, int)>)
    ensures |o| == n
  {
    if n == 0 then [] else RowOrigins(x, y, n - 1) + [(x + SectXOff * (n - 1), y)]
  }

  /** The section origins of `rows` rows of three, row by row, left to
      right: row pitch 103 dots from y. */
  function GridOrigins(x: int, y: int, rows: nat): (o: seq<(int, int)>)
    ensures |o| == 3 * rows
  {
    if rows == 0 then [] else GridOrigins(x, y, rows - 1) + RowOrigins(x, y + SectYOff * (rows - 1), 3)
  }

  /** Section k of the grid sits in column k mod 3 of row k div 3. */
  lemma {:induction false} GridPositions(x: int, y: int, rows: nat)
    ensures forall k :: 0 <= k < 3 * rows ==>
      GridOrigins(x, y, rows)[k] == (x + SectXOff * (k % 3), y + SectYOff * (k / 3))
  {
    if rows > 0 {
      GridPositions(x, y, rows - 1);
      var prev := GridOrigins(x, y, rows - 1);
      var row := y + SectYOff * (rows - 1);
      var last := RowOrigins(x, row, 3);
      assert last == [(x, row), (x + SectXOff, row), (x + 2 * SectXOff, row)] by {
        assert RowOrigins(x, row, 1) == [(x, row)];
        assert RowOrigins(x, row, 2) == [(x, row), (x + SectXOff, row)];
      }
      var o := GridOrigins(x, y, rows);
      assert o == prev + last;
      forall k | 0 <= k < |o|
        ensures o[k] == (x + SectXOff * (k % 3), y + SectYOff * (k / 3))
      {
        if k < |prev| {
          assert o[k] == prev[k];
          assert prev[k] == (x + SectXOff * (k % 3), y + SectYOff * (k / 3));
        } else {
          var j := k - |prev|;
          assert o[k] == last[j];
          assert k == 3 * (rows - 1) + j && 0 <= j < 3;
          assert k / 3 == rows - 1 && k % 3 == j;
          assert row == y + SectYOff * (k / 3);
          if j == 0 {
            assert last[j] == (x, row);
          } else if j == 1 {
            assert last[j] == (x + SectXOff, row);
          } else {
            assert last[j] == (x + 2 * SectXOff, row);
          }
          assert last[j] == (x + SectXOff * j, row);
        }
      }
    }
  }

  /** Row-major order: an earlier section is on an earlier row, or on the
      same row further left; so the twelve origins are all distinct. */
  lemma GridRowMajor(x: int, y: int, rows: nat, j: nat, k: nat)
    requires j < k < 3 * rows
    ensures var o := GridOrigins(x, y, rows);
      o[j].1 < o[k].1 || (o[j].1 == o[k].1 && o[j].0 < o[k].0)
  {
    GridPositions(x, y, rows);
    if j / 3 == k / 3 {
      assert j % 3 < k % 3;
    } else {
      assert j / 3 < k / 3;
    }
  }

  /** n * k by repeated addition, so that counting sections stays linear. */
  function Times(n: nat, k: nat): nat {
    if n == 0 then 0 else Times(n - 1, k) + k
  }

  lemma {:induction false} TimesIsProduct(n: nat, k: nat)
    ensures Times(n, k) == n * k
  {
    if n > 0 {
      TimesIsProduct(n - 1, k);
    }
  }

  /** What the sections at the given origins show, in order. */
  function SectionsText(origins: seq<(int, int)>, cNo: string, pNo: string, color: string, deco: string): seq<string>
    decreases |origins|
  {
    if |origins| == 0 then []
    else
      var o := origins[|origins| - 1];
      SectionsText(origins[..|origins| - 1], cNo, pNo, color, deco) + SectionText(o.0, o.1, cNo, pNo, color, deco)
  }

  /** Every section is as long as any other: n sections are n times as long
      as one. */
  lemma {:induction false} SectionsTextLength(origins: seq<(int, int)>, cNo: string, pNo: string, color: string, deco: string)
    ensures |SectionsText(origins, cNo, pNo, color, deco)| == Times(|origins|, SectionLength(cNo, pNo, color, deco))
    decreases |origins|
  {
    if |origins| > 0 {
      var o := origins[|origins| - 1];
      SectionsTextLength(origins[..|origins| - 1], cNo, pNo, color, deco);
      SectionTextLength(o.0, o.1, cNo, pNo, color, deco);
    }
  }

  /** n sections print n times the fields of one. */
  lemma {:induction false} SectionsTextFields(origins: seq<(int, int)>, cNo: string, pNo: string, color: string, deco: string)
    ensures FieldCount(SectionsText(origins, cNo, pNo, color, deco)) == Times(|origins|, SectionFields(cNo, pNo, color, deco))
    decreases |origins|
  {
    if |origins| == 0 {
      assert FieldCount([]) == 0;
    } else {
      var init := origins[..|origins| - 1];
      var o := origins[|origins| - 1];
      SectionsTextFields(init, cNo, pNo, color, deco);
      SectionTextFields(o.0, o.1, cNo, pNo, color, deco);
      FieldCountAppend(SectionsText(init, cNo, pNo, color, deco), SectionText(o.0, o.1, cNo, pNo, color, deco));
    }
  }

  /** One section at each origin, in order. */
  function AddSectionsAt(instrs: seq<string>, origins: seq<(int, int)>, cNo: string, pNo: string, color: string, deco: string): (r: seq<string>)
    ensures r == instrs + SectionsText(origins, cNo, pNo, color, deco)
    decreases |origins|
  {
    if |origins| == 0 then
      assert instrs + [] == instrs;
      instrs
    else
      var init := origins[..|origins| - 1];
      var o := origins[|origins| - 1];
      var prev := AddSectionsAt(instrs, init, cNo, pNo, color, deco);
      var r := AddSection(prev, o.0, o.1, cNo, pNo, color, deco);
      AppendTwo(instrs, SectionsText(init, cNo, pNo, color, deco), SectionText(o.0, o.1, cNo, pNo, color, deco));
      r
  }

  lemma SectionsTextSnoc(origins: seq<(int, int)>, o: (int, int), cNo: string, pNo: string, color: string, deco: string)
    ensures SectionsText(origins + [o], cNo, pNo, color, deco)
         == SectionsText(origins, cNo, pNo, color, deco) + SectionText(o.0, o.1, cNo, pNo, color, deco)
  {
    assert (origins + [o])[..|origins|] == origins;
  }

  /** A row's next origin lies SectXOff dots right of the one before. */
  lemma RowOriginsStep(x: int, row: int, ix: nat)
    ensures RowOrigins(x, row, ix + 1) == RowOrigins(x, row, ix) + [(x + SectXOff * ix, row)]
  {
  }

  /** Adding the next section of a row extends the shown sections by that
      section's origin. */
  lemma RowStep(instrs: seq<string>, done: seq<(int, int)>, x: int, row: int, ix: nat, cNo: string, pNo: string, color: string, deco: string)
    ensures instrs + SectionsText(done + RowOrigins(x, row, ix), cNo, pNo, color, deco)
              + SectionText(x + SectXOff * ix, row, cNo, pNo, color, deco)
      == instrs + SectionsText(done + RowOrigins(x, row, ix + 1), cNo, pNo, color, deco)
  {
    var o := (x + SectXOff * ix, row);
    var before := done + RowOrigins(x, row, ix);
    SectionsTextSnoc(before, o, cNo, pNo, color, deco);
    RowOriginsStep(x, row, ix);
    AppendTwo(done, RowOrigins(x, row, ix), [o]);
    AppendTwo(instrs, SectionsText(before, cNo, pNo, color, deco), SectionText(o.0, o.1, cNo, pNo, color, deco));
  }

  /** The grid's next row follows the rows before it. */
  lemma GridStep(x: int, y: int, iy: nat)
    ensures GridOrigins(x, y, iy + 1) == GridOrigins(x, y, iy) + RowOrigins(x, y + SectYOff * iy, 3)
  {
  }

  /** The twelve sections of a 4 x 3 grid from (x, y), one per origin. */
  function GridSections(instrs: seq<string>, x: int, y: int, cNo: string, pNo: string, color: string, deco: string): (r: seq<string>)
    ensures r == instrs + SectionsText(GridOrigins(x, y, 4), cNo, pNo, color, deco)
  {
    AddSectionsAt(instrs, GridOrigins(x, y, 4), cNo, pNo, color, deco)
  }

  /** AddSections as the source writes it: rows outside, columns inside. */
  method AddSections(instrs: seq<string>, x: int, y: int, cNo: string, pNo: string, color: string, deco: string) returns (r: seq<string>)
    ensures r == GridSections(instrs, x, y, cNo, pNo, color, deco)
  {
    r := instrs;
    AppendNone(instrs);
    for iy := 0 to 4
      invariant r == instrs + SectionsText(GridOrigins(x, y, iy), cNo, pNo, color, deco)
    {
      var row := y + SectYOff * iy;
      ghost var done := GridOrigins(x, y, iy);
      AppendNone(done);
      for ix := 0 to 3
        invariant r == instrs + SectionsText(done + RowOrigins(x, row, ix), cNo, pNo, color, deco)
      {
        RowStep(instrs, done, x, row, ix, cNo, pNo, color, deco);
        r := AddSection(r, x + SectXOff * ix, row, cNo, pNo, color, deco);
      }
      GridStep(x, y, iy);
    }
  }

  /** The fixed start of every label: media clear, reverse print off, label
      shift 0, then the Code 39 barcode of the serial number at (512, 340):
      module width 2, ratio 3, height 160, upright, no check digit,
      interpretation line printed below the code. */
  function BarcodeText(serialNo: string): seq<string> {
    [ "^MCY", "^LRN", "^LS0", "^FT512,340", "^BY2,3,160", "^B3N,N,,Y,N", "^FD" + serialNo, FS ]
  }

  /** The barcode part prints one field: the serial number. */
  lemma BarcodeFields(serialNo: string)
    ensures FieldCount(BarcodeText(serialNo)) == 1
  {
    var head := [ "^MCY", "^LRN", "^LS0", "^FT512,340", "^BY2,3,160", "^B3N,N,,Y,N", "^FD" + serialNo ];
    assert ("^FD" + serialNo)[2] == 'D';
    FieldCountNone(head);
    FieldCountSnoc(head, FS);
    assert head + [FS] == BarcodeText(serialNo);
  }

  /** Barcode part, first three commands: media clear, reverse print off,
      label shift zero. */
  function BarcodeSetup(instrs: seq<string>): (r: seq<string>)
    ensures r == instrs + [ "^MCY", "^LRN", "^LS0" ]
  {
    var i0 := AddFrmt(instrs, "MC", [Str("Y")]);
    assert i0 == instrs + ["^MCY"] by {
      FrmtOne(instrs, "MC", Str("Y"));
      assert [FrmtPrefix] + "MC" + "Y" == "^MCY";
    }
    var i1 := AddFrmt(i0, "LR", [Str("N")]);
    assert i1 == i0 + ["^LRN"] by {
      FrmtOne(i0, "LR", Str("N"));
      assert [FrmtPrefix] + "LR" + "N" == "^LRN";
    }
    var i2 := AddFrmt(i1, "LS", [Str("0")]);
    assert i2 == i1 + ["^LS0"] by {
      FrmtOne(i1, "LS", Str("0"));
      assert [FrmtPrefix] + "LS" + "0" == "^LS0";
    }
    i2
  }

  /** Barcode part, next three commands: the barcode's origin, module width
      and ratio, and the barcode command. */
  function BarcodeFormat(instrs: seq<string>): (r: seq<string>)
    ensures r == instrs + [ "^FT512,340", "^BY2,3,160", "^B3N,N,,Y,N" ]
  {
    var i3 := AddFT(instrs, BarCodeX, 340);
    assert i3 == instrs + ["^FT512,340"] by {
      assert IntText(512) == "512" && IntText(340) == "340";
      assert "^FT" + "512" + "," + "340" == "^FT512,340";
    }
    var i4 := AddFrmt(i3, "BY", [Int(2), Int(3), Int(160)]);
    assert i4 == i3 + ["^BY2,3,160"] by {
      FrmtThree(i3, "BY", Int(2), Int(3), Int(160));
      assert ParamText(Int(2)) == "2" && ParamText(Int(3)) == "3" && ParamText(Int(160)) == "160";
      assert [FrmtPrefix] + "BY" + "2" + "," + "3" + "," + "160" == "^BY2,3,160";
    }
    var i5 := AddCode39(i4);
    i5
  }

  /** The Code 39 barcode command: normal orientation, no Mod-43 check
      digit, default height, interpretation line printed below the code. */
  function AddCode39(instrs: seq<string>): (r: seq<string>)
    ensures r == instrs + ["^B3N,N,,Y,N"]
  {
    var b3 := [Str("N"), Str("N"), Null, Str("Y"), Str("N")];
    var r := AddFrmt(instrs, "B3", b3);
    assert r == instrs + ["^B3N,N,,Y,N"] by {
      var ts := Texts(b3);
      assert ts == ["N", "N", "", "Y", "N"];
      assert Join(",", ts[..1]) == "N";
      assert ts[..2][..1] == ts[..1];
      assert Join(",", ts[..2]) == "N,N";
      assert ts[..3][..2] == ts[..2];
      assert Join(",", ts[..3]) == "N,N,";
      assert ts[..4][..3] == ts[..3];
      assert Join(",", ts[..4]) == "N,N,,Y";
      assert ts[..4] == ts[..|ts| - 1];
      assert Join(",", ts) == "N,N,,Y,N";
      assert [FrmtPrefix] + "B3" + "N,N,,Y,N" == "^B3N,N,,Y,N";
    }
    r
  }

  /** The barcode part of GetInstructions: setup, format and the serial
      number as the barcode's field data. */
  function AddBarcode(instrs: seq<string>, serialNo: string): (r: seq<string>)
    ensures r == instrs + BarcodeText(serialNo)
  {
    var i2 := BarcodeSetup(instrs);
    var i5 := BarcodeFormat(i2);
    var r := AddField(i5, serialNo);
    AppendSingles(instrs, "^MCY", "^LRN", "^LS0", "^FT512,340", "^BY2,3,160", "^B3N,N,,Y,N", ["^FD" + serialNo, FS]);
    r
  }

  /** The three captioned values of the top line (size 45 at y 50): serial
      number, part number and colour code, each line left out entirely when
      its value is blank. */
  function CaptionsText(serialNo: string, prodCd: string, colorCd: string): seq<string> {
    LblText(LeftX, 50, 45, "C#:", 105, serialNo)
      + LblText(350, 50, 45, "Part#:", 470, prodCd)
      + LblText(650, 50, 45, "Color:", 770, colorCd)
  }

  /** Each shown caption line is eight commands and two fields. */
  lemma CaptionsShape(serialNo: string, prodCd: string, colorCd: string)
    ensures |CaptionsText(serialNo, prodCd, colorCd)|
      == 8 * (Ind(!Blank(serialNo)) + Ind(!Blank(prodCd)) + Ind(!Blank(colorCd)))
    ensures FieldCount(CaptionsText(serialNo, prodCd, colorCd))
      == 2 * (Ind(!Blank(serialNo)) + Ind(!Blank(prodCd)) + Ind(!Blank(colorCd)))
  {
    CaptionsNotBlank();
    var a := LblText(LeftX, 50, 45, "C#:", 105, serialNo);
    var b := LblText(350, 50, 45, "Part#:", 470, prodCd);
    var c := LblText(650, 50, 45, "Color:", 770, colorCd);
    LblTextShape(LeftX, 50, 45, "C#:", 105, serialNo);
    LblTextShape(350, 50, 45, "Part#:", 470, prodCd);
    LblTextShape(650, 50, 45, "Color:", 770, colorCd);
    FieldCountAppend(a, b);
    FieldCountAppend(a + b, c);
  }

  function AddCaptions(instrs: seq<string>, serialNo: string, prodCd: string, colorCd: string): (r: seq<string>)
    ensures r == instrs + CaptionsText(serialNo, prodCd, colorCd)
  {
    var a := LblText(LeftX, 50, 45, "C#:", 105, serialNo);
    var b := LblText(350, 50, 45, "Part#:", 470, prodCd);
    var c := LblText(650, 50, 45, "Color:", 770, colorCd);
    var i1 := AddLblText(instrs, LeftX, 50, 45, "C#:", 105, serialNo);
    var i2 := AddLblText(i1, 350, 50, 45, "Part#:", 470, prodCd);
    var r := AddLblText(i2, 650, 50, 45, "Color:", 770, colorCd);
    AppendTwo(instrs, a, b);
    AppendTwo(instrs, a + b, c);
    r
  }

  /** The description block (size 34 from (38, 64) to x 1000, 67 high), the
      note block (size 34 from (38, 140) to the priority column, 33 high),
      the priority (size 45 at (675, 165)) and the ship code turned 270
      degrees (size 56 at (970, 250)). Only priority and ship code are
      left out when blank. */
  function TextsText(descr: string, note: string, priority: string, shipCd: string): seq<string> {
    TextBlock(LeftX, 64, 34, 1000, 67, descr)
      + TextBlock(LeftX, 140, 34, PriorityLeftX, 33, note)
      + (if Blank(priority) then [] else TextAt(PriorityLeftX, 165, "^A0N," + IntText(45), priority))
      + (if Blank(shipCd) then [] else TextAt(970, 250, "^A0B," + IntText(56), shipCd))
  }

  lemma TextsShape(descr: string, note: string, priority: string, shipCd: string)
    ensures |TextsText(descr, note, priority, shipCd)| == 10 + 4 * (Ind(!Blank(priority)) + Ind(!Blank(shipCd)))
    ensures FieldCount(TextsText(descr, note, priority, shipCd)) == 2 + Ind(!Blank(priority)) + Ind(!Blank(shipCd))
  {
    var a := TextBlock(LeftX, 64, 34, 1000, 67, descr);
    var b := TextBlock(LeftX, 140, 34, PriorityLeftX, 33, note);
    var c := if Blank(priority) then [] else TextAt(PriorityLeftX, 165, "^A0N," + IntText(45), priority);
    var d := if Blank(shipCd) then [] else TextAt(970, 250, "^A0B," + IntText(56), shipCd);
    TextBlockFields(LeftX, 64, 34, 1000, 67, descr);
    TextBlockFields(LeftX, 140, 34, PriorityLeftX, 33, note);
    assert ("^A0N," + IntText(45))[1] == 'A' && ("^A0B," + IntText(56))[1] == 'A';
    TextAtFields(PriorityLeftX, 165, "^A0N," + IntText(45), priority);
    TextAtFields(970, 250, "^A0B," + IntText(56), shipCd);
    assert FieldCount([]) == 0;
    FieldCountAppend(a, b);
    FieldCountAppend(a + b, c);
    FieldCountAppend(a + b + c, d);
  }

  function AddTexts(instrs: seq<string>, descr: string, note: string, priority: string, shipCd: string): (r: seq<string>)
    ensures r == instrs + TextsText(descr, note, priority, shipCd)
  {
    var a := TextBlock(LeftX, 64, 34, 1000, 67, descr);
    var b := TextBlock(LeftX, 140, 34, PriorityLeftX, 33, note);
    var c := if Blank(priority) then [] else TextAt(PriorityLeftX, 165, "^A0N," + IntText(45), priority);
    var d := if Blank(shipCd) then [] else TextAt(970, 250, "^A0B," + IntText(56), shipCd);
    var i1 := AddTextBlock(instrs, LeftX, 64, 34, 1000, 67, descr);
    var i2 := AddTextBlock(i1, LeftX, 140, 34, PriorityLeftX, 33, note);
    var i3 := AddText(i2, PriorityLeftX, 165, 45, priority);
    var r := Add270Text(i3, 970, 250, 56, shipCd);
    AppendNone(i2);
    AppendNone(i3);
    AppendFour(instrs, a, b, c, d);
    r
  }

  /** The six stacked detail blocks (size 28, 25 high, from x 38 to the
      barcode column, 35 dots apart from y 180): pattern, colour
      description, embroidery, hot stamp, perforation, production order.
      Each block is emitted even when its text is blank. */
  function DetailsText(m: CstMulti): seq<string> {
    TextBlock(LeftX, 180, 28, BarCodeX, 25, m.pattern)
      + TextBlock(LeftX, 215, 28, BarCodeX, 25, m.colorDescr)
      + TextBlock(LeftX, 250, 28, BarCodeX, 25, m.embStr)
      + TextBlock(LeftX, 285, 28, BarCodeX, 25, m.hsStr)
      + TextBlock(LeftX, 320, 28, BarCodeX, 25, m.perfStr)
      + TextBlock(LeftX, 355, 28, BarCodeX, 25, m.prdnOrder)
  }

  lemma DetailsShape(m: CstMulti)
    ensures |DetailsText(m)| == 30
    ensures FieldCount(DetailsText(m)) == 6
  {
    var a := TextBlock(LeftX, 180, 28, BarCodeX, 25, m.pattern);
    var b := TextBlock(LeftX, 215, 28, BarCodeX, 25, m.colorDescr);
    var c := TextBlock(LeftX, 250, 28, BarCodeX, 25, m.embStr);
    var d := TextBlock(LeftX, 285, 28, BarCodeX, 25, m.hsStr);
    var e := TextBlock(LeftX, 320, 28, BarCodeX, 25, m.perfStr);
    var f := TextBlock(LeftX, 355, 28, BarCodeX, 25, m.prdnOrder);
    TextBlockFields(LeftX, 180, 28, BarCodeX, 25, m.pattern);
    TextBlockFields(LeftX, 215, 28, BarCodeX, 25, m.colorDescr);
    TextBlockFields(LeftX, 250, 28, BarCodeX, 25, m.embStr);
    TextBlockFields(LeftX, 285, 28, BarCodeX, 25, m.hsStr);
    TextBlockFields(LeftX, 320, 28, BarCodeX, 25, m.perfStr);
    TextBlockFields(LeftX, 355, 28, BarCodeX, 25, m.prdnOrder);
    FieldCountAppend(a, b);
    FieldCountAppend(a + b, c);
    FieldCountAppend(a + b + c, d);
    FieldCountAppend(a + b + c + d, e);
    FieldCountAppend(a + b + c + d + e, f);
  }

  function AddDetails(instrs: seq<string>, m: CstMulti): (r: seq<string>)
    ensures r == instrs + DetailsText(m)
  {
    var i1 := AddTextBlock(instrs, LeftX, 180, 28, BarCodeX, 25, m.pattern);
    var i2 := AddTextBlock(i1, LeftX, 215, 28, BarCodeX, 25, m.colorDescr);
    var i3 := AddTextBlock(i2, LeftX, 250, 28, BarCodeX, 25, m.embStr);
    var i4 := AddTextBlock(i3, LeftX, 285, 28, BarCodeX, 25, m.hsStr);
    var i5 := AddTextBlock(i4, LeftX, 320, 28, BarCodeX, 25, m.perfStr);
    var r := AddTextBlock(i5, LeftX, 355, 28, BarCodeX, 25, m.prdnOrder);
    AppendSix(instrs,
      TextBlock(LeftX, 180, 28, BarCodeX, 25, m.pattern),
      TextBlock(LeftX, 215, 28, BarCodeX, 25, m.colorDescr),
      TextBlock(LeftX, 250, 28, BarCodeX, 25, m.embStr),
      TextBlock(LeftX, 285, 28, BarCodeX, 25, m.hsStr),
      TextBlock(LeftX, 320, 28, BarCodeX, 25, m.perfStr),
      TextBlock(LeftX, 355, 28, BarCodeX, 25, m.prdnOrder));
    r
  }

  /** The origin of the section grid: ten dots left of the label margin,
      430 dots down. */
  const GridX: int := LeftX - 10
  const GridY: int := 430

  /** What a label body shows, part by part: barcode, captions, texts,
      details, then the twelve sections showing serial number, part number,
      colour code and decoration code. */
  function LabelBody(m: CstMulti): seq<string> {
    BarcodeText(m.serialNo)
      + CaptionsText(m.serialNo, m.prodCd, m.colorCd)
      + TextsText(m.prodDescr, m.note, m.priority, m.shipCd)
      + DetailsText(m)
      + SectionsText(GridOrigins(GridX, GridY, 4), m.serialNo, m.prodCd, m.colorCd, m.decoStr)
  }

  /** The label body GetInstructions rebuilds from the label's fields (the
      list is reset first, so the body depends on the fields alone). */
  function Layout(m: CstMulti): (r: seq<string>)
    ensures r == LabelBody(m)
  {
    var i1 := AddBarcode([], m.serialNo);
    var i2 := AddCaptions(i1, m.serialNo, m.prodCd, m.colorCd);
    var i3 := AddTexts(i2, m.prodDescr, m.note, m.priority, m.shipCd);
    var i4 := AddDetails(i3, m);
    var r := GridSections(i4, GridX, GridY, m.serialNo, m.prodCd, m.colorCd, m.decoStr);
    PrependNone(BarcodeText(m.serialNo));
    r
  }

  /** The number of fields a label body prints. */
  function LayoutFields(m: CstMulti): nat {
    9 + 2 * (Ind(!Blank(m.serialNo)) + Ind(!Blank(m.prodCd)) + Ind(!Blank(m.colorCd)))
      + Ind(!Blank(m.priority)) + Ind(!Blank(m.shipCd))
      + 12 * SectionFields(m.serialNo, m.prodCd, m.colorCd, m.decoStr)
  }

  /** The number of instructions in a label body. */
  function LayoutLength(m: CstMulti): nat {
    48 + 8 * (Ind(!Blank(m.serialNo)) + Ind(!Blank(m.prodCd)) + Ind(!Blank(m.colorCd)))
      + 4 * (Ind(!Blank(m.priority)) + Ind(!Blank(m.shipCd)))
      + 12 * SectionLength(m.serialNo, m.prodCd, m.colorCd, m.decoStr)
  }

  /** The number of instructions in each part of a label body. */
  lemma LabelPartLengths(m: CstMulti)
    ensures |BarcodeText(m.serialNo)| == 8
    ensures |CaptionsText(m.serialNo, m.prodCd, m.colorCd)|
      == 8 * (Ind(!Blank(m.serialNo)) + Ind(!Blank(m.prodCd)) + Ind(!Blank(m.colorCd)))
    ensures |TextsText(m.prodDescr, m.note, m.priority, m.shipCd)|
      == 10 + 4 * (Ind(!Blank(m.priority)) + Ind(!Blank(m.shipCd)))
    ensures |DetailsText(m)| == 30
    ensures |SectionsText(GridOrigins(GridX, GridY, 4), m.serialNo, m.prodCd, m.colorCd, m.decoStr)|
      == 12 * SectionLength(m.serialNo, m.prodCd, m.colorCd, m.decoStr)
  {
    CaptionsShape(m.serialNo, m.prodCd, m.colorCd);
    TextsShape(m.prodDescr, m.note, m.priority, m.shipCd);
    DetailsShape(m);
    SectionsTextLength(GridOrigins(GridX, GridY, 4), m.serialNo, m.prodCd, m.colorCd, m.decoStr);
    TimesIsProduct(12, SectionLength(m.serialNo, m.prodCd, m.colorCd, m.decoStr));
  }

  /** A label body is as long as its shown parts make it. */
  lemma LabelBodyLength(m: CstMulti)
    ensures |LabelBody(m)| == LayoutLength(m)
  {
    LabelPartLengths(m);
  }

  /** Every label body starts with the barcode part. */
  lemma LabelBodyStart(m: CstMulti)
    ensures |LabelBody(m)| >= 8
    ensures LabelBody(m)[..8] == BarcodeText(m.serialNo)
  {
    var a := BarcodeText(m.serialNo);
    var b := CaptionsText(m.serialNo, m.prodCd, m.colorCd);
    var c := TextsText(m.prodDescr, m.note, m.priority, m.shipCd);
    var d := DetailsText(m);
    var e := SectionsText(GridOrigins(GridX, GridY, 4), m.serialNo, m.prodCd, m.colorCd, m.decoStr);
    AppendFour(a, b, c, d, e);
    PrefixOfAppend(a, b + c + d + e);
  }

  /** Five parts print the fields each prints. */
  lemma FieldCountParts(a: seq<string>, b: seq<string>, c: seq<string>, d: seq<string>, e: seq<string>,
                        na: nat, nb: nat, nc: nat, nd: nat, ne: nat)
    requires FieldCount(a) == na && FieldCount(b) == nb && FieldCount(c) == nc
    requires FieldCount(d) == nd && FieldCount(e) == ne
    ensures FieldCount(a + b + c + d + e) == na + nb + nc + nd + ne
  {
    FieldCountAppend(a, b);
    FieldCountAppend(a + b, c);
    FieldCountAppend(a + b + c, d);
    FieldCountAppend(a + b + c + d, e);
  }

  /** A label body prints the fields its five parts print. */
  lemma LabelBodyFieldParts(m: CstMulti)
    ensures FieldCount(LabelBody(m))
      == FieldCount(BarcodeText(m.serialNo))
       + FieldCount(CaptionsText(m.serialNo, m.prodCd, m.colorCd))
       + FieldCount(TextsText(m.prodDescr, m.note, m.priority, m.shipCd))
       + FieldCount(DetailsText(m))
       + FieldCount(SectionsText(GridOrigins(GridX, GridY, 4), m.serialNo, m.prodCd, m.colorCd, m.decoStr))
  {
    var a := BarcodeText(m.serialNo);
    var b := CaptionsText(m.serialNo, m.prodCd, m.colorCd);
    var c := TextsText(m.prodDescr, m.note, m.priority, m.shipCd);
    var d := DetailsText(m);
    var e := SectionsText(GridOrigins(GridX, GridY, 4), m.serialNo, m.prodCd, m.colorCd, m.decoStr);
    FieldCountParts(a, b, c, d, e, FieldCount(a), FieldCount(b), FieldCount(c), FieldCount(d), FieldCount(e));
  }

  /** The fields each part of a label body prints. */
  lemma LabelPartFields(m: CstMulti)
    ensures FieldCount(BarcodeText(m.serialNo)) == 1
    ensures FieldCount(CaptionsText(m.serialNo, m.prodCd, m.colorCd))
      == 2 * (Ind(!Blank(m.serialNo)) + Ind(!Blank(m.prodCd)) + Ind(!Blank(m.colorCd)))
    ensures FieldCount(TextsText(m.prodDescr, m.note, m.priority, m.shipCd))
      == 2 + Ind(!Blank(m.priority)) + Ind(!Blank(m.shipCd))
    ensures FieldCount(DetailsText(m)) == 6
    ensures FieldCount(SectionsText(GridOrigins(GridX, GridY, 4), m.serialNo, m.prodCd, m.colorCd, m.decoStr))
      == 12 * SectionFields(m.serialNo, m.prodCd, m.colorCd, m.decoStr)
  {
    BarcodeFields(m.serialNo);
    CaptionsShape(m.serialNo, m.prodCd, m.colorCd);
    TextsShape(m.prodDescr, m.note, m.priority, m.shipCd);
    DetailsShape(m);
    SectionsTextFields(GridOrigins(GridX, GridY, 4), m.serialNo, m.prodCd, m.colorCd, m.decoStr);
    TimesIsProduct(12, SectionFields(m.serialNo, m.prodCd, m.colorCd, m.decoStr));
  }

  /** A label body prints one field per shown text, block and barcode. */
  lemma LabelBodyFields(m: CstMulti)
    ensures FieldCount(LabelBody(m)) == LayoutFields(m)
  {
    LabelBodyFieldParts(m);
    LabelPartFields(m);
  }

  /** A bracketed label body: its length, its opening barcode part and its
      fields. */
  lemma BracketedLabel(m: CstMulti)
    ensures var r := Bracket(LabelBody(m));
      && |r| == LayoutLength(m) + 2
      && r[1..9] == BarcodeText(m.serialNo)
      && FieldCount(r) == LayoutFields(m)
  {
    var body := LabelBody(m);
    LabelBodyLength(m);
    LabelBodyStart(m);
    LabelBodyFields(m);
    var r := Bracket(body);
    SliceOfSlice(r, 1, |r| - 1, 8);
  }

  /** ZplCstMulti.Instructions: the layout, bracketed; it starts with the
      barcode part right after ^XA. */
  function GetInstructions(m: CstMulti): (r: seq<string>)
    ensures |r| == LayoutLength(m) + 2
    ensures r[0] == "^XA" && r[|r| - 1] == "^XZ"
    ensures r[1..|r| - 1] == LabelBody(m)
    ensures r[1..9] == BarcodeText(m.serialNo)
    ensures FieldCount(r) == LayoutFields(m)
  {
    var r := Bracket(Layout(m));
    BracketedLabel(m);
    r
  }

  /** No field of the record holds the character `c`. */
  predicate RecordLacks(p: MultiParam, c: char) {
    && c !in p.serialNo && c !in p.prodCd && c !in p.descr && c !in p.genNote
    && c !in p.priority && c !in p.pattern
    && c !in p.col1 && c !in p.colDescr1 && c !in p.col2 && c !in p.colDescr2
    && c !in p.col3 && c !in p.colDescr3
    && c !in p.emb && c !in p.embThrds && c !in p.embNote
    && c !in p.hs && c !in p.hsNote && c !in p.pi && c !in p.piNote
    && c !in p.prdnOrder && c !in p.shipCd
  }

  /** No field of the label holds the character `c`. */
  predicate FieldsLack(m: CstMulti, c: char) {
    && c !in m.serialNo && c !in m.prodCd && c !in m.prodDescr
    && c !in m.colorCd && c !in m.colorDescr && c !in m.decoStr
    && c !in m.priority && c !in m.note && c !in m.pattern
    && c !in m.embStr && c !in m.hsStr && c !in m.perfStr
    && c !in m.prdnOrder && c !in m.shipCd
  }

  /** The constructor adds no control character: the separators, tone tags
      and decoration letters it introduces are printable, and truncation only
      drops characters. */
  lemma FromParamLacks(p: MultiParam, c: char)
    requires c < ' ' && RecordLacks(p, c)
    ensures FieldsLack(FromParam(p), c)
  {
    ColorFieldsLack(p, c);
    DetailLinesLack(p, c);
  }

  /** The colour code and description hold no `c` when no colour field
      does. */
  lemma ColorFieldsLack(p: MultiParam, c: char)
    requires c < ' ' && RecordLacks(p, c)
    ensures c !in ColorFields(p).0 && c !in ColorFields(p).1
  {
    var w := ColorWidth / ToneCount(p);
    SafeSubLacks(p.colDescr1, w, c);
    SafeSubLacks(p.colDescr2, w, c);
    SafeSubLacks(p.colDescr3, w, c);
  }

  /** The decoration detail lines hold no `c` when no detail field does. */
  lemma DetailLinesLack(p: MultiParam, c: char)
    requires c < ' ' && RecordLacks(p, c)
    ensures c !in EmbDetails(p) && c !in HsDetails(p) && c !in PerfDetails(p)
  {
    JoinLacks(" ", [p.emb, p.embThrds, p.embNote], c);
    JoinLacks(" ", [p.hs, p.hsNote], c);
    JoinLacks(" ", [p.pi, p.piNote], c);
  }

  /** A section adds no control character beyond its values'. */
  lemma SectionTextLacks(x: int, y: int, cNo: string, pNo: string, color: string, deco: string, c: char)
    requires c < ' ' && c !in cNo && c !in pNo && c !in color && c !in deco
    ensures AllLack(SectionText(x, y, cNo, pNo, color, deco), c)
  {
    var serial := SectionSerial(cNo, deco);
    var part := SectionPart(pNo, color);
    var a := TextAt(x, y, SectFont(), "C#:");
    var b := if Blank(serial) then [] else TextAt(x + Col2Off, y, SectFont(), serial);
    var d := TextAt(x, y + Line2Off, SectFont(), "P#:");
    var e := if Blank(part) then [] else TextAt(x + Col2Off, y + Line2Off, SectFont(), part);
    IntTextLacks(SectSize, c);
    TextAtLacks(x, y, SectFont(), "C#:", c);
    TextAtLacks(x + Col2Off, y, SectFont(), serial, c);
    TextAtLacks(x, y + Line2Off, SectFont(), "P#:", c);
    TextAtLacks(x + Col2Off, y + Line2Off, SectFont(), part, c);
    AllLackAppend(a, b, c);
    AllLackAppend(a + b, d, c);
    AllLackAppend(a + b + d, e, c);
  }

  lemma {:induction false} SectionsTextLacks(origins: seq<(int, int)>, cNo: string, pNo: string, color: string, deco: string, c: char)
    requires c < ' ' && c !in cNo && c !in pNo && c !in color && c !in deco
    ensures AllLack(SectionsText(origins, cNo, pNo, color, deco), c)
    decreases |origins|
  {
    if |origins| > 0 {
      var init := origins[..|origins| - 1];
      var o := origins[|origins| - 1];
      SectionsTextLacks(init, cNo, pNo, color, deco, c);
      SectionTextLacks(o.0, o.1, cNo, pNo, color, deco, c);
      AllLackAppend(SectionsText(init, cNo, pNo, color, deco), SectionText(o.0, o.1, cNo, pNo, color, deco), c);
    }
  }

  /** The barcode part adds no control character beyond the serial
      number's. */
  lemma BarcodeLacks(serialNo: string, c: char)
    requires c < ' ' && c !in serialNo
    ensures AllLack(BarcodeText(serialNo), c)
  {
    var t := BarcodeText(serialNo);
    forall i | 0 <= i < |t| ensures c !in t[i] {
      if i == 6 {
        assert t[i] == "^FD" + serialNo;
      }
    }
  }

  /** The caption lines add no control character beyond their values'. */
  lemma CaptionsLack(serialNo: string, prodCd: string, colorCd: string, c: char)
    requires c < ' ' && c !in serialNo && c !in prodCd && c !in colorCd
    ensures AllLack(CaptionsText(serialNo, prodCd, colorCd), c)
  {
    var a := LblText(LeftX, 50, 45, "C#:", 105, serialNo);
    var b := LblText(350, 50, 45, "Part#:", 470, prodCd);
    var d := LblText(650, 50, 45, "Color:", 770, colorCd);
    LblTextLacks(LeftX, 50, 45, "C#:", 105, serialNo, c);
    LblTextLacks(350, 50, 45, "Part#:", 470, prodCd, c);
    LblTextLacks(650, 50, 45, "Color:", 770, colorCd, c);
    AllLackAppend(a, b, c);
    AllLackAppend(a + b, d, c);
  }

  /** The text blocks, priority and ship code add no control character
      beyond their texts'. */
  lemma TextsLack(descr: string, note: string, priority: string, shipCd: string, c: char)
    requires c < ' ' && c !in descr && c !in note && c !in priority && c !in shipCd
    ensures AllLack(TextsText(descr, note, priority, shipCd), c)
  {
    var a := TextBlock(LeftX, 64, 34, 1000, 67, descr);
    var b := TextBlock(LeftX, 140, 34, PriorityLeftX, 33, note);
    var d := if Blank(priority) then [] else TextAt(PriorityLeftX, 165, "^A0N," + IntText(45), priority);
    var e := if Blank(shipCd) then [] else TextAt(970, 250, "^A0B," + IntText(56), shipCd);
    TextBlockLacks(LeftX, 64, 34, 1000, 67, descr, c);
    TextBlockLacks(LeftX, 140, 34, PriorityLeftX, 33, note, c);
    IntTextLacks(45, c);
    IntTextLacks(56, c);
    TextAtLacks(PriorityLeftX, 165, "^A0N," + IntText(45), priority, c);
    TextAtLacks(970, 250, "^A0B," + IntText(56), shipCd, c);
    AllLackAppend(a, b, c);
    AllLackAppend(a + b, d, c);
    AllLackAppend(a + b + d, e, c);
  }

  /** The detail blocks add no control character beyond the label's
      fields. */
  lemma DetailsLack(m: CstMulti, c: char)
    requires c < ' ' && FieldsLack(m, c)
    ensures AllLack(DetailsText(m), c)
  {
    var a := TextBlock(LeftX, 180, 28, BarCodeX, 25, m.pattern);
    var b := TextBlock(LeftX, 215, 28, BarCodeX, 25, m.colorDescr);
    var d := TextBlock(LeftX, 250, 28, BarCodeX, 25, m.embStr);
    var e := TextBlock(LeftX, 285, 28, BarCodeX, 25, m.hsStr);
    var f := TextBlock(LeftX, 320, 28, BarCodeX, 25, m.perfStr);
    var g := TextBlock(LeftX, 355, 28, BarCodeX, 25, m.prdnOrder);
    TextBlockLacks(LeftX, 180, 28, BarCodeX, 25, m.pattern, c);
    TextBlockLacks(LeftX, 215, 28, BarCodeX, 25, m.colorDescr, c);
    TextBlockLacks(LeftX, 250, 28, BarCodeX, 25, m.embStr, c);
    TextBlockLacks(LeftX, 285, 28, BarCodeX, 25, m.hsStr, c);
    TextBlockLacks(LeftX, 320, 28, BarCodeX, 25, m.perfStr, c);
    TextBlockLacks(LeftX, 355, 28, BarCodeX, 25, m.prdnOrder, c);
    AllLackAppend(a, b, c);
    AllLackAppend(a + b, d, c);
    AllLackAppend(a + b + d, e, c);
    AllLackAppend(a + b + d + e, f, c);
    AllLackAppend(a + b + d + e + f, g, c);
  }

  /** Each part of a label body is free of `c` when the label's fields
      are. */
  lemma LabelPartsLack(m: CstMulti, c: char)
    requires c < ' ' && FieldsLack(m, c)
    ensures AllLack(BarcodeText(m.serialNo), c)
    ensures AllLack(CaptionsText(m.serialNo, m.prodCd, m.colorCd), c)
    ensures AllLack(TextsText(m.prodDescr, m.note, m.priority, m.shipCd), c)
    ensures AllLack(DetailsText(m), c)
    ensures AllLack(SectionsText(GridOrigins(GridX, GridY, 4), m.serialNo, m.prodCd, m.colorCd, m.decoStr), c)
  {
    BarcodeLacks(m.serialNo, c);
    CaptionsLack(m.serialNo, m.prodCd, m.colorCd, c);
    TextsLack(m.prodDescr, m.note, m.priority, m.shipCd, c);
    DetailsLack(m, c);
    SectionsTextLacks(GridOrigins(GridX, GridY, 4), m.serialNo, m.prodCd, m.colorCd, m.decoStr, c);
  }

  /** Five parts free of `c` make a list free of `c`. */
  lemma AllLackParts(a: seq<string>, b: seq<string>, d: seq<string>, e: seq<string>, f: seq<string>, c: char)
    requires AllLack(a, c) && AllLack(b, c) && AllLack(d, c) && AllLack(e, c) && AllLack(f, c)
    ensures AllLack(a + b + d + e + f, c)
  {
    AllLackAppend(a, b, c);
    AllLackAppend(a + b, d, c);
    AllLackAppend(a + b + d, e, c);
    AllLackAppend(a + b + d + e, f, c);
  }

  /** A label body adds no control character beyond the label's fields. */
  lemma LabelBodyLacks(m: CstMulti, c: char)
    requires c < ' ' && FieldsLack(m, c)
    ensures AllLack(LabelBody(m), c)
  {
    LabelPartsLack(m, c);
    AllLackParts(BarcodeText(m.serialNo),
      CaptionsText(m.serialNo, m.prodCd, m.colorCd),
      TextsText(m.prodDescr, m.note, m.priority, m.shipCd),
      DetailsText(m),
      SectionsText(GridOrigins(GridX, GridY, 4), m.serialNo, m.prodCd, m.colorCd, m.decoStr), c);
  }
}
