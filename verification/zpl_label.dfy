/** The ZPL II command builder. A builder's instruction list is append-only;
    each helper is modelled as a pure function from the list before the call
    to the list after it. Format commands start with '^', control commands
    with '~'; the mnemonic follows the prefix directly and the parameters are
    joined with commas, a null parameter leaving an empty segment. */
module ZplLabel {
  import opened ZplText

  const FrmtPrefix: char := '^'
  const CtrlPrefix: char := '~'

  /** The field terminator: one per printed field. */
  const FS: string := "^FS"

  /** An element of the `params object[]` a command is given. */
  datatype Param = Int(i: int) | Str(s: string) | Null

  /** How Object.ToString renders a parameter inside String.Join. */
  function ParamText(p: Param): string
  {
    match p
    case Int(i) => IntText(i)
    case Str(s) => s
    case Null => ""
  }

  function Texts(parms: seq<Param>): (ts: seq<string>)
    ensures |ts| == |parms|
    ensures forall i :: 0 <= i < |parms| ==> ts[i] == ParamText(parms[i])
  {
    seq(|parms|, i requires 0 <= i < |parms| => ParamText(parms[i]))
  }

  function Command(prefix: char, instr: string, parms: seq<Param>): string
  {
    [prefix] + instr + Join(",", Texts(parms))
  }

  /** The number of fields the instructions print. */
  function FieldCount(instrs: seq<string>): nat
  {
    if |instrs| == 0 then 0
    else FieldCount(instrs[..|instrs| - 1]) + (if instrs[|instrs| - 1] == FS then 1 else 0)
  }

  lemma {:induction false} FieldCountAppend(a: seq<string>, b: seq<string>)
    ensures FieldCount(a + b) == FieldCount(a) + FieldCount(b)
    decreases |b|
  {
    if |b| == 0 {
      assert a + b == a;
    } else {
      assert (a + b)[..|a + b| - 1] == a + b[..|b| - 1];
      FieldCountAppend(a, b[..|b| - 1]);
    }
  }

  function Ind(b: bool): nat { if b then 1 else 0 }

  lemma FieldCountSnoc(a: seq<string>, x: string)
    ensures FieldCount(a + [x]) == FieldCount(a) + Ind(x == FS)
  {
    assert (a + [x])[..|a|] == a;
  }

  /** Instructions none of which is a field terminator print no field. */
  lemma {:induction false} FieldCountNone(s: seq<string>)
    requires forall i :: 0 <= i < |s| ==> s[i] != FS
    ensures FieldCount(s) == 0
    decreases |s|
  {
    if |s| > 0 {
      FieldCountNone(s[..|s| - 1]);
    }
  }

  /** Four pieces print the fields each prints. */
  lemma FieldCountFour(a: seq<string>, b: seq<string>, c: seq<string>, d: seq<string>)
    ensures FieldCount(a + b + c + d) == FieldCount(a) + FieldCount(b) + FieldCount(c) + FieldCount(d)
  {
    FieldCountAppend(a, b);
    FieldCountAppend(a + b, c);
    FieldCountAppend(a + b + c, d);
  }

  lemma FieldCountFive(a: string, b: string, c: string, d: string, e: string)
    ensures FieldCount([a, b, c, d]) == Ind(a == FS) + Ind(b == FS) + Ind(c == FS) + Ind(d == FS)
    ensures FieldCount([a, b, c, d, e]) == FieldCount([a, b, c, d]) + Ind(e == FS)
  {
    assert [a, b, c, d, e][..4] == [a, b, c, d];
    assert [a, b, c, d][..3] == [a, b, c];
    assert [a, b, c][..2] == [a, b];
    assert [a, b][..1] == [a];
    assert [a][..0] == [];
    assert FieldCount([a]) == Ind(a == FS);
    assert FieldCount([a, b]) == Ind(a == FS) + Ind(b == FS);
    assert FieldCount([a, b, c]) == Ind(a == FS) + Ind(b == FS) + Ind(c == FS);
  }

  /** Reading a command back: a two-letter mnemonic followed by its
      parameters recovers the prefix, the mnemonic and every parameter's text
      (a null parameter as an empty segment), as long as no parameter text
      holds a comma. */
  lemma CommandRoundTrip(prefix: char, instr: string, parms: seq<Param>)
    requires |instr| == 2 && |parms| >= 1
    requires forall i :: 0 <= i < |parms| ==> ',' !in ParamText(parms[i])
    ensures var c := Command(prefix, instr, parms);
      && c[0] == prefix
      && c[1..3] == instr
      && Split(c[3..], ',') == Texts(parms)
  {
    var c := Command(prefix, instr, parms);
    assert c[3..] == Join([','], Texts(parms));
    SplitJoin(Texts(parms), ',');
  }

  /** AddCtrl: appends exactly one control command and changes nothing
      already in the list. */
  function AddCtrl(instrs: seq<string>, instr: string, parms: seq<Param>): (r: seq<string>)
    ensures r == instrs + [[CtrlPrefix] + instr + Join(",", Texts(parms))]
    ensures |parms| == 0 ==> r == instrs + [[CtrlPrefix] + instr]
  {
    var c := Command(CtrlPrefix, instr, parms);
    assert |parms| == 0 ==> c == [CtrlPrefix] + instr;
    instrs + [c]
  }

  /** AddFrmt: appends exactly one format command and changes nothing
      already in the list. */
  function AddFrmt(instrs: seq<string>, instr: string, parms: seq<Param>): (r: seq<string>)
    ensures r == instrs + [[FrmtPrefix] + instr + Join(",", Texts(parms))]
    ensures |parms| == 0 ==> r == instrs + [[FrmtPrefix] + instr]
  {
    var c := Command(FrmtPrefix, instr, parms);
    assert |parms| == 0 ==> c == [FrmtPrefix] + instr;
    instrs + [c]
  }

  /** AddFrmt with one parameter: no comma at all. */
  lemma FrmtOne(instrs: seq<string>, instr: string, a: Param)
    ensures AddFrmt(instrs, instr, [a]) == instrs + [[FrmtPrefix] + instr + ParamText(a)]
  {
    assert Texts([a]) == [ParamText(a)];
  }

  /** AddCtrl with one parameter: no comma at all. */
  lemma CtrlOne(instrs: seq<string>, instr: string, a: Param)
    ensures AddCtrl(instrs, instr, [a]) == instrs + [[CtrlPrefix] + instr + ParamText(a)]
  {
    assert Texts([a]) == [ParamText(a)];
  }

  /** AddFrmt with two parameters: one comma between them. */
  lemma FrmtTwo(instrs: seq<string>, instr: string, a: Param, b: Param)
    ensures AddFrmt(instrs, instr, [a, b]) == instrs + [[FrmtPrefix] + instr + ParamText(a) + "," + ParamText(b)]
  {
    var ts := Texts([a, b]);
    assert ts == [ParamText(a), ParamText(b)];
    assert ts[..1] == [ParamText(a)];
    assert Join(",", ts) == ParamText(a) + "," + ParamText(b);
    assert [FrmtPrefix] + instr + Join(",", ts) == [FrmtPrefix] + instr + ParamText(a) + "," + ParamText(b);
  }

  /** AddFrmt with three parameters. */
  lemma FrmtThree(instrs: seq<string>, instr: string, a: Param, b: Param, c: Param)
    ensures AddFrmt(instrs, instr, [a, b, c])
      == instrs + [[FrmtPrefix] + instr + ParamText(a) + "," + ParamText(b) + "," + ParamText(c)]
  {
    var ts := Texts([a, b, c]);
    assert ts == [ParamText(a), ParamText(b), ParamText(c)];
    assert ts[..2] == [ParamText(a), ParamText(b)];
    assert ts[..2][..1] == [ParamText(a)];
    assert Join(",", ts[..2]) == ParamText(a) + "," + ParamText(b);
    assert Join(",", ts) == ParamText(a) + "," + ParamText(b) + "," + ParamText(c);
    assert [FrmtPrefix] + instr + Join(",", ts)
      == [FrmtPrefix] + instr + ParamText(a) + "," + ParamText(b) + "," + ParamText(c);
  }

  function AddXA(instrs: seq<string>): (r: seq<string>)
    ensures r == instrs + ["^XA"]
  {
    assert [FrmtPrefix] + "XA" == "^XA";
    AddFrmt(instrs, "XA", [])
  }

  function AddXZ(instrs: seq<string>): (r: seq<string>)
    ensures r == instrs + ["^XZ"]
  {
    assert [FrmtPrefix] + "XZ" == "^XZ";
    AddFrmt(instrs, "XZ", [])
  }

  /** ^FT: field typeset position. */
  function FtCommand(x: int, y: int): string
  {
    "^FT" + IntText(x) + "," + IntText(y)
  }

  function AddFT(instrs: seq<string>, x: int, y: int): (r: seq<string>)
    ensures r == instrs + [FtCommand(x, y)]
  {
    FrmtTwo(instrs, "FT", Int(x), Int(y));
    assert [FrmtPrefix] + "FT" == "^FT";
    AddFrmt(instrs, "FT", [Int(x), Int(y)])
  }

  function AddFS(instrs: seq<string>): (r: seq<string>)
    ensures r == instrs + [FS]
  {
    assert [FrmtPrefix] + "FS" == FS;
    AddFrmt(instrs, "FS", [])
  }

  function AddA0N(instrs: seq<string>, size: int): (r: seq<string>)
    ensures r == instrs + ["^A0N," + IntText(size)]
  {
    FrmtTwo(instrs, "A0", Str("N"), Int(size));
    assert [FrmtPrefix] + "A0" + "N" + "," == "^A0N,";
    AddFrmt(instrs, "A0", [Str("N"), Int(size)])
  }

  function AddA0B(instrs: seq<string>, size: int): (r: seq<string>)
    ensures r == instrs + ["^A0B," + IntText(size)]
  {
    FrmtTwo(instrs, "A0", Str("B"), Int(size));
    assert [FrmtPrefix] + "A0" + "B" + "," == "^A0B,";
    AddFrmt(instrs, "A0", [Str("B"), Int(size)])
  }

  function AddFD(instrs: seq<string>, text: string): (r: seq<string>)
    ensures r == instrs + ["^FD" + text]
  {
    FrmtOne(instrs, "FD", Str(text));
    assert [FrmtPrefix] + "FD" == "^FD";
    AddFrmt(instrs, "FD", [Str(text)])
  }

  /** A field: its data, then the terminator. */
  function AddField(instrs: seq<string>, text: string): (r: seq<string>)
    ensures r == instrs + ["^FD" + text, FS]
  {
    AddFS(AddFD(instrs, text))
  }

  /** The four commands of one positioned single-line text: position, font,
      data, terminator. */
  function TextAt(x: int, y: int, font: string, text: string): seq<string>
  {
    [FtCommand(x, y), font, "^FD" + text, FS]
  }

  /** A positioned text prints exactly one field. */
  lemma TextAtFields(x: int, y: int, font: string, text: string)
    requires |font| > 1 && font[1] == 'A'
    ensures FieldCount(TextAt(x, y, font, text)) == 1
  {
    var t := TextAt(x, y, font, text);
    assert FtCommand(x, y)[2] == 'T';
    assert ("^FD" + text)[2] == 'D';
    assert font != FS;
    FieldCountFive(FtCommand(x, y), font, "^FD" + text, FS, FS);
  }

  /** A positioned text adds no control character beyond its font's and
      its text's. */
  lemma TextAtLacks(x: int, y: int, font: string, text: string, c: char)
    requires c < ' ' && c !in font && c !in text
    ensures AllLack(TextAt(x, y, font, text), c)
  {
    IntTextLacks(x, c);
    IntTextLacks(y, c);
  }

  /** AddText: nothing for blank text, otherwise position, upright font
      0 of the given height, and the field. */
  function AddText(instrs: seq<string>, x: int, y: int, size: int, text: string): (r: seq<string>)
    ensures Blank(text) ==> r == instrs
    ensures !Blank(text) ==> r == instrs + TextAt(x, y, "^A0N," + IntText(size), text)
    ensures FieldCount(r) == FieldCount(instrs) + (if Blank(text) then 0 else 1)
  {
    if Blank(text) then instrs
    else
      var t := TextAt(x, y, "^A0N," + IntText(size), text);
      TextAtFields(x, y, "^A0N," + IntText(size), text);
      var i1 := AddFT(instrs, x, y);
      var i2 := AddA0N(i1, size);
      var r := AddField(i2, text);
      assert r == instrs + t;
      FieldCountAppend(instrs, t);
      r
  }

  /** Add270Text: as AddText, with the font rotated 270 degrees. */
  function Add270Text(instrs: seq<string>, x: int, y: int, size: int, text: string): (r: seq<string>)
    ensures Blank(text) ==> r == instrs
    ensures !Blank(text) ==> r == instrs + TextAt(x, y, "^A0B," + IntText(size), text)
    ensures FieldCount(r) == FieldCount(instrs) + (if Blank(text) then 0 else 1)
  {
    if Blank(text) then instrs
    else
      var t := TextAt(x, y, "^A0B," + IntText(size), text);
      TextAtFields(x, y, "^A0B," + IntText(size), text);
      var i1 := AddFT(instrs, x, y);
      var i2 := AddA0B(i1, size);
      var r := AddField(i2, text);
      assert r == instrs + t;
      FieldCountAppend(instrs, t);
      r
  }

  /** A caption and its value on one line, both in upright font 0 of the
      given height: nothing at all when the value is blank, and only the
      value when the caption is blank. */
  function LblText(lblX: int, y: int, size: int, lbl: string, txtX: int, text: string): seq<string>
  {
    if Blank(text) then []
    else
      var font := "^A0N," + IntText(size);
      (if Blank(lbl) then [] else TextAt(lblX, y, font, lbl)) + TextAt(txtX, y, font, text)
  }

  /** A captioned line is four commands per shown text, one field each. */
  lemma LblTextShape(lblX: int, y: int, size: int, lbl: string, txtX: int, text: string)
    ensures var t := LblText(lblX, y, size, lbl, txtX, text);
      && |t| == (if Blank(text) then 0 else if Blank(lbl) then 4 else 8)
      && FieldCount(t) == (if Blank(text) then 0 else if Blank(lbl) then 1 else 2)
  {
    var font := "^A0N," + IntText(size);
    if !Blank(text) {
      var a: seq<string> := if Blank(lbl) then [] else TextAt(lblX, y, font, lbl);
      var b := TextAt(txtX, y, font, text);
      assert font[1] == 'A';
      TextAtFields(lblX, y, font, lbl);
      TextAtFields(txtX, y, font, text);
      assert FieldCount([]) == 0;
      FieldCountAppend(a, b);
    } else {
      assert FieldCount([]) == 0;
    }
  }

  /** A captioned line adds no control character beyond its caption's and
      its value's. */
  lemma LblTextLacks(lblX: int, y: int, size: int, lbl: string, txtX: int, text: string, c: char)
    requires c < ' ' && c !in lbl && c !in text
    ensures AllLack(LblText(lblX, y, size, lbl, txtX, text), c)
  {
    var font := "^A0N," + IntText(size);
    IntTextLacks(size, c);
    if !Blank(text) {
      var a: seq<string> := if Blank(lbl) then [] else TextAt(lblX, y, font, lbl);
      TextAtLacks(lblX, y, font, lbl, c);
      TextAtLacks(txtX, y, font, text, c);
      AllLackAppend(a, TextAt(txtX, y, font, text), c);
    }
  }

  /** AddLblText: appends the captioned line and nothing else. */
  function AddLblText(instrs: seq<string>, lblX: int, y: int, size: int, lbl: string, txtX: int, text: string): (r: seq<string>)
    ensures r == instrs + LblText(lblX, y, size, lbl, txtX, text)
    ensures FieldCount(r) == FieldCount(instrs)
      + (if Blank(text) then 0 else if Blank(lbl) then 1 else 2)
  {
    if Blank(text) then
      AppendNone(instrs);
      instrs
    else
      var font := "^A0N," + IntText(size);
      var i1 := AddText(instrs, lblX, y, size, lbl);
      var r := AddText(i1, txtX, y, size, text);
      var a: seq<string> := if Blank(lbl) then [] else TextAt(lblX, y, font, lbl);
      AppendNone(instrs);
      AppendTwo(instrs, a, TextAt(txtX, y, font, text));
      r
  }

  /** The five commands of a wrapped text block: default font, origin, text
      box of the given width and height, data, terminator. */
  function TextBlock(origX: int, origY: int, size: int, rightX: int, height: int, text: string): seq<string>
  {
    [ "^CF0," + IntText(size),
      "^FO" + IntText(origX) + "," + IntText(origY),
      "^TBN," + IntText(rightX - origX) + "," + IntText(height),
      "^FD" + text,
      FS ]
  }

  /** A text block prints exactly one field. */
  lemma TextBlockFields(origX: int, origY: int, size: int, rightX: int, height: int, text: string)
    ensures FieldCount(TextBlock(origX, origY, size, rightX, height, text)) == 1
  {
    var b := TextBlock(origX, origY, size, rightX, height, text);
    assert b[0][1] == 'C' && b[1][2] == 'O' && b[2][1] == 'T' && b[3][2] == 'D';
    FieldCountFive(b[0], b[1], b[2], b[3], b[4]);
  }

  /** A text block adds no control character beyond its text's. */
  lemma TextBlockLacks(origX: int, origY: int, size: int, rightX: int, height: int, text: string, c: char)
    requires c < ' ' && c !in text
    ensures AllLack(TextBlock(origX, origY, size, rightX, height, text), c)
  {
    IntTextLacks(size, c);
    IntTextLacks(origX, c);
    IntTextLacks(origY, c);
    IntTextLacks(rightX - origX, c);
    IntTextLacks(height, c);
  }

  /** AddTextBlock: always five commands and one field, blank text included. */
  function AddTextBlock(instrs: seq<string>, origX: int, origY: int, size: int, rightX: int, height: int, text: string): (r: seq<string>)
    ensures r == instrs + TextBlock(origX, origY, size, rightX, height, text)
    ensures FieldCount(r) == FieldCount(instrs) + 1
  {
    FrmtTwo(instrs, "CF", Int(0), Int(size));
    var i1 := AddFrmt(instrs, "CF", [Int(0), Int(size)]);
    FrmtTwo(i1, "FO", Int(origX), Int(origY));
    var i2 := AddFrmt(i1, "FO", [Int(origX), Int(origY)]);
    FrmtThree(i2, "TB", Str("N"), Int(rightX - origX), Int(height));
    var i3 := AddFrmt(i2, "TB", [Str("N"), Int(rightX - origX), Int(height)]);
    assert IntText(0) == "0";
    assert [FrmtPrefix] + "CF" + "0" + "," == "^CF0,";
    assert [FrmtPrefix] + "FO" == "^FO";
    assert [FrmtPrefix] + "TB" + "N" + "," == "^TBN,";
    var b := TextBlock(origX, origY, size, rightX, height, text);
    TextBlockFields(origX, origY, size, rightX, height, text);
    var r := AddField(i3, text);
    assert r == instrs + b;
    FieldCountAppend(instrs, b);
    r
  }

  /** The base ZplLabel.Instructions: the list exactly as the helpers built
      it, nothing framed, added, dropped or reordered. */
  function Instructions(instrs: seq<string>): (r: seq<string>)
    ensures r == instrs
  {
    instrs
  }
}
