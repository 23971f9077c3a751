/** Bracketed documents: a label's instructions between the start-of-format
    (^XA) and end-of-format (^XZ) markers, and the two fixed documents sent
    before and after a batch of labels. */
module ZplBracketed {
  import opened ZplText
  import opened ZplLabel

  /** ZplBracketed.GetInstructions: ^XA, the body exactly as built, ^XZ. */
  function Bracket(body: seq<string>): (r: seq<string>)
    ensures |r| == |body| + 2
    ensures r[0] == "^XA" && r[|r| - 1] == "^XZ"
    ensures r[1..|r| - 1] == body
    ensures FieldCount(r) == FieldCount(body)
  {
    var r := AddXZ(AddXA([]) + body);
    assert r == ["^XA"] + body + ["^XZ"];
    assert FieldCount(["^XA"]) == 0 by { assert ["^XA"][..0] == []; }
    assert FieldCount(["^XZ"]) == 0 by { assert ["^XZ"][..0] == []; }
    FieldCountAppend(["^XA"], body);
    FieldCountAppend(["^XA"] + body, ["^XZ"]);
    assert r[1..|r| - 1] == body;
    r
  }

  /** Setup, first part: media tracking, print width, label home position,
      print rate and label top. */
  function SetupGeometry(instrs: seq<string>): (r: seq<string>)
    ensures r == instrs + [ "^MNY", "^PW1015", "^LH0,0", "^PR5,5", "^LT0" ]
  {
    var i0 := AddFrmt(instrs, "MN", [Str("Y")]);
    assert i0 == instrs + ["^MNY"] by {
      FrmtOne(instrs, "MN", Str("Y"));
      assert [FrmtPrefix] + "MN" + "Y" == "^MNY";
    }
    var i1 := AddFrmt(i0, "PW", [Int(1015)]);
    assert i1 == i0 + ["^PW1015"] by {
      FrmtOne(i0, "PW", Int(1015));
      assert ParamText(Int(1015)) == "1015";
      assert [FrmtPrefix] + "PW" + "1015" == "^PW1015";
    }
    var i2 := AddFrmt(i1, "LH", [Int(0), Int(0)]);
    assert i2 == i1 + ["^LH0,0"] by {
      FrmtTwo(i1, "LH", Int(0), Int(0));
      assert ParamText(Int(0)) == "0";
      assert [FrmtPrefix] + "LH" + "0" + "," + "0" == "^LH0,0";
    }
    var i3 := AddFrmt(i2, "PR", [Int(5), Int(5)]);
    assert i3 == i2 + ["^PR5,5"] by {
      FrmtTwo(i2, "PR", Int(5), Int(5));
      assert ParamText(Int(5)) == "5";
      assert [FrmtPrefix] + "PR" + "5" + "," + "5" == "^PR5,5";
    }
    var i4 := AddFrmt(i3, "LT", [Int(0)]);
    assert i4 == i3 + ["^LT0"] by {
      FrmtOne(i3, "LT", Int(0));
      assert ParamText(Int(0)) == "0";
      assert [FrmtPrefix] + "LT" + "0" == "^LT0";
    }
    i4
  }

  /** Setup, second part: tear-off adjust position, print mode, thermal
      media, sensor select and print orientation. */
  function SetupMedia(instrs: seq<string>): (r: seq<string>)
    ensures r == instrs + [ "~TA000", "^MMT", "^MTT", "~JSN", "^PON" ]
  {
    var i0 := AddCtrl(instrs, "TA", [Str("000")]);
    assert i0 == instrs + ["~TA000"] by {
      CtrlOne(instrs, "TA", Str("000"));
      assert [CtrlPrefix] + "TA" + "000" == "~TA000";
    }
    var i1 := AddFrmt(i0, "MM", [Str("T")]);
    assert i1 == i0 + ["^MMT"] by {
      FrmtOne(i0, "MM", Str("T"));
      assert [FrmtPrefix] + "MM" + "T" == "^MMT";
    }
    var i2 := AddFrmt(i1, "MT", [Str("T")]);
    assert i2 == i1 + ["^MTT"] by {
      FrmtOne(i1, "MT", Str("T"));
      assert [FrmtPrefix] + "MT" + "T" == "^MTT";
    }
    var i3 := AddCtrl(i2, "JS", [Str("N")]);
    assert i3 == i2 + ["~JSN"] by {
      CtrlOne(i2, "JS", Str("N"));
      assert [CtrlPrefix] + "JS" + "N" == "~JSN";
    }
    var i4 := AddFrmt(i3, "PO", [Str("N")]);
    assert i4 == i3 + ["^PON"] by {
      FrmtOne(i3, "PO", Str("N"));
      assert [FrmtPrefix] + "PO" + "N" == "^PON";
    }
    i4
  }

  /** Setup, last part: mirror image off, dots per millimetre, label reverse
      print off and the international font. */
  function SetupRendering(instrs: seq<string>): (r: seq<string>)
    ensures r == instrs + [ "^PMN", "^JMA", "^LRN", "^CI0" ]
  {
    var i0 := AddFrmt(instrs, "PM", [Str("N")]);
    assert i0 == instrs + ["^PMN"] by {
      FrmtOne(instrs, "PM", Str("N"));
      assert [FrmtPrefix] + "PM" + "N" == "^PMN";
    }
    var i1 := AddFrmt(i0, "JM", [Str("A")]);
    assert i1 == i0 + ["^JMA"] by {
      FrmtOne(i0, "JM", Str("A"));
      assert [FrmtPrefix] + "JM" + "A" == "^JMA";
    }
    var i2 := AddFrmt(i1, "LR", [Str("N")]);
    assert i2 == i1 + ["^LRN"] by {
      FrmtOne(i1, "LR", Str("N"));
      assert [FrmtPrefix] + "LR" + "N" == "^LRN";
    }
    var i3 := AddFrmt(i2, "CI", [Int(0)]);
    assert i3 == i2 + ["^CI0"] by {
      FrmtOne(i2, "CI", Int(0));
      assert ParamText(Int(0)) == "0";
      assert [FrmtPrefix] + "CI" + "0" == "^CI0";
    }
    i3
  }
  /** The ZplSetup constructor's body: the fourteen configuration commands
      in the constructor's order, verbatim. */
  function SetupBody(): (r: seq<string>)
    ensures r == [ "^MNY", "^PW1015", "^LH0,0", "^PR5,5", "^LT0", "~TA000", "^MMT",
                   "^MTT", "~JSN", "^PON", "^PMN", "^JMA", "^LRN", "^CI0" ]
  {
    SetupRendering(SetupMedia(SetupGeometry([])))
  }

  /** The ZplClear constructor's body: media clear, then reverse print off. */
  function ClearBody(): (r: seq<string>)
    ensures r == [ "^MCY", "^LRN" ]
  {
    var i0 := AddFrmt([], "MC", [Str("Y")]);
    assert i0 == ["^MCY"] by {
      FrmtOne([], "MC", Str("Y"));
      assert [FrmtPrefix] + "MC" + "Y" == "^MCY";
    }
    var i1 := AddFrmt(i0, "LR", [Str("N")]);
    assert i1 == i0 + ["^LRN"] by {
      FrmtOne(i0, "LR", Str("N"));
      assert [FrmtPrefix] + "LR" + "N" == "^LRN";
    }
    i1
  }

  /** Setup.Instructions: the fourteen setup commands, bracketed. */
  function SetupInstructions(): (r: seq<string>)
    ensures |r| == 16
    ensures r[0] == "^XA" && r[15] == "^XZ" && r[1..15] == SetupBody()
  {
    Bracket(SetupBody())
  }

  /** Clear.Instructions: the two clearing commands, bracketed. */
  function ClearInstructions(): (r: seq<string>)
    ensures r == [ "^XA", "^MCY", "^LRN", "^XZ" ]
  {
    Bracket(ClearBody())
  }
}
