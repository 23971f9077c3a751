# ZPL label rendering, modelled in Dafny

This project models the label-rendering core of `ZebraUtils/ZplLabel.cs`. That code turns production label records into ZPL II, the command language of Zebra label printers.

- **Command builder (`ZplLabel`).** Each helper appends commands to an append-only instruction list. A command is:
  - a format prefix `^` or control prefix `~`;
  - a two-letter mnemonic;
  - the parameters joined with commas.

  The composite helpers append fixed runs of commands: a positioned text, a captioned text, a wrapped text block.
- **Bracketed documents (`ZplBracketed`, `ZplSetup`, `ZplClear`).** The body is framed by `^XA` and `^XZ`. The setup and clearing documents have fixed bodies.
- **The multi-colour layout (`ZplCstMulti`).** The constructor derives the label's fields from a `ZplMultiParam` record:
  - the colour code and colour description for one, two or three tones;
  - the decoration code (letters `E`, `H`, `P`) and the decoration lines.

  `GetInstructions` then lays out, from those fields alone:
  - a Code 39 barcode;
  - captioned values;
  - text blocks;
  - a 4 x 3 grid of sections.
- **The print job (`ZplPrinterHelper.GetLabelMultiZpl`).** The job is the setup document, one document per record, and the clearing document. Each document's instructions are written back to back, and the documents are separated by the platform newline.

Every builder helper is a pure function from the instruction list before the call to the list after it. The label classes become immutable datatypes, and each virtual `GetInstructions` override is its own function:

| Override | Function |
|---|---|
| `ZplLabel.Instructions` | `ZplLabel.Instructions` |
| `ZplBracketed` | `ZplBracketed.Bracket` |
| `ZplCstMulti` | `ZplCstMulti.GetInstructions` |

A C# `null` string is represented by `""`. Every place the code uses a string treats null and empty alike: string `+`, `String.Join`, `String.IsNullOrWhiteSpace`, and the `^FD` parameter.

`ZplCstMulti.GetInstructions` resets the list before it builds (line 294). The label's instructions therefore depend on its fields alone, and reading them twice gives the same list. The model's `GetInstructions` is a function of the label's fields, which captures exactly this.

Text blocks are not skipped when their text is blank. `AddTextBlock` (lines 87-93) has no blank check, so every text block always contributes its five commands, including an empty `^FD` field.

Modules, one file each:

| Module | File | Contents |
|---|---|---|
| `ZplText` | `zpl_text.dfy` | whitespace, `String.Join`, split, integer rendering, `SafeSub` |
| `ZplLabel` | `zpl_label.dfy` | the builder |
| `ZplBracketed` | `zpl_bracketed.dfy` | bracketing, setup, clear |
| `ZplCstMulti` | `zpl_cst_multi.dfy` | the record, the derivation, the layout |
| `ZplPrinterHelper` | `zpl_printer_helper.dfy` | the print job |

## Model

| member | source | states |
|---|---|---|
| ZplLabel.AddCtrl | ZebraUtils/ZplLabel.cs:18-22 | appends exactly one string, `~` + mnemonic + the parameters' texts joined by commas, with no separator after the mnemonic; no parameters gives just `~` + mnemonic; the existing list is kept as a prefix |
| ZplLabel.AddFrmt | ZebraUtils/ZplLabel.cs:23-27 | the same for format commands with prefix `^` |
| ZplLabel.CommandRoundTrip | ZebraUtils/ZplLabel.cs:18-27 | a command can be read back: its first character is the prefix, the next two the mnemonic, and the rest splits on commas into exactly the parameters' texts, a null parameter giving an empty segment (the .NET Core reading; see Left out), provided no parameter text holds a comma |
| ZplLabel.AddXA | ZebraUtils/ZplLabel.cs:28-31 | appends exactly `^XA` |
| ZplLabel.AddXZ | ZebraUtils/ZplLabel.cs:32-35 | appends exactly `^XZ` |
| ZplLabel.AddFT | ZebraUtils/ZplLabel.cs:36-39 | appends exactly `^FT` x `,` y |
| ZplLabel.AddFS | ZebraUtils/ZplLabel.cs:40-43 | appends exactly the field terminator `^FS` |
| ZplLabel.AddA0N | ZebraUtils/ZplLabel.cs:44-47 | appends exactly `^A0N,` size (upright font 0) |
| ZplLabel.AddA0B | ZebraUtils/ZplLabel.cs:48-51 | appends exactly `^A0B,` size (font 0 turned 270 degrees) |
| ZplLabel.AddFD | ZebraUtils/ZplLabel.cs:52-55 | appends exactly `^FD` followed by the text |
| ZplLabel.AddField | ZebraUtils/ZplLabel.cs:56-60 | appends the field data and then the terminator, two commands |
| ZplLabel.AddText | ZebraUtils/ZplLabel.cs:61-69 | leaves the list unchanged when the text is null or whitespace; otherwise appends exactly `^FTx,y`, `^A0N,size`, `^FD`text, `^FS` in that order; the number of printed fields grows by one exactly when the text is not blank |
| ZplLabel.Add270Text | ZebraUtils/ZplLabel.cs:70-78 | the same with the rotated font `^A0B,size` |
| ZplLabel.AddLblText | ZebraUtils/ZplLabel.cs:79-86 | appends nothing when the value text is blank; otherwise appends the caption's four commands (unless the caption is blank) and then the value's four; the field count grows by 0, 1 or 2 accordingly |
| ZplLabel.LblTextShape | ZebraUtils/ZplLabel.cs:79-86 | a captioned line is 0, 4 or 8 commands and prints 0, 1 or 2 fields, determined by which of value and caption are blank |
| ZplLabel.AddTextBlock | ZebraUtils/ZplLabel.cs:87-93 | always appends exactly five commands, `^CF0,size`, `^FOx,y`, `^TBN,(rightX-origX),height`, `^FD`text, `^FS`, and exactly one field, even for blank text |
| ZplLabel.TextBlockFields | ZebraUtils/ZplLabel.cs:87-93 | a text block prints exactly one field |
| ZplLabel.TextAtFields | ZebraUtils/ZplLabel.cs:61-69 | a positioned text (position, font, data, terminator) prints exactly one field |
| ZplLabel.Instructions | ZebraUtils/ZplLabel.cs:95-106 | the base accessor returns the instruction list exactly as the helpers built it, nothing framed, added, dropped or reordered |
| ZplBracketed.Bracket | ZebraUtils/ZplLabel.cs:111-118 | the instructions are `^XA`, then the body unmodified, then `^XZ`: two longer than the body, printing the same fields |
| ZplBracketed.SetupBody | ZebraUtils/ZplLabel.cs:123-140 | the setup constructor builds exactly the fourteen commands `^MNY ^PW1015 ^LH0,0 ^PR5,5 ^LT0 ~TA000 ^MMT ^MTT ~JSN ^PON ^PMN ^JMA ^LRN ^CI0`, in that order |
| ZplBracketed.ClearBody | ZebraUtils/ZplLabel.cs:145-149 | the clearing constructor builds exactly `^MCY ^LRN` |
| ZplBracketed.SetupInstructions | ZebraUtils/ZplLabel.cs:111-140 | the setup document is 14 + 2 = 16 instructions: `^XA`, the setup body, `^XZ` |
| ZplBracketed.ClearInstructions | ZebraUtils/ZplLabel.cs:111-118 | the clearing document is the 2 + 2 instructions `^XA ^MCY ^LRN ^XZ` |
| ZplCstMulti.ColorFields | ZebraUtils/ZplLabel.cs:187-205 | three tones when the second and third colours are both non-blank (width 157 each); two tones when the second is non-blank and the third blank (width 236); otherwise one tone (width 472), including a blank second colour with a non-blank third |
| ZplCstMulti.FromParam | ZebraUtils/ZplLabel.cs:181-235 | the constructor copies the plain fields. Three tones: code `c1/c2/c3`, description `3T: ` + three truncated descriptions. Two tones: `c1/c2` and `2T: `. One tone: the first code alone, no tag and no `/`. Each decoration line is `E-`/`H-`/`P-` + its space-joined details when those are not blank, and unset otherwise. The decoration code holds the matching letters in the order E, H, P |
| ZplCstMulti.ColorCodeSplit | ZebraUtils/ZplLabel.cs:187-205 | the colour code splits on `/` back into exactly the first one, two or three colour codes, as many as there are tones |
| ZplCstMulti.ColorDescrSplit | ZebraUtils/ZplLabel.cs:187-205 | a multi-tone description is its `3T: ` or `2T: ` tag followed by the descriptions, each cut to the tone's share of the width, which split back apart on `/` |
| ZplCstMulti.ColorLineBudget | ZebraUtils/ZplLabel.cs:187-205 | the tones' shares never exceed the 472-character budget together; the description line is at most the budget plus its tag and separators, and within the budget for one tone |
| ZplCstMulti.DetailsBlank | ZebraUtils/ZplLabel.cs:214-227 | a space-joined detail line is blank exactly when every detail field it joins is blank |
| ZplCstMulti.DecorationLetters | ZebraUtils/ZplLabel.cs:213-231 | each of E, H, P is in the decoration code exactly when one of that decoration's detail fields is non-blank, exactly when its decoration line is set; the code holds no other character and keeps the order E, H, P (an in-order subsequence of `EHP`) |
| ZplCstMulti.DecoCodeLetters | ZebraUtils/ZplLabel.cs:213-231 | the letters appended after the three blank tests form an in-order subsequence of `EHP`, each letter present exactly when its test failed |
| ZplCstMulti.CaptionsNotBlank | ZebraUtils/ZplLabel.cs:265-273 | the captions `C#:`, `P#:`, `Part#:` and `Color:` are never blank, so their texts are always emitted |
| ZplCstMulti.SectionValuesShown | ZebraUtils/ZplLabel.cs:258-275 | a section's serial line is skipped only when both the serial and the decoration code are blank, and its part line only when both the part number and the colour code are |
| ZplCstMulti.AddSection | ZebraUtils/ZplLabel.cs:258-275 | appends the `C#:` caption, the serial (with `" "` + decoration code only when that is non-blank) 55 dots right, then 40 dots lower the `P#:` caption and the part number (with `" "` + colour code only when that is non-blank), in size-34 upright font; nothing else changes |
| ZplCstMulti.SectionTextLength | ZebraUtils/ZplLabel.cs:258-275 | a section is 8 commands plus 4 per shown value line |
| ZplCstMulti.SectionTextFields | ZebraUtils/ZplLabel.cs:258-275 | a section prints two caption fields plus one per shown value line |
| ZplCstMulti.AddSections | ZebraUtils/ZplLabel.cs:278-291 | the nested loops (rows outside, columns inside) append exactly the twelve sections of the 4 x 3 grid, one per grid origin in row-major order |
| ZplCstMulti.GridPositions | ZebraUtils/ZplLabel.cs:276-291 | section k of the grid sits at (x + 340 (k mod 3), y + 103 (k div 3)), so every iy in [0,4) and ix in [0,3) is visited once |
| ZplCstMulti.GridRowMajor | ZebraUtils/ZplLabel.cs:283-289 | an earlier section lies on an earlier row, or on the same row further left; the twelve positions are distinct |
| ZplCstMulti.AddSectionsAt | ZebraUtils/ZplLabel.cs:283-289 | one section per origin, in the origins' order, appended after the existing list |
| ZplCstMulti.SectionsTextLength | ZebraUtils/ZplLabel.cs:278-291 | n sections are n times as long as one |
| ZplCstMulti.SectionsTextFields | ZebraUtils/ZplLabel.cs:278-291 | n sections print n times the fields of one |
| ZplCstMulti.BarcodeSetup | ZebraUtils/ZplLabel.cs:296-299 | every label starts with `^MCY`, `^LRN`, `^LS0` |
| ZplCstMulti.BarcodeFormat | ZebraUtils/ZplLabel.cs:301-302 | the barcode sits at `^FT512,340` with defaults `^BY2,3,160` |
| ZplCstMulti.AddCode39 | ZebraUtils/ZplLabel.cs:303 | the Code 39 command with a null height parameter renders as `^B3N,N,,Y,N`, the null becoming an empty segment |
| ZplCstMulti.AddBarcode | ZebraUtils/ZplLabel.cs:296-304 | the label's first eight commands are the fixed preamble and barcode command, then the serial number as field data and its terminator |
| ZplCstMulti.BarcodeFields | ZebraUtils/ZplLabel.cs:296-304 | the barcode part prints exactly one field |
| ZplCstMulti.AddCaptions | ZebraUtils/ZplLabel.cs:306-308 | the three captioned values `C#:`, `Part#:`, `Color:` at y 50 in size 45, in that order |
| ZplCstMulti.CaptionsShape | ZebraUtils/ZplLabel.cs:306-308 | eight commands and two fields per non-blank value among serial number, part number and colour code |
| ZplCstMulti.AddTexts | ZebraUtils/ZplLabel.cs:314-324 | the description and note blocks, then the priority and the rotated ship code, each skipped when blank |
| ZplCstMulti.TextsShape | ZebraUtils/ZplLabel.cs:314-324 | 10 commands and 2 fields for the two blocks, plus 4 commands and 1 field for each non-blank value among priority and ship code |
| ZplCstMulti.AddDetails | ZebraUtils/ZplLabel.cs:326-331 | the six detail blocks (pattern, colour description, embroidery, hot stamp, perforation, production order) 35 dots apart from y 180, each emitted even when blank |
| ZplCstMulti.DetailsShape | ZebraUtils/ZplLabel.cs:326-331 | the details are always 30 commands and 6 fields |
| ZplCstMulti.Layout | ZebraUtils/ZplLabel.cs:292-334 | the rebuilt body is barcode, captions, texts, details, then the section grid at (28, 430) showing serial number, part number, colour code and decoration code, in that order |
| ZplCstMulti.LabelPartLengths | ZebraUtils/ZplLabel.cs:292-334 | the lengths of the five parts of a label body |
| ZplCstMulti.LabelBodyLength | ZebraUtils/ZplLabel.cs:292-334 | a label body is 48 commands, plus 8 per shown caption line, 4 per shown priority or ship code, and 12 times one section's length |
| ZplCstMulti.LabelBodyStart | ZebraUtils/ZplLabel.cs:296-304 | every label body starts with the eight barcode commands |
| ZplCstMulti.LabelPartFields | ZebraUtils/ZplLabel.cs:292-334 | the fields each of the five parts prints |
| ZplCstMulti.LabelBodyFields | ZebraUtils/ZplLabel.cs:292-334 | a label prints 9 fixed fields (barcode, two blocks, six details), plus two per shown caption line, one per shown priority or ship code, and twelve times a section's fields |
| ZplCstMulti.BracketedLabel | ZebraUtils/ZplLabel.cs:292-336 | a bracketed label body has the body's length plus two, opens with the barcode part right after `^XA`, and prints the body's fields |
| ZplCstMulti.GetInstructions | ZebraUtils/ZplLabel.cs:292-336 | the label's instructions are `^XA`, the rebuilt body, `^XZ`, with the length and field count above and the barcode part at positions 1 to 8 |
| ZplCstMulti.FromParamLacks | ZebraUtils/ZplLabel.cs:181-235 | a control character that no field of the record holds is in no field of the constructed label: truncation, joining with spaces and the tone and decoration tags add none |
| ZplCstMulti.LabelBodyLacks | ZebraUtils/ZplLabel.cs:292-334 | a control character that no field of the label holds is in no command of its laid-out body |
| ZplPrinterHelper.Rendered | ZebraUtils/ZplLabel.cs:359-361 | each record becomes the instructions of the label constructed from it, in the records' order |
| ZplPrinterHelper.AppendAll | ZebraUtils/ZplLabel.cs:354-357 | appending every instruction of a list in order extends the builder by the list's concatenation |
| ZplPrinterHelper.WriteJob | ZebraUtils/ZplLabel.cs:352-376 | the builder loops produce setup, then for each label a newline and its instructions, then a newline and the clearing document; this is the documents joined by the newline |
| ZplPrinterHelper.GetLabelMultiZpl | ZebraUtils/ZplLabel.cs:341-377 | null exactly when there are no records; otherwise concat(setup) ++ (newline ++ concat(label i)) for each record in order ++ newline ++ concat(clear) |
| ZplPrinterHelper.JobSplit | ZebraUtils/ZplLabel.cs:359-374 | when no document holds a one-character newline, splitting the job on it gives back exactly the documents, n + 2 of them for n labels, so n + 1 newlines were inserted |
| ZplPrinterHelper.LabelLacks | ZebraUtils/ZplLabel.cs:181-336 | a label document holds a control character only if one of its record's fields does: every command, number, separator, tag and decoration letter the constructor and layout add is printable |
| ZplPrinterHelper.RenderedLacks | ZebraUtils/ZplLabel.cs:362-369 | the same for every label document of a job, record by record |
| ZplPrinterHelper.PrintJobSplit | ZebraUtils/ZplLabel.cs:341-377 | for a control-character newline that no field of any record holds, the job splits on it into exactly its n + 2 documents (setup, the n labels, clear) |
| ZplPrinterHelper.JobDocumentsComplete | ZebraUtils/ZplLabel.cs:341-377 | every document of a job, setup, each label and clear, opens with `^XA` and closes with `^XZ` |
| ZplPrinterHelper.SetupLacks | ZebraUtils/ZplLabel.cs:123-140 | the setup document holds no control character, so a newline never occurs inside it |
| ZplPrinterHelper.ClearDocument | ZebraUtils/ZplLabel.cs:145-149 | the clearing document is written as `^XA^MCY^LRN^XZ` |
| ZplText.IntTextRoundTrip | ZebraUtils/ZplLabel.cs:18-27 | an integer parameter's decimal text parses back to the integer and holds no comma, so it is exactly one segment of the command |
| ZplText.BlankConcat | ZebraUtils/ZplLabel.cs:214-231 | a concatenation is null-or-whitespace exactly when both parts are |
| ZplText.SplitJoin | ZebraUtils/ZplLabel.cs:18-27 | `String.Join` with a one-character separator that no part holds is undone by splitting on it |
| ZplText.SafeSub | ZebraUtils/ZplLabel.cs:192 | the truncation used for colour descriptions yields a prefix of at most `len` characters: the whole string when it is short enough, exactly `len` otherwise |

## Left out

- `NetworkMultiZpl` (lines 379-413) is not modelled, because it is socket input and output. That leaves out its control flow:
  - it returns without connecting when the job is null (lines 383-386);
  - otherwise it parses the IP address, connects, ASCII-encodes the job and writes it;
  - in a `finally` it closes the stream (if one was opened) and the socket (if it is connected) on every exit path, exceptions included (lines 405-412).
- ZplText.SafeSub: the `SafeSub` extension's body is not part of this model. It is defined as a saturating prefix (at most `len` leading characters, never an out-of-range failure). Its behaviour on a null string is not modelled, because a null string is `""` here.
- `Environment.NewLine` is platform-dependent and is a parameter of `GetLabelMultiZpl`.
- ZplPrinterHelper.PrintJobSplit: only stated for a one-character newline. A two-character `"\r\n"` is not covered, because `"\r\n"` separators need a multi-character split.
- Null arguments:
  - a null `params` array is represented as the empty sequence, since both give null;
  - a null element of the array makes the constructor throw, which is not modelled, because records are values here;
  - null strings are `""`.
- ZplPrinterHelper.GetLabelMultiZpl: all labels are first rendered into a sequence (`Rendered`), rather than each label being constructed between the appends. Construction has no side effects, so the string produced is the same.
- `Char.IsWhiteSpace` is the enumerated list of .NET whitespace code units (the Unicode space separators, U+2028, U+2029 and U+0009-U+000D, U+0085). Characters outside the Basic Multilingual Plane are not involved, because none is whitespace.
- Mutable state and virtual dispatch: the `_instrs` list and the `GetInstructions` overrides are pure functions over values. The public setters of `ZplCstMulti` are not modelled; a label's fields are those its constructor sets.
- 32-bit integer overflow is not modelled. Every integer the code renders is a constant or a difference of constants well inside range.
- ZplLabel.AddFrmt and ZplLabel.AddCtrl: the parameters are joined as .NET Core's `String.Join(string, params object[])` joins them, with every null rendering as an empty segment. On .NET Framework that overload returns `""` when the FIRST element is null, so `AddFrmt("B3", null, "Y")` would render `^B3`, not `^B3,Y`. The model does not follow that behaviour, and `ZplLabel.CommandRoundTrip` is stated for the .NET Core reading. No call in the file passes a leading null followed by more parameters: the one null (line 303) is the third parameter, and `AddFD(null)` gives `^FD` either way. So every label, setup and clearing document is the same under both runtimes.
- ZplText.SafeSub and ZplCstMulti.ColorLineBudget: lengths count characters (Unicode scalar values), whereas .NET string lengths and `Substring` count UTF-16 code units. For text outside the Basic Multilingual Plane, a character is two code units in .NET. So the widths 157, 236 and 472 and the budget bounds are counted in different units there, and a .NET truncation can split a surrogate pair, which the model cannot express. For text within the Basic Multilingual Plane the two agree.
- `Object.ToString` of a parameter is modelled for the three kinds the code passes: `int` (invariant-culture decimal), `string`, and `null` (empty).
