/** String utilities the label builder relies on: the .NET notions of
    whitespace and blank text, String.Join, decimal rendering of integers,
    the saturating "safe substring", and the inverses (split, parse) used to
    state round trips. A C# null string is represented by "" throughout:
    every place the label code uses a string renders null and "" alike. */
module ZplText {

  /** Char.IsWhiteSpace for UTF-16 code units: the Unicode space, line and
      paragraph separators plus the control characters U+0009..U+000D and
      U+0085. */
  predicate IsWhiteSpace(c: char) {
    || c == ' '
    || ('\t' <= c <= '\r')
    || c == '\U{0085}'
    || c == '\U{00A0}'
    || c == '\U{1680}'
    || ('\U{2000}' <= c <= '\U{200A}')
    || c == '\U{2028}'
    || c == '\U{2029}'
    || c == '\U{202F}'
    || c == '\U{205F}'
    || c == '\U{3000}'
  }

  /** String.IsNullOrWhiteSpace (null is ""): no character but whitespace. */
  predicate Blank(s: string) {
    |s| == 0 || (IsWhiteSpace(s[0]) && Blank(s[1..]))
  }

  lemma {:induction false} BlankChars(s: string)
    ensures Blank(s) <==> forall i :: 0 <= i < |s| ==> IsWhiteSpace(s[i])
    decreases |s|
  {
    if |s| > 0 {
      BlankChars(s[1..]);
      assert forall i :: 1 <= i < |s| ==> s[i] == s[1..][i - 1];
    }
  }

  lemma BlankConcat(a: string, b: string)
    ensures Blank(a + b) <==> Blank(a) && Blank(b)
  {
    BlankChars(a);
    BlankChars(b);
    BlankChars(a + b);
    if Blank(a + b) {
      forall i | 0 <= i < |a| ensures IsWhiteSpace(a[i]) {
        assert a[i] == (a + b)[i];
      }
      forall i | 0 <= i < |b| ensures IsWhiteSpace(b[i]) {
        assert b[i] == (a + b)[|a| + i];
      }
    }
  }

  /** String.Join(sep, parts): the parts in order with `sep` between
      neighbours; no parts gives "". */
  function Join(sep: string, parts: seq<string>): string
  {
    if |parts| == 0 then ""
    else if |parts| == 1 then parts[0]
    else Join(sep, parts[..|parts| - 1]) + sep + parts[|parts| - 1]
  }

  lemma JoinTwo(sep: string, a: string, b: string)
    ensures Join(sep, [a, b]) == a + sep + b
  {
    assert [a, b][..1] == [a];
  }

  lemma JoinThree(sep: string, a: string, b: string, c: string)
    ensures Join(sep, [a, b, c]) == a + sep + b + sep + c
  {
    assert [a, b, c][..2] == [a, b];
    JoinTwo(sep, a, b);
  }

  /** Joining with a blank separator is blank exactly when every part is. */
  lemma {:induction false} BlankJoin(sep: string, parts: seq<string>)
    requires Blank(sep)
    ensures Blank(Join(sep, parts)) <==> forall i :: 0 <= i < |parts| ==> Blank(parts[i])
    decreases |parts|
  {
    if |parts| <= 1 {
    } else {
      var init := parts[..|parts| - 1];
      var last := parts[|parts| - 1];
      BlankJoin(sep, init);
      BlankConcat(Join(sep, init), sep);
      BlankConcat(Join(sep, init) + sep, last);
      assert forall i :: 0 <= i < |init| ==> init[i] == parts[i];
      if forall i :: 0 <= i < |init| ==> Blank(init[i]) {
        if Blank(last) {
          forall i | 0 <= i < |parts| ensures Blank(parts[i]) {
            if i < |init| { assert parts[i] == init[i]; }
          }
        }
      }
    }
  }

  /** The inverse of Join for a one-character separator: the pieces of `s`
      between occurrences of `c` (always at least one piece). */
  function Split(s: string, c: char): (r: seq<string>)
    ensures |r| >= 1
  {
    if |s| == 0 then [""]
    else
      var t := Split(s[..|s| - 1], c);
      if s[|s| - 1] == c then t + [""]
      else t[..|t| - 1] + [t[|t| - 1] + [s[|s| - 1]]]
  }

  lemma {:induction false} SplitNoSeparator(p: string, c: char)
    requires c !in p
    ensures Split(p, c) == [p]
    decreases |p|
  {
    if |p| > 0 {
      SplitNoSeparator(p[..|p| - 1], c);
      assert p[..|p| - 1] + [p[|p| - 1]] == p;
    }
  }

  lemma {:induction false} SplitAfterSeparator(a: string, c: char, p: string)
    requires c !in p
    ensures Split(a + [c] + p, c) == Split(a, c) + [p]
    decreases |p|
  {
    var s := a + [c] + p;
    if |p| == 0 {
      assert s[..|s| - 1] == a;
    } else {
      var p' := p[..|p| - 1];
      assert s[..|s| - 1] == a + [c] + p';
      assert s[|s| - 1] == p[|p| - 1];
      SplitAfterSeparator(a, c, p');
      assert p' + [p[|p| - 1]] == p;
    }
  }

  /** Round trip: splitting a join on its (single-character) separator gives
      back the parts, provided no part contains the separator. */
  lemma {:induction false} SplitJoin(parts: seq<string>, c: char)
    requires |parts| >= 1
    requires forall i :: 0 <= i < |parts| ==> c !in parts[i]
    ensures Split(Join([c], parts), c) == parts
    decreases |parts|
  {
    if |parts| == 1 {
      SplitNoSeparator(parts[0], c);
    } else {
      var init := parts[..|parts| - 1];
      SplitJoin(init, c);
      SplitAfterSeparator(Join([c], init), c, parts[|parts| - 1]);
      assert init + [parts[|parts| - 1]] == parts;
    }
  }

  /** Two pieces around one separator split back into the two pieces. */
  lemma SplitTwo(a: string, b: string, c: char)
    requires c !in a && c !in b
    ensures Split(a + [c] + b, c) == [a, b]
  {
    SplitNoSeparator(a, c);
    SplitAfterSeparator(a, c, b);
  }

  /** Three pieces around two separators split back into the three pieces. */
  lemma SplitThree(a: string, b: string, d: string, c: char)
    requires c !in a && c !in b && c !in d
    ensures Split(a + [c] + b + [c] + d, c) == [a, b, d]
  {
    SplitTwo(a, b, c);
    SplitAfterSeparator(a + [c] + b, c, d);
  }

  /** A prefix of a string holds none of the characters the string lacks. */
  lemma PrefixLacks(x: string, s: string, c: char)
    requires x <= s && c !in s
    ensures c !in x
  {
    forall i | 0 <= i < |x| ensures x[i] != c {
      assert x[i] == s[i];
    }
  }

  /** The concatenation of a sequence of strings, in order. */
  function Concat(ss: seq<string>): string
  {
    if |ss| == 0 then "" else Concat(ss[..|ss| - 1]) + ss[|ss| - 1]
  }

  lemma {:induction false} ConcatAppend(a: seq<string>, b: seq<string>)
    ensures Concat(a + b) == Concat(a) + Concat(b)
    decreases |b|
  {
    if |b| > 0 {
      var b' := b[..|b| - 1];
      assert (a + b)[..|a + b| - 1] == a + b';
      ConcatAppend(a, b');
    } else {
      assert a + b == a;
    }
  }

  /** No string of the list holds the character `c`. */
  predicate AllLack(ss: seq<string>, c: char) {
    forall i :: 0 <= i < |ss| ==> c !in ss[i]
  }

  lemma AllLackAppend(a: seq<string>, b: seq<string>, c: char)
    ensures AllLack(a + b, c) <==> AllLack(a, c) && AllLack(b, c)
  {
    if AllLack(a + b, c) {
      forall i | 0 <= i < |a| ensures c !in a[i] {
        assert a[i] == (a + b)[i];
      }
      forall i | 0 <= i < |b| ensures c !in b[i] {
        assert b[i] == (a + b)[|a| + i];
      }
    }
  }

  /** Joining parts none of which holds `c`, with a separator that does not
      hold it either, gives a string without `c`. */
  lemma {:induction false} JoinLacks(sep: string, parts: seq<string>, c: char)
    requires c !in sep && AllLack(parts, c)
    ensures c !in Join(sep, parts)
    decreases |parts|
  {
    if |parts| > 1 {
      var init := parts[..|parts| - 1];
      assert AllLack(init, c) by {
        forall i | 0 <= i < |init| ensures c !in init[i] {
          assert init[i] == parts[i];
        }
      }
      JoinLacks(sep, init, c);
    }
  }

  /** Appending nothing changes nothing. */
  lemma AppendNone<T>(s: seq<T>)
    ensures s + [] == s
  {
  }

  /** Appending two pieces one after the other appends their concatenation. */
  lemma AppendTwo<T>(s: seq<T>, a: seq<T>, b: seq<T>)
    ensures s + a + b == s + (a + b)
  {
  }

  /** Appending four pieces one after the other appends their concatenation. */
  lemma AppendFour<T>(s: seq<T>, a: seq<T>, b: seq<T>, c: seq<T>, d: seq<T>)
    ensures s + a + b + c + d == s + (a + b + c + d)
  {
  }

  /** Appending six pieces one after the other appends their concatenation. */
  lemma AppendSix<T>(s: seq<T>, a: seq<T>, b: seq<T>, c: seq<T>, d: seq<T>, e: seq<T>, f: seq<T>)
    ensures s + a + b + c + d + e + f == s + (a + b + c + d + e + f)
  {
  }

  /** Six single elements and a final piece appended one after the other. */
  lemma AppendSingles<T>(s: seq<T>, a: T, b: T, c: T, d: T, e: T, f: T, g: seq<T>)
    ensures s + [a] + [b] + [c] + [d] + [e] + [f] + g == s + ([a, b, c, d, e, f] + g)
  {
  }

  /** The empty sequence is a left identity. */
  lemma PrependNone<T>(s: seq<T>)
    ensures [] + s == s
  {
  }

  /** A tag followed by three pieces: the tag, then the pieces. */
  lemma TagOfThree<T>(t: seq<T>, a: seq<T>, b: seq<T>, c: seq<T>)
    ensures (t + a + b + c)[..|t|] == t
    ensures (t + a + b + c)[|t|..] == a + b + c
  {
  }

  /** A tag followed by five pieces: the tag, then the pieces. */
  lemma TagOfFive<T>(t: seq<T>, a: seq<T>, b: seq<T>, c: seq<T>, d: seq<T>, e: seq<T>)
    ensures (t + a + b + c + d + e)[..|t|] == t
    ensures (t + a + b + c + d + e)[|t|..] == a + b + c + d + e
  {
  }

  /** A sequence is the prefix of anything appended to it. */
  lemma PrefixOfAppend<T>(a: seq<T>, b: seq<T>)
    ensures (a + b)[..|a|] == a
  {
  }

  /** A prefix of a slice is a slice. */
  lemma SliceOfSlice<T>(s: seq<T>, i: nat, j: nat, k: nat)
    requires i + k <= j <= |s|
    ensures s[i..j][..k] == s[i..i + k]
  {
  }

  predicate IsDigit(c: char) {
    '0' <= c <= '9'
  }

  function DigitChar(d: nat): (c: char)
    requires d < 10
  {
    (48 + d) as char
  }

  /** Int32.ToString() for a non-negative value: its decimal digits, most
      significant first, without leading zeros. */
  function NatText(n: nat): string
    decreases n
  {
    if n < 10 then [DigitChar(n)] else NatText(n / 10) + [DigitChar(n % 10)]
  }

  /** The rendering is one or more digits, without a leading zero, and a
      single digit exactly for values below ten. */
  lemma {:induction false} NatTextDigits(n: nat)
    ensures var r := NatText(n);
      && |r| >= 1
      && (forall i :: 0 <= i < |r| ==> IsDigit(r[i]))
      && (|r| > 1 ==> r[0] != '0')
      && (n < 10 <==> |r| == 1)
    decreases n
  {
    if n >= 10 {
      NatTextDigits(n / 10);
      var r := NatText(n);
      assert forall i :: 0 <= i < |r| - 1 ==> r[i] == NatText(n / 10)[i];
    }
  }

  /** The value of a string of decimal digits. */
  function ParseNat(s: string): nat
  {
    if |s| == 0 then 0
    else
      var d := s[|s| - 1] as int - 48;
      ParseNat(s[..|s| - 1]) * 10 + (if 0 <= d then d else 0)
  }

  lemma {:induction false} NatTextRoundTrip(n: nat)
    ensures ParseNat(NatText(n)) == n
    decreases n
  {
    if n >= 10 {
      var s := NatText(n);
      assert s[..|s| - 1] == NatText(n / 10);
      NatTextRoundTrip(n / 10);
    }
  }

  /** Int32.ToString() under the invariant culture: a minus sign before the
      digits of a negative value. */
  function IntText(i: int): (r: string)
  {
    if i < 0 then "-" + NatText(-i) else NatText(i)
  }

  function ParseInt(s: string): int
  {
    if |s| > 0 && s[0] == '-' then 0 - ParseNat(s[1..]) else ParseNat(s)
  }

  /** Rendering an integer loses nothing, and never produces a comma (so a
      rendered integer parameter is exactly one comma-separated segment). */
  lemma IntTextRoundTrip(i: int)
    ensures ParseInt(IntText(i)) == i
    ensures ',' !in IntText(i)
  {
    var r := IntText(i);
    if i < 0 {
      NatTextDigits(-i);
      assert r[1..] == NatText(-i);
      NatTextRoundTrip(-i);
      assert forall k :: 1 <= k < |r| ==> IsDigit(r[k]);
    } else {
      NatTextDigits(i);
      NatTextRoundTrip(i);
    }
  }

  /** A rendered integer holds digits and at most a minus sign, so no
      control character. */
  lemma IntTextLacks(i: int, c: char)
    requires c < ' '
    ensures c !in IntText(i)
  {
    var n: nat := if i < 0 then -i else i;
    NatTextDigits(n);
  }

  /** The SafeSub(0, len) extension: at most `len` leading characters, the
      whole string when it is shorter, never an out-of-range failure. */
  function SafeSub(s: string, len: nat): (r: string)
    ensures |r| <= len && |r| <= |s|
    ensures r <= s
    ensures |s| <= len ==> r == s
    ensures |s| > len ==> |r| == len
  {
    if |s| <= len then s else s[..len]
  }

  /** Truncating a string adds no character to it. */
  lemma SafeSubLacks(s: string, len: nat, c: char)
    requires c !in s
    ensures c !in SafeSub(s, len)
  {
    PrefixLacks(SafeSub(s, len), s, c);
  }

  /** Truncating twice to the same width is truncating once. */
  lemma SafeSubIdempotent(s: string, len: nat)
    ensures SafeSub(SafeSub(s, len), len) == SafeSub(s, len)
    ensures SafeSub(s, 0) == ""
  {
  }
}
