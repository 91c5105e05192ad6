/** The Option datatype used for JavaScript's `null` / `undefined` results. */
module Wrappers {
  datatype Option<+T> = None | Some(value: T) {
    function GetOr(default: T): T {
      match this
      case Some(v) => v
      case None => default
    }
  }
}

/**
  The JavaScript string built-ins the lead funnel relies on, written out over
  `seq<char>`: `replace(/\D/g, '')`, `trim()`, `split(sep)`, `parseInt` on a
  digit string and `Number.prototype.toString()` on a natural number.
 */
module Text {
  import opened Wrappers

  /** `\d` in a JavaScript regular expression: the ASCII digits only. */
  predicate IsDigit(c: char) {
    '0' <= c <= '9'
  }

  predicate AllDigits(s: string) {
    forall i :: 0 <= i < |s| ==> IsDigit(s[i])
  }

  predicate HasDigit(s: string) {
    exists i :: 0 <= i < |s| && IsDigit(s[i])
  }

  /** `s.replace(/\D/g, '')`: the digits of `s`, in order, and nothing else. */
  function Digits(s: string): string {
    if s == [] then []
    else (if IsDigit(s[0]) then [s[0]] else []) + Digits(s[1..])
  }

  /** What is left consists of digits only. */
  lemma {:induction false} DigitsAreDigits(s: string)
    ensures AllDigits(Digits(s))
  {
    if s != [] {
      DigitsAreDigits(s[1..]);
      var head := if IsDigit(s[0]) then [s[0]] else [];
      assert Digits(s) == head + Digits(s[1..]);
      forall i | 0 <= i < |Digits(s)| ensures IsDigit(Digits(s)[i]) {
        if i >= |head| {
          assert Digits(s)[i] == Digits(s[1..])[i - |head|];
        }
      }
    }
  }

  /** Stripping leaves nothing exactly when there was no digit. */
  lemma {:induction false} DigitsEmpty(s: string)
    ensures Digits(s) == [] <==> !HasDigit(s)
  {
    if s != [] {
      DigitsEmpty(s[1..]);
      if HasDigit(s[1..]) {
        var i :| 0 <= i < |s[1..]| && IsDigit(s[1..][i]);
        assert IsDigit(s[i + 1]);
      }
      if HasDigit(s) && !IsDigit(s[0]) {
        var i :| 0 <= i < |s| && IsDigit(s[i]);
        assert i > 0 && IsDigit(s[1..][i - 1]);
      }
    }
  }

  /** Stripping non-digits distributes over concatenation. */
  lemma {:induction false} DigitsConcat(a: string, b: string)
    ensures Digits(a + b) == Digits(a) + Digits(b)
  {
    if a == [] {
      assert a + b == b;
    } else {
      var head := if IsDigit(a[0]) then [a[0]] else [];
      assert (a + b)[0] == a[0];
      assert (a + b)[1..] == a[1..] + b;
      assert Digits(a + b) == head + Digits(a[1..] + b);
      DigitsConcat(a[1..], b);
      AppendAssoc(head, Digits(a[1..]), Digits(b));
    }
  }

  lemma AppendAssoc(x: string, y: string, z: string)
    ensures x + (y + z) == (x + y) + z
  {
  }

  /** A digit string is left exactly as it is. */
  lemma {:induction false} DigitsOfDigitString(s: string)
    requires AllDigits(s)
    ensures Digits(s) == s
  {
    if s != [] {
      DigitsOfDigitString(s[1..]);
    }
  }

  /** Stripping non-digits twice is stripping them once. */
  lemma DigitsIdempotent(s: string)
    ensures Digits(Digits(s)) == Digits(s)
  {
    DigitsAreDigits(s);
    DigitsOfDigitString(Digits(s));
  }

  /** A string without digits contributes nothing. */
  lemma DigitsOfNonDigits(s: string)
    requires forall i :: 0 <= i < |s| ==> !IsDigit(s[i])
    ensures Digits(s) == []
  {
  }

  // ---------------------------------------------------------------------------
  // Decimal numbers
  // ---------------------------------------------------------------------------

  function DigitChar(d: nat): (c: char)
    requires d < 10
    ensures IsDigit(c)
  {
    ('0' as int + d) as char
  }

  function DigitValue(c: char): (d: nat)
    requires IsDigit(c)
    ensures d < 10 && DigitChar(d) == c
  {
    c as int - '0' as int
  }

  /** `parseInt(s, 10)` on a non-empty digit string: leading zeros are allowed. */
  function DecimalValue(s: string): nat
    requires AllDigits(s)
  {
    if s == [] then 0 else DecimalValue(s[..|s| - 1]) * 10 + DigitValue(s[|s| - 1])
  }

  /** The number the digits of `s` spell, as `parseInt(s.replace(/\D/g, ''))` reads it. */
  function NumberOf(s: string): nat {
    DigitsAreDigits(s);
    DecimalValue(Digits(s))
  }

  /** `n.toString()`: the shortest decimal rendering of `n`. */
  function Decimal(n: nat): (r: string)
    ensures AllDigits(r) && |r| >= 1
    ensures r[0] == '0' ==> r == "0"
  {
    if n < 10 then [DigitChar(n)] else Decimal(n / 10) + [DigitChar(n % 10)]
  }

  /** Reading back the rendering of `n` gives `n`. */
  lemma {:induction false} DecimalRoundTrip(n: nat)
    ensures DecimalValue(Decimal(n)) == n
  {
    if n >= 10 {
      var s := Decimal(n);
      assert s[..|s| - 1] == Decimal(n / 10);
      DecimalRoundTrip(n / 10);
    }
  }

  /** Appending one digit multiplies by ten and adds the digit. */
  lemma DecimalValueSnoc(s: string, c: char)
    requires AllDigits(s) && IsDigit(c)
    ensures AllDigits(s + [c])
    ensures DecimalValue(s + [c]) == DecimalValue(s) * 10 + DigitValue(c)
  {
    assert (s + [c])[..|s + [c]| - 1] == s;
  }

  // ---------------------------------------------------------------------------
  // String.prototype.trim()
  // ---------------------------------------------------------------------------

  /**
    ECMAScript WhiteSpace and LineTerminator code points: TAB, LF, VT, FF, CR,
    SPACE, NBSP, the Unicode space separators (U+1680, U+2000..U+200A, U+202F,
    U+205F, U+3000), LINE and PARAGRAPH SEPARATOR and the BOM.
   */
  predicate IsJsWhitespace(c: char) {
    || c == '\t' || c == '\n' || c == '\U{000B}' || c == '\U{000C}' || c == '\r'
    || c == ' ' || c == '\U{00A0}' || c == '\U{1680}'
    || ('\U{2000}' <= c <= '\U{200A}')
    || c == '\U{2028}' || c == '\U{2029}' || c == '\U{202F}' || c == '\U{205F}'
    || c == '\U{3000}' || c == '\U{FEFF}'
  }

  /** Every character of `s` is white space (vacuously so for ""). */
  predicate Blank(s: string) {
    forall i :: 0 <= i < |s| ==> IsJsWhitespace(s[i])
  }

  function TrimStart(s: string): (r: string)
    ensures |r| <= |s| && r == s[|s| - |r|..]
    ensures Blank(s[..|s| - |r|])
    ensures r == [] || !IsJsWhitespace(r[0])
    ensures r == [] <==> Blank(s)
  {
    if s != [] && IsJsWhitespace(s[0]) then
      var r := TrimStart(s[1..]);
      assert Blank(s[..|s| - |r|]) by {
        var cut := s[1..][..|s[1..]| - |r|];
        forall i | 0 <= i < |s| - |r| ensures IsJsWhitespace(s[i]) {
          if i > 0 { assert s[i] == cut[i - 1]; }
        }
      }
      assert Blank(s[1..]) ==> Blank(s) by {
        if Blank(s[1..]) {
          forall i | 0 <= i < |s| ensures IsJsWhitespace(s[i]) {
            if i > 0 { assert s[i] == s[1..][i - 1]; }
          }
        }
      }
      assert Blank(s) ==> Blank(s[1..]) by {
        if Blank(s) {
          forall i | 0 <= i < |s[1..]| ensures IsJsWhitespace(s[1..][i]) {
            assert s[1..][i] == s[i + 1];
          }
        }
      }
      r
    else
      s
  }

  function TrimEnd(s: string): (r: string)
    ensures |r| <= |s| && r == s[..|r|]
    ensures Blank(s[|r|..])
    ensures r == [] || !IsJsWhitespace(r[|r| - 1])
    ensures r == [] <==> Blank(s)
  {
    if s != [] && IsJsWhitespace(s[|s| - 1]) then
      var init := s[..|s| - 1];
      var r := TrimEnd(init);
      assert Blank(s[|r|..]) by {
        var cut := init[|r|..];
        forall i | |r| <= i < |s| ensures IsJsWhitespace(s[i]) {
          if i < |s| - 1 { assert s[i] == cut[i - |r|]; }
        }
      }
      assert Blank(init) ==> Blank(s) by {
        if Blank(init) {
          forall i | 0 <= i < |s| ensures IsJsWhitespace(s[i]) {
            if i < |s| - 1 { assert s[i] == init[i]; }
          }
        }
      }
      assert Blank(s) ==> Blank(init) by {
        if Blank(s) {
          forall i | 0 <= i < |init| ensures IsJsWhitespace(init[i]) {
            assert init[i] == s[i];
          }
        }
      }
      r
    else
      s
  }

  /** `s.trim()`: empty exactly when `s` is blank. */
  function Trim(s: string): (r: string)
    ensures r == [] <==> Blank(s)
  {
    TrimEnd(TrimStart(s))
  }

  /** Where `trim()` cuts: after the leading white space, and before the trailing white space. */
  lemma TrimCuts(s: string) returns (k: nat)
    ensures k + |Trim(s)| <= |s| && Trim(s) == s[k..k + |Trim(s)|]
    ensures Blank(s[..k]) && Blank(s[k + |Trim(s)|..])
  {
    var start := TrimStart(s);
    var r := TrimEnd(start);
    assert |start| <= |s| && start == s[|s| - |start|..];
    assert Blank(s[..|s| - |start|]);
    assert |r| <= |start| && r == start[..|r|];
    assert Blank(start[|r|..]);
    k := CutTwice(s, start, r);
  }

  /** Cutting white space off the front and then off the back leaves a slice between two blanks. */
  lemma CutTwice(s: string, start: string, r: string) returns (k: nat)
    requires |start| <= |s| && start == s[|s| - |start|..] && Blank(s[..|s| - |start|])
    requires |r| <= |start| && r == start[..|r|] && Blank(start[|r|..])
    ensures k == |s| - |start|
    ensures k + |r| <= |s| && r == s[k..k + |r|]
    ensures Blank(s[..k]) && Blank(s[k + |r|..])
  {
    k := |s| - |start|;
    PrefixOfSuffix(s, k, |r|);
    assert s[k + |r|..] == start[|r|..];
  }

  /** A prefix of a suffix is a slice. */
  lemma PrefixOfSuffix(s: string, k: nat, n: nat)
    requires k + n <= |s|
    ensures s[k..][..n] == s[k..k + n]
  {
  }

  /** What `trim()` keeps neither starts nor ends with white space. */
  lemma TrimEnds(s: string)
    ensures var r := Trim(s); r == [] || (!IsJsWhitespace(r[0]) && !IsJsWhitespace(r[|r| - 1]))
  {
    var start := TrimStart(s);
    var r := TrimEnd(start);
    assert r != [] ==> r[0] == start[0];
  }

  /**
    What `trim()` keeps: a slice of `s` that neither starts nor ends with
    white space, with only white space cut off on either side.
   */
  lemma TrimSlice(s: string)
    ensures exists i, j :: 0 <= i <= j <= |s| && Trim(s) == s[i..j] && Blank(s[..i]) && Blank(s[j..])
    ensures var r := Trim(s); r == [] || (!IsJsWhitespace(r[0]) && !IsJsWhitespace(r[|r| - 1]))
  {
    var k := TrimCuts(s);
    TrimEnds(s);
  }

  // ---------------------------------------------------------------------------
  // String.prototype.split(separator) with a non-empty string separator
  // ---------------------------------------------------------------------------

  /** `sep` occurs in `s` starting at index `p`. */
  predicate OccursAt(s: string, sep: string, p: int) {
    0 <= p && p + |sep| <= |s| && s[p..p + |sep|] == sep
  }

  /** `s.indexOf(sep, from)`: the first occurrence at or after `from`. */
  function IndexFrom(s: string, sep: string, from: nat): (r: Option<nat>)
    requires sep != []
    ensures r.Some? ==> from <= r.value && OccursAt(s, sep, r.value)
    ensures r.Some? ==> forall q :: from <= q < r.value ==> !OccursAt(s, sep, q)
    ensures r.None? ==> forall q :: from <= q ==> !OccursAt(s, sep, q)
    decreases |s| - from
  {
    if from + |sep| > |s| then None
    else if s[from..from + |sep|] == sep then Some(from)
    else IndexFrom(s, sep, from + 1)
  }

  /**
    `s.split(sep)`: the pieces between the non-overlapping occurrences of
    `sep`, found left to right; a string without `sep` is one piece.
   */
  function Split(s: string, sep: string): (parts: seq<string>)
    requires sep != []
    ensures |parts| >= 1
    decreases |s|
  {
    match IndexFrom(s, sep, 0)
    case None => [s]
    case Some(i) => [s[..i]] + Split(s[i + |sep|..], sep)
  }

  /** The longest prefix of `s` without `c`. */
  function PrefixBefore(s: string, c: char): (r: string)
    ensures |r| <= |s| && r == s[..|r|] && c !in r
    ensures |r| < |s| ==> s[|r|] == c
  {
    if s == [] || s[0] == c then []
    else
      var rest := PrefixBefore(s[1..], c);
      assert [s[0]] + rest == s[..1 + |rest|] by {
        assert rest == s[1..][..|rest|] == s[1..1 + |rest|];
      }
      [s[0]] + rest
  }

  /** No occurrence of a one-character separator before the first `c`. */
  lemma NoOccurrenceBefore(s: string, c: char, n: nat)
    requires n <= |s| && c !in s[..n]
    ensures forall q :: 0 <= q < n ==> !OccursAt(s, [c], q)
  {
    forall q | 0 <= q < n ensures !OccursAt(s, [c], q) {
      assert s[q] == s[..n][q];
      assert s[q..q + 1] == [s[q]];
    }
  }

  /** The first piece of a split on one character is the text before that character. */
  lemma SplitFirstPiece(s: string, c: char)
    ensures Split(s, [c])[0] == PrefixBefore(s, c)
  {
    var p := PrefixBefore(s, c);
    var r := IndexFrom(s, [c], 0);
    NoOccurrenceBefore(s, c, |p|);
    if |p| < |s| {
      assert s[|p|..|p| + 1] == [c];
      assert OccursAt(s, [c], |p|);
      assert r == Some(|p|);
    } else {
      assert r.None?;
    }
  }

  /** A one-character separator that `a` lacks splits `a + [c] + b` right after `a`. */
  lemma SplitAtFirst(a: string, c: char, b: string)
    requires c !in a
    ensures Split(a + [c] + b, [c]) == [a] + Split(b, [c])
  {
    var s := a + [c] + b;
    assert s[..|a|] == a;
    NoOccurrenceBefore(s, c, |a|);
    assert s[|a|..|a| + 1] == [c];
    assert OccursAt(s, [c], |a|);
    assert IndexFrom(s, [c], 0) == Some(|a|);
    assert s[|a| + 1..] == b;
  }

  /** A string without the one-character separator is a single piece. */
  lemma SplitWithout(s: string, c: char)
    requires c !in s
    ensures Split(s, [c]) == [s]
  {
    assert s[..|s|] == s;
    NoOccurrenceBefore(s, c, |s|);
    assert IndexFrom(s, [c], 0).None?;
  }

  /** Lines written one under the other, as a multi-line template literal does. */
  function Join(lines: seq<string>, c: char): string
    requires |lines| >= 1
  {
    if |lines| == 1 then lines[0] else lines[0] + [c] + Join(lines[1..], c)
  }

  /** Splitting joined lines on the joining character gives the lines back. */
  lemma {:induction false} SplitJoin(lines: seq<string>, c: char)
    requires |lines| >= 1
    requires forall i :: 0 <= i < |lines| ==> c !in lines[i]
    ensures Split(Join(lines, c), [c]) == lines
  {
    if |lines| == 1 {
      SplitWithout(lines[0], c);
    } else {
      SplitAtFirst(lines[0], c, Join(lines[1..], c));
      SplitJoin(lines[1..], c);
      assert lines == [lines[0]] + lines[1..];
    }
  }
}
