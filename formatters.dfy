/**
  The two keystroke formatters of the lead form (`formatPhone` and
  `formatCurrency` in src/components/ContactForm.tsx). Both read only the
  digits of their input.
 */
module Formatters {
  import opened Text

  // ---------------------------------------------------------------------------
  // formatPhone
  // ---------------------------------------------------------------------------

  /**
    `numbers.replace(/(\d{2})(\d{m})(\d{0,4})/, '($1) $2-$3')` on a digit
    string. With fewer than 2 + m digits the pattern does not match and the
    string is returned unchanged. Otherwise the match starts at index 0, the
    third group greedily takes up to four digits, and whatever follows the
    match is kept after it.
   */
  function AreaCodePattern(numbers: string, m: nat): string
    requires AllDigits(numbers)
  {
    if |numbers| < 2 + m then numbers
    else
      var end := if |numbers| < 2 + m + 4 then |numbers| else 2 + m + 4;
      "(" + numbers[..2] + ") " + numbers[2..2 + m] + "-" + numbers[2 + m..end] + numbers[end..]
  }

  /** `s.replace(/-$/, '')`. */
  function DropTrailingDash(s: string): string {
    if s != [] && s[|s| - 1] == '-' then s[..|s| - 1] else s
  }

  /** `formatPhone`: a landline shape up to ten digits, a mobile shape above. */
  function FormatPhone(value: string): string {
    DigitsAreDigits(value);
    var numbers := Digits(value);
    if |numbers| <= 10 then DropTrailingDash(AreaCodePattern(numbers, 4))
    else DropTrailingDash(AreaCodePattern(numbers, 5))
  }

  /** Fewer than six digits: the pattern does not match and the digits stand alone. */
  lemma PhoneShort(value: string)
    requires |Digits(value)| < 6
    ensures FormatPhone(value) == Digits(value)
  {
    DigitsAreDigits(value);
    var d := Digits(value);
    assert d == [] || IsDigit(d[|d| - 1]);
  }

  /** Six digits: the dash before the empty third group is dropped. */
  lemma PhoneSix(value: string)
    requires |Digits(value)| == 6
    ensures var d := Digits(value); FormatPhone(value) == "(" + d[..2] + ") " + d[2..6]
  {
    DigitsAreDigits(value);
    var d := Digits(value);
    var s := AreaCodePattern(d, 4);
    assert s == "(" + d[..2] + ") " + d[2..6] + "-";
  }

  /** Seven to ten digits: the landline shape `(AA) BBBB-C…`. */
  lemma PhoneLandline(value: string)
    requires 7 <= |Digits(value)| <= 10
    ensures var d := Digits(value); FormatPhone(value) == "(" + d[..2] + ") " + d[2..6] + "-" + d[6..]
  {
    DigitsAreDigits(value);
    var d := Digits(value);
    var s := AreaCodePattern(d, 4);
    assert s == "(" + d[..2] + ") " + d[2..6] + "-" + d[6..] by {
      assert d[6..|d|] + d[|d|..] == d[6..];
    }
    assert s[|s| - 1] == d[|d| - 1];
  }

  /** Eleven digits or more: the mobile shape `(AA) BBBBB-CCCC`, the rest kept after it. */
  lemma PhoneMobile(value: string)
    requires |Digits(value)| >= 11
    ensures var d := Digits(value); FormatPhone(value) == "(" + d[..2] + ") " + d[2..7] + "-" + d[7..11] + d[11..]
  {
    DigitsAreDigits(value);
    var d := Digits(value);
    var s := AreaCodePattern(d, 5);
    assert s[|s| - 1] == d[|d| - 1];
  }

  /** The mobile shape with the last two groups read as one tail. */
  lemma PhoneMobileTail(value: string)
    requires |Digits(value)| >= 11
    ensures var d := Digits(value); FormatPhone(value) == "(" + d[..2] + ") " + d[2..7] + "-" + d[7..]
  {
    PhoneMobile(value);
    TailJoin(Digits(value));
  }

  /** The last two groups of the mobile shape, read as one. */
  lemma TailJoin(d: string)
    requires |d| >= 11
    ensures "(" + d[..2] + ") " + d[2..7] + "-" + d[7..11] + d[11..] == "(" + d[..2] + ") " + d[2..7] + "-" + d[7..]
  {
    assert d[7..11] + d[11..] == d[7..];
  }

  /** The display shape of `formatPhone`, by the number of digits in the input. */
  lemma PhoneShape(value: string)
    ensures var d := Digits(value); var r := FormatPhone(value);
      && (|d| < 6 ==> r == d)
      && (|d| == 6 ==> r == "(" + d[..2] + ") " + d[2..6])
      && (7 <= |d| <= 10 ==> r == "(" + d[..2] + ") " + d[2..6] + "-" + d[6..])
      && (|d| >= 11 ==> r == "(" + d[..2] + ") " + d[2..7] + "-" + d[7..11] + d[11..])
  {
    var d := Digits(value);
    if |d| < 6 {
      PhoneShort(value);
    } else if |d| == 6 {
      PhoneSix(value);
    } else if |d| <= 10 {
      PhoneLandline(value);
    } else {
      PhoneMobile(value);
    }
  }

  /** Appending digits appends them to the digits. */
  lemma DigitsAppendDigits(p: string, d: string)
    requires AllDigits(d)
    ensures Digits(p + d) == Digits(p) + d
  {
    DigitsConcat(p, d);
    DigitsOfDigitString(d);
  }

  /** Appending text without digits adds no digits. */
  lemma DigitsAppendPunctuation(p: string, q: string)
    requires forall i :: 0 <= i < |q| ==> !IsDigit(q[i])
    ensures Digits(p + q) == Digits(p)
  {
    DigitsConcat(p, q);
    DigitsOfNonDigits(q);
  }

  /** The punctuation `formatPhone` inserts carries no digit. */
  lemma DigitsOfPunctuation(p: string)
    ensures Digits("(" + p) == Digits(p)
    ensures Digits(p + ") ") == Digits(p)
    ensures Digits(p + "-") == Digits(p)
  {
    DigitsConcat("(", p);
    assert Digits("(") == [];
    DigitsAppendPunctuation(p, ") ");
    DigitsAppendPunctuation(p, "-");
  }

  /** The digits of the `(AA) B-C` layout are those of its groups. */
  lemma DigitsOfLayout(a: string, b: string, c: string, e: string)
    requires AllDigits(a) && AllDigits(b) && AllDigits(c) && AllDigits(e)
    ensures Digits("(" + a + ") " + b) == a + b
    ensures Digits("(" + a + ") " + b + "-" + c + e) == a + b + c + e
  {
    var s2 := "(" + a;
    assert Digits(s2) == a by {
      DigitsOfPunctuation(a);
      DigitsOfDigitString(a);
    }
    var s3 := s2 + ") ";
    assert Digits(s3) == a by {
      DigitsOfPunctuation(s2);
    }
    var s4 := s3 + b;
    assert Digits(s4) == a + b by {
      DigitsAppendDigits(s3, b);
    }
    var s5 := s4 + "-";
    assert Digits(s5) == a + b by {
      DigitsOfPunctuation(s4);
    }
    var s6 := s5 + c;
    assert Digits(s6) == a + b + c by {
      DigitsAppendDigits(s5, c);
    }
    assert Digits(s6 + e) == a + b + c + e by {
      DigitsAppendDigits(s6, e);
    }
  }

  /** The two layouts carry the digits they are built from. */
  lemma LayoutDigits(d: string, k: nat)
    requires AllDigits(d) && 2 + k <= |d|
    ensures Digits("(" + d[..2] + ") " + d[2..2 + k]) == d[..2 + k]
    ensures Digits("(" + d[..2] + ") " + d[2..2 + k] + "-" + d[2 + k..]) == d
  {
    DigitsOfLayout(d[..2], d[2..2 + k], d[2 + k..], []);
    assert d[..2] + d[2..2 + k] == d[..2 + k];
    assert "(" + d[..2] + ") " + d[2..2 + k] + "-" + d[2 + k..] + [] == "(" + d[..2] + ") " + d[2..2 + k] + "-" + d[2 + k..];
    assert d[..2] + d[2..2 + k] + d[2 + k..] + [] == d;
  }

  /** Fewer than six digits: the display is the digits typed. */
  lemma PhoneShortDigits(value: string)
    requires |Digits(value)| < 6
    ensures Digits(FormatPhone(value)) == Digits(value)
  {
    DigitsAreDigits(value);
    PhoneShort(value);
    DigitsOfDigitString(Digits(value));
  }

  /** Six digits: the display keeps exactly the digits typed. */
  lemma PhoneSixDigits(value: string)
    requires |Digits(value)| == 6
    ensures Digits(FormatPhone(value)) == Digits(value)
  {
    DigitsAreDigits(value);
    var d := Digits(value);
    PhoneSix(value);
    LayoutDigits(d, 4);
    assert d[..6] == d;
    assert FormatPhone(value) == "(" + d[..2] + ") " + d[2..6];
  }

  /** Seven to ten digits: the landline display keeps exactly the digits typed. */
  lemma PhoneLandlineDigits(value: string)
    requires 7 <= |Digits(value)| <= 10
    ensures Digits(FormatPhone(value)) == Digits(value)
  {
    DigitsAreDigits(value);
    var d := Digits(value);
    PhoneLandline(value);
    LayoutDigits(d, 4);
    assert FormatPhone(value) == "(" + d[..2] + ") " + d[2..6] + "-" + d[6..];
  }

  /** Eleven digits or more: the mobile display keeps exactly the digits typed. */
  lemma PhoneMobileDigits(value: string)
    requires |Digits(value)| >= 11
    ensures Digits(FormatPhone(value)) == Digits(value)
  {
    DigitsAreDigits(value);
    var d := Digits(value);
    PhoneMobileTail(value);
    LayoutDigits(d, 5);
    assert FormatPhone(value) == "(" + d[..2] + ") " + d[2..7] + "-" + d[7..];
  }

  /** The phone display holds exactly the digits typed, in the same order. */
  lemma PhoneKeepsDigits(value: string)
    ensures Digits(FormatPhone(value)) == Digits(value)
  {
    if |Digits(value)| < 6 {
      PhoneShortDigits(value);
    } else if |Digits(value)| == 6 {
      PhoneSixDigits(value);
    } else if |Digits(value)| <= 10 {
      PhoneLandlineDigits(value);
    } else {
      PhoneMobileDigits(value);
    }
  }

  /** Re-formatting a formatted phone number changes nothing. */
  lemma PhoneIdempotent(value: string)
    ensures FormatPhone(FormatPhone(value)) == FormatPhone(value)
  {
    PhoneKeepsDigits(value);
  }

  /** The area-code pattern, once it matches, opens with a parenthesis. */
  lemma AreaCodeOpens(numbers: string, m: nat)
    requires AllDigits(numbers) && |numbers| >= 2 + m
    ensures |AreaCodePattern(numbers, m)| > 1 && AreaCodePattern(numbers, m)[0] == '('
  { }

  /** Dropping a trailing dash from a longer string keeps its first character. */
  lemma DropDashKeepsFirst(s: string)
    requires |s| > 1
    ensures DropTrailingDash(s) != [] && DropTrailingDash(s)[0] == s[0]
  { }

  /** Six digits or more: the display opens with the area code's parenthesis. */
  lemma PhoneOpens(value: string)
    requires |Digits(value)| >= 6
    ensures FormatPhone(value) != [] && FormatPhone(value)[0] == '('
  {
    DigitsAreDigits(value);
    var d := Digits(value);
    var m := if |d| <= 10 then 4 else 5;
    AreaCodeOpens(d, m);
    DropDashKeepsFirst(AreaCodePattern(d, m));
  }

  /** No digit gives an empty display; otherwise it starts with a digit or `(`. */
  lemma PhoneFirst(value: string)
    ensures Digits(value) == [] ==> FormatPhone(value) == []
    ensures Digits(value) != [] ==> FormatPhone(value) != [] && !IsJsWhitespace(FormatPhone(value)[0])
  {
    DigitsAreDigits(value);
    var d := Digits(value);
    if |d| < 6 {
      PhoneShort(value);
      assert d != [] ==> IsDigit(d[0]);
    } else {
      PhoneOpens(value);
    }
  }

  /** A formatted phone number is non-blank exactly when a digit was typed. */
  lemma PhoneNonBlank(value: string)
    ensures Trim(FormatPhone(value)) != [] <==> HasDigit(value)
  {
    DigitsEmpty(value);
    PhoneFirst(value);
    var r := FormatPhone(value);
    assert r != [] ==> !Blank(r);
  }

  // ---------------------------------------------------------------------------
  // formatCurrency
  // ---------------------------------------------------------------------------

  /** Digits with a `.` before every complete group of three counted from the right, and none in front. */
  ghost predicate WellGrouped(p: string) {
    && (p == [] || p[0] != '.')
    && forall i :: 0 <= i < |p| ==> (p[i] == '.' <==> (|p| - i) % 4 == 0) && (p[i] == '.' || IsDigit(p[i]))
  }

  /** Up to three digits are well grouped as they are. */
  lemma GroupedShort(s: string)
    requires AllDigits(s) && |s| <= 3
    ensures WellGrouped(s)
  {
  }

  /** Appending `.` and a group of three keeps a well-grouped string well grouped. */
  lemma GroupedStep(head: string, tail: string)
    requires head != [] && WellGrouped(head) && AllDigits(tail) && |tail| == 3
    ensures WellGrouped(head + "." + tail)
  {
    var r := head + "." + tail;
    forall i | 0 <= i < |r|
      ensures (r[i] == '.' <==> (|r| - i) % 4 == 0) && (r[i] == '.' || IsDigit(r[i]))
    {
      if i < |head| {
        assert r[i] == head[i];
        assert (|r| - i) % 4 == (|head| - i) % 4;
      } else if i > |head| {
        assert r[i] == tail[i - |head| - 1];
      }
    }
  }

  /** The separator adds no digit. */
  lemma GroupedDigits(head: string, prefix: string, tail: string)
    requires Digits(head) == prefix && AllDigits(tail)
    ensures Digits(head + "." + tail) == prefix + tail
  {
    DigitsAppendPunctuation(head, ".");
    DigitsAppendDigits(head + ".", tail);
  }

  /** pt-BR thousands grouping of a digit string. */
  function Group(s: string): (r: string)
    requires AllDigits(s)
    ensures Digits(r) == s
    ensures WellGrouped(r)
  {
    if |s| <= 3 then
      DigitsOfDigitString(s);
      GroupedShort(s);
      s
    else
      var head := Group(s[..|s| - 3]);
      var tail := s[|s| - 3..];
      GroupedDigits(head, s[..|s| - 3], tail);
      assert head != [] by { assert Digits(head) == s[..|s| - 3]; }
      GroupedStep(head, tail);
      assert s[..|s| - 3] + tail == s;
      head + "." + tail
  }

  /** Grouping only inserts separators. */
  lemma {:induction false} GroupLength(s: string)
    requires AllDigits(s)
    ensures |Group(s)| >= |s|
  {
    if |s| > 3 {
      GroupLength(s[..|s| - 3]);
    }
  }

  /**
    `formatCurrency`: the digits are a count N of centavos, rendered as
    `toLocaleString('pt-BR')` renders N / 100 with exactly two decimals. With
    no digit at all `parseInt` gives NaN, which renders as "NaN".
   */
  function FormatCurrency(value: string): string {
    var numbers := Digits(value);
    if numbers == [] then "NaN" else Amount(NumberOf(value))
  }

  /** N centavos as `R.RRR,CC`: the grouped reais N / 100, a comma and two centavo digits. */
  function Amount(n: nat): string {
    Group(Decimal(n / 100)) + "," + Centavos(n)
  }

  /** The two centavo digits of N, with a leading zero below ten. */
  function Centavos(n: nat): string {
    [DigitChar(n % 100 / 10), DigitChar(n % 10)]
  }

  /** With a digit in the input, the display is the amount the digits spell. */
  lemma CurrencyOfDigits(value: string)
    requires HasDigit(value)
    ensures FormatCurrency(value) == Amount(NumberOf(value))
  {
    DigitsEmpty(value);
  }

  /** The decimal comma carries no digit. */
  lemma DigitsOfComma(p: string)
    ensures Digits(p + ",") == Digits(p)
  {
    DigitsAppendPunctuation(p, ",");
  }

  /** "NaN" has no digit, so formatting it again gives "NaN". */
  lemma DigitsOfNaN()
    ensures Digits("NaN") == []
  {
    DigitsOfNonDigits("NaN");
  }

  /** The two centavo digits are the tens and the units of N % 100. */
  lemma CentavoDigits(n: nat)
    ensures (n % 100 / 10) * 10 + n % 10 == n % 100
  {
    var m := n % 100;
    var q := n / 100;
    assert n == q * 100 + m;
    assert m == (m / 10) * 10 + m % 10;
    assert n == (q * 10 + m / 10) * 10 + m % 10;
    LastDigit(n, q * 10 + m / 10, m % 10);
  }

  /** Euclidean division by ten has one remainder. */
  lemma LastDigit(n: int, a: int, r: int)
    requires n == a * 10 + r && 0 <= r < 10
    ensures n % 10 == r
  {
  }

  /** The two centavo digits read back as N % 100. */
  lemma CentavoValue(n: nat)
    ensures AllDigits(Centavos(n)) && DecimalValue(Centavos(n)) == n % 100
  {
    var c1, c2 := DigitChar(n % 100 / 10), DigitChar(n % 10);
    assert [c1] == [] + [c1];
    DecimalValueSnoc([], c1);
    DecimalValueSnoc([c1], c2);
    assert [c1] + [c2] == Centavos(n);
    CentavoDigits(n);
  }

  /** Where the parts of an amount sit in its display. */
  lemma AmountParts(n: nat)
    ensures var r := Amount(n);
      && |r| >= 4 && r[|r| - 3] == ','
      && r[..|r| - 3] == Group(Decimal(n / 100)) && r[|r| - 2..] == Centavos(n)
  {
    var x := Decimal(n / 100);
    GroupLength(x);
    CommaParts(Group(x), Centavos(n));
  }

  /** Where a comma and two trailing characters sit after a head string. */
  lemma CommaParts(head: string, tail: string)
    requires |head| >= 1 && |tail| == 2
    ensures var r := head + "," + tail;
      && |r| >= 4 && r[|r| - 3] == ','
      && r[..|r| - 3] == head && r[|r| - 2..] == tail
  { }

  /**
    The amount's layout: the reais N / 100 grouped by `.`, a `,`, and the
    centavos N % 100 as exactly two digits.
   */
  lemma AmountLayout(n: nat)
    ensures var r := Amount(n);
      && |r| >= 4 && r[|r| - 3] == ','
      && AllDigits(r[|r| - 2..]) && DecimalValue(r[|r| - 2..]) == n % 100
      && WellGrouped(r[..|r| - 3]) && Digits(r[..|r| - 3]) == Decimal(n / 100)
      && NumberOf(r[..|r| - 3]) == n / 100
  {
    AmountParts(n);
    CentavoValue(n);
    DecimalRoundTrip(n / 100);
  }

  /** The layout of the display of an input with at least one digit. */
  lemma CurrencyLayout(value: string)
    requires HasDigit(value)
    ensures var n := NumberOf(value); var r := FormatCurrency(value);
      && |r| >= 4 && r[|r| - 3] == ','
      && AllDigits(r[|r| - 2..]) && DecimalValue(r[|r| - 2..]) == n % 100
      && WellGrouped(r[..|r| - 3]) && Digits(r[..|r| - 3]) == Decimal(n / 100)
      && NumberOf(r[..|r| - 3]) == n / 100
  {
    CurrencyOfDigits(value);
    AmountLayout(NumberOf(value));
  }

  /** The digits of an amount are those of its reais followed by its centavos. */
  lemma AmountDigits(n: nat)
    ensures Digits(Amount(n)) == Decimal(n / 100) + Centavos(n)
  {
    var g := Group(Decimal(n / 100));
    DigitsOfComma(g);
    CentavoValue(n);
    DigitsAppendDigits(g + ",", Centavos(n));
  }

  /** Reading the digits of an amount back gives the same count of centavos. */
  lemma AmountValue(n: nat)
    ensures HasDigit(Amount(n))
    ensures NumberOf(Amount(n)) == n
  {
    var x := Decimal(n / 100);
    var c1, c2 := DigitChar(n % 100 / 10), DigitChar(n % 10);
    AmountDigits(n);
    assert Digits(Amount(n)) == x + [c1] + [c2];
    DigitsEmpty(Amount(n));
    DecimalValueSnoc(x, c1);
    DecimalValueSnoc(x + [c1], c2);
    DecimalRoundTrip(n / 100);
    CentavoDigits(n);
    assert (n / 100) * 100 + n % 100 == n;
  }

  /** Reading the digits of the display back gives the same count of centavos. */
  lemma CurrencyRoundTrip(value: string)
    requires HasDigit(value)
    ensures HasDigit(FormatCurrency(value))
    ensures NumberOf(FormatCurrency(value)) == NumberOf(value)
  {
    CurrencyOfDigits(value);
    AmountValue(NumberOf(value));
  }

  /** Re-formatting an amount changes nothing, with or without digits. */
  lemma CurrencyIdempotent(value: string)
    ensures FormatCurrency(FormatCurrency(value)) == FormatCurrency(value)
  {
    DigitsEmpty(value);
    if HasDigit(value) {
      CurrencyRoundTrip(value);
      CurrencyOfDigits(FormatCurrency(value));
    } else {
      DigitsOfNaN();
    }
  }

  lemma ValueOf150000(v: string)
    requires v == "150000"
    ensures AllDigits(v) && DecimalValue(v) == 150000
  {
    assert v == "15000" + "0" && "15000" == "1500" + "0";
    assert "1500" == "150" + "0" && "150" == "15" + "0" && "15" == "1" + "5";
    assert DecimalValue("1") == 1;
    DecimalValueSnoc("1", '5');
    DecimalValueSnoc("15", '0');
    DecimalValueSnoc("150", '0');
    DecimalValueSnoc("1500", '0');
    DecimalValueSnoc("15000", '0');
  }

  lemma DecimalOf1500()
    ensures Decimal(1500) == "1500"
  {
    assert Decimal(1) == "1";
    assert Decimal(15) == Decimal(1) + "5";
    assert Decimal(150) == Decimal(15) + "0";
  }

  lemma GroupOf1500()
    ensures Group("1500") == "1.500"
  {
    assert "1500"[..1] == "1" && "1500"[1..] == "500";
  }

  /** Fifteen hundred reais typed as centavos. */
  lemma CurrencyExampleThousands(v: string)
    requires v == "150000"
    ensures FormatCurrency(v) == "1.500,00"
  {
    assert IsDigit(v[0]);
    ValueOf150000(v);
    DigitsOfDigitString(v);
    assert NumberOf(v) == 150000;
    CurrencyOfDigits(v);
    AmountOf150000();
  }

  lemma AmountOf150000()
    ensures Amount(150000) == "1.500,00"
  {
    DecimalOf1500();
    GroupOf1500();
    assert Centavos(150000) == "00";
  }

  /** A single digit is five centavos: the reais part still shows a 0. */
  lemma CurrencyExampleCentavos(v: string)
    requires v == "5"
    ensures FormatCurrency(v) == "0,05"
  {
    assert IsDigit(v[0]);
    DigitsOfDigitString(v);
    assert v == [] + ['5'];
    DecimalValueSnoc([], '5');
    assert NumberOf(v) == 5;
    CurrencyOfDigits(v);
    AmountOf5();
  }

  lemma AmountOf5()
    ensures Amount(5) == "0,05"
  {
    assert Decimal(0) == "0";
    assert Group("0") == "0";
    assert Centavos(5) == "05";
  }

  lemma ValueOf123456(v: string)
    requires v == "123456"
    ensures AllDigits(v) && DecimalValue(v) == 123456
  {
    assert v == "12345" + "6" && "12345" == "1234" + "5" && "1234" == "123" + "4";
    assert "123" == "12" + "3" && "12" == "1" + "2";
    assert DecimalValue("1") == 1;
    DecimalValueSnoc("1", '2');
    DecimalValueSnoc("12", '3');
    DecimalValueSnoc("123", '4');
    DecimalValueSnoc("1234", '5');
    DecimalValueSnoc("12345", '6');
  }

  lemma DecimalOf1234()
    ensures Decimal(1234) == "1234"
  {
    assert Decimal(1) == "1";
    assert Decimal(12) == Decimal(1) + "2";
    assert Decimal(123) == Decimal(12) + "3";
  }

  lemma GroupOf1234()
    ensures Group("1234") == "1.234"
  {
    assert "1234"[..1] == "1" && "1234"[1..] == "234";
  }

  /** An amount already displayed is read by its digits and shown as before. */
  lemma CurrencyExampleFormatted(v: string)
    requires v == "R$ 1.234,56"
    ensures FormatCurrency(v) == "1.234,56"
  {
    assert IsDigit(v[3]);
    DigitsOfDisplay(v);
    ValueOf123456("123456");
    assert NumberOf(v) == 123456;
    CurrencyOfDigits(v);
    AmountOf123456();
  }

  lemma AmountOf123456()
    ensures Amount(123456) == "1.234,56"
  {
    DecimalOf1234();
    GroupOf1234();
    assert Centavos(123456) == "56";
  }

  /** The digits of a displayed amount `q A.B,C` are those of its groups. */
  lemma DigitsOfAmountDisplay(q: string, a: string, b: string, c: string)
    requires forall i :: 0 <= i < |q| ==> !IsDigit(q[i])
    requires AllDigits(a) && AllDigits(b) && AllDigits(c)
    ensures Digits(q + a + "." + b + "," + c) == a + b + c
  {
    var s1 := q + a;
    assert Digits(s1) == a by {
      DigitsOfNonDigits(q);
      DigitsAppendDigits(q, a);
    }
    var s2 := s1 + ".";
    assert Digits(s2) == a by {
      DigitsAppendPunctuation(s1, ".");
    }
    var s3 := s2 + b;
    assert Digits(s3) == a + b by {
      DigitsAppendDigits(s2, b);
    }
    var s4 := s3 + ",";
    assert Digits(s4) == a + b by {
      DigitsOfComma(s3);
    }
    assert Digits(s4 + c) == a + b + c by {
      DigitsAppendDigits(s4, c);
    }
  }

  lemma DigitsOfDisplay(v: string)
    requires v == "R$ 1.234,56"
    ensures Digits(v) == "123456"
  {
    assert v == "R$ " + "1" + "." + "234" + "," + "56";
    DigitsOfAmountDisplay("R$ ", "1", "234", "56");
  }

  /** Eleven digits typed as they are get the mobile shape. */
  lemma MobileOfDigits(a: string, b: string, c: string)
    requires AllDigits(a + b + c) && |a| == 2 && |b| == 5 && |c| == 4
    ensures FormatPhone(a + b + c) == "(" + a + ") " + b + "-" + c
  {
    var v := a + b + c;
    DigitsOfDigitString(v);
    PhoneMobile(v);
    assert v[..2] == a && v[2..7] == b && v[7..11] == c && v[11..] == [];
  }

  /** An already formatted landline number `(AA) BBBB-C…` is left as it is. */
  lemma LandlineFormatted(a: string, b: string, c: string)
    requires AllDigits(a) && AllDigits(b) && AllDigits(c)
    requires |a| == 2 && |b| == 4 && 1 <= |c| <= 4
    ensures var v := "(" + a + ") " + b + "-" + c; FormatPhone(v) == v
  {
    var v := "(" + a + ") " + b + "-" + c;
    var d := a + b + c;
    assert Digits(v) == d by {
      DigitsOfLayout(a, b, c, []);
      assert v + [] == v;
    }
    PhoneLandline(v);
    assert d[..2] == a && d[2..6] == b && d[6..] == c;
  }
}
