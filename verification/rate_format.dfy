/**
  The number printer of crates/hanbova-core/src/rate.rs: thousands grouping and two decimals, and a parser written as
  its inverse.  Amounts are exact reals.
 */
module RateFormat {
  import opened Wrappers

  // ---------------------------------------------------------------- decimal digits

  predicate IsDigit(c: char) {
    '0' <= c <= '9'
  }

  predicate AllDigits(s: string) {
    forall i | 0 <= i < |s| :: IsDigit(s[i])
  }

  /** `to_string` of an unsigned integer. */
  function Digits(n: nat): string {
    if n < 10 then [Digit(n)] else Digits(n / 10) + [Digit(n % 10)]
  }

  function Digit(n: nat): (c: char)
    requires n < 10
    ensures IsDigit(c) && c as int - '0' as int == n
  {
    ('0' as int + n) as char
  }

  lemma {:induction false} DigitsAreDigits(n: nat)
    ensures Digits(n) != "" && AllDigits(Digits(n))
  {
    if n >= 10 {
      DigitsAreDigits(n / 10);
    }
  }

  function Value(s: string): nat
    requires AllDigits(s)
  {
    if s == "" then 0 else 10 * Value(s[..|s| - 1]) + (s[|s| - 1] as int - '0' as int)
  }

  lemma {:induction false} ValueInvertsDigits(n: nat)
    ensures Digits(n) != "" && AllDigits(Digits(n)) && Value(Digits(n)) == n
  {
    DigitsAreDigits(n);
    if n < 10 {
      assert [Digit(n)][..0] == "";
    } else {
      DigitsAreDigits(n / 10);
      ValueInvertsDigits(n / 10);
      assert Digits(n)[..|Digits(n)| - 1] == Digits(n / 10);
    }
  }

  // ---------------------------------------------------------------- grouping

  /** Groups of three from the right. */
  function Grouped(digits: string): string {
    if |digits| <= 3 then digits
    else Grouped(digits[..|digits| - 3]) + "," + digits[|digits| - 3..]
  }

  function Mark(remaining: nat): string {
    if remaining > 0 && remaining % 3 == 0 then "," else ""
  }

  /** What the loop has pushed after `i` digits. */
  function Pushed(digits: string, i: nat): string
    requires i <= |digits|
  {
    if i == 0 then "" else Pushed(digits, i - 1) + [digits[i - 1]] + Mark(|digits| - i)
  }

  lemma PushedNext(digits: string, i: nat)
    requires 0 < i <= |digits|
    ensures Pushed(digits, i) == Pushed(digits, i - 1) + [digits[i - 1]] + Mark(|digits| - i)
  {
  }

  lemma MarkShortened(n: nat, i: nat)
    requires i <= n - 3
    ensures Mark(n - i) == if i == n - 3 then "," else Mark(n - 3 - i)
  {
    assert n - i == n - 3 - i + 3;
  }

  lemma {:induction false} PushedShortened(digits: string, front: string, i: nat)
    requires |digits| > 3 && front == digits[..|digits| - 3] && i <= |front|
    ensures Pushed(digits, i) == Pushed(front, i) + (if i == |front| then "," else "")
  {
    if i > 0 {
      PushedShortened(digits, front, i - 1);
      PushedNext(digits, i);
      PushedNext(front, i);
      MarkShortened(|digits|, i);
      assert digits[i - 1] == front[i - 1];
    }
  }

  lemma PushedStep(digits: string, i: nat)
    requires 0 < i <= |digits| && |digits| - i < 3
    ensures Pushed(digits, i) == Pushed(digits, i - 1) + [digits[i - 1]]
  {
    assert Mark(|digits| - i) == "";
  }

  lemma AppendingThree(base: string, digits: string)
    requires |digits| > 3
    ensures var n := |digits|; base + [digits[n - 3]] + [digits[n - 2]] + [digits[n - 1]] == base + digits[n - 3..]
  {
  }

  lemma PushedTail(digits: string)
    requires |digits| > 3
    ensures Pushed(digits, |digits|) == Pushed(digits, |digits| - 3) + digits[|digits| - 3..]
  {
    PushedStep(digits, |digits| - 2);
    PushedStep(digits, |digits| - 1);
    PushedStep(digits, |digits|);
    AppendingThree(Pushed(digits, |digits| - 3), digits);
  }

  lemma GroupedNext(digits: string, front: string, back: string)
    requires |digits| > 3 && front == digits[..|digits| - 3] && back == digits[|digits| - 3..]
    ensures Grouped(digits) == Grouped(front) + "," + back
    ensures Pushed(digits, |digits|) == Pushed(front, |front|) + "," + back
  {
    PushedTail(digits);
    PushedShortened(digits, front, |front|);
  }

  /** From left to right with a test of the remaining length, or from the right by threes: the same text. */
  lemma {:induction false} PushedIsGrouped(digits: string)
    ensures Pushed(digits, |digits|) == Grouped(digits)
  {
    if |digits| <= 3 {
      PushedIsPrefix(digits, |digits|);
    } else {
      GroupedNext(digits, digits[..|digits| - 3], digits[|digits| - 3..]);
      PushedIsGrouped(digits[..|digits| - 3]);
    }
  }

  lemma {:induction false} PushedIsPrefix(digits: string, i: nat)
    requires i <= |digits| <= 3
    ensures Pushed(digits, i) == digits[..i]
  {
    if i > 0 {
      PushedIsPrefix(digits, i - 1);
    }
  }

  function WithoutCommas(s: string): string {
    if s == "" then ""
    else WithoutCommas(s[..|s| - 1]) + (if s[|s| - 1] == ',' then "" else [s[|s| - 1]])
  }

  lemma {:induction false} WithoutCommasAppends(s: string, t: string)
    ensures WithoutCommas(s + t) == WithoutCommas(s) + WithoutCommas(t)
  {
    if t == "" {
      assert s + t == s;
    } else {
      WithoutCommasAppends(s, t[..|t| - 1]);
      assert (s + t)[..|s + t| - 1] == s + t[..|t| - 1];
    }
  }

  lemma {:induction false} WithoutCommasKeepsDigits(s: string)
    requires AllDigits(s)
    ensures WithoutCommas(s) == s
  {
    if s != "" {
      WithoutCommasKeepsDigits(s[..|s| - 1]);
    }
  }

  lemma {:induction false} UngroupingInvertsGrouping(digits: string)
    requires AllDigits(digits)
    ensures WithoutCommas(Grouped(digits)) == digits
  {
    if |digits| <= 3 {
      WithoutCommasKeepsDigits(digits);
    } else {
      var (front, back) := (digits[..|digits| - 3], digits[|digits| - 3..]);
      UngroupingInvertsGrouping(front);
      WithoutCommasKeepsDigits(back);
      WithoutCommasAppends(Grouped(front) + ",", back);
      WithoutCommasAppends(Grouped(front), ",");
      assert WithoutCommas(",") == "" by {
        assert ","[..0] == "";
      }
      assert front + back == digits;
    }
  }

  /** The digits to the right of position `k`. */
  function DigitsRightOf(text: string, k: nat): nat
    requires k < |text|
  {
    |WithoutCommas(text[k + 1..])|
  }

  /** Only the last position has no digit to its right. */
  lemma SomeDigitFollows(text: string, k: nat)
    requires k + 1 < |text| && IsDigit(text[|text| - 1])
    ensures DigitsRightOf(text, k) > 0
  {
    var last := [text[|text| - 1]];
    assert text[k + 1..] == text[k + 1..|text| - 1] + last;
    WithoutCommasAppends(text[k + 1..|text| - 1], last);
    WithoutCommasKeepsDigits(last);
  }

  lemma ThreeMoreToTheRight(head: string, back: string, k: nat)
    requires k < |head| && AllDigits(back)
    ensures DigitsRightOf(head + "," + back, k) == DigitsRightOf(head, k) + |back|
  {
    assert (head + "," + back)[k + 1..] == head[k + 1..] + "," + back;
    WithoutCommasKeepsDigits(back);
    WithoutCommasAppends(head[k + 1..] + ",", back);
    WithoutCommasAppends(head[k + 1..], ",");
    assert ","[..0] == "";
  }

  lemma InTheLastGroup(head: string, back: string, k: nat)
    requires |head| <= k <= |head| + |back| && AllDigits(back)
    ensures DigitsRightOf(head + "," + back, k) == |head| + |back| - k
  {
    assert (head + "," + back)[k + 1..] == back[k - |head|..];
    WithoutCommasKeepsDigits(back[k - |head|..]);
  }

  /**
    A comma follows a digit and has a positive multiple of three digits to its right; a digit with as many is followed
    by one.
   */
  ghost predicate CommaBelongs(text: string, k: nat)
    requires k < |text|
  {
    var right := DigitsRightOf(text, k);
    if text[k] == ',' then k > 0 && IsDigit(text[k - 1]) && right > 0 && right % 3 == 0
    else IsDigit(text[k]) && (right > 0 && right % 3 == 0 <==> k + 1 < |text| && text[k + 1] == ',')
  }

  lemma BelongsInTheHead(head: string, back: string, k: nat)
    requires k < |head| && CommaBelongs(head, k) && IsDigit(head[|head| - 1])
    requires k + 1 < |head| ==> DigitsRightOf(head, k) > 0
    requires |back| == 3 && AllDigits(back)
    ensures CommaBelongs(head + "," + back, k)
  {
    var text := head + "," + back;
    ThreeMoreToTheRight(head, back, k);
    assert k > 0 ==> text[k - 1] == head[k - 1];
    if k + 1 < |head| {
      assert text[k + 1] == head[k + 1];
    } else {
      assert head[k + 1..] == "";
      assert text[k + 1] == ',';
    }
  }

  lemma BelongsInTheLastGroup(head: string, back: string, k: nat)
    requires 0 < |head| <= k <= |head| + 3 && IsDigit(head[|head| - 1])
    requires |back| == 3 && AllDigits(back)
    ensures CommaBelongs(head + "," + back, k)
  {
    var text := head + "," + back;
    InTheLastGroup(head, back, k);
    assert text[|head|] == ',' && text[|head| - 1] == head[|head| - 1];
    assert k > |head| ==> text[k] == back[k - |head| - 1];
    assert k > |head| && k + 1 < |text| ==> text[k + 1] == back[k - |head|];
  }

  ghost predicate WellGrouped(text: string) {
    && text != ""
    && IsDigit(text[|text| - 1])
    && forall k | 0 <= k < |text| :: CommaBelongs(text, k)
  }

  lemma WellGroupedExtends(head: string, back: string)
    requires WellGrouped(head) && |back| == 3 && AllDigits(back)
    ensures WellGrouped(head + "," + back)
  {
    var text := head + "," + back;
    assert text[|text| - 1] == back[2];
    forall k | 0 <= k < |text|
      ensures CommaBelongs(text, k)
    {
      if k < |head| {
        if k + 1 < |head| {
          SomeDigitFollows(head, k);
        }
        BelongsInTheHead(head, back, k);
      } else {
        BelongsInTheLastGroup(head, back, k);
      }
    }
  }

  lemma ShortIsWellGrouped(digits: string)
    requires 0 < |digits| <= 3 && AllDigits(digits)
    ensures WellGrouped(digits)
  {
    forall k | 0 <= k < |digits|
      ensures CommaBelongs(digits, k)
    {
      WithoutCommasKeepsDigits(digits[k + 1..]);
    }
  }

  lemma {:induction false} GroupedIsWellGrouped(digits: string)
    requires AllDigits(digits) && digits != ""
    ensures WellGrouped(Grouped(digits))
  {
    if |digits| <= 3 {
      ShortIsWellGrouped(digits);
    } else {
      GroupedIsWellGrouped(digits[..|digits| - 3]);
      WellGroupedExtends(Grouped(digits[..|digits| - 3]), digits[|digits| - 3..]);
    }
  }

  /** What a text with its commas in place reads like from the left. */
  function Scan(digits: string): string {
    if digits == "" then "" else [digits[0]] + Mark(|digits| - 1) + Scan(digits[1..])
  }

  lemma WithoutCommasFrom(text: string, k: nat)
    requires k < |text|
    ensures var rest := WithoutCommas(text[k + 1..]);
            WithoutCommas(text[k..]) == if text[k] == ',' then rest else [text[k]] + rest
  {
    assert text[k..] == [text[k]] + text[k + 1..];
    WithoutCommasAppends([text[k]], text[k + 1..]);
    assert [text[k]][..0] == "";
  }

  lemma ScanNext(c: char, rest: string)
    ensures Scan([c] + rest) == [c] + Mark(|rest|) + Scan(rest)
  {
    assert ([c] + rest)[1..] == rest;
  }

  predicate CommaAt(text: string, k: nat) {
    k < |text| && text[k] == ','
  }

  /** Where the next digit stands, if there is one. */
  function NextDigit(text: string, k: nat): nat {
    if CommaAt(text, k + 1) then k + 2 else k + 1
  }

  lemma MarkFollows(text: string, k: nat)
    requires WellGrouped(text) && k < |text| && IsDigit(text[k])
    ensures Mark(DigitsRightOf(text, k)) == if CommaAt(text, k + 1) then "," else ""
    ensures var next := NextDigit(text, k);
            next <= |text| && (next < |text| ==> IsDigit(text[next]))
  {
    assert CommaBelongs(text, k);
    if CommaAt(text, k + 1) {
      assert CommaBelongs(text, k + 1);
    }
    assert k + 1 < |text| ==> CommaBelongs(text, k + 1);
    assert k + 2 < |text| ==> CommaBelongs(text, k + 2);
  }

  lemma SplitsBeforeComma(text: string, k: nat)
    requires CommaAt(text, k + 1)
    ensures text[k..] == [text[k]] + "," + text[k + 2..]
  {
  }

  lemma SplitsBeforeDigit(text: string, k: nat)
    requires k < |text|
    ensures text[k..] == [text[k]] + "" + text[k + 1..]
  {
  }

  lemma ReadsBeforeComma(text: string, k: nat)
    requires k < |text| && IsDigit(text[k]) && CommaAt(text, k + 1)
    ensures WithoutCommas(text[k..]) == [text[k]] + WithoutCommas(text[k + 2..])
    ensures DigitsRightOf(text, k) == |WithoutCommas(text[k + 2..])|
  {
    WithoutCommasFrom(text, k);
    WithoutCommasFrom(text, k + 1);
  }

  lemma ReadsBeforeDigit(text: string, k: nat)
    requires k < |text| && IsDigit(text[k])
    ensures WithoutCommas(text[k..]) == [text[k]] + WithoutCommas(text[k + 1..])
  {
    WithoutCommasFrom(text, k);
  }

  lemma ReadOneDigit(text: string, k: nat, next: nat)
    requires k < |text| && IsDigit(text[k]) && next == NextDigit(text, k) <= |text|
    requires Mark(DigitsRightOf(text, k)) == if CommaAt(text, k + 1) then "," else ""
    ensures var rest := WithoutCommas(text[next..]);
            WithoutCommas(text[k..]) == [text[k]] + rest && text[k..] == [text[k]] + Mark(|rest|) + text[next..]
  {
    if CommaAt(text, k + 1) {
      ReadsBeforeComma(text, k);
      SplitsBeforeComma(text, k);
    } else {
      ReadsBeforeDigit(text, k);
      SplitsBeforeDigit(text, k);
    }
  }

  lemma {:induction false} WellGroupedIsScan(text: string, k: nat)
    requires WellGrouped(text) && k <= |text| && (k < |text| ==> IsDigit(text[k]))
    ensures text[k..] == Scan(WithoutCommas(text[k..]))
    decreases |text| - k
  {
    if k < |text| {
      var next := NextDigit(text, k);
      MarkFollows(text, k);
      ReadOneDigit(text, k, next);
      ScanNext(text[k], WithoutCommas(text[next..]));
      WellGroupedIsScan(text, next);
    }
  }

  /** The commas are where they belong and nowhere else, and that determines the text. */
  lemma GroupedExactly(digits: string, text: string)
    requires AllDigits(digits) && digits != ""
    ensures text == Grouped(digits) <==> WellGrouped(text) && WithoutCommas(text) == digits
  {
    GroupedIsWellGrouped(digits);
    UngroupingInvertsGrouping(digits);
    WellGroupedFromTheLeft(Grouped(digits));
    if WellGrouped(text) {
      WellGroupedFromTheLeft(text);
    }
  }

  lemma WellGroupedFromTheLeft(text: string)
    requires WellGrouped(text)
    ensures text == Scan(WithoutCommas(text))
  {
    assert CommaBelongs(text, 0);
    WellGroupedIsScan(text, 0);
    assert text[0..] == text;
  }

  lemma GroupingIsInjective(m: nat, n: nat)
    ensures Grouped(Digits(m)) == Grouped(Digits(n)) ==> m == n
  {
    WholePart(m);
    WholePart(n);
    ValueInvertsDigits(m);
    ValueInvertsDigits(n);
  }

  // ---------------------------------------------------------------- the printer

  const U64_MAX: nat := 0xFFFF_FFFF_FFFF_FFFF

  function Abs(x: real): real {
    if x < 0.0 then -x else x
  }

  /** `as u64` of a value that is not negative: the fraction is cut off, the rest saturates. */
  function AsU64(x: real): nat
    requires x >= 0.0
  {
    if x.Floor > U64_MAX then U64_MAX else x.Floor
  }

  /** `round()` of a value that is not negative: half away from zero. */
  function Round(x: real): nat
    requires x >= 0.0
  {
    (x + 0.5).Floor
  }

  function Whole(num: real): nat {
    AsU64(Abs(num))
  }

  function Hundredths(num: real): nat {
    AsU64(Round((Abs(num) - Whole(num) as real) * 100.0) as real)
  }

  function AtLeastTwo(digits: string): string {
    if |digits| < 2 then "0" + digits else digits
  }

  function FormatNumber(num: real): string {
    Grouped(Digits(Whole(num))) + "." + AtLeastTwo(Digits(Hundredths(num)))
  }

  /** The arithmetic of the printer: sign dropped, rounded half up, the integer part cut off and held to 64 bits. */
  lemma PartsExactly(num: real)
    ensures Abs(num) >= 0.0 && (Abs(num) == num || Abs(num) == -num)
    ensures Abs(num) < 18_446_744_073_709_551_616.0 ==> Whole(num) as real <= Abs(num) < Whole(num) as real + 1.0
    ensures Abs(num) >= 18_446_744_073_709_551_616.0 ==> Whole(num) == 18_446_744_073_709_551_615
    ensures Round(Abs(num)) as real - 0.5 <= Abs(num) < Round(Abs(num)) as real + 0.5
  {
  }

  method FormatNumberWithCommas(num: real) returns (text: string)
    ensures text == FormatNumber(num)
  {
    var integerPart := Whole(num);
    var decimalPart := Hundredths(num);
    var chars := Digits(integerPart);
    var result := "";
    for i := 0 to |chars|
      invariant result == Pushed(chars, i)
    {
      PushedNext(chars, i + 1);
      result := result + [chars[i]];
      var remaining := |chars| - 1 - i;
      if remaining > 0 && remaining % 3 == 0 {
        result := result + ",";
      }
    }
    PushedIsGrouped(chars);
    text := result + "." + AtLeastTwo(Digits(decimalPart));
  }

  // ---------------------------------------------------------------- reading it back

  /** The hundredths that a text with exactly two decimals stands for. */
  function ParseAmount(text: string): Option<nat> {
    if |text| < 4 || text[|text| - 3] != '.' then None
    else
      var whole := WithoutCommas(text[..|text| - 3]);
      var cents := text[|text| - 2..];
      if whole != "" && AllDigits(whole) && AllDigits(cents) then Some(100 * Value(whole) + Value(cents)) else None
  }

  lemma ParseSplits(head: string, tail: string, whole: nat, cents: nat)
    requires head != "" && WithoutCommas(head) == Digits(whole) && |tail| == 2 && AllDigits(tail)
             && Value(tail) == cents
    ensures ParseAmount(head + "." + tail) == Some(100 * whole + cents)
  {
    var text := head + "." + tail;
    ValueInvertsDigits(whole);
    assert text[..|text| - 3] == head;
    assert text[|text| - 2..] == tail;
  }

  lemma WholePart(n: nat)
    ensures Grouped(Digits(n)) != "" && WithoutCommas(Grouped(Digits(n))) == Digits(n)
  {
    DigitsAreDigits(n);
    UngroupingInvertsGrouping(Digits(n));
  }

  lemma ParsesTwoDecimals(whole: nat, cents: nat)
    requires cents < 100
    ensures ParseAmount(Grouped(Digits(whole)) + "." + AtLeastTwo(Digits(cents))) == Some(100 * whole + cents)
  {
    WholePart(whole);
    TwoDigits(cents);
    ParseSplits(Grouped(Digits(whole)), AtLeastTwo(Digits(cents)), whole, cents);
  }

  lemma TwoDigits(cents: nat)
    requires cents < 100
    ensures var tail := AtLeastTwo(Digits(cents)); |tail| == 2 && AllDigits(tail) && Value(tail) == cents
  {
    ValueInvertsDigits(cents);
    var d := Digits(cents);
    if cents < 10 {
      assert ("0" + d)[..1] == "0";
      assert "0"[..0] == "" && d[..0] == "";
    } else {
      assert |Digits(cents / 10)| == 1;
    }
  }

  lemma {:induction false} ThreeDigits(n: nat)
    requires n >= 100
    ensures |Digits(n)| >= 3
  {
    assert n / 10 >= 10;
    DigitsAreDigits(n / 10 / 10);
    assert Digits(n / 10) == Digits(n / 10 / 10) + [Digit(n / 10 % 10)];
  }

  lemma RejectsLongTail(head: string, tail: string)
    requires |tail| >= 3 && AllDigits(tail)
    ensures ParseAmount(head + "." + tail) == None
  {
    assert (head + "." + tail)[|head| + 1 + |tail| - 3] == tail[|tail| - 3];
  }

  /** Three decimals, which no amount has. */
  lemma RejectsMoreDecimals(head: string, cents: nat)
    requires cents >= 100
    ensures ParseAmount(head + "." + AtLeastTwo(Digits(cents))) == None
  {
    ThreeDigits(cents);
    DigitsAreDigits(cents);
    RejectsLongTail(head, Digits(cents));
  }

  lemma RoundedParts(num: real)
    requires Abs(num) - Whole(num) as real < 0.995
    ensures Hundredths(num) < 100 && 100 * Whole(num) + Hundredths(num) == Round(Abs(num) * 100.0)
  {
  }

  /**
    The printed text stands for the amount, rounded to hundredths and stripped of its sign, exactly if the fraction
    does not round up to a full unit; otherwise it has three decimals or more.
   */
  lemma FormatRoundTripsExactly(num: real)
    ensures ParseAmount(FormatNumber(num)) == Some(Round(Abs(num) * 100.0)) <==> Abs(num) - Whole(num) as real < 0.995
    ensures ParseAmount(FormatNumber(num)) == None <==> Abs(num) - Whole(num) as real >= 0.995
  {
    if Abs(num) - Whole(num) as real < 0.995 {
      RoundedParts(num);
      ParsesTwoDecimals(Whole(num), Hundredths(num));
    } else {
      RejectsMoreDecimals(Grouped(Digits(Whole(num))), Hundredths(num));
    }
  }

  lemma CarryIsLost()
    ensures FormatNumber(0.999) == "0.100"
  {
    assert Whole(0.999) == 0;
    assert Hundredths(0.999) == 100;
    assert Digits(100) == "100";
  }

  lemma RoundTripOf(x: real, n: nat)
    requires Abs(x) - Whole(x) as real < 0.995 && Round(Abs(x) * 100.0) == n
    ensures ParseAmount(FormatNumber(x)) == Some(n)
  {
    FormatRoundTripsExactly(x);
  }

  lemma DivModAsReals(n: nat, x: real)
    requires x == n as real / 100.0
    ensures x == (n / 100) as real + (n % 100) as real / 100.0
    ensures 0.0 <= (n % 100) as real / 100.0 <= 0.99
  {
    assert n == 100 * (n / 100) + n % 100;
    assert n as real == 100.0 * (n / 100) as real + (n % 100) as real;
  }

  lemma FloorOfSum(whole: nat, fraction: real)
    requires 0.0 <= fraction < 1.0
    ensures (whole as real + fraction).Floor == whole
  {
  }

  lemma RoundOfWhole(n: nat)
    ensures Round(n as real) == n
  {
    FloorOfSum(n, 0.5);
  }

  lemma WholeOfHundredths(n: nat, x: real)
    requires n / 100 <= U64_MAX && x == n as real / 100.0
    ensures x >= 0.0 && Whole(x) == n / 100
  {
    DivModAsReals(n, x);
    FloorOfSum(n / 100, (n % 100) as real / 100.0);
  }

  lemma HundredthsSplit(n: nat, x: real)
    requires n / 100 <= U64_MAX && x == n as real / 100.0
    ensures Abs(x) - Whole(x) as real < 0.995 && Round(Abs(x) * 100.0) == n
  {
    WholeOfHundredths(n, x);
    DivModAsReals(n, x);
    assert Abs(x) * 100.0 == n as real;
    RoundOfWhole(n);
  }

  /** Amounts in exact hundredths are printed without loss, and different ones differently. */
  lemma HundredthsRoundTrip(n: nat)
    requires n < 1_844_674_407_370_955_161_600
    ensures ParseAmount(FormatNumber(n as real / 100.0)) == Some(n)
  {
    HundredthsSplit(n, n as real / 100.0);
    RoundTripOf(n as real / 100.0, n);
  }
}
