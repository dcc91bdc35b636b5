// How amounts are printed and read: base units carry six decimals, whole tokens are printed with a
// comma before every group of three digits.
module Amounts {
  import opened Evm

  const UNIT: nat := 1_000_000

  // ---- Decimal text of integers, as big.Int writes and reads it ----

  function Digit(d: nat): char
    requires d < 10
  {
    '0' + d as char
  }

  predicate IsDigit(c: char)
  {
    '0' <= c <= '9'
  }

  function DigitValue(c: char): nat
    requires IsDigit(c)
  {
    c as int - '0' as int
  }

  function Digits(n: nat): (s: string)
    ensures |s| > 0 && forall i | 0 <= i < |s| :: IsDigit(s[i])
  {
    if n < 10 then [Digit(n)] else Digits(n / 10) + [Digit(n % 10)]
  }

  function Text(n: int): string
  {
    if n < 0 then "-" + Digits(-n) else Digits(n)
  }

  predicate AllDigits(s: string)
  {
    |s| > 0 && forall i | 0 <= i < |s| :: IsDigit(s[i])
  }

  function Number(s: string): nat
    requires forall i | 0 <= i < |s| :: IsDigit(s[i])
  {
    if s == [] then 0 else 10 * Number(s[..|s| - 1]) + DigitValue(s[|s| - 1])
  }

  // Digits after an optional sign; anything else is refused.
  function Parse(s: string): Option<int>
  {
    if AllDigits(s) then Some(Number(s))
    else if |s| > 0 && s[0] == '-' && AllDigits(s[1..]) then
      var n: int := Number(s[1..]);
      Some(-n)
    else if |s| > 0 && s[0] == '+' && AllDigits(s[1..]) then Some(Number(s[1..]))
    else None
  }

  lemma {:induction false} NumberOfDigits(n: nat)
    ensures Number(Digits(n)) == n
    decreases n
  {
    if n >= 10 {
      NumberOfDigits(n / 10);
      assert Digits(n)[..|Digits(n)| - 1] == Digits(n / 10);
    }
  }

  lemma TextReadsBack(n: int)
    ensures Parse(Text(n)) == Some(n)
  {
    hide Digits, Number;
    if n < 0 {
      NumberOfDigits(-n);
      assert Text(n)[1..] == Digits(-n);
      assert !IsDigit(Text(n)[0]);
    } else {
      NumberOfDigits(n);
    }
  }

  // A sign in front of digits is read as such; any other character makes the text no number.
  lemma SignsRead(digits: string)
    requires AllDigits(digits)
    ensures Parse(digits).Some? && Parse(digits).value >= 0
    ensures Parse("+" + digits) == Parse(digits) && Parse("-" + digits) == Some(-Parse(digits).value)
  {
    assert ("+" + digits)[1..] == digits && ("-" + digits)[1..] == digits;
    assert !IsDigit(("+" + digits)[0]) && !IsDigit(("-" + digits)[0]);
  }

  lemma OthersAreRefused(s: string, i: nat)
    requires i < |s| && !IsDigit(s[i]) && !(i == 0 && (s[0] == '+' || s[0] == '-') && |s| > 1)
    ensures Parse(s) == None
  {
    if i > 0 && (s[0] == '-' || s[0] == '+') {
      assert s[1..][i - 1] == s[i];
    }
  }

  // Division that drops the remainder's sign with the remainder: toward zero.
  function Quo(a: int, b: nat): int
    requires b > 0
  {
    if a < 0 then -(-a / b) else a / b
  }

  // ---- Groups of three ----

  function Groups(s: string): (groups: seq<string>)
    ensures |groups| > 0
  {
    if |s| <= 3 then [s] else Groups(s[..|s| - 3]) + [s[|s| - 3..]]
  }

  function Joined(parts: seq<string>, separator: string): string
    requires |parts| > 0
  {
    if |parts| == 1 then parts[0] else parts[0] + separator + Joined(parts[1..], separator)
  }

  function WithoutCommas(s: string): string
  {
    if s == [] then [] else (if s[0] == ',' then [] else [s[0]]) + WithoutCommas(s[1..])
  }

  // The first group has one to three characters and every other exactly three.
  lemma {:induction false} GroupSizes(s: string)
    requires |s| > 0
    ensures |Groups(s)[0]| == (|s| - 1) % 3 + 1
    ensures Groups(s)[0] == s[..(|s| - 1) % 3 + 1]
    ensures forall i | 0 < i < |Groups(s)| :: |Groups(s)[i]| == 3
    decreases |s|
  {
    if |s| > 3 {
      GroupSizes(s[..|s| - 3]);
    }
  }

  lemma {:induction false} CommasVanish(s: string)
    requires ',' !in s
    ensures WithoutCommas(s) == s
    decreases |s|
  {
    if s != [] {
      CommasVanish(s[1..]);
    }
  }

  lemma {:induction false} WithoutCommasConcat(s: string, t: string)
    ensures WithoutCommas(s + t) == WithoutCommas(s) + WithoutCommas(t)
    decreases |s|
  {
    if s == [] {
      assert s + t == t;
    } else {
      assert (s + t)[1..] == s[1..] + t;
      WithoutCommasConcat(s[1..], t);
    }
  }

  lemma {:induction false} JoinedAppend(parts: seq<string>, last: string, separator: string)
    requires |parts| > 0
    ensures Joined(parts + [last], separator) == Joined(parts, separator) + separator + last
    decreases |parts|
  {
    if |parts| > 1 {
      assert (parts + [last])[1..] == parts[1..] + [last];
      JoinedAppend(parts[1..], last, separator);
    } else {
      assert (parts + [last])[1..] == [last];
    }
  }

  lemma CommaAndGroup(s: string, group: string)
    requires ',' !in group
    ensures WithoutCommas(s + "," + group) == WithoutCommas(s) + group
  {
    hide WithoutCommas;
    assert s + "," + group == s + ("," + group);
    WithoutCommasConcat(s, "," + group);
    LeadingComma(group);
    CommasVanish(group);
  }

  lemma LeadingComma(s: string)
    ensures WithoutCommas("," + s) == WithoutCommas(s)
  {
    assert ("," + s)[1..] == s;
  }

  // Taking the commas out gives the digits back.
  lemma {:induction false} GroupingReadsBack(s: string)
    requires ',' !in s
    ensures WithoutCommas(Joined(Groups(s), ",")) == s
    decreases |s|
  {
    hide WithoutCommas, Joined;
    if |s| <= 3 {
      CommasVanish(s);
      OnePart(s, ",");
    } else {
      var head, tail := s[..|s| - 3], s[|s| - 3..];
      GroupingReadsBack(head);
      JoinedAppend(Groups(head), tail, ",");
      CommaAndGroup(Joined(Groups(head), ","), tail);
      assert head + tail == s;
    }
  }

  lemma OnePart(s: string, separator: string)
    ensures Joined([s], separator) == s
  {}

  // ---- The three functions ----

  // A whole number of tokens in base units; there is no result for text that is no number.
  method Wfusd(whole: string) returns (base: Option<string>)
    ensures base.Some? <==> Parse(whole).Some?
    ensures base.Some? ==> Parse(base.value) == Some(Parse(whole).value * UNIT)
    ensures base.Some? ==> base.value == Text(Parse(whole).value * UNIT)
  {
    var n := Parse(whole);
    if n.None? {
      return None;
    }
    var units := n.value;
    units := units * UNIT;
    TextReadsBack(units);
    return Some(Text(units));
  }

  function Human(v: int): string
  {
    Joined(Groups(Text(Quo(v, UNIT))), ",")
  }

  // Text that is no number counts as zero.
  function Printed(base: string): string
  {
    Human(if Parse(base).Some? then Parse(base).value else 0) + " WFUSD"
  }

  method HumanWFUSD(v: int) returns (text: string)
    ensures text == Human(v)
  {
    hide Parse, Text, Quo, Joined;
    var q := Text(Quo(v, UNIT));
    var parts: seq<string> := [];
    while |q| > 3
      invariant Groups(Text(Quo(v, UNIT))) == Groups(q) + parts
    {
      parts := [q[|q| - 3..]] + parts;
      q := q[..|q| - 3];
    }
    parts := [q] + parts;
    text := Joined(parts, ",");
  }

  method FmtWFUSD(base: string) returns (text: string)
    ensures text == Printed(base)
  {
    hide Parse, Text, Quo, Joined;
    var parsed := Parse(base);
    var n := if parsed.Some? then parsed.value else 0;
    var s := Text(Quo(n, UNIT));
    var parts: seq<string> := [];
    while |s| > 3
      invariant Groups(Text(Quo(n, UNIT))) == Groups(s) + parts
    {
      parts := [s[|s| - 3..]] + parts;
      s := s[..|s| - 3];
    }
    parts := [s] + parts;
    text := Joined(parts, ",") + " WFUSD";
  }

  // ---- What is printed can be read back ----

  lemma {:induction false} DigitsHaveNoComma(n: int)
    ensures ',' !in Text(n)
  {
    assert forall c :: c in Text(n) ==> c == '-' || IsDigit(c);
  }

  lemma HumanReadsBack(v: int)
    ensures Parse(WithoutCommas(Human(v))) == Some(Quo(v, UNIT))
  {
    DigitsHaveNoComma(Quo(v, UNIT));
    GroupingReadsBack(Text(Quo(v, UNIT)));
    TextReadsBack(Quo(v, UNIT));
  }

  // Both formatters print the same figure.
  lemma FormattersAgree(v: int)
    ensures Printed(Text(v)) == Human(v) + " WFUSD"
  {
    TextReadsBack(v);
  }

  lemma WholeUnits(x: int)
    ensures Quo(x * UNIT, UNIT) == x
  {}

  // Text that stands for a whole number of tokens in base units is printed as that number.
  lemma WholeNumbersComeBack(base: string, x: int)
    requires Parse(base) == Some(x * UNIT)
    ensures Printed(base) == Human(x * UNIT) + " WFUSD" && Parse(WithoutCommas(Human(x * UNIT))) == Some(x)
  {
    hide Text, Parse, Human, Quo;
    WholeUnits(x);
    HumanReadsBack(x * UNIT);
  }

  // ---- Grouping, exactly ----

  // One to three digits, after a sign if there is one, and then three at a time.
  predicate WellGrouped(groups: seq<string>)
    requires |groups| > 0
  {
    var first := groups[0];
    var digits := if |first| > 0 && first[0] == '-' then first[1..] else first;
    1 <= |digits| <= 3 && AllDigits(digits) && forall i | 0 < i < |groups| :: |groups[i]| == 3
  }

  // Amounts that are not negative always come out well; a negative one does exactly when its digits do
  // not fill their groups, for then the sign is left in a group of its own.
  lemma GroupedExactlyWhen(v: int)
    ensures var q := Quo(v, UNIT);
      WellGrouped(Groups(Text(q))) <==> q >= 0 || |Digits(-q)| % 3 != 0
  {
    hide Digits, Groups, Quo, Text, WellGrouped;
    var q := Quo(v, UNIT);
    if q < 0 {
      NegativeGroups(Digits(-q));
      assert Text(q) == "-" + Digits(-q) by { SignFirst(q); }
    } else {
      DigitGroups(Digits(q));
      assert Text(q) == Digits(q) by { SignFirst(q); }
    }
  }

  lemma SignFirst(q: int)
    ensures Text(q) == if q < 0 then "-" + Digits(-q) else Digits(q)
  {}

  lemma DigitGroups(digits: string)
    requires AllDigits(digits)
    ensures WellGrouped(Groups(digits))
  {
    hide Groups;
    GroupSizes(digits);
  }

  // The first group is the sign and what is left of the digits by groups of three.
  lemma NegativeGroups(digits: string)
    requires AllDigits(digits)
    ensures WellGrouped(Groups("-" + digits)) <==> |digits| % 3 != 0
  {
    hide Groups;
    var s := "-" + digits;
    GroupSizes(s);
    assert s[0] == '-' && s[1..] == digits;
    assert Groups(s)[0] == s[..|digits| % 3 + 1];
    assert Groups(s)[0][1..] == digits[..|digits| % 3];
  }

  lemma NegativeGroupingFails()
    ensures Human(-123_000_000) == "-,123"
  {
    assert Digits(123) == "123";
    assert "-123"[..1] == "-" && "-123"[1..] == "123";
    assert Groups("-123") == Groups("-") + ["123"];
    assert Joined(["-", "123"], ",") == "-" + "," + Joined(["123"], ",");
  }
}
