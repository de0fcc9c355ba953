/** Document numbers: a counter per prefix and year, printed with at least six digits. */
module Numbering {

  /** The decimal digits of a number, without leading zeros. */
  function Digits(n: nat): string {
    if n < 10 then [Digit(n)] else Digits(n / 10) + [Digit(n % 10)]
  }

  function Digit(d: nat): char
    requires d < 10
  {
    '0' + (d as char)
  }

  function Pad(s: string, width: nat): string
    decreases width - |s|
  {
    if width <= |s| then s else Pad("0" + s, width)
  }

  function Parse(s: string): nat {
    if s == [] then 0
    else
      var d := s[|s| - 1];
      10 * Parse(s[..|s| - 1]) + if '0' <= d <= '9' then (d - '0') as nat else 0
  }

  function KeyFor(prefix: string, year: nat): string {
    prefix + "-" + Digits(year)
  }

  function NumberFor(key: string, value: nat): string {
    key + "-" + Pad(Digits(value), 6)
  }

  /** The counters of one tenant; one request takes one number. */
  class NumberSequence {
    var values: map<string, nat>

    constructor ()
      ensures values == map[]
    {
      values := map[];
    }

    method NextDocumentNumber(prefix: string, year: nat) returns (number: string)
      modifies this
      ensures Drawn(old(values), Draw(prefix, year), values, number)
    {
      var key := KeyFor(prefix, year);
      if key in values {
        values := values[key := values[key] + 1];
      } else {
        values := values[key := 1];
      }
      number := NumberFor(key, values[key]);
    }
  }

  function Advance(values: map<string, nat>, key: string): map<string, nat> {
    values[key := (if key in values then values[key] else 0) + 1]
  }

  datatype Draw = Draw(prefix: string, year: nat)

  /** Between `before` and `after` one number was drawn, and it is `number`. */
  predicate Drawn(before: map<string, nat>, draw: Draw, after: map<string, nat>, number: string) {
    var key := KeyFor(draw.prefix, draw.year);
    after == Advance(before, key) && number == NumberFor(key, after[key])
  }

  function Counters(draws: seq<Draw>): map<string, nat> {
    if draws == [] then map[]
    else
      var n := |draws| - 1;
      Advance(Counters(draws[..n]), KeyFor(draws[n].prefix, draws[n].year))
  }

  /** The counter value request `i` of a run is given. */
  function ValueAt(draws: seq<Draw>, i: nat): nat
    requires i < |draws|
  {
    var key := KeyFor(draws[i].prefix, draws[i].year);
    var before := Counters(draws[..i]);
    (if key in before then before[key] else 0) + 1
  }

  /** A run of draws from empty counters gives exactly these numbers. */
  lemma {:induction false} DrawnInRun(draws: seq<Draw>, i: nat)
    requires i < |draws|
    ensures Drawn(Counters(draws[..i]), draws[i], Counters(draws[..i + 1]), NumberAt(draws, i))
  {
    assert draws[..i + 1][..i] == draws[..i];
  }

  /** The number request `i` of a run is given. */
  function NumberAt(draws: seq<Draw>, i: nat): string
    requires i < |draws|
  {
    NumberFor(KeyFor(draws[i].prefix, draws[i].year), ValueAt(draws, i))
  }

  predicate AllDigits(s: string) {
    forall i :: 0 <= i < |s| ==> '0' <= s[i] <= '9'
  }

  lemma {:induction false} DigitsAreDigits(n: nat)
    ensures AllDigits(Digits(n)) && Digits(n) != []
  {
    if 10 <= n {
      DigitsAreDigits(n / 10);
    }
  }

  lemma {:induction false} PadAddsZeros(s: string, width: nat)
    requires AllDigits(s)
    ensures AllDigits(Pad(s, width)) && Parse(Pad(s, width)) == Parse(s)
    ensures |Pad(s, width)| == if width <= |s| then |s| else width
    decreases width - |s|
  {
    if |s| < width {
      PadAddsZeros("0" + s, width);
      LeadingZero(s);
    }
  }

  lemma {:induction false} LeadingZero(s: string)
    ensures Parse("0" + s) == Parse(s)
  {
    if s == [] {
      assert Parse("0"[..0]) == 0;
    } else {
      assert ("0" + s)[..|s|] == "0" + s[..|s| - 1];
      LeadingZero(s[..|s| - 1]);
    }
  }

  lemma {:induction false} ParseDigits(n: nat)
    ensures Parse(Digits(n)) == n
  {
    if n < 10 {
      assert Digits(n)[..0] == [];
    } else {
      ParseDigits(n / 10);
      assert Digits(n)[..|Digits(n)| - 1] == Digits(n / 10);
    }
  }

  /** The printed suffix gives back the counter, whatever its size. */
  lemma {:induction false} SuffixParsesBack(value: nat)
    ensures Parse(Pad(Digits(value), 6)) == value
    ensures AllDigits(Pad(Digits(value), 6)) && 6 <= |Pad(Digits(value), 6)|
  {
    DigitsAreDigits(value);
    PadAddsZeros(Digits(value), 6);
    ParseDigits(value);
  }

  /** The last dash of a string ending in a dash and digits is the one before those digits. */
  lemma {:induction false} LastDash(a: string, b: string, s: string, i: nat)
    requires s == a + "-" + b && AllDigits(b)
    ensures s[|a|] == '-' && (|a| < i < |s| ==> s[i] != '-')
  {
    if |a| < i < |s| {
      assert s[i] == b[i - |a| - 1];
    }
  }

  /** What follows the last dash of a string can be told from the string. */
  lemma {:induction false} SplitAtLastDash(a: string, b: string, c: string, d: string)
    requires AllDigits(b) && AllDigits(d)
    requires a + "-" + b == c + "-" + d
    ensures a == c && b == d
  {
    var s := a + "-" + b;
    LastDash(a, b, s, |c|);
    LastDash(c, d, s, |a|);
    assert |a| == |c|;
    assert s[..|a|] == a && s[..|c|] == c;
    assert s[|a| + 1..] == b && s[|c| + 1..] == d;
  }

  lemma {:induction false} KeyIsInjective(a: Draw, b: Draw)
    requires KeyFor(a.prefix, a.year) == KeyFor(b.prefix, b.year)
    ensures a == b
  {
    DigitsAreDigits(a.year);
    DigitsAreDigits(b.year);
    SplitAtLastDash(a.prefix, Digits(a.year), b.prefix, Digits(b.year));
    ParseDigits(a.year);
    ParseDigits(b.year);
  }

  /** A number tells its prefix, its year and its counter. */
  lemma {:induction false} NumberIsInjective(p: string, year: nat, value: nat, p': string, year': nat, value': nat)
    requires NumberFor(KeyFor(p, year), value) == NumberFor(KeyFor(p', year'), value')
    ensures p == p' && year == year' && value == value'
  {
    SuffixParsesBack(value);
    SuffixParsesBack(value');
    SplitAtLastDash(KeyFor(p, year), Pad(Digits(value), 6), KeyFor(p', year'), Pad(Digits(value'), 6));
    KeyIsInjective(Draw(p, year), Draw(p', year'));
  }

  /** How often a run asks for a number of this prefix and year. */
  function TimesAsked(draws: seq<Draw>, draw: Draw): nat {
    if draws == [] then 0 else TimesAsked(draws[..|draws| - 1], draw) + if draws[|draws| - 1] == draw then 1 else 0
  }

  lemma {:induction false} CountersCount(draws: seq<Draw>, draw: Draw)
    ensures var key := KeyFor(draw.prefix, draw.year);
            (if key in Counters(draws) then Counters(draws)[key] else 0) == TimesAsked(draws, draw)
  {
    if draws != [] {
      var n := |draws| - 1;
      CountersCount(draws[..n], draw);
      if KeyFor(draws[n].prefix, draws[n].year) == KeyFor(draw.prefix, draw.year) {
        KeyIsInjective(draws[n], draw);
      }
    }
  }

  /** Numbers count up from one without gaps: each is one more than the requests for its prefix and year before it. */
  lemma {:induction false} NoGaps(draws: seq<Draw>, i: nat)
    requires i < |draws|
    ensures ValueAt(draws, i) == TimesAsked(draws[..i], draws[i]) + 1
  {
    CountersCount(draws[..i], draws[i]);
  }

  /** The first sales order of 2026. */
  lemma {:induction false} FirstNumber()
    ensures NumberAt([Draw("SO", 2026)], 0) == "SO-2026-000001"
  {
    assert [Draw("SO", 2026)][..0] == [];
    assert Digits(2026) == "2026" by {
      assert Digits(20) == "20";
    }
    assert "0" + "1" == "01" && "0" + "01" == "001" && "0" + "001" == "0001" && "0" + "0001" == "00001" && "0" + "00001" == "000001";
    assert Pad("0001", 6) == "000001";
    assert Pad("01", 6) == "000001";
  }

  /** The counter of a key never runs backwards, and every request for the key pushes it on. */
  lemma {:induction false} CountersGrow(draws: seq<Draw>, i: nat, j: nat)
    requires i < j <= |draws|
    ensures var key := KeyFor(draws[i].prefix, draws[i].year);
            key in Counters(draws[..j]) && ValueAt(draws, i) <= Counters(draws[..j])[key]
    decreases j
  {
    assert draws[..j][..j - 1] == draws[..j - 1];
    if i < j - 1 {
      CountersGrow(draws, i, j - 1);
    }
  }

  /** Over any run, no number is given twice, across prefixes and years. */
  lemma {:induction false} NumbersAreDistinct(draws: seq<Draw>, i: nat, j: nat)
    requires i < j < |draws|
    ensures NumberAt(draws, i) != NumberAt(draws, j)
  {
    CountersGrow(draws, i, j);
    if NumberAt(draws, i) == NumberAt(draws, j) {
      NumberIsInjective(draws[i].prefix, draws[i].year, ValueAt(draws, i),
                        draws[j].prefix, draws[j].year, ValueAt(draws, j));
      assert false;
    }
  }

  // ---------- String order ----------

  /** Order of strings by their first difference. */
  predicate Before(a: string, b: string) {
    if b == [] then false
    else if a == [] then true
    else a[0] < b[0] || (a[0] == b[0] && Before(a[1..], b[1..]))
  }

  lemma {:induction false} BeforeAfterPrefix(p: string, a: string, b: string)
    ensures Before(p + a, p + b) <==> Before(a, b)
  {
    if p == [] {
      assert p + a == a && p + b == b;
    } else {
      assert (p + a)[1..] == p[1..] + a && (p + b)[1..] == p[1..] + b;
      BeforeAfterPrefix(p[1..], a, b);
    }
  }

  function Power(n: nat): nat {
    if n == 0 then 1 else 10 * Power(n - 1)
  }

  lemma {:induction false} ShiftDigits(first: nat, w: nat, middle: nat, last: nat)
    ensures 10 * (first * w + middle) + last == first * (10 * w) + (10 * middle + last)
  {
  }

  /** Reading a numeral from its first digit. */
  lemma {:induction false} ParseFirst(s: string)
    requires AllDigits(s) && s != []
    ensures Parse(s) == (s[0] - '0') as nat * Power(|s| - 1) + Parse(s[1..])
  {
    if |s| == 1 {
      assert s[..0] == [] && s[1..] == [];
    } else {
      var n := |s| - 1;
      var middle := Parse(s[1..n]);
      ParseFirst(s[..n]);
      assert s[..n][1..] == s[1..n] && s[1..][..n - 1] == s[1..n];
      assert s[1..][n - 1] == s[n];
      ShiftDigits((s[0] - '0') as nat, Power(n - 1), middle, (s[n] - '0') as nat);
    }
  }

  lemma {:induction false} ParseBelowPower(s: string)
    requires AllDigits(s)
    ensures Parse(s) < Power(|s|)
  {
    if s != [] {
      ParseBelowPower(s[..|s| - 1]);
    }
  }

  /** Of two numerals of one length the larger first digit wins; with equal first digits the rest decides. */
  lemma {:induction false} FirstDigitDecides(x: nat, y: nat, w: nat, p: nat, q: nat)
    requires p < w && q < w
    ensures x * w + p < y * w + q <==> x < y || (x == y && p < q)
  {
    if x < y {
      assert (x + 1) * w <= y * w;
    } else if y < x {
      assert (y + 1) * w <= x * w;
    }
  }

  /** Numerals of one length are ordered like their values. */
  lemma {:induction false} SameLengthOrder(a: string, b: string)
    requires AllDigits(a) && AllDigits(b) && |a| == |b|
    ensures Before(a, b) <==> Parse(a) < Parse(b)
  {
    if a != [] {
      ParseFirst(a);
      ParseFirst(b);
      ParseBelowPower(a[1..]);
      ParseBelowPower(b[1..]);
      FirstDigitDecides((a[0] - '0') as nat, (b[0] - '0') as nat, Power(|a| - 1), Parse(a[1..]), Parse(b[1..]));
      SameLengthOrder(a[1..], b[1..]);
    }
  }

  lemma {:induction false} DigitsLength(n: nat, width: nat)
    requires n < Power(width) && 0 < width
    ensures |Digits(n)| <= width
  {
    if 10 <= n {
      assert Power(width) == 10 * Power(width - 1);
      DigitsLength(n / 10, width - 1);
    }
  }

  /** Issue order is string order for all counters up to a limit exactly if the limit has at most six digits. */
  lemma {:induction false} StringOrderExactly(key: string, limit: nat)
    ensures (forall a: nat, b: nat :: a < b <= limit ==> Before(NumberFor(key, a), NumberFor(key, b))) <==> limit <= 999999
  {
    if limit <= 999999 {
      forall a: nat, b: nat | a < b <= limit ensures Before(NumberFor(key, a), NumberFor(key, b)) {
        SixDigitsOrder(key, a, b);
      }
    } else {
      SeventhDigitBreaksOrder(key);
    }
  }

  lemma {:induction false} SixDigitsOrder(key: string, a: nat, b: nat)
    requires a < b <= 999999
    ensures Before(NumberFor(key, a), NumberFor(key, b))
  {
    assert Power(6) == 1000000 by {
      assert Power(3) == 1000;
    }
    DigitsLength(a, 6);
    DigitsLength(b, 6);
    DigitsAreDigits(a);
    DigitsAreDigits(b);
    PadAddsZeros(Digits(a), 6);
    PadAddsZeros(Digits(b), 6);
    SuffixParsesBack(a);
    SuffixParsesBack(b);
    SameLengthOrder(Pad(Digits(a), 6), Pad(Digits(b), 6));
    BeforeAfterPrefix(key + "-", Pad(Digits(a), 6), Pad(Digits(b), 6));
  }

  /** The millionth number of a year sorts before its predecessor. */
  lemma {:induction false} SeventhDigitBreaksOrder(key: string)
    ensures !Before(NumberFor(key, 999999), NumberFor(key, 1000000))
  {
    assert Digits(999999) == "999999" by {
      assert Digits(99) == "99";
      assert Digits(9999) == "9999";
    }
    assert Digits(1000000) == "1000000" by {
      assert Digits(10) == "10";
      assert Digits(1000) == "1000";
      assert Digits(100000) == "100000";
    }
    BeforeAfterPrefix(key + "-", Pad(Digits(999999), 6), Pad(Digits(1000000), 6));
  }
}
