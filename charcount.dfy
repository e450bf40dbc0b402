/**
 * The live character counter under the motivation textarea: it shows the
 * text's length and, past a fixed limit, a warning in red. The counter is
 * advisory only; saving never consults it.
 */
module CharCount {

  /** The advisory length limit of the motivation text. */
  const Limit: nat := 400

  /** "文字数：", the text the counter starts with. */
  const LabelPrefix: string := "文字数："

  /** " (⚠️ 400字を超えています)", appended to the counter when the text is over the limit. */
  const OverLimitNotice: string := " (\U{26A0}\U{FE0F} 400字を超えています)"

  /** The counter's style colour: `'red'` when over the limit, `'initial'` otherwise. */
  datatype Color = Red | Initial

  /** What the counter element shows: its text content and its colour. */
  datatype Counter = Counter(caption: string, color: Color)

  predicate IsDigit(c: char) {
    '0' <= c <= '9'
  }

  predicate AllDigits(s: string) {
    forall k :: 0 <= k < |s| ==> IsDigit(s[k])
  }

  function DigitChar(d: nat): (c: char)
    requires d < 10
    ensures IsDigit(c) && c as int - '0' as int == d
  {
    ('0' as int + d) as char
  }

  /** A non-negative integer as a template literal writes it: decimal digits without leading zeros. */
  function Decimal(n: nat): (r: string)
    ensures r != [] && AllDigits(r)
    ensures r[0] == '0' <==> n == 0
  {
    if n < 10 then [DigitChar(n)] else Decimal(n / 10) + [DigitChar(n % 10)]
  }

  /** The number a string of decimal digits denotes. */
  function DecimalValue(s: string): nat
    requires AllDigits(s)
  {
    if s == [] then 0 else DecimalValue(s[..|s| - 1]) * 10 + (s[|s| - 1] as int - '0' as int)
  }

  /** Reading the digits back gives the number that was written. */
  lemma {:induction false} DecimalRoundTrip(n: nat)
    ensures DecimalValue(Decimal(n)) == n
  {
    if n >= 10 {
      DecimalRoundTrip(n / 10);
      var r := Decimal(n);
      assert r[..|r| - 1] == Decimal(n / 10);
    }
  }

  /** `updateCharCount`: the counter for a textarea holding `text`. */
  function CounterFor(text: string): (c: Counter)
    ensures c.color == Red <==> |text| > Limit
  {
    var n := |text|;
    if n > Limit then Counter(LabelPrefix + Decimal(n) + OverLimitNotice, Red)
    else Counter(LabelPrefix + Decimal(n), Initial)
  }

  predicate EndsWith(s: string, suffix: string) {
    |suffix| <= |s| && s[|s| - |suffix|..] == suffix
  }

  /** The longest prefix of s made of decimal digits. */
  function LeadingDigits(s: string): (r: string)
    ensures AllDigits(r) && r <= s
  {
    if s != [] && IsDigit(s[0]) then [s[0]] + LeadingDigits(s[1..]) else []
  }

  /** The number a reader sees on a counter: the digits right after the prefix. */
  function ShownCount(caption: string): nat
    requires LabelPrefix <= caption
  {
    DecimalValue(LeadingDigits(caption[|LabelPrefix|..]))
  }

  lemma {:induction false} LeadingDigitsOf(d: string, rest: string)
    requires AllDigits(d)
    requires rest == [] || !IsDigit(rest[0])
    ensures LeadingDigits(d + rest) == d
  {
    if d == [] {
      assert d + rest == rest;
    } else {
      assert (d + rest)[0] == d[0];
      assert (d + rest)[1..] == d[1..] + rest;
      LeadingDigitsOf(d[1..], rest);
    }
  }

  /** The counter shows exactly the text's length, whether or not the warning follows it. */
  lemma CounterShowsLength(text: string)
    ensures LabelPrefix <= CounterFor(text).caption
    ensures ShownCount(CounterFor(text).caption) == |text|
  {
    var n := |text|;
    var caption := CounterFor(text).caption;
    var rest := if n > Limit then OverLimitNotice else [];
    assert caption == LabelPrefix + (Decimal(n) + rest);
    assert caption[|LabelPrefix|..] == Decimal(n) + rest;
    LeadingDigitsOf(Decimal(n), rest);
    DecimalRoundTrip(n);
  }

  /** The warning is shown if and only if the text is longer than the limit; exactly 400 is not flagged. */
  lemma WarningIffOverLimit(text: string)
    ensures EndsWith(CounterFor(text).caption, OverLimitNotice) <==> |text| > Limit
  {
    var n := |text|;
    var caption := CounterFor(text).caption;
    if n <= Limit {
      var d := Decimal(n);
      assert caption[|caption| - 1] == d[|d| - 1];
      assert !EndsWith(caption, OverLimitNotice);
    }
  }
}
