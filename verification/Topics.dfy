/** Topic names and command payloads. */
module Topics {
  import opened Options
  import opened Text

  const LEAF_HEIGHT := "height"
  const LEAF_BASE_HEIGHT := "base_height"
  const LEAF_AVAILABILITY := "availability"

  /** {base}/{deskID}/{leaf}: commandTopic and metricTopic are this same join. */
  function Topic(base: string, deskID: string, leaf: string): string {
    base + "/" + deskID + "/" + leaf
  }

  predicate OneLevel(s: string) {
    '/' !in s
  }

  /** The last slash splits a string in only one way. */
  lemma LastSlashSplits(a: string, x: string, b: string, y: string)
    requires OneLevel(x) && OneLevel(y) && a + "/" + x == b + "/" + y
    ensures a == b && x == y
  {
    var s := a + "/" + x;
    assert s[|a|] == '/' && s[|b|] == '/';
    assert a == s[..|a|] && b == s[..|b|];
    assert x == s[|a| + 1..] && y == s[|b| + 1..];
  }

  /** A topic determines the base, the desk and the leaf it was built from. */
  lemma TopicIsInjective(base: string, id: string, leaf: string, base': string, id': string, leaf': string)
    requires OneLevel(id) && OneLevel(leaf) && OneLevel(id') && OneLevel(leaf')
    requires Topic(base, id, leaf) == Topic(base', id', leaf')
    ensures base == base' && id == id' && leaf == leaf'
  {
    LastSlashSplits(base + "/" + id, leaf, base' + "/" + id', leaf');
    LastSlashSplits(base, id, base', id');
  }

  // Payloads

  const MAX_TENTHS_MM := 65535

  datatype Error = Empty | NotANumber | OutOfRange | BadJson | NoKnownField
  datatype Result<+T> = Ok(value: T) | Err(error: Error)

  predicate IsDigit(c: char) {
    '0' <= c <= '9'
  }

  predicate IsQuote(c: char) {
    c == '"' || c == '\''
  }

  function DigitsValue(s: string): nat
    requires All(s, IsDigit)
  {
    if s == "" then 0 else
      assert IsDigit(s[|s| - 1]);
      10 * DigitsValue(s[..|s| - 1]) + (s[|s| - 1] as int - '0' as int)
  }

  /** The value of digits after the point. */
  function Fraction(s: string): real
    requires All(s, IsDigit)
  {
    if s == "" then 0.0 else
      assert IsDigit(s[0]);
      ((s[0] as int - '0' as int) as real + Fraction(s[1..])) / 10.0
  }

  function DotIndex(s: string): (k: nat)
    ensures k <= |s| && (k < |s| ==> s[k] == '.') && '.' !in s[..k]
  {
    if s == "" || s[0] == '.' then 0 else 1 + DotIndex(s[1..])
  }

  function ParseUnsigned(s: string): Option<real> {
    var k := DotIndex(s);
    var whole, frac := s[..k], if k < |s| then s[k + 1..] else "";
    if whole + frac != "" && All(whole, IsDigit) && All(frac, IsDigit) then
      Some(DigitsValue(whole) as real + Fraction(frac))
    else None
  }

  /** strconv.ParseFloat on plain decimals, as the exact rational. */
  function ParseDecimal(s: string): Option<real> {
    if s != "" && (s[0] == '-' || s[0] == '+') then
      var v := ParseUnsigned(s[1..]);
      if v.Some? && s[0] == '-' then Some(-v.value) else v
    else ParseUnsigned(s)
  }

  function ParseNumber(s: string): Option<real> {
    var t := TrimSpace(Trim(s, IsQuote));
    if t == "" then None else ParseDecimal(t)
  }

  /** math.Round: to the nearest integer, halves away from zero. */
  function Round(v: real): int {
    if v >= 0.0 then (v + 0.5).Floor else -((-v + 0.5).Floor)
  }

  function CheckRange(v: real): (r: Result<int>)
    ensures r.Ok? ==> 0 <= r.value <= MAX_TENTHS_MM
  {
    var n := Round(v);
    if n < 0 || n > MAX_TENTHS_MM then Err(OutOfRange) else Ok(n)
  }

  const FIELDS := ["value", "height", "position", "base_height"]

  function FirstField(keys: seq<string>, obj: map<string, string>): Option<string> {
    if keys == [] then None else if keys[0] in obj then Some(obj[keys[0]]) else FirstField(keys[1..], obj)
  }

  /** The JSON form: the first known field there is decides, whether or not it is a number. */
  function ParseFields(decoded: Option<map<string, string>>): (r: Result<int>)
    ensures r.Ok? ==> 0 <= r.value <= MAX_TENTHS_MM
  {
    if decoded.None? then Err(BadJson) else
      var raw := FirstField(FIELDS, decoded.value);
      if raw.None? then Err(NoKnownField) else
        var v := ParseNumber(Trim(TrimSpace(raw.value), c => c == '"'));
        if v.None? then Err(NotANumber) else CheckRange(v.value)
  }

  function ParseTrimmed(s: string, decoded: Option<map<string, string>>): (r: Result<int>)
    requires s != ""
    ensures r.Ok? ==> 0 <= r.value <= MAX_TENTHS_MM
  {
    var v := ParseNumber(s);
    if v.Some? then CheckRange(v.value) else if s[0] == '{' then ParseFields(decoded) else Err(NotANumber)
  }

  /**
   A command payload. decoded is what a JSON decoder makes of it: the raw text of each field, or
   None when it is not an object. Only heights the desk's sixteen-bit fields can carry are accepted.
   */
  function ParseTenthsMM(payload: string, decoded: Option<map<string, string>>): (r: Result<int>)
    ensures r.Ok? ==> 0 <= r.value <= MAX_TENTHS_MM
  {
    var s := TrimSpace(payload);
    if s == "" then Err(Empty) else ParseTrimmed(s, decoded)
  }

  /**
   A number is accepted exactly when strictly between -0.5 and 65535.5, and then taken to the
   nearest tenth, halves up.
   */
  lemma RangeCheckIsExact(v: real)
    ensures CheckRange(v).Ok? <==> -0.5 < v < 65535.5
    ensures CheckRange(v).Ok? ==> -0.5 < CheckRange(v).value as real - v <= 0.5
  {
    var x := v + 0.5;
    var y := -v + 0.5;
    assert x.Floor as real <= x < x.Floor as real + 1.0;
    assert y.Floor as real <= y < y.Floor as real + 1.0;
  }

  /** So a payload that is a decimal is accepted by its value alone. */
  lemma DecimalPayloadIsExact(payload: string, decoded: Option<map<string, string>>, v: real)
    requires TrimSpace(payload) != "" && ParseNumber(TrimSpace(payload)) == Some(v)
    ensures ParseTenthsMM(payload, decoded).Ok? <==> -0.5 < v < 65535.5
  {
    RangeCheckIsExact(v);
  }

  // Formatting, and the way back

  function DigitChar(d: nat): char
    requires d < 10
  {
    ('0' as int + d) as char
  }

  /** strconv.Itoa. */
  function FormatTenthsMM(v: int): string {
    if v < 0 then "-" + FormatNat(-v) else FormatNat(v)
  }

  function FormatNat(v: nat): (s: string)
    ensures s != "" && All(s, IsDigit)
    ensures DigitsValue(s) == v
  {
    if v < 10 then [DigitChar(v)] else
      var s := FormatNat(v / 10) + [DigitChar(v % 10)];
      assert s[..|s| - 1] == FormatNat(v / 10);
      s
  }

  lemma NoDotInDigits(s: string)
    requires All(s, IsDigit)
    ensures DotIndex(s) == |s|
  {
    assert !IsDigit('.');
  }

  lemma DigitsParseAsTheirValue(s: string)
    requires s != "" && All(s, IsDigit)
    ensures ParseDecimal(s) == Some(DigitsValue(s) as real)
  {
    assert IsDigit(s[0]);
    NoDotInDigits(s);
    assert s[..|s|] == s && s + "" == s;
  }

  /** Inside the quotes, the padding goes and the digits stay. */
  lemma QuotedDigitsParse(q1: string, w2: string, s: string, w3: string, q2: string)
    requires All(w2, IsSpace) && All(w3, IsSpace) && All(q1, IsQuote) && All(q2, IsQuote)
    requires s != "" && All(s, IsDigit)
    ensures ParseNumber(q1 + (w2 + s + w3) + q2) == Some(DigitsValue(s) as real)
  {
    var inner := w2 + s + w3;
    EndsOf(w2, s, w3);
    SpacesAndDigitsAreNotQuotes(inner[0]);
    SpacesAndDigitsAreNotQuotes(inner[|inner| - 1]);
    TrimDrops(q1, inner, q2, IsQuote);
    assert IsDigit(s[0]) && IsDigit(s[|s| - 1]);
    TrimDrops(w2, s, w3, IsSpace);
    DigitsParseAsTheirValue(s);
  }

  lemma SpacesAndDigitsAreNotQuotes(c: char)
    requires IsSpace(c) || IsDigit(c)
    ensures !IsQuote(c)
  {
  }

  /** The two ends of padded digits are each a space or a digit. */
  lemma EndsOf(w2: string, s: string, w3: string)
    requires All(w2, IsSpace) && All(w3, IsSpace) && s != "" && All(s, IsDigit)
    ensures var inner := w2 + s + w3;
            && (if w2 == "" then IsDigit(inner[0]) else IsSpace(inner[0]))
            && (if w3 == "" then IsDigit(inner[|inner| - 1]) else IsSpace(inner[|inner| - 1]))
  {
    assert IsDigit(s[0]) && IsDigit(s[|s| - 1]);
    if w2 != "" { assert IsSpace(w2[0]); }
    if w3 != "" { assert IsSpace(w3[|w3| - 1]); }
  }

  /** Outside the quotes, only the white space goes. */
  lemma OuterSpaceTrimmed(w1: string, q1: string, inner: string, q2: string, w4: string)
    requires All(w1, IsSpace) && All(w4, IsSpace) && All(q1, IsQuote) && All(q2, IsQuote) && inner != ""
    requires q1 == "" ==> !IsSpace(inner[0])
    requires q2 == "" ==> !IsSpace(inner[|inner| - 1])
    ensures TrimSpace(w1 + (q1 + inner + q2) + w4) == q1 + inner + q2
  {
    var outer := q1 + inner + q2;
    if q1 != "" { assert IsQuote(q1[0]) && outer[0] == q1[0]; }
    if q2 != "" { assert IsQuote(q2[|q2| - 1]) && outer[|outer| - 1] == q2[|q2| - 1]; }
    TrimDrops(w1, outer, w4, IsSpace);
  }

  /** A whole number in range is taken as it is. */
  lemma WholeNumbersStay(v: nat)
    requires v <= MAX_TENTHS_MM
    ensures CheckRange(v as real) == Ok(v)
  {
    assert (v as real + 0.5).Floor == v;
  }

  /** The round trip when spaces next to missing quotes have been counted with the outer ones. */
  lemma FormattedHeightParsesNormal(n: nat, w1: string, q1: string, w2: string, w3: string, q2: string, w4: string,
                                    decoded: Option<map<string, string>>)
    requires n <= MAX_TENTHS_MM
    requires All(w1, IsSpace) && All(w2, IsSpace) && All(w3, IsSpace) && All(w4, IsSpace)
    requires All(q1, IsQuote) && All(q2, IsQuote)
    requires (q1 == "" ==> w2 == "") && (q2 == "" ==> w3 == "")
    ensures ParseTenthsMM(w1 + (q1 + (w2 + FormatNat(n) + w3) + q2) + w4, decoded) == Ok(n)
  {
    var s := FormatNat(n);
    EndsOf(w2, s, w3);
    OuterSpaceTrimmed(w1, q1, w2 + s + w3, q2, w4);
    QuotedDigitsParse(q1, w2, s, w3, q2);
    WholeNumbersStay(n);
  }

  lemma Regroup(w1: string, q1: string, w2: string, s: string, w3: string, q2: string, w4: string)
    ensures w1 + q1 + w2 + s + w3 + q2 + w4 == w1 + (q1 + (w2 + s + w3) + q2) + w4
    ensures w1 + q1 + w2 + s + w3 + q2 + w4 == (w1 + q1 + w2) + s + (w3 + q2 + w4)
  {
  }

  /**
   Round trip: however a formatted height is padded with white space and wrapped in quotes, the
   command parser gives the height back.
   */
  lemma FormattedHeightParses(n: nat, w1: string, q1: string, w2: string, w3: string, q2: string, w4: string,
                              decoded: Option<map<string, string>>)
    requires n <= MAX_TENTHS_MM
    requires All(w1, IsSpace) && All(w2, IsSpace) && All(w3, IsSpace) && All(w4, IsSpace)
    requires All(q1, IsQuote) && All(q2, IsQuote)
    ensures ParseTenthsMM(w1 + q1 + w2 + FormatTenthsMM(n) + w3 + q2 + w4, decoded) == Ok(n)
  {
    var s := FormatNat(n);
    var a1, b1 := if q1 == "" then w1 + w2 else w1, if q1 == "" then "" else w2;
    var a2, b2 := if q2 == "" then w3 + w4 else w4, if q2 == "" then "" else w3;
    Regroup(w1, q1, w2, s, w3, q2, w4);
    assert w1 + q1 + w2 + s + w3 + q2 + w4 == a1 + (q1 + (b1 + s + b2) + q2) + a2;
    FormattedHeightParsesNormal(n, a1, q1, b1, b2, q2, a2, decoded);
  }
}
