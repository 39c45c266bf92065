/** What command payloads mean: decimals by their digits, JSON objects by one of their fields. */
module Payloads {
  import opened Options
  import opened Text
  import opened Topics

  /** v with its decimal point moved k places to the right. */
  function Moved(v: real, k: nat): real {
    if k == 0 then v else 10.0 * Moved(v, k - 1)
  }

  lemma {:induction false} MovedSum(v: real, w: real, k: nat)
    ensures Moved(v + w, k) == Moved(v, k) + Moved(w, k)
  {
    if k > 0 { MovedSum(v, w, k - 1); }
  }

  lemma {:induction false} MovedTwice(v: real, k: nat)
    ensures Moved(10.0 * v, k) == 10.0 * Moved(v, k)
  {
    if k > 0 { MovedTwice(v, k - 1); }
  }

  /** Digits put behind others move them to the left. */
  lemma {:induction false} DigitsJoin(a: string, b: string)
    requires All(a, IsDigit) && All(b, IsDigit)
    ensures All(a + b, IsDigit) && DigitsValue(a + b) as real == Moved(DigitsValue(a) as real, |b|) + DigitsValue(b) as real
  {
    if b == "" {
      assert a + b == a;
    } else {
      var c := b[..|b| - 1];
      DigitsJoin(a, c);
      assert (a + b)[..|a + b| - 1] == a + c;
      assert IsDigit(b[|b| - 1]);
    }
  }

  lemma OneDigit(s: string)
    requires |s| == 1 && All(s, IsDigit)
    ensures DigitsValue(s) == s[0] as int - '0' as int
  {
    assert s[..0] == "" && DigitsValue("") == 0;
  }

  lemma DigitBefore(a: string, b: string, s: string)
    requires s == a + b && |a| == 1 && All(a, IsDigit) && All(b, IsDigit) && All(s, IsDigit)
    ensures DigitsValue(s) as real == Moved((s[0] as int - '0' as int) as real, |b|) + DigitsValue(b) as real
  {
    DigitsJoin(a, b);
    OneDigit(a);
  }

  lemma FirstDigit(s: string, rest: string)
    requires s != "" && All(s, IsDigit) && rest == s[1..]
    ensures All(rest, IsDigit)
    ensures DigitsValue(s) as real == Moved((s[0] as int - '0' as int) as real, |rest|) + DigitsValue(rest) as real
  {
    assert s == s[..1] + rest;
    DigitBefore(s[..1], rest, s);
  }

  /** Digits after the point count from the left. */
  lemma {:induction false} FractionIs(s: string)
    requires All(s, IsDigit)
    ensures Moved(Fraction(s), |s|) == DigitsValue(s) as real
  {
    if s != "" {
      var rest := s[1..];
      FractionIs(rest);
      FirstDigit(s, rest);
      var d := (s[0] as int - '0' as int) as real;
      MovedTwice(Fraction(s), |rest|);
      assert 10.0 * Fraction(s) == d + Fraction(rest);
      MovedSum(d, Fraction(rest), |rest|);
    }
  }

  lemma {:induction false} DotAt(whole: string, tail: string)
    requires All(whole, IsDigit) && (tail == "" || tail[0] == '.')
    ensures DotIndex(whole + tail) == |whole|
  {
    if whole != "" {
      assert IsDigit(whole[0]);
      assert (whole + tail)[1..] == whole[1..] + tail;
      DotAt(whole[1..], tail);
    } else {
      assert whole + tail == tail;
    }
  }

  /** Digits, and maybe a point with digits after it. */
  function Unsigned(whole: string, point: bool, frac: string): string {
    whole + if point then "." + frac else ""
  }

  predicate IsDecimal(whole: string, point: bool, frac: string) {
    All(whole, IsDigit) && All(frac, IsDigit) && whole + frac != "" && (point || frac == "")
  }

  /** Whole and fraction are found where they were put. */
  lemma DecimalSplits(whole: string, point: bool, frac: string)
    requires IsDecimal(whole, point, frac)
    ensures var s := Unsigned(whole, point, frac); var k := DotIndex(s);
            && s != "" && s[0] != '-' && s[0] != '+'
            && s[..k] == whole && (if k < |s| then s[k + 1..] else "") == frac
  {
    var tail := if point then "." + frac else "";
    var s := Unsigned(whole, point, frac);
    DotAt(whole, tail);
    assert s[..|whole|] == whole;
    if point { assert s[|whole| + 1..] == frac; }
    if whole != "" { assert IsDigit(whole[0]) && s[0] == whole[0]; }
  }

  /** A decimal reads as its whole part and its fraction: "735.4", "735." and ".4" alike. */
  lemma UnsignedParses(whole: string, point: bool, frac: string)
    requires IsDecimal(whole, point, frac)
    ensures var s := Unsigned(whole, point, frac);
            s != "" && s[0] != '-' && s[0] != '+' && ParseUnsigned(s) == Some(DigitsValue(whole) as real + Fraction(frac))
  {
    DecimalSplits(whole, point, frac);
  }

  /** A sign in front changes nothing but the sign. */
  lemma SignsParse(s: string)
    requires s != "" && s[0] != '-' && s[0] != '+'
    ensures ParseDecimal(s) == ParseUnsigned(s) && ParseDecimal("+" + s) == ParseUnsigned(s)
    ensures ParseUnsigned(s).Some? ==> ParseDecimal("-" + s) == Some(-ParseUnsigned(s).value)
  {
    assert ("+" + s)[1..] == s;
    assert ("-" + s)[1..] == s;
  }

  /** Its value is that of all its digits, with the point moved over those after it. */
  lemma AllDigitsCount(whole: string, frac: string)
    requires All(whole, IsDigit) && All(frac, IsDigit)
    ensures All(whole + frac, IsDigit)
    ensures Moved(DigitsValue(whole) as real + Fraction(frac), |frac|) == DigitsValue(whole + frac) as real
  {
    DigitsJoin(whole, frac);
    FractionIs(frac);
    MovedSum(DigitsValue(whole) as real, Fraction(frac), |frac|);
  }

  // Formatting

  /** No leading zeros. */
  lemma {:induction false} FormatIsShort(n: nat)
    ensures |FormatNat(n)| > 1 ==> FormatNat(n)[0] != '0'
    ensures n > 0 ==> FormatNat(n)[0] != '0'
  {
    if n >= 10 { FormatIsShort(n / 10); }
  }

  /** A formatted number, of either sign, is the shortest decimal that reads back as it. */
  lemma FormatReadsBack(v: int)
    ensures ParseDecimal(FormatTenthsMM(v)) == Some(v as real)
    ensures v >= 0 ==> FormatTenthsMM(v) == FormatNat(v)
    ensures |FormatTenthsMM(v)| > 1 ==> FormatTenthsMM(v)[0] != '0'
  {
    var n := if v < 0 then -v else v;
    var s := FormatNat(n);
    FormatIsShort(n);
    assert Fraction("") == 0.0;
    assert Unsigned(s, false, "") == s && s + "" == s;
    UnsignedParses(s, false, "");
    SignsParse(s);
  }

  /** The error a payload gets: blank, out of the desk's range, or neither a number nor an object. */
  lemma PayloadErrors(payload: string, decoded: Option<map<string, string>>)
    ensures ParseTenthsMM(payload, decoded) == Err(Empty) <==> TrimSpace(payload) == ""
    ensures var s := TrimSpace(payload);
            s != "" ==>
              match ParseNumber(s)
              case Some(v) => !(-0.5 < v < 65535.5) ==> ParseTenthsMM(payload, decoded) == Err(OutOfRange)
              case None => s[0] != '{' ==> ParseTenthsMM(payload, decoded) == Err(NotANumber)
  {
    var s := TrimSpace(payload);
    if s != "" {
      var v := ParseNumber(s);
      if v.Some? { RangeCheckIsExact(v.value); }
    }
  }

  /** Some numbers as they are written. */
  lemma FormatExamples()
    ensures FormatTenthsMM(0) == "0" && FormatTenthsMM(7350) == "7350" && FormatTenthsMM(-125) == "-125"
  {
    assert FormatNat(7) == "7" && FormatNat(73) == "73" && FormatNat(735) == "735" && FormatNat(7350) == "7350";
    assert FormatNat(1) == "1" && FormatNat(12) == "12" && FormatNat(125) == "125";
  }

  // JSON objects

  lemma {:induction false} TrimRightKeepsFirst(s: string, cut: char -> bool)
    requires s != "" && !cut(s[0])
    ensures TrimRight(s, cut) != "" && TrimRight(s, cut)[0] == s[0]
  {
    if |s| > 1 && cut(s[|s| - 1]) { TrimRightKeepsFirst(s[..|s| - 1], cut); }
  }

  /** A text that opens a JSON object is no number. */
  lemma BraceIsNoNumber(s: string)
    requires s != "" && s[0] == '{'
    ensures ParseNumber(s) == None
  {
    TrimRightKeepsFirst(s, IsQuote);
    var unquoted := Trim(s, IsQuote);
    TrimRightKeepsFirst(unquoted, IsSpace);
    var t := TrimSpace(unquoted);
    var k := DotIndex(t);
    assert k > 0 && !IsDigit(t[..k][0]);
  }

  /** The field that decides: value, height, position and base_height are looked for in this order. */
  predicate Decides(obj: map<string, string>, field: string) {
    && field in obj
    && (|| field == "value"
        || (field == "height" && "value" !in obj)
        || (field == "position" && "value" !in obj && "height" !in obj)
        || (field == "base_height" && "value" !in obj && "height" !in obj && "position" !in obj))
  }

  lemma FirstFieldDecides(obj: map<string, string>, field: string)
    requires Decides(obj, field)
    ensures FirstField(FIELDS, obj) == Some(obj[field])
  {
    FirstFieldUnfolds(obj);
  }

  lemma FirstFieldUnfolds(obj: map<string, string>)
    ensures FirstField(FIELDS, obj)
            == if "value" in obj then Some(obj["value"]) else if "height" in obj then Some(obj["height"])
               else if "position" in obj then Some(obj["position"])
               else if "base_height" in obj then Some(obj["base_height"]) else None
  {
    var three, two, one := ["height", "position", "base_height"], ["position", "base_height"], ["base_height"];
    assert one[1..] == [] && two[1..] == one && three[1..] == two && FIELDS[1..] == three;
    assert FirstField(one, obj) == if "base_height" in obj then Some(obj["base_height"]) else None;
    assert FirstField(two, obj) == if "position" in obj then Some(obj["position"]) else FirstField(one, obj);
    assert FirstField(three, obj) == if "height" in obj then Some(obj["height"]) else FirstField(two, obj);
  }

  predicate OpensObject(payload: string) {
    TrimSpace(payload) != "" && TrimSpace(payload)[0] == '{'
  }

  /**
   A JSON command means what its deciding field holds: a height there, bare or in double quotes, is the
   command; a field that is no number is an error, whatever the other fields hold; and so is an object
   with none of the four.
   */
  lemma ObjectMeansItsField(payload: string, obj: map<string, string>, field: string, n: nat)
    requires OpensObject(payload) && n <= 65535
    ensures Decides(obj, field) && (obj[field] == FormatTenthsMM(n) || obj[field] == "\"" + FormatTenthsMM(n) + "\"") ==>
              ParseTenthsMM(payload, Some(obj)) == Ok(n)
    ensures Decides(obj, field) && ParseNumber(Trim(TrimSpace(obj[field]), c => c == '"')) == None ==>
              ParseTenthsMM(payload, Some(obj)) == Err(NotANumber)
    ensures "value" !in obj && "height" !in obj && "position" !in obj && "base_height" !in obj ==>
              ParseTenthsMM(payload, Some(obj)) == Err(NoKnownField)
    ensures ParseTenthsMM(payload, None) == Err(BadJson)
  {
    BraceIsNoNumber(TrimSpace(payload));
    FirstFieldUnfolds(obj);
    if Decides(obj, field) {
      FirstFieldDecides(obj, field);
      FieldHolds(obj[field], n);
    }
  }

  /** A height, bare or in double quotes. */
  lemma FieldHolds(raw: string, n: nat)
    requires n <= 65535
    ensures raw == FormatTenthsMM(n) || raw == "\"" + FormatTenthsMM(n) + "\"" ==>
              ParseNumber(Trim(TrimSpace(raw), c => c == '"')) == Some(n as real) && CheckRange(n as real) == Ok(n)
  {
    var s := FormatNat(n);
    var quote := (c: char) => c == '"';
    assert IsDigit(s[0]) && IsDigit(s[|s| - 1]);
    WholeNumbersStay(n);
    if raw == s {
      TrimKeeps(raw, IsSpace);
      TrimKeeps(raw, quote);
    } else if raw == "\"" + s + "\"" {
      TrimKeeps(raw, IsSpace);
      TrimDrops("\"", s, "\"", quote);
    }
    QuotedDigitsParse("", "", s, "", "");
    assert "" + ("" + s + "") + "" == s;
  }
}
