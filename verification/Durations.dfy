// Duration strings such as "30d", "720h" or "4w", read to milliseconds.
module Durations {
  import opened Wrappers

  const I64_MAX: int := 0x7FFF_FFFF_FFFF_FFFF

  // `char::is_whitespace`: the White_Space property of Unicode.
  predicate IsSpace(c: char) {
    || c == ' ' || '\U{0009}' <= c <= '\U{000D}' || c == '\U{0085}' || c == '\U{00A0}' || c == '\U{1680}'
    || '\U{2000}' <= c <= '\U{200A}' || c == '\U{2028}' || c == '\U{2029}' || c == '\U{202F}' || c == '\U{205F}'
    || c == '\U{3000}'
  }

  // Its 25 code points.
  const WHITE_SPACE: seq<int> := [
    9, 10, 11, 12, 13, 32, 133, 160, 5760, 8192, 8193, 8194, 8195, 8196, 8197, 8198, 8199, 8200, 8201, 8202, 8232, 8233,
    8239, 8287, 12288]

  lemma SpaceIs(c: char)
    ensures IsSpace(c) <==> c as int in WHITE_SPACE
  {
  }

  predicate IsDigit(c: char) { '0' <= c <= '9' }

  function TrimStart(s: string): string {
    if s != [] && IsSpace(s[0]) then TrimStart(s[1..]) else s
  }

  function TrimEnd(s: string): string {
    if s != [] && IsSpace(s[|s| - 1]) then TrimEnd(s[..|s| - 1]) else s
  }

  function Trim(s: string): string { TrimEnd(TrimStart(s)) }

  predicate AllDigits(s: string) { forall i :: 0 <= i < |s| ==> IsDigit(s[i]) }

  function DigitsValue(s: string): nat
    requires AllDigits(s)
  {
    if s == [] then 0 else 10 * DigitsValue(s[..|s| - 1]) + (s[|s| - 1] as int - '0' as int)
  }

  // A signed 64-bit decimal, with an optional sign.
  function ParseI64(s: string): Option<int> {
    var negative := s != [] && s[0] == '-';
    var digits := if s != [] && (s[0] == '-' || s[0] == '+') then s[1..] else s;
    if digits == [] || !AllDigits(digits) then None
    else
      var n: int := DigitsValue(digits);
      var v := if negative then -n else n;
      if -I64_MAX - 1 <= v <= I64_MAX then Some(v) else None
  }

  function UnitMillis(unit: char): Option<int> {
    match unit
    case 's' => Some(1_000)
    case 'm' => Some(60_000)
    case 'h' => Some(3_600_000)
    case 'd' => Some(86_400_000)
    case 'w' => Some(604_800_000)
    case _ => None
  }

  function ParseDuration(s: string): Option<int> {
    var t := Trim(s);
    if t == [] then None
    else
      match (ParseI64(t[..|t| - 1]), UnitMillis(t[|t| - 1]))
      case (Some(n), Some(ms)) => Some(n * ms)
      case _ => None
  }

  // The decimal numeral of n, the other direction of ParseI64.
  function Decimal(n: nat): (s: string)
    ensures s != [] && AllDigits(s) && DigitsValue(s) == n
    ensures s[0] == '0' ==> s == "0"
  {
    var last := ['0' + (n % 10) as char];
    if n < 10 then last else
      var s := Decimal(n / 10) + last;
      assert s[..|s| - 1] == Decimal(n / 10);
      s
  }

  predicate AllSpace(s: string) { forall i :: 0 <= i < |s| ==> IsSpace(s[i]) }

  lemma {:induction false} TrimStartPadded(pad: string, t: string)
    requires AllSpace(pad) && t != [] && !IsSpace(t[0])
    ensures TrimStart(pad + t) == t
  {
    if pad == [] {
      assert pad + t == t;
    } else {
      assert (pad + t)[1..] == pad[1..] + t;
      TrimStartPadded(pad[1..], t);
    }
  }

  lemma {:induction false} TrimEndPadded(t: string, pad: string)
    requires AllSpace(pad) && t != [] && !IsSpace(t[|t| - 1])
    ensures TrimEnd(t + pad) == t
  {
    if pad == [] {
      assert t + pad == t;
    } else {
      assert (t + pad)[..|t + pad| - 1] == t + pad[..|pad| - 1];
      TrimEndPadded(t, pad[..|pad| - 1]);
    }
  }

  predicate Sign(s: string) { s == "" || s == "+" || s == "-" }

  function Signed(sign: string, digits: string): int
    requires AllDigits(digits)
  {
    var n: int := DigitsValue(digits);
    if sign == "-" then -n else n
  }

  predicate InI64(v: int) { -I64_MAX - 1 <= v <= I64_MAX }

  // A duration as it is written: white space, a sign, digits, a unit, white space.
  ghost predicate Spells(s: string, before: string, sign: string, digits: string, unit: char, after: string) {
    && AllSpace(before) && AllSpace(after) && Sign(sign) && digits != "" && AllDigits(digits)
    && UnitMillis(unit).Some?
    && s == before + (sign + digits + [unit]) + after
  }

  lemma SignedNumber(sign: string, digits: string)
    requires Sign(sign) && digits != "" && AllDigits(digits)
    ensures ParseI64(sign + digits) == if InI64(Signed(sign, digits)) then Some(Signed(sign, digits)) else None
  {
    assert IsDigit(digits[0]);
    assert sign != "" ==> (sign + digits)[1..] == digits;
    assert sign == "" ==> sign + digits == digits;
  }

  // What is written that way is read back, if the count fits 64 bits, and rejected if not.
  lemma SpelledDuration(s: string, before: string, sign: string, digits: string, unit: char, after: string)
    requires Spells(s, before, sign, digits, unit, after)
    ensures ParseDuration(s) ==
            if InI64(Signed(sign, digits)) then Some(Signed(sign, digits) * UnitMillis(unit).value) else None
  {
    var t := sign + digits + [unit];
    assert IsDigit(digits[0]);
    assert t[0] == if sign == "" then digits[0] else sign[0];
    assert before + t + after == before + (t + after);
    TrimStartPadded(before, t + after);
    TrimEndPadded(t, after);
    SignedNumber(sign, digits);
    assert t[..|t| - 1] == sign + digits;
  }

  lemma {:induction false} TrimStartLeaves(s: string) returns (before: string)
    ensures AllSpace(before) && s == before + TrimStart(s)
  {
    if s != [] && IsSpace(s[0]) {
      var rest := TrimStartLeaves(s[1..]);
      before := [s[0]] + rest;
      assert s == [s[0]] + (rest + TrimStart(s)) == before + TrimStart(s);
    } else {
      before := "";
    }
  }

  lemma {:induction false} TrimEndLeaves(s: string) returns (after: string)
    ensures AllSpace(after) && s == TrimEnd(s) + after
  {
    if s != [] && IsSpace(s[|s| - 1]) {
      var rest := TrimEndLeaves(s[..|s| - 1]);
      after := rest + [s[|s| - 1]];
      assert s == (TrimEnd(s) + rest) + [s[|s| - 1]] == TrimEnd(s) + after;
    } else {
      after := "";
    }
  }

  lemma ReadNumber(s: string) returns (sign: string, digits: string)
    requires ParseI64(s).Some?
    ensures Sign(sign) && digits != "" && AllDigits(digits) && s == sign + digits && InI64(Signed(sign, digits))
  {
    if s[0] == '-' || s[0] == '+' {
      sign, digits := [s[0]], s[1..];
    } else {
      sign, digits := "", s;
    }
  }

  lemma ReadTrimmed(t: string) returns (sign: string, digits: string)
    requires t != "" && ParseI64(t[..|t| - 1]).Some?
    ensures Sign(sign) && digits != "" && AllDigits(digits) && InI64(Signed(sign, digits))
    ensures t == sign + digits + [t[|t| - 1]]
  {
    sign, digits := ReadNumber(t[..|t| - 1]);
  }

  lemma Trimmed(s: string) returns (before: string, after: string)
    ensures AllSpace(before) && AllSpace(after) && s == before + Trim(s) + after
  {
    before := TrimStartLeaves(s);
    after := TrimEndLeaves(TrimStart(s));
    assert before + (Trim(s) + after) == before + Trim(s) + after;
  }

  lemma ReadDuration(s: string) returns (before: string, sign: string, digits: string, unit: char, after: string)
    requires ParseDuration(s).Some?
    ensures Spells(s, before, sign, digits, unit, after) && InI64(Signed(sign, digits))
  {
    var t := Trim(s);
    before, after := Trimmed(s);
    sign, digits := ReadTrimmed(t);
    unit := t[|t| - 1];
  }

  ghost predicate IsDuration(s: string) {
    exists before, sign, digits, unit, after ::
      Spells(s, before, sign, digits, unit, after) && InI64(Signed(sign, digits))
  }

  // Exactly these strings are durations.
  lemma DurationExact(s: string)
    ensures ParseDuration(s).Some? <==> IsDuration(s)
  {
    if ParseDuration(s).Some? {
      var before, sign, digits, unit, after := ReadDuration(s);
    } else if IsDuration(s) {
      var before, sign, digits, unit, after :|
        Spells(s, before, sign, digits, unit, after) && InI64(Signed(sign, digits));
      SpelledDuration(s, before, sign, digits, unit, after);
      assert false;
    }
  }

  // Every 64-bit count is read back from its numeral, whatever white space surrounds it.
  function Numeral(v: int): string { if v < 0 then "-" + Decimal(-v) else Decimal(v) }

  lemma DurationRoundTrip(before: string, v: int, unit: char, after: string)
    requires AllSpace(before) && AllSpace(after) && InI64(v) && UnitMillis(unit).Some?
    ensures ParseDuration(before + (Numeral(v) + [unit]) + after) == Some(v * UnitMillis(unit).value)
  {
    var sign, digits := if v < 0 then "-" else "", Decimal(if v < 0 then -v else v);
    assert Numeral(v) + [unit] == sign + digits + [unit];
    SpelledDuration(before + (Numeral(v) + [unit]) + after, before, sign, digits, unit, after);
  }

  // The units in terms of each other: a second is a thousand milliseconds, a minute sixty seconds,
  // an hour sixty minutes, a day twenty-four hours, a week seven days.
  const SECOND := 1000
  const MINUTE := 60 * SECOND
  const HOUR := 60 * MINUTE
  const DAY := 24 * HOUR
  const WEEK := 7 * DAY

  lemma UnitsRelate(unit: char)
    ensures UnitMillis(unit) ==
            if unit == 's' then Some(SECOND) else if unit == 'm' then Some(MINUTE) else if unit == 'h' then Some(HOUR)
            else if unit == 'd' then Some(DAY) else if unit == 'w' then Some(WEEK) else None
  {
  }

  // A count of a unit is read as that many milliseconds.
  lemma CountIs(n: int, unit: char)
    requires InI64(n) && unit in "smhdw"
    ensures ParseDuration(Numeral(n) + [unit]) ==
            Some(n * (if unit == 's' then SECOND else if unit == 'm' then MINUTE else if unit == 'h' then HOUR
                      else if unit == 'd' then DAY else WEEK))
  {
    DurationRoundTrip("", n, unit, "");
    UnitsRelate(unit);
    assert "" + (Numeral(n) + [unit]) + "" == Numeral(n) + [unit];
  }
}
