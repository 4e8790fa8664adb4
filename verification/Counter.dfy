/** async/redis/codec.go and async/redis/intent_metadata.go: fences and revisions kept as decimal
    strings and incremented digit by digit, never as Lua numbers. */
module Counter {
  import opened Protocol

  const MaxText: string := "18446744073709551615"
  const MaxValue: nat := 18446744073709551615

  predicate IsDigit(ch: char) { '0' <= ch <= '9' }

  function Digit(ch: char): nat
    requires IsDigit(ch)
  {
    (ch - '0') as nat
  }

  function Text(d: nat): char
    requires d < 10
  {
    '0' + d as char
  }

  predicate Digits(s: string) { forall i | 0 <= i < |s| :: IsDigit(s[i]) }

  /** A decimal numeral without superfluous zeros. */
  predicate Canonical(s: string) { s != "" && Digits(s) && (|s| > 1 ==> s[0] != '0') }

  function Value(s: string): nat
    requires Digits(s)
  {
    if s == "" then 0 else 10 * Value(s[..|s| - 1]) + Digit(s[|s| - 1])
  }

  function Pow10(n: nat): nat { if n == 0 then 1 else 10 * Pow10(n - 1) }

  /** Lua's string order. */
  predicate Less(a: string, b: string) {
    (a < b) || exists i | 0 <= i < |a| && i < |b| :: a[..i] == b[..i] && a[i] < b[i]
  }

  /** The script's guard: malformed or exhausted counters are refused. */
  predicate Refused(s: string) {
    s == "" || !Digits(s) || (|s| > 1 && s[0] == '0') || |s| > 20 || (|s| == 20 && !Less(s, MaxText))
  }

  /** readIntent's validCounter. */
  predicate ValidCounter(s: string) {
    Canonical(s) && (|s| < 20 || (|s| == 20 && (s == MaxText || Less(s, MaxText))))
  }

  /** The digits from `i` on are incremented into `result`, up to a carry. */
  predicate Carried(value: string, i: nat, result: string, carry: nat)
    requires i <= |value| && Digits(value)
  {
    |result| == |value| - i && Digits(result) && carry <= 1 &&
    Value(value[i..]) + 1 == (if carry == 1 then Pow10(|result|) else 0) + Value(result) &&
    (carry == 1 ==> forall k | 0 <= k < |result| :: result[k] == '0') &&
    (carry == 0 ==> i < |value| && (result[0] == '0' ==> value[i] == '0'))
  }

  lemma CarryStep(value: string, i: nat, result: string, carry: nat)
    requires i < |value| && Digits(value) && Carried(value, i + 1, result, carry)
    ensures var digit := Digit(value[i]) + carry;
            if digit ==
                 10 then Carried(value, i, [Text(0)] + result, 1) else Carried(value, i, [Text(digit)] + result, 0)
  {
    var d := Digit(value[i]);
    assert value[i..] == [value[i]] + value[i + 1..];
    PrependValue(value[i], value[i + 1..]);
    PrependValue(Text(if d + carry == 10 then 0 else d + carry), result);
    PowStep(|result|);
    CarryValue(d, carry, Pow10(|result|), Value(value[i + 1..]), Value(result));
    hide Value, Pow10;
  }

  lemma CarryValue(d: nat, carry: nat, p: nat, rest: nat, made: nat)
    requires d < 10 && carry <= 1 && rest + 1 == (if carry == 1 then p else 0) + made
    ensures d * p + rest + 1 == if d + carry == 10 then 10 * p + (0 * p + made) else (d + carry) * p + made
  {
    if carry == 1 { assert (d + 1) * p == d * p + p; }
  }

  lemma PowStep(n: nat)
    ensures Pow10(n + 1) == 10 * Pow10(n)
  {
  }

  method Increment(value: string) returns (r: Result<string>)
    ensures r.Ok? <==> Canonical(value) && Value(value) < MaxValue
    ensures r.Ok? ==> Canonical(r.value) && Value(r.value) == Value(value) + 1
  {
    if Refused(value) {
      if Canonical(value) { GuardIsExact(value); }
      return Err(Unavailable);
    }
    GuardIsExact(value);
    hide Refused;
    var result, carry, i := "", 1, |value|;
    assert value[|value|..] == "";
    while i > 0
      invariant 0 <= i <= |value| && Carried(value, i, result, carry)
    {
      i := i - 1;
      CarryStep(value, i, result, carry);
      var digit := Digit(value[i]) + carry;
      if digit == 10 { digit, carry := 0, 1; } else { carry := 0; }
      result := [Text(digit)] + result;
    }
    assert value[0..] == value;
    if carry == 1 {
      PrependValue('1', result);
      result := "1" + result;
    }
    r := Ok(result);
  }

  /** The value of a numeral read from its first digit. */
  lemma {:induction false} PrependValue(ch: char, s: string)
    requires IsDigit(ch) && Digits(s)
    ensures Digits([ch] + s) && Value([ch] + s) == Digit(ch) * Pow10(|s|) + Value(s)
    decreases |s|
  {
    var t := [ch] + s;
    if s == "" {
      assert t[..0] == "";
    } else {
      var front := s[..|s| - 1];
      PrependValue(ch, front);
      assert t[..|t| - 1] == [ch] + front && t[|t| - 1] == s[|s| - 1];
      assert Digit(ch) * Pow10(|s|) == 10 * (Digit(ch) * Pow10(|front|));
    }
  }

  lemma {:induction false} ValueBound(s: string)
    requires Digits(s)
    ensures Value(s) < Pow10(|s|)
    decreases |s|
  {
    if s != "" { ValueBound(s[..|s| - 1]); }
  }

  /** A numeral without a leading zero is at least the power of ten of its length. */
  lemma LeadingDigit(s: string)
    requires Digits(s) && s != "" && s[0] != '0'
    ensures Pow10(|s| - 1) <= Value(s)
  {
    assert s == [s[0]] + s[1..];
    PrependValue(s[0], s[1..]);
    hide Value, Pow10;
    AtLeastOnce(Digit(s[0]), Pow10(|s| - 1));
  }

  lemma AtLeastOnce(d: nat, p: nat)
    requires d >= 1
    ensures d * p >= p
  {
  }

  lemma {:induction false} Pow10Grows(m: nat, n: nat)
    requires m <= n
    ensures Pow10(m) <= Pow10(n)
    decreases n
  {
    if m < n { Pow10Grows(m, n - 1); }
  }

  /** For numerals of one length, string order is numeric order. */
  lemma {:induction false} OrderIsNumeric(a: string, b: string)
    requires Digits(a) && Digits(b) && |a| == |b|
    ensures Less(a, b) <==> Value(a) < Value(b)
    ensures Value(a) == Value(b) ==> a == b
    decreases |a|
  {
    if a == "" {
      assert b == "";
    } else {
      var n := |a| - 1;
      var fa, fb := a[..n], b[..n];
      OrderIsNumeric(fa, fb);
      LessSnoc(a, b);
      LastDigit(a);
      LastDigit(b);
      assert a == fa + [a[n]] && b == fb + [b[n]];
      DigitOrder(Value(fa), Value(fb), a[n], b[n]);
      hide Value, Less;
    }
  }

  lemma DigitOrder(va: nat, vb: nat, x: char, y: char)
    requires IsDigit(x) && IsDigit(y)
    ensures 10 * va + Digit(x) < 10 * vb + Digit(y) <==> va < vb || (va == vb && x < y)
    ensures 10 * va + Digit(x) == 10 * vb + Digit(y) ==> va == vb && x == y
  {
  }

  lemma LastDigit(s: string)
    requires Digits(s) && s != ""
    ensures Value(s) == 10 * Value(s[..|s| - 1]) + Digit(s[|s| - 1])
  {
  }

  lemma LessSnoc(a: string, b: string)
    requires |a| == |b| > 0
    ensures var n := |a| - 1; Less(a, b) <==> Less(a[..n], b[..n]) || (a[..n] == b[..n] && a[n] < b[n])
  {
    var n := |a| - 1;
    var fa, fb := a[..n], b[..n];
    if Less(a, b) {
      var i :| 0 <= i < |a| && i < |b| && a[..i] == b[..i] && a[i] < b[i];
      if i < n { assert fa[..i] == a[..i] && fb[..i] == b[..i] && fa[i] < fb[i]; }
    }
    if Less(fa, fb) {
      var i :| 0 <= i < |fa| && i < |fb| && fa[..i] == fb[..i] && fa[i] < fb[i];
      assert a[..i] == fa[..i] && b[..i] == fb[..i] && a[i] < b[i];
    }
    if fa == fb && a[n] < b[n] { assert a[..n] == b[..n] && a[n] < b[n]; }
  }

  lemma MaxTextValue()
    ensures Digits(MaxText) && |MaxText| == 20 && Value(MaxText) == MaxValue
  {
    var m := MaxText;
    MaxTextDigits(m);
    assert m[..0] == "" && m[..20] == m;
    FiveMore(m, 0, 0);
    FiveMore(m, 5, 18446);
    FiveMore(m, 10, 1844674407);
    FiveMore(m, 15, 184467440737095);
    hide Value, Digits;
  }

  lemma MaxTextDigits(m: string)
    requires m == MaxText
    ensures |m| == 20 && Digits(m)
    ensures m[0] == '1' && m[1] == '8' && m[2] == '4' && m[3] == '4' && m[4] == '6' && m[5] == '7' && m[6] == '4' &&
            m[7] == '4' && m[8] == '0' && m[9] == '7'
    ensures m[10] == '3' && m[11] == '7' && m[12] == '0' && m[13] == '9' && m[14] == '5' && m[15] == '5' &&
            m[16] == '1' && m[17] == '6' && m[18] == '1' && m[19] == '5'
  {
  }

  lemma FiveMore(m: string, i: nat, v: nat)
    requires i + 5 <= |m| && Digits(m) && Value(m[..i]) == v
    ensures Value(m[..i + 5]) ==
            100000 * v + 10000 * Digit(m[i]) + 1000 * Digit(m[i + 1]) + 100 * Digit(m[i + 2]) + 10 * Digit(m[i + 3]) +
            Digit(m[i + 4])
  {
    Snoc(m, i, v);
    var v1 := Value(m[..i + 1]);
    Snoc(m, i + 1, v1);
    var v2 := Value(m[..i + 2]);
    Snoc(m, i + 2, v2);
    var v3 := Value(m[..i + 3]);
    Snoc(m, i + 3, v3);
    Snoc(m, i + 4, Value(m[..i + 4]));
    hide Value;
  }

  lemma Snoc(m: string, i: nat, v: nat)
    requires i < |m| && Digits(m) && Value(m[..i]) == v
    ensures Value(m[..i + 1]) == 10 * v + Digit(m[i])
  {
    assert m[..i + 1][..i] == m[..i];
  }

  /** The guard refuses exactly the malformed and the exhausted counters. */
  lemma GuardIsExact(s: string)
    requires Canonical(s)
    ensures Refused(s) <==> Value(s) >= MaxValue
  {
    MaxTextValue();
    ValueBound(s);
    if |s| < 20 {
      Pow10Grows(|s|, 19);
      assert Pow10(19) == 10000000000000000000 by { Powers(); }
    } else if |s| == 20 {
      OrderIsNumeric(s, MaxText);
    } else {
      LeadingDigit(s);
      Pow10Grows(20, |s| - 1);
      assert Pow10(20) == 100000000000000000000 by { Powers(); }
    }
  }

  lemma Powers()
    ensures Pow10(19) == 10000000000000000000 && Pow10(20) == 100000000000000000000
  {
    assert Pow10(5) == 100000;
    assert Pow10(10) == 10000000000;
    assert Pow10(15) == 1000000000000000;
    assert Pow10(19) == 10000000000000000000;
  }

  /** validCounter accepts exactly the canonical numerals of the uint64 values. */
  lemma ValidCounterIsUint64(s: string)
    requires Canonical(s)
    ensures ValidCounter(s) <==> Value(s) <= MaxValue
  {
    MaxTextValue();
    GuardIsExact(s);
    if |s| == 20 { OrderIsNumeric(s, MaxText); } else if |s| > 20 { Longer(MaxText, s); }
  }

  /** One numeral per value: an incremented counter is the numeral of the next number. */
  lemma CanonicalIsUnique(a: string, b: string)
    requires Canonical(a) && Canonical(b) && Value(a) == Value(b)
    ensures a == b
  {
    if |a| == |b| {
      OrderIsNumeric(a, b);
    } else if |a| < |b| {
      Longer(a, b);
    } else {
      Longer(b, a);
    }
  }

  lemma Longer(a: string, b: string)
    requires Canonical(a) && Canonical(b) && |a| < |b|
    ensures Value(a) < Value(b)
  {
    ValueBound(a);
    LeadingDigit(b);
    Pow10Grows(|a|, |b| - 1);
  }
}
