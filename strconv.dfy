/**
 * strconv.Atoi, the only check the dialer applies to a port text
 * (main.go:91-95, main.go:129-133, main.go:211). Go's int is 32 bits wide
 * on the mipsle target, so Atoi accepts an optional sign followed by one or
 * more decimal digits whose value lies in [-2^31, 2^31 - 1], and rejects
 * everything else. There is no 0..65535 port range check anywhere.
 */
module StrConv {

  const MinInt: int := -0x8000_0000
  const MaxInt: int := 0x7fff_ffff

  predicate IsDigit(c: char) {
    '0' <= c <= '9'
  }

  predicate AllDigits(s: string) {
    forall i :: 0 <= i < |s| ==> IsDigit(s[i])
  }

  /** The value of a digit string, accumulated left to right as `n = n*10 + d`. */
  function DigitsValue(s: string): nat
    requires AllDigits(s)
  {
    if s == [] then 0
    else DigitsValue(s[..|s| - 1]) * 10 + (s[|s| - 1] as int - '0' as int)
  }

  /** What strconv.Atoi returns: the number, or a *NumError naming the rejected text. */
  datatype AtoiResult = Int(value: int) | NumError(num: string)

  function Atoi(s: string): (r: AtoiResult)
    ensures r.Int? ==> MinInt <= r.value <= MaxInt
    ensures r.Int? ==> |s| > 0 && forall i :: 0 < i < |s| ==> IsDigit(s[i])
    ensures r.Int? ==> IsDigit(s[0]) || ((s[0] == '-' || s[0] == '+') && |s| > 1)
    ensures r.Int? ==> ':' !in s
    ensures r.NumError? ==> r.num == s
  {
    var signed := |s| > 0 && (s[0] == '-' || s[0] == '+');
    var digits := if signed then s[1..] else s;
    if |digits| == 0 || !AllDigits(digits) then NumError(s)
    else
      var magnitude: int := DigitsValue(digits);
      var v: int := if signed && s[0] == '-' then -magnitude else magnitude;
      if MinInt <= v <= MaxInt then
        assert forall i :: 0 < i < |s| ==> IsDigit(s[i]) by {
          forall i | 0 < i < |s| ensures IsDigit(s[i]) {
            if signed { assert s[i] == digits[i - 1]; } else { assert s[i] == digits[i]; }
          }
        }
        Int(v)
      else NumError(s)
  }

  function DigitChar(d: int): (c: char)
    requires 0 <= d < 10
    ensures IsDigit(c) && c as int - '0' as int == d
  {
    ('0' as int + d) as char
  }

  /** The shortest decimal text of a natural number, as strconv.Itoa writes it. */
  function Decimal(n: nat): (s: string)
    ensures |s| > 0 && AllDigits(s) && s[0] != '-' && s[0] != '+'
  {
    if n < 10 then [DigitChar(n)] else Decimal(n / 10) + [DigitChar(n % 10)]
  }

  /** strconv.Itoa. */
  function Itoa(n: int): (s: string)
    ensures |s| > 0
  {
    if n < 0 then "-" + Decimal(-n) else Decimal(n)
  }

  lemma {:induction false} DecimalValue(n: nat)
    ensures DigitsValue(Decimal(n)) == n
  {
    if n >= 10 {
      var s := Decimal(n);
      assert s[..|s| - 1] == Decimal(n / 10);
      DecimalValue(n / 10);
    }
  }

  /** An unsigned digit string is read as its value when that fits in an int, and rejected otherwise. */
  lemma AtoiUnsigned(d: string)
    requires |d| > 0 && AllDigits(d)
    ensures Atoi(d) == if DigitsValue(d) <= MaxInt then Int(DigitsValue(d)) else NumError(d)
  {
  }

  /** A digit string after a sign is read with that sign when it fits in an int, and rejected otherwise. */
  lemma AtoiSigned(sign: char, d: string)
    requires sign == '-' || sign == '+'
    requires |d| > 0 && AllDigits(d)
    ensures var v := if sign == '-' then -(DigitsValue(d) as int) else DigitsValue(d) as int;
            Atoi([sign] + d) == if MinInt <= v <= MaxInt then Int(v) else NumError([sign] + d)
  {
  }

  /** Atoi reads back every int that Itoa writes. */
  lemma AtoiItoa(n: int)
    requires MinInt <= n <= MaxInt
    ensures Atoi(Itoa(n)) == Int(n)
  {
    if n < 0 {
      DecimalValue(-n);
      AtoiSigned('-', Decimal(-n));
    } else {
      DecimalValue(n);
      AtoiUnsigned(Decimal(n));
    }
  }

  lemma {:induction false} LeadingZeroValue(d: string)
    requires AllDigits(d)
    ensures AllDigits("0" + d) && DigitsValue("0" + d) == DigitsValue(d)
  {
    if d != [] {
      var z := "0" + d;
      assert z[..|z| - 1] == "0" + d[..|d| - 1];
      LeadingZeroValue(d[..|d| - 1]);
    }
  }

  /**
   * A leading zero does not change what Atoi accepts nor the number it reads,
   * although the text differs: "080" and "80" both read as 80.
   */
  lemma AtoiLeadingZero(d: string)
    requires |d| > 0 && AllDigits(d)
    ensures Atoi("0" + d).Int? <==> Atoi(d).Int?
    ensures Atoi(d).Int? ==> Atoi("0" + d) == Atoi(d)
  {
    LeadingZeroValue(d);
    assert d[0] != '-' && d[0] != '+';
    assert ("0" + d)[0] == '0';
  }

  lemma ValueOf65536()
    ensures AllDigits("65536") && DigitsValue("65536") == 65536
  {
    assert DigitsValue("6") == 6;
    assert "65"[..1] == "6" && DigitsValue("65") == 65;
    assert "655"[..2] == "65" && DigitsValue("655") == 655;
    assert "6553"[..3] == "655" && DigitsValue("6553") == 6553;
    assert "65536"[..4] == "6553" && DigitsValue("65536") == 65536;
  }

  lemma ValueOf21474()
    ensures AllDigits("21474") && DigitsValue("21474") == 21474
  {
    assert DigitsValue("2") == 2;
    assert "21"[..1] == "2" && DigitsValue("21") == 21;
    assert "214"[..2] == "21" && DigitsValue("214") == 214;
    assert "2147"[..3] == "214" && DigitsValue("2147") == 2147;
    assert "21474"[..4] == "2147" && DigitsValue("21474") == 21474;
  }

  lemma ValueOfPastInt()
    ensures AllDigits("2147483648") && DigitsValue("2147483648") == 2147483648
  {
    ValueOf21474();
    assert "214748"[..5] == "21474" && DigitsValue("214748") == 214748;
    assert "2147483"[..6] == "214748" && DigitsValue("2147483") == 2147483;
    assert "21474836"[..7] == "2147483" && DigitsValue("21474836") == 21474836;
    assert "214748364"[..8] == "21474836" && DigitsValue("214748364") == 214748364;
    assert "2147483648"[..9] == "214748364" && DigitsValue("2147483648") == 2147483648;
  }

  /** Atoi follows Go's int, not the port range: numbers outside 0..65535 are accepted. */
  lemma AtoiNoPortRange()
    ensures Atoi("65536") == Int(65536)
    ensures Atoi("-1") == Int(-1)
    ensures Atoi("+53") == Int(53)
  {
    ValueOf65536();
    AtoiUnsigned("65536");
    assert DigitsValue("1") == 1;
    AtoiSigned('-', "1");
    assert ['-'] + "1" == "-1";
    assert "53"[..1] == "5" && DigitsValue("53") == 53;
    AtoiSigned('+', "53");
    assert ['+'] + "53" == "+53";
  }

  /** Atoi rejects the first number past Go's 32-bit int. */
  lemma AtoiRejectsPastInt()
    ensures Atoi("2147483648").NumError?
  {
    ValueOfPastInt();
    AtoiUnsigned("2147483648");
  }

  /** Atoi rejects an empty or sign-only text, letters, and a leading space. */
  lemma AtoiRejectsNonNumbers()
    ensures Atoi("").NumError? && Atoi("+").NumError? && Atoi("dns").NumError? && Atoi(" 53").NumError?
  {
  }
}
