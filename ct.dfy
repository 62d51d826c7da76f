/** Ct values and the detection call derived from them.

    DB Molecular's layouts read a lab's Ct text, drop its dots, right-pad
    it with zeros to five digits, read it in thousandths and divide once
    more by ten when that exceeds 50, then round to two decimals
    (`np.round`, half to even) and print it as a Python float. Here a Ct
    is held exactly, as a whole number of hundredths.

    check_detection reads a Ct text back as a call: positive for a
    number above zero, negative for zero. */
module Ct {
  import opened Wrappers
  import opened Text

  // ---- decimal digit strings ----

  lemma AllDigitsAppend(s: string, t: string)
    requires AllDigits(s) && AllDigits(t)
    ensures AllDigits(s + t)
  {
    forall i | 0 <= i < |s + t| ensures IsDigit((s + t)[i]) {
      if i < |s| { assert (s + t)[i] == s[i]; } else { assert (s + t)[i] == t[i - |s|]; }
    }
  }

  lemma ShiftArith(a: int, p: int, x: int, l: int)
    ensures (a * p + x) * 10 + l == a * (p * 10) + (x * 10 + l)
  {
  }

  lemma {:induction false} DigitsValueAppend(s: string, t: string)
    requires AllDigits(s) && AllDigits(t)
    ensures AllDigits(s + t)
    ensures DigitsValue(s + t) == DigitsValue(s) * Pow10(|t|) + DigitsValue(t)
    decreases |t|
  {
    AllDigitsAppend(s, t);
    if t == [] {
      assert s + t == s;
    } else {
      var t' := t[..|t| - 1];
      var last := t[|t| - 1] as int - '0' as int;
      assert (s + t)[..|s + t| - 1] == s + t';
      assert (s + t)[|s + t| - 1] == t[|t| - 1];
      assert AllDigits(t');
      DigitsValueAppend(s, t');
      assert DigitsValue(s + t) == DigitsValue(s + t') * 10 + last;
      assert DigitsValue(t) == DigitsValue(t') * 10 + last;
      assert Pow10(|t|) == Pow10(|t'|) * 10;
      ShiftArith(DigitsValue(s), Pow10(|t'|), DigitsValue(t'), last);
    }
  }

  lemma {:induction false} ZerosValue(k: nat)
    ensures AllDigits(seq(k, _ => '0'))
    ensures DigitsValue(seq(k, _ => '0')) == 0
  {
    if k > 0 {
      assert seq(k, _ => '0')[..k - 1] == seq(k - 1, _ => '0');
      ZerosValue(k - 1);
    }
  }

  /** A digit string is zero exactly when all its digits are '0'. */
  lemma {:induction false} ValueZeroIffZeros(s: string)
    requires AllDigits(s)
    ensures DigitsValue(s) == 0 <==> forall i :: 0 <= i < |s| ==> s[i] == '0'
  {
    if s != [] {
      ValueZeroIffZeros(s[..|s| - 1]);
      assert forall i :: 0 <= i < |s| - 1 ==> s[..|s| - 1][i] == s[i];
    }
  }

  // ---- the Ct rescale ----

  /** The digits float() reads after the dots are dropped and the text is
      padded to five characters. */
  function Normalized(ct: string): string {
    if '.' in ct then PadRight(ReplaceAll(ct, ".", ""), 5, '0') else ct
  }

  /** x / 100 rounded to a whole number, half to even. */
  function RoundHundredth(v: nat): (h: nat)
    ensures 100 * h <= v + 50 && v <= 100 * h + 50
  {
    var q := v / 100;
    var r := v % 100;
    if r > 50 || (r == 50 && q % 2 == 1) then q + 1 else q
  }

  /** The rescaled Ct in hundredths; float() of a text that is not made
      of digits (after the dots are dropped) raises ValueError. */
  function Rescale(ct: string): (r: Result<nat>)
    ensures r.Ok? <==> Normalized(ct) != [] && AllDigits(Normalized(ct))
  {
    var s := Normalized(ct);
    if s == [] || !AllDigits(s) then Err(ValueError(ct))
    else
      var n := DigitsValue(s);
      // n / 1000, and n / 10000 when n / 1000 > 50, in ten-thousandths
      var v := if n > 50000 then n else 10 * n;
      Ok(RoundHundredth(v))
  }

  lemma RoundAtMostFifty(v: nat)
    ensures RoundHundredth(v) <= 5000 <==> v <= 500050
  {
    var q := v / 100;
    var r := v % 100;
    assert v == 100 * q + r;
    if v <= 500050 {
      assert q <= 5000;
      if q == 5000 { assert r <= 50; }
    } else {
      assert q >= 5000;
      if q == 5000 { assert r > 50; }
    }
  }

  /** The rescale never yields more than 50.00 unless the digits read are
      above 500050: a reading in thousandths above 50 is taken to carry one
      digit too many, and a second reading above 50 is kept. */
  lemma RescaleAtMostFifty(ct: string)
    requires Rescale(ct).Ok?
    ensures Rescale(ct).value <= 5000 <==> DigitsValue(Normalized(ct)) <= 500050
  {
    var n := DigitsValue(Normalized(ct));
    RoundAtMostFifty(if n > 50000 then n else 10 * n);
  }

  /** In particular a Ct text of at most five digits (with or without a
      decimal point) never reads above 50.00. */
  lemma ShortCtAtMostFifty(ct: string)
    requires Rescale(ct).Ok?
    requires if '.' in ct then |ct| <= 6 else |ct| <= 5
    ensures Rescale(ct).value <= 5000
  {
    var s := Normalized(ct);
    if '.' in ct {
      var dropped := ReplaceAll(ct, ".", "");
      ReplaceCharKeepsOthers(ct, '.');
      assert |dropped| <= 5;
      assert |s| == 5;
    }
    assert DigitsValue(s) < Pow10(|s|);
    assert Pow10(5) == 100000;
    if |s| < 5 { PowMono(|s|, 5); }
    RescaleAtMostFifty(ct);
  }

  lemma {:induction false} PowMono(j: nat, k: nat)
    requires j <= k
    ensures Pow10(j) <= Pow10(k)
    decreases k
  {
    if j < k { PowMono(j, k - 1); }
  }

  // ---- str() of the rounded float ----

  /** The decimals Python prints for f hundredths: "0", one digit when the
      second is zero, else two. */
  function FracDigits(f: nat): (d: string)
    requires f < 100
    ensures 1 <= |d| <= 2 && AllDigits(d) && '.' !in d
    ensures DigitsValue(d) * Pow10(2 - |d|) == f
    ensures f == 0 <==> forall i :: 0 <= i < |d| ==> d[i] == '0'
  {
    if f == 0 then "0"
    else if f % 10 == 0 then
      var d := [DigitChar(f / 10)];
      assert d[..0] == [];
      d
    else
      var d := [DigitChar(f / 10), DigitChar(f % 10)];
      assert d[..1] == [DigitChar(f / 10)] && d[..1][..0] == [];
      d
  }

  /** The text of a hundredths value as Python prints a float: "25.0",
      "25.1", "25.12". */
  function FormatHundredths(h: nat): (s: string)
    ensures |s| >= 3
  {
    NatToString(h / 100) + "." + FracDigits(h % 100)
  }

  lemma ReplaceOneDot(a: string, b: string)
    requires '.' !in a && '.' !in b
    ensures ReplaceAll(a + "." + b, ".", "") == a + b
  {
    ReplaceNoDot(a, "." + b);
    ReplaceNoDot(b, "");
    assert a + "." + b == a + ("." + b);
    assert ("." + b)[..1] == "." && ("." + b)[1..] == b;
    assert ReplaceAll("." + b, ".", "") == ReplaceAll(b, ".", "");
    assert b + "" == b;
  }

  lemma {:induction false} ReplaceNoDot(a: string, rest: string)
    requires '.' !in a
    ensures ReplaceAll(a + rest, ".", "") == a + ReplaceAll(rest, ".", "")
    decreases |a|
  {
    if a != [] {
      assert (a + rest)[..1] == [a[0]];
      assert (a + rest)[1..] == a[1..] + rest;
      ReplaceNoDot(a[1..], rest);
    } else {
      assert a + rest == rest;
    }
  }

  /** The printed whole part of a Ct between 10.00 and 99.99 has two digits. */
  lemma TwoDigitWhole(h: nat)
    requires 1000 <= h < 10000
    ensures |NatToString(h / 100)| == 2
  {
    var whole := NatToString(h / 100);
    assert Pow10(1) == 10;
    if |whole| > 2 {
      LeadingDigitBound(whole);
    }
  }

  /** Right-padding to five places appends exactly the missing zeros. */
  lemma PadZeros(x: string)
    requires |x| <= 5
    ensures PadRight(x, 5, '0') == x + seq(5 - |x|, _ => '0')
  {
    var p := PadRight(x, 5, '0');
    var z := seq(5 - |x|, _ => '0');
    assert |p| == |x + z|;
    forall i | 0 <= i < |p| ensures p[i] == (x + z)[i] {
      if i < |x| { assert p[i] == p[..|x|][i]; }
    }
  }

  /** Right-padding digits with zeros to five places multiplies their value. */
  lemma PadValue(x: string)
    requires AllDigits(x) && |x| <= 5
    ensures AllDigits(PadRight(x, 5, '0'))
    ensures DigitsValue(PadRight(x, 5, '0')) == DigitsValue(x) * Pow10(5 - |x|)
  {
    PadZeros(x);
    ZerosValue(5 - |x|);
    DigitsValueAppend(x, seq(5 - |x|, _ => '0'));
  }

  /** The digits float() reads from a printed Ct between 10.00 and 50.00:
      ten times its hundredths. */
  lemma FormattedDigits(h: nat)
    requires 1000 <= h <= 5000
    ensures Normalized(FormatHundredths(h)) != []
    ensures AllDigits(Normalized(FormatHundredths(h)))
    ensures DigitsValue(Normalized(FormatHundredths(h))) == 10 * h
  {
    var whole := NatToString(h / 100);
    var d := FracDigits(h % 100);
    var f := FormatHundredths(h);
    TwoDigitWhole(h);
    assert f == whole + "." + d;
    assert f[|whole|] == '.';
    ReplaceOneDot(whole, d);
    var x := whole + d;
    assert Normalized(f) == PadRight(x, 5, '0');
    DigitsValueAppend(whole, d);
    PadValue(x);
    var w := DigitsValue(whole);
    assert w == h / 100;
    if |d| == 1 {
      assert Pow10(1) == 10 && Pow10(5 - |x|) == 100;
      ScaleOneDigit(h, w, DigitsValue(d));
    } else {
      assert Pow10(2) == 100 && Pow10(5 - |x|) == 10;
      ScaleTwoDigits(h, w, DigitsValue(d));
    }
  }

  lemma ScaleOneDigit(h: nat, w: int, f: int)
    requires w == h / 100 && f * 10 == h % 100
    ensures (w * 10 + f) * 100 == 10 * h
  {
  }

  lemma ScaleTwoDigits(h: nat, w: int, f: int)
    requires w == h / 100 && f == h % 100
    ensures (w * 100 + f) * 10 == 10 * h
  {
  }

  /** A Ct between 10.00 and 50.00 as the script prints it reads back as
      itself: the rescale is the identity on its own output there. */
  lemma RescaleFormatted(h: nat)
    requires 1000 <= h <= 5000
    ensures Rescale(FormatHundredths(h)) == Ok(h)
  {
    FormattedDigits(h);
  }

  /** A digit string of length three or more without a leading zero is at least 100. */
  lemma {:induction false} LeadingDigitBound(s: string)
    requires AllDigits(s) && |s| >= 3 && s[0] != '0'
    ensures DigitsValue(s) >= 100
    decreases |s|
  {
    var init := s[..|s| - 1];
    assert AllDigits(init);
    if |s| == 3 {
      assert init[..1] == [s[0]];
      assert init[..1][..0] == [];
      assert DigitsValue(init[..1]) >= 1;
    } else {
      LeadingDigitBound(init);
    }
  }

  // ---- check_detection ----

  /** The three answers of a check_detection: DB Molecular and HLAGyn use
      Pos / Neg / NA, DASA Detected / Not detected / "". */
  datatype Labels = Labels(pos: string, neg: string, other: string)

  const PosNeg := Labels("Pos", "Neg", "NA")
  const Detected := Labels("Detected", "Not detected", "")

  /** The parts of a plain decimal text: digits, at most one '.', at least one digit. */
  function DecimalParts(s: string): (r: Option<(string, string)>)
    ensures r.Some? ==> AllDigits(r.value.0) && AllDigits(r.value.1)
    ensures r.Some? ==> |r.value.0| + |r.value.1| >= 1
    ensures r.Some? ==> s == (if '.' in s then r.value.0 + "." + r.value.1 else r.value.0)
  {
    var a := Before(s, '.');
    if '.' !in s then (if s != [] && AllDigits(s) then Some((s, "")) else None)
    else
      var b := s[|a| + 1..];
      assert s == a + "." + b;
      if '.' !in b && AllDigits(a) && AllDigits(b) && |a| + |b| >= 1 then Some((a, b)) else None
  }

  /** check_detection(ctValue): "" for an empty text (IndexError) or one
      float() refuses (ValueError); `other` when it does not start with a
      digit; `pos` when it reads above zero, `neg` when it reads zero. */
  function CheckDetection(ct: string, labels: Labels): (r: string)
    ensures ct == "" ==> r == ""
    ensures ct != "" && !IsDigit(ct[0]) ==> r == labels.other
    ensures ct != "" && IsDigit(ct[0]) && DecimalParts(ct).None? ==> r == ""
    ensures ct != "" && IsDigit(ct[0]) && DecimalParts(ct).Some? ==>
      var p := DecimalParts(ct).value;
      AllDigits(p.0 + p.1) &&
      r == (if DigitsValue(p.0 + p.1) > 0 then labels.pos else labels.neg)
  {
    if ct == "" then ""
    else if !IsDigit(ct[0]) then labels.other
    else match DecimalParts(ct)
      case None => ""
      case Some((a, b)) =>
        AllDigitsAppend(a, b);
        ValueZeroIffZeros(a + b);
        if exists i :: 0 <= i < |a + b| && (a + b)[i] != '0' then labels.pos else labels.neg
  }

  /** A Ct the script printed is called positive exactly when it is above
      zero, so the S-gene row Thermo Fisher adds with Ct 0.0 reads as
      not detected. */
  lemma CheckFormatted(h: nat, labels: Labels)
    ensures CheckDetection(FormatHundredths(h), labels) == if h > 0 then labels.pos else labels.neg
  {
    var whole := NatToString(h / 100);
    var d := FracDigits(h % 100);
    var s := FormatHundredths(h);
    assert s[|whole|] == '.';
    BeforeDot(whole, d);
    assert s[|whole| + 1..] == d;
    assert DecimalParts(s) == Some((whole, d));
    var digits := whole + d;
    ValueZeroIffZeros(whole);
    if h > 0 {
      if h / 100 > 0 {
        var i :| 0 <= i < |whole| && whole[i] != '0';
        assert digits[i] != '0';
      } else {
        var i :| 0 <= i < |d| && d[i] != '0';
        assert digits[|whole| + i] != '0';
      }
    } else {
      forall i | 0 <= i < |digits| ensures digits[i] == '0' {
        if i >= |whole| { assert digits[i] == d[i - |whole|]; }
      }
    }
  }

  lemma {:induction false} BeforeDot(a: string, d: string)
    requires '.' !in a
    ensures Before(a + "." + d, '.') == a
    decreases |a|
  {
    if a != [] {
      assert (a + "." + d)[1..] == a[1..] + "." + d;
      BeforeDot(a[1..], d);
    }
  }
}
