/** Names of the JPEG files the crop screen writes: a prefix saying which
    artifact was saved, the main thread's CPU time in milliseconds in
    decimal, and ".jpeg". That time restarts near zero in every process, so
    names can repeat across sessions. */
module FileNames {

  const ImagesDir: string := "smart_scanner"
  const EnhancePrefix: string := "enhance_"
  const CropPrefix: string := "crop_"
  const Extension: string := ".jpeg"

  predicate IsDigit(c: char)
  {
    '0' <= c <= '9'
  }

  predicate AllDigits(s: string)
  {
    forall i :: 0 <= i < |s| ==> IsDigit(s[i])
  }

  function DigitChar(d: nat): (c: char)
    requires d < 10
    ensures IsDigit(c) && c as int - '0' as int == d
  {
    ('0' as int + d) as char
  }

  /** The decimal rendering of a CPU-millisecond count, without leading zeros. */
  function Decimal(n: nat): (s: string)
    ensures |s| >= 1 && AllDigits(s)
    ensures |s| > 1 ==> s[0] != '0'
    decreases n
  {
    if n < 10 then [DigitChar(n)] else Decimal(n / 10) + [DigitChar(n % 10)]
  }

  /** The value of a string of decimal digits; the inverse of Decimal. */
  function DigitsValue(s: string): nat
    requires AllDigits(s)
  {
    if s == [] then 0
    else DigitsValue(s[..|s| - 1]) * 10 + (s[|s| - 1] as int - '0' as int)
  }

  lemma {:induction false} DecimalRoundTrip(n: nat)
    ensures DigitsValue(Decimal(n)) == n
    decreases n
  {
    var s := Decimal(n);
    if n >= 10 {
      DecimalRoundTrip(n / 10);
      assert s[..|s| - 1] == Decimal(n / 10);
    }
  }

  function SaveName(prefix: string, millis: nat): string
  {
    prefix + Decimal(millis) + Extension
  }

  /** Two saves write the same file exactly when they save the same kind of
      artifact at the same millisecond count: an enhanced file never shares a
      name with a cropped one. The millisecond count is the main thread's
      CPU time, not wall-clock time. */
  lemma SaveNameCollision(p1: string, m1: nat, p2: string, m2: nat)
    requires p1 == EnhancePrefix || p1 == CropPrefix
    requires p2 == EnhancePrefix || p2 == CropPrefix
    ensures SaveName(p1, m1) == SaveName(p2, m2) <==> p1 == p2 && m1 == m2
  {
    var n1, n2 := SaveName(p1, m1), SaveName(p2, m2);
    if n1 == n2 {
      assert n1[0] == p1[0] && n2[0] == p2[0];
      assert n1[|p1|..|n1| - |Extension|] == Decimal(m1);
      assert n2[|p2|..|n2| - |Extension|] == Decimal(m2);
      DecimalRoundTrip(m1);
      DecimalRoundTrip(m2);
    }
  }
}
