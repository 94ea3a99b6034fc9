/** The `M:SS` time label that both players show under the waveform
    (`formatTime` in PlaylistPlayer.tsx and, identically, in WaveformPlayer.tsx).
    Times are whole, non-negative seconds here. */
module TimeFormat {

  predicate IsDigit(c: char) {
    '0' <= c <= '9'
  }

  predicate AllDigits(s: string) {
    forall i :: 0 <= i < |s| ==> IsDigit(s[i])
  }

  function DigitChar(d: nat): (c: char)
    requires d < 10
    ensures IsDigit(c)
  {
    ('0' as int + d) as char
  }

  function DigitValue(c: char): (d: nat)
    requires IsDigit(c)
    ensures d < 10 && DigitChar(d) == c
  {
    c as int - '0' as int
  }

  /** Value of a string of decimal digits, most significant digit first. */
  function ParseDecimal(s: string): nat
    requires AllDigits(s)
  {
    if s == [] then 0 else ParseDecimal(s[..|s| - 1]) * 10 + DigitValue(s[|s| - 1])
  }

  /** A number in decimal, as JavaScript renders an integer-valued number in a
      template literal: at least one digit and no leading zero. */
  function Decimal(n: nat): (r: string)
    ensures |r| >= 1 && AllDigits(r)
    ensures ParseDecimal(r) == n
    ensures r[0] == '0' ==> r == "0"
    decreases n
  {
    if n < 10 then [DigitChar(n)]
    else
      var prefix := Decimal(n / 10);
      var r := prefix + [DigitChar(n % 10)];
      assert r[..|r| - 1] == prefix;
      r
  }

  /** `secs.toString().padStart(2, "0")` for 0 <= secs < 60. */
  function TwoDigits(secs: nat): (r: string)
    requires secs < 60
    ensures |r| == 2 && AllDigits(r)
    ensures ParseDecimal(r) == secs
  {
    var r := [DigitChar(secs / 10), DigitChar(secs % 10)];
    assert r[..1] == [r[0]] && [r[0]][..0] == [];
    assert ParseDecimal([r[0]]) == secs / 10;
    r
  }

  /** `${Math.floor(s / 60)}:${Math.floor(s % 60).toString().padStart(2, "0")}` */
  function FormatTime(seconds: nat): (r: string)
    ensures |r| >= 4 && r[|r| - 3] == ':'
    ensures AllDigits(r[..|r| - 3]) && AllDigits(r[|r| - 2..])
    ensures ParseDecimal(r[..|r| - 3]) == seconds / 60
    ensures ParseDecimal(r[|r| - 2..]) == seconds % 60
  {
    var m := Decimal(seconds / 60);
    var ss := TwoDigits(seconds % 60);
    var r := m + ":" + ss;
    assert r[..|r| - 3] == m && r[|r| - 2..] == ss;
    r
  }

  /** Reads an `M:SS` label back: minutes in canonical decimal, a colon, and a
      two-digit seconds field below 60. */
  function ParseTime(t: string): (r: Option)
  {
    if |t| < 4 || t[|t| - 3] != ':' then None
    else
      var m, ss := t[..|t| - 3], t[|t| - 2..];
      if !AllDigits(m) || !AllDigits(ss) || (m[0] == '0' && m != "0") then None
      else
        var secs := ParseDecimal(ss);
        if secs < 60 then Some(ParseDecimal(m) * 60 + secs) else None
  }

  datatype Option = None | Some(value: nat)

  /** Minutes times sixty plus seconds gives back the input: the label loses nothing. */
  lemma FormatTimeRoundTrip(seconds: nat)
    ensures ParseTime(FormatTime(seconds)) == Some(seconds)
  {
    var r := FormatTime(seconds);
    var m := r[..|r| - 3];
    assert r == Decimal(seconds / 60) + ":" + TwoDigits(seconds % 60);
    assert m == Decimal(seconds / 60);
  }

  /** Hence two different times never share a label. */
  lemma FormatTimeInjective(a: nat, b: nat)
    ensures FormatTime(a) == FormatTime(b) ==> a == b
  {
    FormatTimeRoundTrip(a);
    FormatTimeRoundTrip(b);
  }

  /** Every label ParseTime accepts is the label of the time it reads. */
  lemma ParseTimeSound(t: string)
    ensures ParseTime(t).Some? ==> FormatTime(ParseTime(t).value) == t
  {
    if ParseTime(t).Some? {
      var m, ss := t[..|t| - 3], t[|t| - 2..];
      var secs := ParseDecimal(m) * 60 + ParseDecimal(ss);
      assert secs / 60 == ParseDecimal(m) && secs % 60 == ParseDecimal(ss);
      DecimalCanonical(m);
      TwoDigitsCanonical(ss);
      assert t == m + ":" + ss;
    }
  }

  /** A canonical digit string is the decimal rendering of its value. */
  lemma {:induction false} DecimalCanonical(s: string)
    requires |s| >= 1 && AllDigits(s) && (s[0] == '0' ==> s == "0")
    ensures Decimal(ParseDecimal(s)) == s
    decreases |s|
  {
    var p := s[..|s| - 1];
    var d := DigitValue(s[|s| - 1]);
    if |s| == 1 {
      assert p == [];
    } else {
      assert p[0] == s[0];
      DecimalCanonical(p);
      var n := ParseDecimal(s);
      assert n == ParseDecimal(p) * 10 + d;
      assert n / 10 == ParseDecimal(p) && n % 10 == d;
      assert s == p + [s[|s| - 1]];
    }
  }

  lemma TwoDigitsCanonical(s: string)
    requires |s| == 2 && AllDigits(s) && ParseDecimal(s) < 60
    ensures TwoDigits(ParseDecimal(s)) == s
  {
    assert s[..1] == [s[0]] && [s[0]][..0] == [];
    assert ParseDecimal(s) == DigitValue(s[0]) * 10 + DigitValue(s[1]);
  }

  /** Three sample labels. */
  lemma FormatTimeExamples()
    ensures FormatTime(0) == "0:00"
    ensures FormatTime(65) == "1:05"
    ensures FormatTime(3599) == "59:59"
  {
    assert Decimal(59) == "59" by { assert Decimal(5) == "5"; }
  }
}
