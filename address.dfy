/** The dial address `host + ":" + strconv.FormatUint(port, 10)` built by
    `openConnection`, and the proof that it names the requested host and port:
    splitting it at its last colon gives both back. */
module Address {
  import opened Protocol

  predicate IsDigit(c: char) {
    '0' <= c <= '9'
  }

  predicate AllDigits(s: string) {
    forall i :: 0 <= i < |s| ==> IsDigit(s[i])
  }

  function DigitChar(d: nat): (c: char)
    requires d < 10
    ensures IsDigit(c) && c as int - '0' as int == d
  {
    ('0' as int + d) as char
  }

  /** Base-10 text of n, as `strconv.FormatUint(n, 10)` writes it: digits
      only, at least one, and no leading zero. */
  function Decimal(n: nat): (s: string)
    ensures |s| >= 1 && AllDigits(s)
    ensures |s| > 1 ==> s[0] != '0'
    ensures n < 10 <==> |s| == 1
    decreases n
  {
    if n < 10 then [DigitChar(n)] else Decimal(n / 10) + [DigitChar(n % 10)]
  }

  /** The value of a string of base-10 digits. */
  function ParseDecimal(s: string): nat
    requires AllDigits(s)
  {
    if s == [] then 0
    else ParseDecimal(s[..|s| - 1]) * 10 + (s[|s| - 1] as int - '0' as int)
  }

  lemma {:induction false} DecimalRoundTrip(n: nat)
    ensures ParseDecimal(Decimal(n)) == n
    decreases n
  {
    if n >= 10 {
      DecimalRoundTrip(n / 10);
      var s := Decimal(n);
      assert s[..|s| - 1] == Decimal(n / 10);
    }
  }

  /** The address `openConnection` dials for host and port. */
  function DialAddress(host: string, port: uint16): (a: string)
    ensures |a| == |host| + 1 + |Decimal(port as nat)|
    ensures a[..|host|] == host && a[|host|] == ':'
    ensures a[|host| + 1..] == Decimal(port as nat)
  {
    host + ":" + Decimal(port as nat)
  }

  /** The index of the last ':' in s, if any. */
  function LastColon(s: string): (r: Option<nat>)
    ensures r.Some? ==> r.value < |s| && s[r.value] == ':'
    ensures r.Some? ==> forall i :: r.value < i < |s| ==> s[i] != ':'
    ensures r.None? ==> forall i :: 0 <= i < |s| ==> s[i] != ':'
  {
    if s == [] then None
    else if s[|s| - 1] == ':' then Some(|s| - 1)
    else LastColon(s[..|s| - 1])
  }

  datatype Option<T> = None | Some(value: T)

  /** Splits an address at its last colon into a host and a port; None when
      there is no colon or the port is not a 16-bit decimal number. */
  function SplitAddress(a: string): Option<(string, uint16)> {
    match LastColon(a)
    case None => None
    case Some(k) =>
      var digits := a[k + 1..];
      if digits != [] && AllDigits(digits) && ParseDecimal(digits) < 0x1_0000
      then Some((a[..k], ParseDecimal(digits) as uint16))
      else None
  }

  /** The address names exactly the host and port that were asked for,
      whatever characters the host contains. */
  lemma AddressRoundTrip(host: string, port: uint16)
    ensures SplitAddress(DialAddress(host, port)) == Some((host, port))
  {
    var a := DialAddress(host, port);
    var d := Decimal(port as nat);
    assert a[|host|] == ':';
    forall i | |host| < i < |a| ensures a[i] != ':' {
      assert a[i] == d[i - |host| - 1];
    }
    match LastColon(a)
    case None =>
      assert false;
    case Some(k) =>
      assert k == |host|;
      assert a[k + 1..] == d;
      assert a[..k] == host;
      DecimalRoundTrip(port as nat);
  }
}
