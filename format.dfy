/**
 * Rendering of configured upstreams as socket-address strings, the
 * `format!("{}:{}", ip, port)` used when a route's backends are built,
 * together with the parser that inverts it.
 */
module Format {
  import opened Wrappers

  predicate IsDigit(c: char) {
    '0' <= c <= '9'
  }

  predicate AllDigits(s: string) {
    forall i :: 0 <= i < |s| ==> IsDigit(s[i])
  }

  function DigitChar(d: nat): (c: char)
    requires d < 10
    ensures IsDigit(c)
  {
    "0123456789"[d]
  }

  function DigitValue(c: char): (d: nat)
    requires IsDigit(c)
    ensures d < 10
  {
    (c as int - '0' as int) as nat
  }

  lemma DigitValueOfDigitChar(d: nat)
    requires d < 10
    ensures DigitValue(DigitChar(d)) == d
  {
  }

  /** Decimal rendering of a natural number, as `{}` displays an unsigned integer: no sign, no leading zeros. */
  function Decimal(n: nat): (s: string)
    ensures |s| > 0 && AllDigits(s)
    ensures |s| > 1 ==> s[0] != '0'
    decreases n
  {
    if n < 10 then [DigitChar(n)] else Decimal(n / 10) + [DigitChar(n % 10)]
  }

  /** The value of a string of decimal digits. */
  function DigitsValue(s: string): nat
    requires AllDigits(s)
    decreases |s|
  {
    if s == [] then 0 else DigitsValue(s[..|s| - 1]) * 10 + DigitValue(s[|s| - 1])
  }

  /** Reads a port number back: a non-empty run of decimal digits, nothing else. */
  function ParseDecimal(s: string): (r: Option<nat>)
    ensures r.Some? <==> |s| > 0 && AllDigits(s)
  {
    if |s| > 0 && AllDigits(s) then Some(DigitsValue(s)) else None
  }

  lemma {:induction false} DecimalRoundTrip(n: nat)
    ensures ParseDecimal(Decimal(n)) == Some(n)
    decreases n
  {
    if n < 10 {
      var s := Decimal(n);
      assert s[..|s| - 1] == [];
      DigitValueOfDigitChar(n);
      assert DigitsValue(s) == DigitValue(DigitChar(n));
    } else {
      var s := Decimal(n);
      DecimalRoundTrip(n / 10);
      assert s[..|s| - 1] == Decimal(n / 10);
      DigitValueOfDigitChar(n % 10);
    }
  }

  /** The position of the last occurrence of `c` in `s`, if any. */
  function LastIndexOf(s: string, c: char): (r: Option<nat>)
    ensures r.Some? ==> r.value < |s| && s[r.value] == c
    ensures r.Some? ==> forall j :: r.value < j < |s| ==> s[j] != c
    ensures r.None? ==> forall j :: 0 <= j < |s| ==> s[j] != c
    decreases |s|
  {
    if s == [] then None
    else if s[|s| - 1] == c then Some(|s| - 1)
    else LastIndexOf(s[..|s| - 1], c)
  }

  /** `"{ip}:{port}"`: the string handed to address resolution for one upstream. */
  function RenderAddr(ip: string, port: nat): string {
    ip + ":" + Decimal(port)
  }

  /**
   * Splits `"{ip}:{port}"` at its last colon. The last colon, not the first:
   * an IPv6 address written without brackets carries colons of its own.
   */
  function ParseAddr(s: string): Option<(string, nat)> {
    match LastIndexOf(s, ':')
    case None => None
    case Some(i) =>
      match ParseDecimal(s[i + 1..])
      case None => None
      case Some(port) => Some((s[..i], port))
  }

  /** Rendering loses nothing: the ip and the port can be read back from the string. */
  lemma RenderAddrRoundTrip(ip: string, port: nat)
    ensures ParseAddr(RenderAddr(ip, port)) == Some((ip, port))
  {
    var s := RenderAddr(ip, port);
    var digits := Decimal(port);
    assert s[|ip|] == ':';
    assert forall j :: |ip| < j < |s| ==> s[j] == digits[j - |ip| - 1];
    assert LastIndexOf(s, ':') == Some(|ip|);
    assert s[|ip| + 1..] == digits;
    assert s[..|ip|] == ip;
    DecimalRoundTrip(port);
  }

  /** Two upstreams render to the same string only when they agree on ip and port. */
  lemma RenderAddrInjective(ip1: string, port1: nat, ip2: string, port2: nat)
    requires RenderAddr(ip1, port1) == RenderAddr(ip2, port2)
    ensures ip1 == ip2 && port1 == port2
  {
    RenderAddrRoundTrip(ip1, port1);
    RenderAddrRoundTrip(ip2, port2);
  }
}
