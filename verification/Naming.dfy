/** Decimal numerals, and the default name of an NLB service built from them. */
module Naming {
  import opened Prelude

  function DigitChar(d: nat): char
    requires d < 10
  {
    (d + 48) as char
  }

  predicate IsDigit(c: char) {
    '0' <= c <= '9'
  }

  function Itoa(n: nat): (s: string)
    ensures s != []
    ensures forall i | 0 <= i < |s| :: IsDigit(s[i])
  {
    if n < 10 then [DigitChar(n)] else Itoa(n / 10) + [DigitChar(n % 10)]
  }

  /** Reads a numeral back, most significant digit first. */
  function Numeral(s: string): nat
    requires forall i | 0 <= i < |s| :: IsDigit(s[i])
  {
    if s == [] then 0
    else
      assert IsDigit(s[|s| - 1]);
      10 * Numeral(s[..|s| - 1]) + (s[|s| - 1] as int - 48)
  }

  lemma {:induction false} NumeralOfItoa(n: nat)
    ensures Numeral(Itoa(n)) == n
  {
    var s := Itoa(n);
    if n >= 10 {
      NumeralOfItoa(n / 10);
      assert s[..|s| - 1] == Itoa(n / 10);
    } else {
      assert s[..0] == [];
      assert Numeral(s[..0]) == 0;
    }
  }

  lemma ItoaInjective(m: nat, n: nat)
    requires Itoa(m) == Itoa(n)
    ensures m == n
  {
    NumeralOfItoa(m);
    NumeralOfItoa(n);
  }

  datatype Protocol = TCP | UDP

  const UdpSuffix := "-udp"

  /** The name given to the NLB service of one port when no annotation overrides it. */
  function DefaultName(uid: string, port: nat, protocol: Protocol): string {
    uid + "-" + Itoa(port) + if protocol.TCP? then "" else UdpSuffix
  }

  datatype Parsed = Parsed(uid: string, port: nat, protocol: Protocol)

  /** Length of the longest prefix of `s` that does not end in a digit. */
  function DigitStart(s: string): (r: nat)
    ensures r <= |s|
    ensures forall i | r <= i < |s| :: IsDigit(s[i])
  {
    if s != [] && IsDigit(s[|s| - 1]) then DigitStart(s[..|s| - 1]) else |s|
  }

  /** Splits `uid-port` at its last dash. */
  function ParseBody(body: string): Option<(string, nat)> {
    var start := DigitStart(body);
    if start == 0 || start == |body| || body[start - 1] != '-' then None
    else Some((body[..start - 1], Numeral(body[start..])))
  }

  /** Reads a default name from its end: suffix, then numeral, then the dash, then the UID. */
  function ParseName(name: string): Option<Parsed> {
    var udp := HasSuffix(name, UdpSuffix);
    var parsed := ParseBody(if udp then name[..|name| - |UdpSuffix|] else name);
    if parsed.None? then None
    else Some(Parsed(parsed.value.0, parsed.value.1, if udp then UDP else TCP))
  }

  lemma {:induction false} DigitStartAfter(prefix: string, digits: string)
    requires prefix != [] && !IsDigit(prefix[|prefix| - 1])
    requires forall i | 0 <= i < |digits| :: IsDigit(digits[i])
    ensures DigitStart(prefix + digits) == |prefix|
    decreases |digits|
  {
    var s := prefix + digits;
    if digits == [] {
      assert s == prefix;
    } else {
      assert s[..|s| - 1] == prefix + digits[..|digits| - 1];
      DigitStartAfter(prefix, digits[..|digits| - 1]);
    }
  }

  lemma ParseBodyOf(uid: string, port: nat)
    ensures ParseBody(uid + "-" + Itoa(port)) == Some((uid, port))
  {
    var body, prefix := uid + "-" + Itoa(port), uid + "-";
    DigitStartAfter(prefix, Itoa(port));
    assert body == prefix + Itoa(port);
    assert body[|prefix|..] == Itoa(port);
    assert body[..|prefix| - 1] == uid;
    NumeralOfItoa(port);
  }

  /** A name that ends in a digit has no suffix to strip, and a suffix strips off cleanly. */
  lemma SuffixTells(body: string)
    requires body != [] && IsDigit(body[|body| - 1])
    ensures !HasSuffix(body, UdpSuffix)
    ensures HasSuffix(body + UdpSuffix, UdpSuffix) && (body + UdpSuffix)[..|body + UdpSuffix| - |UdpSuffix|] == body
  {
    assert UdpSuffix[3] == 'p';
    assert |body| >= 4 ==> body[|body| - 4..][3] == body[|body| - 1];
    assert (body + UdpSuffix)[|body|..] == UdpSuffix;
  }

  /** Parsing inverts naming, for every UID (dashes and digits included). */
  lemma ParseDefaultName(uid: string, port: nat, protocol: Protocol)
    ensures ParseName(DefaultName(uid, port, protocol)) == Some(Parsed(uid, port, protocol))
  {
    var body := uid + "-" + Itoa(port);
    ParseBodyOf(uid, port);
    SuffixTells(body);
    assert DefaultName(uid, port, protocol) == if protocol.TCP? then body else body + UdpSuffix;
  }

  /** Default names never collide, within one Service or across Services. */
  lemma DefaultNamesDistinct(u: string, p: nat, t: Protocol, u': string, p': nat, t': Protocol)
    requires (u, p, t) != (u', p', t')
    ensures DefaultName(u, p, t) != DefaultName(u', p', t')
  {
    ParseDefaultName(u, p, t);
    ParseDefaultName(u', p', t');
  }
}
