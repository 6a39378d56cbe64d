// Node: a host and a port, the key under which connections are registered.

module Nodes {
  import opened Util

  datatype Node = Node(host: string, port: int)

  /** The address a blank IP is replaced with. */
  const AnyAddress: string := "0.0.0.0"

  /** The constructor: a missing or blank ip becomes 0.0.0.0. */
  function NewNode(ip: Option<string>, port: int): (n: Node)
    ensures !IsBlank(Some(n.host))
    ensures n.port == port
    ensures !IsBlank(ip) ==> n.host == ip.value
  {
    if IsBlank(ip) then
      assert !IsBlankChar(AnyAddress[0]);
      Node(AnyAddress, port)
    else Node(ip.value, port)
  }

  /** `equals`: false against null, otherwise host and port agree. */
  predicate Equals(n: Node, other: Option<Node>)
  {
    other.Some? && n.host == other.value.host && n.port == other.value.port
  }

  lemma EqualsIsValueEquality(n: Node, other: Option<Node>)
    ensures Equals(n, other) <==> other == Some(n)
  {
  }

  /** `toString`: host, a colon, then the decimal port. */
  function Render(n: Node): string
  {
    n.host + ":" + IntToString(n.port)
  }

  /**
   * `String.compareTo` taken over code points: first differing character,
   * else the length difference. Java compares UTF-16 code units, so for text
   * above U+FFFF the values differ; sign and zero-iff-equal are the same.
   */
  function CompareStrings(s: string, t: string): int
  {
    if s == [] || t == [] then |s| - |t|
    else if s[0] != t[0] then (s[0] as int) - (t[0] as int)
    else CompareStrings(s[1..], t[1..])
  }

  lemma {:induction false} CompareStringsZeroIffEqual(s: string, t: string)
    ensures CompareStrings(s, t) == 0 <==> s == t
  {
    if s != [] && t != [] && s[0] == t[0] {
      CompareStringsZeroIffEqual(s[1..], t[1..]);
      assert s == [s[0]] + s[1..] && t == [t[0]] + t[1..];
    }
  }

  lemma {:induction false} CompareStringsAntisymmetric(s: string, t: string)
    ensures CompareStrings(s, t) == -CompareStrings(t, s)
  {
    if s != [] && t != [] && s[0] == t[0] {
      CompareStringsAntisymmetric(s[1..], t[1..]);
    }
  }

  /** `compareTo`: -1 against null, 0 on equal host and port, else by rendering. */
  function CompareTo(n: Node, other: Option<Node>): int
  {
    if other.None? then -1
    else if n.host == other.value.host && n.port == other.value.port then 0
    else CompareStrings(Render(n), Render(other.value))
  }

  /**
   * `String.hashCode` taken over code points: h = 31 * h + c in 32-bit
   * arithmetic. Java iterates UTF-16 code units, so for text above U+FFFF
   * the value differs; it is still a 32-bit value that equal texts share.
   */
  function StringHash(s: string): (h: int)
    ensures IsInt32(h)
  {
    if s == [] then 0 else WrapInt32(31 * StringHash(s[..|s| - 1]) + (s[|s| - 1] as int))
  }

  /** `hashCode`: the hash of the rendering. */
  function HashCode(n: Node): (h: int)
    ensures IsInt32(h)
  {
    StringHash(Render(n))
  }

  /** Equal nodes hash equally (the contract of hashCode against equals). */
  lemma HashAgreesWithEquals(a: Node, b: Node)
    requires Equals(a, Some(b))
    ensures HashCode(a) == HashCode(b)
  {
  }

  lemma NatToStringInjective(m: nat, n: nat)
    requires NatToString(m) == NatToString(n)
    ensures m == n
  {
    DigitsOfNat(m);
    DigitsOfNat(n);
  }

  lemma IntToStringInjective(x: int, y: int)
    requires IntToString(x) == IntToString(y)
    ensures x == y
  {
    if x < 0 && y < 0 {
      assert NatToString(-x) == IntToString(x)[1..];
      NatToStringInjective(-x, -y);
    } else if x >= 0 && y >= 0 {
      NatToStringInjective(x, y);
    } else {
      SignShowsInFirstChar(x);
      SignShowsInFirstChar(y);
      assert false;
    }
  }

  lemma SignShowsInFirstChar(x: int)
    ensures IntToString(x)[0] == '-' <==> x < 0
  {
    if x >= 0 {
      assert '0' <= NatToString(x)[0] <= '9';
    }
  }

  /** In a rendering, the colon before the port is the last colon. */
  lemma LastColon(n: Node)
    ensures var s, p := Render(n), IntToString(n.port);
      s[|s| - |p| - 1] == ':' && forall i :: |s| - |p| <= i < |s| ==> s[i] != ':'
  {
    var s, p := Render(n), IntToString(n.port);
    forall i | |s| - |p| <= i < |s| ensures s[i] != ':' {
      assert s[i] == p[i - (|s| - |p|)];
    }
  }

  /**
   * The rendering loses nothing: the port text has no colon, so the last
   * colon separates host from port and two different nodes never render alike.
   */
  lemma RenderInjective(a: Node, b: Node)
    requires Render(a) == Render(b)
    ensures a == b
  {
    var s := Render(a);
    var pa, pb := IntToString(a.port), IntToString(b.port);
    LastColon(a);
    LastColon(b);
    if |pa| == |pb| {
      assert pa == s[|s| - |pa|..] == pb;
      IntToStringInjective(a.port, b.port);
      assert a.host == s[..|s| - |pa| - 1] == b.host;
    } else {
      assert false;
    }
  }

  /** compareTo answers 0 exactly for an equal node. */
  lemma CompareToZeroIffEqual(a: Node, b: Node)
    ensures CompareTo(a, Some(b)) == 0 <==> Equals(a, Some(b))
  {
    if !Equals(a, Some(b)) {
      CompareStringsZeroIffEqual(Render(a), Render(b));
      if Render(a) == Render(b) {
        RenderInjective(a, b);
      }
    }
  }

  /** compareTo is antisymmetric between two nodes. */
  lemma CompareToAntisymmetric(a: Node, b: Node)
    ensures CompareTo(a, Some(b)) == -CompareTo(b, Some(a))
  {
    CompareStringsAntisymmetric(Render(a), Render(b));
  }

  /** A Node built from a blank ip renders as 0.0.0.0:port. */
  lemma BlankIpRendering(ip: Option<string>, port: int)
    requires IsBlank(ip)
    ensures Render(NewNode(ip, port)) == "0.0.0.0:" + IntToString(port)
  {
  }
}
