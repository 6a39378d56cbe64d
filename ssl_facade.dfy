// SSLFacade: the per-connection TLS front. This module holds what the facade
// decides on its own: whether the handshake is complete, how plaintext is
// cut into records before the engine wraps it, which peer the client engine
// is created for, and the host-name test that switches on HTTPS endpoint
// identification. The engine itself is outside the model; its `wrap` is an
// oracle that either yields the ciphertext of one piece or throws.

module SslFacade {
  import opened Util
  import opened Nodes
  import Handshaker

  /** The largest piece `encrypt` hands to the engine: 8 KiB. */
  const SplitUnit: nat := 8192

  /** `isHandshakeCompleted`: no handshaker, or one that has finished. */
  function IsHandshakeCompleted(handshakerFinished: Option<bool>): (r: bool)
    ensures r <==> handshakerFinished.None? || handshakerFinished.value
  {
    match handshakerFinished
    case None => true
    case Some(finished) => finished
  }

  /**
   * `setHandshakeCompletedListener`: sets the facade's listener `_hcl` and
   * attaches to the handshaker the relay that calls it once
   * (`attachCompletionListener`).
   */
  method SetHandshakeCompletedListener(h: Handshaker.Handshaker, slot: Handshaker.CompletionSlot)
    requires h.Valid()
    modifies h, slot
    ensures h.Valid() && h.listener == Some(slot) && slot.pending && slot.delivered == old(slot.delivered)
    ensures h.finished == old(h.finished) && h.trace == old(h.trace)
  {
    slot.pending := true;
    h.AddCompletedListener(slot);
  }

  /** The concatenation of the pieces, in order. */
  function Flatten(pieces: seq<seq<byte>>): (r: seq<byte>)
  {
    if pieces == [] then [] else pieces[0] + Flatten(pieces[1..])
  }

  lemma {:induction false} FlattenAppend(a: seq<seq<byte>>, b: seq<seq<byte>>)
    ensures Flatten(a + b) == Flatten(a) + Flatten(b)
  {
    if a == [] {
      assert a + b == b;
    } else {
      assert (a + b)[1..] == a[1..] + b;
      FlattenAppend(a[1..], b);
    }
  }

  lemma FlattenSingle(x: seq<byte>)
    ensures Flatten([x]) == x
  {
    var one: seq<seq<byte>> := [x];
    assert one[1..] == [];
  }

  /**
   * How the plaintext is cut: one piece when it fits in 8 KiB (the split
   * helper then declines and the buffer is wrapped whole), otherwise
   * 8 KiB pieces and a shorter last one.
   */
  function Chunks(src: seq<byte>): (pieces: seq<seq<byte>>)
    ensures |pieces| >= 1
    ensures Flatten(pieces) == src
    ensures forall i :: 0 <= i < |pieces| ==> |pieces[i]| <= SplitUnit
    ensures forall i :: 0 <= i < |pieces| - 1 ==> |pieces[i]| == SplitUnit
    ensures |src| > 0 ==> forall i :: 0 <= i < |pieces| ==> |pieces[i]| > 0
    decreases |src|
  {
    if |src| <= SplitUnit then [src]
    else
      var rest := Chunks(src[SplitUnit..]);
      assert Flatten([src[..SplitUnit]] + rest) == src[..SplitUnit] + Flatten(rest) by {
        assert ([src[..SplitUnit]] + rest)[1..] == rest;
      }
      [src[..SplitUnit]] + rest
  }

  /** The number of pieces: the length over 8 KiB rounded up, and one for short input. */
  lemma {:induction false} ChunksCount(src: seq<byte>)
    ensures |Chunks(src)| == if |src| <= SplitUnit then 1 else (|src| + SplitUnit - 1) / SplitUnit
    decreases |src|
  {
    if |src| > SplitUnit {
      ChunksCount(src[SplitUnit..]);
    }
  }

  /**
   * The ciphertext of the pieces wrapped in order and concatenated; an
   * engine failure on any piece fails the whole call.
   */
  function WrapAll(wrap: seq<byte> -> Option<seq<byte>>, pieces: seq<seq<byte>>): (r: Option<seq<byte>>)
    ensures r.None? <==> exists i :: 0 <= i < |pieces| && wrap(pieces[i]).None?
  {
    if pieces == [] then Some([])
    else if wrap(pieces[0]).None? then None
    else
      match WrapAll(wrap, pieces[1..])
      case None => None
      case Some(rest) => Some(wrap(pieces[0]).value + rest)
  }

  /**
   * `encrypt`: a buffer that fits in one piece is wrapped whole; a longer
   * one is cut, each piece wrapped in order into an array of results
   * whose lengths are summed, and the results are copied into one buffer.
   */
  method Encrypt(wrap: seq<byte> -> Option<seq<byte>>, src: seq<byte>) returns (r: Option<seq<byte>>)
    ensures r == WrapAll(wrap, Chunks(src))
  {
    if |src| <= SplitUnit {
      assert Chunks(src) == [src];
      assert [src][1..] == [];
      r := wrap(src);
      if r.Some? {
        assert r.value + [] == r.value;
      }
      return;
    }
    var pieces := Chunks(src);
    var ok, encrypted, alllen := WrapPieces(wrap, pieces);
    if !ok {
      // the engine's SSLException leaves the call
      return None;
    }
    var out := Concat(encrypted);
    assert |out| == alllen;
    WrapAllIsFlatten(wrap, pieces, encrypted[..]);
    r := Some(out);
  }

  /** The first loop of `encrypt`: each piece wrapped in order, the lengths summed. */
  method WrapPieces(wrap: seq<byte> -> Option<seq<byte>>, pieces: seq<seq<byte>>)
    returns (ok: bool, encrypted: array<seq<byte>>, alllen: nat)
    ensures fresh(encrypted) && encrypted.Length == |pieces|
    ensures ok <==> forall j :: 0 <= j < |pieces| ==> wrap(pieces[j]).Some?
    ensures ok ==> (forall j :: 0 <= j < |pieces| ==> wrap(pieces[j]) == Some(encrypted[j]))
                   && alllen == |Flatten(encrypted[..])|
  {
    encrypted := new seq<byte>[|pieces|];
    alllen := 0;
    var i := 0;
    while i < |pieces|
      invariant 0 <= i <= |pieces|
      invariant forall j :: 0 <= j < i ==> wrap(pieces[j]) == Some(encrypted[j])
      invariant alllen == |Flatten(encrypted[..i])|
    {
      var w := wrap(pieces[i]);
      if w.None? {
        return false, encrypted, alllen;
      }
      encrypted[i] := w.value;
      assert encrypted[..i + 1] == encrypted[..i] + [w.value];
      FlattenAppend(encrypted[..i], [w.value]);
      FlattenSingle(w.value);
      alllen := alllen + |w.value|;
      i := i + 1;
    }
    assert encrypted[..] == encrypted[..i];
    ok := true;
  }

  /** The second loop of `encrypt`: the wrapped pieces copied into one buffer, in order. */
  method Concat(encrypted: array<seq<byte>>) returns (out: seq<byte>)
    ensures out == Flatten(encrypted[..])
  {
    out := [];
    var k := 0;
    while k < encrypted.Length
      invariant 0 <= k <= encrypted.Length
      invariant out == Flatten(encrypted[..k])
    {
      assert encrypted[..k + 1] == encrypted[..k] + [encrypted[k]];
      FlattenAppend(encrypted[..k], [encrypted[k]]);
      FlattenSingle(encrypted[k]);
      out := out + encrypted[k];
      k := k + 1;
    }
    assert encrypted[..] == encrypted[..k];
  }

  /** When every piece wraps, the result is the concatenation of the pieces' ciphertexts. */
  lemma {:induction false} WrapAllIsFlatten(wrap: seq<byte> -> Option<seq<byte>>, pieces: seq<seq<byte>>,
                                            outs: seq<seq<byte>>)
    requires |outs| == |pieces|
    requires forall j :: 0 <= j < |pieces| ==> wrap(pieces[j]) == Some(outs[j])
    ensures WrapAll(wrap, pieces) == Some(Flatten(outs))
  {
    if pieces != [] {
      WrapAllIsFlatten(wrap, pieces[1..], outs[1..]);
    }
  }

  /** An engine that passes bytes through gives back the plaintext, however it was cut. */
  lemma EncryptIdentity(wrap: seq<byte> -> Option<seq<byte>>, src: seq<byte>)
    requires forall x :: wrap(x) == Some(x)
    ensures WrapAll(wrap, Chunks(src)) == Some(src)
  {
    var pieces := Chunks(src);
    WrapAllIsFlatten(wrap, pieces, pieces);
  }

  /**
   * With an engine that adds a fixed overhead to every record, the output
   * is the input plus one overhead per 8 KiB piece.
   */
  lemma EncryptLength(wrap: seq<byte> -> Option<seq<byte>>, overhead: nat, src: seq<byte>)
    requires forall x :: wrap(x).Some? && |wrap(x).value| == |x| + overhead
    ensures WrapAll(wrap, Chunks(src)).Some?
    ensures |WrapAll(wrap, Chunks(src)).value| == |src| + overhead * |Chunks(src)|
  {
    WrapAllLength(wrap, overhead, Chunks(src));
  }

  lemma {:induction false} WrapAllLength(wrap: seq<byte> -> Option<seq<byte>>, overhead: nat, pieces: seq<seq<byte>>)
    requires forall x :: wrap(x).Some? && |wrap(x).value| == |x| + overhead
    ensures WrapAll(wrap, pieces).Some?
    ensures |WrapAll(wrap, pieces).value| == |Flatten(pieces)| + overhead * |pieces|
  {
    if pieces != [] {
      WrapAllLength(wrap, overhead, pieces[1..]);
    }
  }

  predicate IsAsciiLetter(c: char)
  {
    ('a' <= c <= 'z') || ('A' <= c <= 'Z')
  }

  /** ASCII lower-casing; other characters are left as they are. */
  function LowerAscii(c: char): char
  {
    if 'A' <= c <= 'Z' then (c as int + 32) as char else c
  }

  /** `"localhost".equalsIgnoreCase(h)` on ASCII letters. */
  predicate IsLocalhost(h: string)
  {
    |h| == 9 && forall i :: 0 <= i < 9 ==> LowerAscii(h[i]) == "localhost"[i]
  }

  /**
   * What `looksLikeHostname` accepts once the host is trimmed: not
   * "localhost" in any case, at least one ASCII letter, and a dot.
   */
  predicate HostnameLike(h: string)
  {
    && !IsLocalhost(h)
    && (exists i :: 0 <= i < |h| && IsAsciiLetter(h[i]))
    && (exists i :: 0 <= i < |h| && h[i] == '.')
  }

  /**
   * `looksLikeHostname`: false for a missing, blank or "localhost" host;
   * otherwise a scan for an ASCII letter and then a search for a dot.
   */
  method LooksLikeHostname(host: Option<string>) returns (r: bool)
    ensures r <==> host.Some? && HostnameLike(Trim(host.value))
    ensures host.Some? && Trim(host.value) == [] ==> !r
  {
    if host.None? {
      return false;
    }
    var h := Trim(host.value);
    if |h| == 0 {
      return false;
    }
    if IsLocalhost(h) {
      return false;
    }
    var hasLetter := false;
    var i := 0;
    while i < |h|
      invariant 0 <= i <= |h|
      invariant !hasLetter
      invariant forall j :: 0 <= j < i ==> !IsAsciiLetter(h[j])
    {
      if IsAsciiLetter(h[i]) {
        hasLetter := true;
        break;
      }
      i := i + 1;
    }
    if !hasLetter {
      assert forall j :: 0 <= j < |h| ==> !IsAsciiLetter(h[j]);
      return false;
    }
    assert IsAsciiLetter(h[i]);
    var dot := IndexOf(h, ".");
    DotSearch(h);
    r := dot >= 0;
    assert r <==> HostnameLike(h);
  }

  /** `indexOf('.')` finds a dot exactly when the string has one. */
  lemma DotSearch(h: string)
    ensures IndexOf(h, ".") >= 0 <==> exists i :: 0 <= i < |h| && h[i] == '.'
  {
    var dot := IndexOf(h, ".");
    if dot >= 0 {
      assert ContainsAt(h, ".", dot);
      assert h[dot..dot + 1] == ".";
      assert h[dot] == '.';
    } else {
      forall j | 0 <= j < |h| && h[j] == '.'
        ensures false
      {
        assert h[j..j + 1] == ".";
        assert ContainsAt(h, ".", j);
      }
    }
  }

  /** A loopback literal or a dotted ip is never taken for a host name. */
  lemma HostnameLikeExamples()
    ensures !HostnameLike("127.0.0.1")
    ensures !HostnameLike("LocalHost")
    ensures !HostnameLike("example")
    ensures HostnameLike("example.com")
  {
    assert "127.0.0.1"[0] == '1';
    assert !IsAsciiLetter("127.0.0.1"[0]);
    assert "example"[0] == 'e';
    assert IsAsciiLetter("example.com"[0]);
    assert "example.com"[7] == '.';
    assert "example"[1] == 'x';
    assert LowerAscii("example"[0]) != "localhost"[0];
  }

  /**
   * `Integer.parseInt` on ASCII digits: an optional sign and at least one
   * digit, whose value must fit in an int; anything else is rejected.
   * Java also accepts other Unicode decimal digits (`Character.digit`);
   * such a port string is rejected here, so `PortOf` gives -1 for it.
   */
  function ParseJavaInt(s: string): (r: Option<int>)
    ensures r.Some? ==> IsInt32(r.value)
    ensures s == [] || s == "-" || s == "+" ==> r.None?
  {
    if s == [] then None
    else
      var neg := s[0] == '-';
      var digits := if s[0] == '-' || s[0] == '+' then s[1..] else s;
      if digits == [] || !AllDigits(digits) then None
      else
        var value: int := DigitsValue(digits);
        var v := if neg then -value else value;
        if IsInt32(v) then Some(v) else None
  }

  /** A port rendered as Java renders it parses back to itself. */
  lemma ParseRendered(x: int)
    requires IsInt32(x)
    ensures ParseJavaInt(IntToString(x)) == Some(x)
  {
    if x < 0 {
      ParseRenderedNegative(-x);
    } else {
      ParseRenderedNatural(x);
    }
  }

  lemma ParseRenderedNegative(n: nat)
    requires 0 < n && IsInt32(-(n as int))
    ensures ParseJavaInt("-" + NatToString(n)) == Some(-(n as int))
  {
    var digits := NatToString(n);
    DigitsOfNat(n);
    var s := "-" + digits;
    assert s[0] == '-' && s[1..] == digits;
  }

  lemma ParseRenderedNatural(n: nat)
    requires IsInt32(n)
    ensures ParseJavaInt(NatToString(n)) == Some(n)
  {
    var s := NatToString(n);
    DigitsOfNat(n);
    assert '0' <= s[0] <= '9';
  }

  /** A connection attribute as the facade finds it: a String, an Integer or something else. */
  datatype Attribute = StringAttr(s: string) | IntAttr(i: int) | OtherAttr

  /** The host attribute when it is a String. */
  function HostOf(hostAttr: Option<Attribute>): (h: Option<string>)
    ensures h.Some? <==> hostAttr.Some? && hostAttr.value.StringAttr?
  {
    if hostAttr.Some? && hostAttr.value.StringAttr? then Some(hostAttr.value.s) else None
  }

  /** The port attribute: an Integer as it is, a String parsed, and -1 otherwise or when parsing fails. */
  function PortOf(portAttr: Option<Attribute>): (p: int)
    ensures portAttr.Some? && portAttr.value.IntAttr? ==> p == portAttr.value.i
    ensures portAttr.Some? && portAttr.value.StringAttr? && ParseJavaInt(portAttr.value.s).Some? ==>
      p == ParseJavaInt(portAttr.value.s).value
    ensures portAttr.None? || portAttr.value.OtherAttr? ==> p == -1
    ensures portAttr.Some? && portAttr.value.StringAttr? && ParseJavaInt(portAttr.value.s).None? ==> p == -1
  {
    if portAttr.None? then -1
    else match portAttr.value
      case IntAttr(i) => i
      case StringAttr(s) => if ParseJavaInt(s).Some? then ParseJavaInt(s).value else -1
      case OtherAttr => -1
  }

  /**
   * The client's TLS peer: the explicit host and port attributes win;
   * when the host is missing or the port is not positive the server node,
   * if there is one, replaces both.
   */
  function PeerSelection(hostAttr: Option<Attribute>, portAttr: Option<Attribute>, serverNode: Option<Node>)
    : (peer: (Option<string>, int))
    ensures HostOf(hostAttr).Some? && PortOf(portAttr) > 0 ==> peer == (HostOf(hostAttr), PortOf(portAttr))
    ensures (HostOf(hostAttr).None? || PortOf(portAttr) <= 0) && serverNode.Some? ==>
      peer == (Some(serverNode.value.host), serverNode.value.port)
    ensures (HostOf(hostAttr).None? || PortOf(portAttr) <= 0) && serverNode.None? ==>
      peer == (HostOf(hostAttr), PortOf(portAttr))
  {
    var host := HostOf(hostAttr);
    var port := PortOf(portAttr);
    if (host.None? || port <= 0) && serverNode.Some? then (Some(serverNode.value.host), serverNode.value.port)
    else (host, port)
  }

  /** A port attribute written as a String is read like one written as an Integer. */
  lemma StringPortActsAsInt(port: int)
    requires IsInt32(port)
    ensures PortOf(Some(StringAttr(IntToString(port)))) == PortOf(Some(IntAttr(port)))
  {
    ParseRendered(port);
  }

  /** How the engine is created and configured. */
  datatype EngineSetup = EngineSetup(peer: Option<(string, int)>, clientMode: bool, endpointHttps: bool,
                                     needClientAuth: bool)

  /**
   * `makeSSLEngine`: a client engine is created for the selected peer
   * when it has a host and a positive port, and checks the peer's name
   * when the host looks like a host name; a server engine has no peer
   * and applies the client-authentication setting.
   */
  function MakeEngine(client: bool, clientAuthRequired: bool, hostAttr: Option<Attribute>,
                      portAttr: Option<Attribute>, serverNode: Option<Node>): (e: EngineSetup)
    ensures e.clientMode == client
    ensures !client ==> e.peer.None? && !e.endpointHttps && e.needClientAuth == clientAuthRequired
    ensures client ==> !e.needClientAuth
    ensures client ==>
      var p := PeerSelection(hostAttr, portAttr, serverNode);
      && (e.peer.Some? <==> p.0.Some? && p.1 > 0)
      && (e.peer.Some? ==> e.peer.value == (p.0.value, p.1))
      && (e.endpointHttps <==> p.0.Some? && HostnameLike(Trim(p.0.value)))
  {
    if client then
      var p := PeerSelection(hostAttr, portAttr, serverNode);
      var peer := if p.0.Some? && p.1 > 0 then Some((p.0.value, p.1)) else None;
      EngineSetup(peer, true, p.0.Some? && HostnameLike(Trim(p.0.value)), false)
    else EngineSetup(None, false, false, clientAuthRequired)
  }
}
