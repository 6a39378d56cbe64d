// ProxyHandshake: the negotiation a client runs on its raw socket before
// the connection (and any TLS layer) exists, either an HTTP CONNECT
// exchange or a SOCKS5 CONNECT (RFC 1928). The socket is a Channel whose
// reads and writes follow a script: what each coming read delivers and how
// many bytes each coming write accepts.

module ProxyHandshake {
  import opened Util

  // ----- the socket -----

  /** All the bytes of the segments, in order. */
  function Flatten(segments: seq<seq<byte>>): seq<byte>
  {
    if segments == [] then [] else segments[0] + Flatten(segments[1..])
  }

  /** What one read returns: the count (-1 at end of stream), the bytes, and what is left to read. */
  datatype Delivery = Delivery(n: int, data: seq<byte>, rest: seq<seq<byte>>)

  /**
   * One read into a buffer with room for `room` bytes: it takes what fits
   * from the first segment, leaving the remainder for the next read; with
   * no segment left the stream has ended.
   */
  function ReadStep(incoming: seq<seq<byte>>, room: nat): (d: Delivery)
    ensures incoming == [] <==> d.n < 0
    ensures d.n < 0 ==> d.n == -1 && d.data == [] && d.rest == []
    ensures d.n >= 0 ==> d.n == |d.data| <= room
    ensures d.data + Flatten(d.rest) == Flatten(incoming)
    ensures d.n == 0 && room > 0 ==> |d.rest| < |incoming|
  {
    if incoming == [] then Delivery(-1, [], [])
    else
      var head := incoming[0];
      var take := Min(room, |head|);
      assert head[..take] + head[take..] == head;
      if take == |head| then Delivery(take, head, incoming[1..])
      else
        assert ([head[take..]] + incoming[1..])[1..] == incoming[1..];
        Delivery(take, head[..take], [head[take..]] + incoming[1..])
  }

  class Channel {
    /** Every byte written so far, in order. */
    var written: seq<byte>
    /** The coming reads: an empty segment is a read that delivers nothing; none left is end of stream. */
    var incoming: seq<seq<byte>>
    /** How many bytes each coming write accepts; with none left a write takes everything. */
    var accepts: seq<nat>

    constructor (incoming: seq<seq<byte>>, accepts: seq<nat>)
      ensures written == [] && this.incoming == incoming && this.accepts == accepts
    {
      written := [];
      this.incoming := incoming;
      this.accepts := accepts;
    }

    /** `read(buf).get()` on a buffer with `room` bytes free. */
    method Read(room: nat) returns (n: int, data: seq<byte>)
      modifies this`incoming
      ensures Delivery(n, data, incoming) == ReadStep(old(incoming), room)
    {
      var d := ReadStep(incoming, room);
      n, data, incoming := d.n, d.data, d.rest;
    }

    /** `write(buf).get()`: the channel takes a prefix of the buffer. */
    method Write(buf: seq<byte>) returns (n: nat)
      modifies this`written, this`accepts
      ensures n <= |buf| && written == old(written) + buf[..n]
      ensures old(accepts) == [] ==> n == |buf| && accepts == []
      ensures old(accepts) != [] ==> n == Min(old(accepts)[0], |buf|) && accepts == old(accepts)[1..]
    {
      if accepts == [] {
        n := |buf|;
      } else {
        n := Min(accepts[0], |buf|);
        accepts := accepts[1..];
      }
      written := written + buf[..n];
    }
  }

  /** `writeFully`: writes until the whole buffer has gone out. */
  method WriteFully(ch: Channel, buf: seq<byte>)
    modifies ch`written, ch`accepts
    ensures ch.written == old(ch.written) + buf
  {
    var pos := 0;
    while pos < |buf|
      invariant 0 <= pos <= |buf|
      invariant ch.written == old(ch.written) + buf[..pos]
      decreases |ch.accepts|, |buf| - pos
    {
      var n := ch.Write(buf[pos..]);
      assert buf[..pos] + buf[pos..][..n] == buf[..pos + n];
      pos := pos + n;
    }
    assert buf[..pos] == buf;
  }

  /**
   * `readFully`: reads until `size` bytes have arrived, however the stream
   * is cut into reads and however many reads deliver nothing; it fails
   * only when the stream ends first. It takes exactly the next `size`
   * bytes of the stream and leaves the rest unread.
   */
  method ReadFully(ch: Channel, size: nat) returns (data: Option<seq<byte>>)
    modifies ch`incoming
    ensures size <= |Flatten(old(ch.incoming))| ==>
      && data == Some(Flatten(old(ch.incoming))[..size])
      && Flatten(ch.incoming) == Flatten(old(ch.incoming))[size..]
    ensures |Flatten(old(ch.incoming))| < size ==> data == None && ch.incoming == []
  {
    ghost var stream := Flatten(ch.incoming);
    var got: seq<byte> := [];
    while |got| < size
      invariant |got| <= size
      invariant got + Flatten(ch.incoming) == stream
      decreases size - |got|, |ch.incoming|
    {
      var n, chunk := ch.Read(size - |got|);
      if n < 0 {
        return None;
      }
      got := got + chunk;
    }
    assert stream[..size] == got;
    return Some(got);
  }

  // ----- text on the wire -----

  /** ISO-8859-1 encoding: a character outside the charset becomes '?'. */
  function Latin1Encode(s: string): (b: seq<byte>)
    ensures |b| == |s|
  {
    seq(|s|, i requires 0 <= i < |s| => if s[i] as int < 256 then s[i] as int else '?' as int)
  }

  /** ISO-8859-1 decoding: each byte is the character with that code. */
  function Latin1Decode(b: seq<byte>): (s: string)
    ensures |s| == |b|
  {
    seq(|b|, i requires 0 <= i < |b| => b[i] as char)
  }

  predicate InLatin1(s: string)
  {
    forall i :: 0 <= i < |s| ==> s[i] as int < 256
  }

  /** Decoding what was encoded gives the text back exactly when every character is in the charset. */
  lemma Latin1RoundTrip(s: string)
    ensures Latin1Decode(Latin1Encode(s)) == s <==> InLatin1(s)
  {
    var t := Latin1Decode(Latin1Encode(s));
    if !InLatin1(s) {
      var i :| 0 <= i < |s| && s[i] as int >= 256;
      assert t[i] == '?' != s[i];
    }
  }

  lemma Latin1DecodeAppend(a: seq<byte>, b: seq<byte>)
    ensures Latin1Decode(a + b) == Latin1Decode(a) + Latin1Decode(b)
  {
  }

  /** UTF-8 encoding of one character (RFC 3629). */
  function Utf8Char(c: char): (b: seq<byte>)
    ensures 1 <= |b| <= 4
    ensures c as int < 0x80 <==> b == [c as int]
  {
    var x := c as int;
    if x < 0x80 then [x]
    else if x < 0x800 then [0xC0 + x / 64, 0x80 + x % 64]
    else if x < 0x10000 then [0xE0 + x / 4096, 0x80 + (x / 64) % 64, 0x80 + x % 64]
    else [0xF0 + x / 262144, 0x80 + (x / 4096) % 64, 0x80 + (x / 64) % 64, 0x80 + x % 64]
  }

  /** `getBytes(UTF_8)`. */
  function Utf8(s: string): (b: seq<byte>)
    ensures |s| <= |b| <= 4 * |s|
  {
    if s == [] then [] else Utf8Char(s[0]) + Utf8(s[1..])
  }

  /** The characters Base64 text is made of. */
  predicate Base64Char(c: char)
  {
    'A' <= c <= 'Z' || 'a' <= c <= 'z' || '0' <= c <= '9' || c == '+' || c == '/' || c == '='
  }

  /** The Base64 alphabet of RFC 4648 section 4: the character for a 6-bit value. */
  function Base64Digit(v: int): (c: char)
    requires 0 <= v < 64
    ensures Base64Char(c) && c != '='
  {
    if v < 26 then ('A' as int + v) as char
    else if v < 52 then ('a' as int + v - 26) as char
    else if v < 62 then ('0' as int + v - 52) as char
    else if v == 62 then '+'
    else '/'
  }

  /**
   * One group of three bytes as four characters, six bits each, most
   * significant first.
   */
  function Quad(b0: byte, b1: byte, b2: byte): (q: string)
    ensures |q| == 4 && forall i :: 0 <= i < 4 ==> Base64Char(q[i]) && q[i] != '='
  {
    var x0: int, x1: int, x2: int := b0, b1, b2;
    [Base64Digit(x0 / 4), Base64Digit((x0 % 4) * 16 + x1 / 16), Base64Digit((x1 % 16) * 4 + x2 / 64),
     Base64Digit(x2 % 64)]
  }

  /**
   * The basic Base64 encoding of RFC 4648 section 4: a last group of one
   * or two bytes is filled up with zero bits and ends in '=' padding.
   */
  function Base64(b: seq<byte>): (r: string)
    ensures |r| == 4 * ((|b| + 2) / 3)
    decreases |b|
  {
    if |b| == 0 then ""
    else if |b| == 1 then Quad(b[0], 0, 0)[..2] + "=="
    else if |b| == 2 then Quad(b[0], b[1], 0)[..3] + "="
    else Quad(b[0], b[1], b[2]) + Base64(b[3..])
  }

  // ----- outcomes -----

  datatype Outcome = Connected | Failed(message: string)

  const NoResponse: string := "proxy CONNECT no response"
  const TooLarge: string := "proxy CONNECT response header too large"
  const ChannelClosed: string := "channel closed"

  function RefusedConnect(header: string): string
  {
    "proxy CONNECT failed: " + header
  }

  /** Java prints a byte as a signed decimal. */
  function MethodRefused(ver: byte, chosen: byte): string
  {
    "socks5 method not accepted: ver=" + IntToString(ToJavaByte(ver)) + ", method=" + IntToString(ToJavaByte(chosen))
  }

  function ConnectRefused(rep: byte): string
  {
    "socks5 connect failed, rep=" + IntToString(ToJavaByte(rep))
  }

  function UnknownAddressType(atyp: byte): string
  {
    "unknown atyp=" + IntToString(ToJavaByte(atyp))
  }

  // ----- HTTP CONNECT -----

  const MaxHeaderBytes: int := 64 * 1024
  const ReadBufferSize: nat := 8192
  const HeaderEnd: string := "\r\n\r\n"

  /** The authorization line, present only when both user and password are given. */
  function AuthLines(user: Option<string>, pass: Option<string>): seq<string>
  {
    if user.Some? && pass.Some? then ["Proxy-Authorization: Basic " + Base64(Utf8(user.value + ":" + pass.value))]
    else []
  }

  /** The request's header lines. */
  function RequestLines(host: string, port: int, user: Option<string>, pass: Option<string>): seq<string>
  {
    ["CONNECT " + host + ":" + IntToString(port) + " HTTP/1.1",
     "Host: " + host + ":" + IntToString(port),
     "Proxy-Connection: Keep-Alive"] + AuthLines(user, pass)
  }

  /** Each line followed by CRLF, then the blank line. */
  function Block(lines: seq<string>): string
  {
    if lines == [] then "\r\n" else lines[0] + "\r\n" + Block(lines[1..])
  }

  /** The CONNECT request as text, before its ISO-8859-1 encoding. */
  function ConnectRequest(host: string, port: int, user: Option<string>, pass: Option<string>): string
  {
    Block(RequestLines(host, port, user, pass))
  }

  /** A reader of a header block: the lines up to the first empty one, or None if there is none. */
  function HeaderLines(text: string): Option<seq<string>>
    decreases |text|
  {
    var k := IndexOf(text, "\r\n");
    if k < 0 then None
    else if k == 0 then Some([])
    else match HeaderLines(text[k + 2..])
      case Some(more) => Some([text[..k]] + more)
      case None => None
  }

  /** A line free of CR, then CRLF: the first CRLF is right behind the line. */
  lemma FirstLineEnd(line: string, rest: string)
    requires '\r' !in line
    ensures IndexOf(line + "\r\n" + rest, "\r\n") == |line|
  {
    var t := line + "\r\n" + rest;
    assert ContainsAt(t, "\r\n", |line|);
    forall j | 0 <= j < |line| ensures !ContainsAt(t, "\r\n", j) {
      assert t[j] == line[j] && line[j] != '\r';
      assert j + 2 > |t| || t[j..j + 2][0] != '\r';
    }
  }

  /** Non-empty lines free of CR, as a block, read back as themselves. */
  lemma {:induction false} BlockReadsBack(lines: seq<string>)
    requires forall i :: 0 <= i < |lines| ==> lines[i] != [] && '\r' !in lines[i]
    ensures HeaderLines(Block(lines)) == Some(lines)
  {
    if lines == [] {
      assert IndexOf("\r\n", "\r\n") == 0 by {
        assert ContainsAt("\r\n", "\r\n", 0);
      }
    } else {
      var rest := Block(lines[1..]);
      FirstLineEnd(lines[0], rest);
      var t := lines[0] + "\r\n" + rest;
      assert t[|lines[0]| + 2..] == rest;
      assert t[..|lines[0]|] == lines[0];
      BlockReadsBack(lines[1..]);
      assert [lines[0]] + lines[1..] == lines;
    }
  }

  /** Base64 text is made of the alphabet and the padding only. */
  lemma {:induction false} Base64Alphabetic(b: seq<byte>)
    ensures forall i :: 0 <= i < |Base64(b)| ==> Base64Char(Base64(b)[i])
    decreases |b|
  {
    if |b| >= 3 {
      Base64Alphabetic(b[3..]);
      var r := Base64(b);
      forall i | 4 <= i < |r| ensures Base64Char(r[i]) {
        assert r[i] == Base64(b[3..])[i - 4];
      }
    }
  }

  /** Base64 text holds no CR. */
  lemma Base64HasNoReturn(b: seq<byte>)
    ensures '\r' !in Base64(b)
  {
    Base64Alphabetic(b);
    var r := Base64(b);
    forall i | 0 <= i < |r| ensures r[i] != '\r' {
      assert Base64Char(r[i]);
    }
  }

  lemma NoReturnInNumber(x: int)
    ensures '\r' !in IntToString(x)
  {
    var r := IntToString(x);
    forall i | 0 <= i < |r| ensures r[i] != '\r' {
      assert r[i] == '-' || '0' <= r[i] <= '9';
    }
  }

  /**
   * A proxy reading the request's header block gets the request lines
   * back, with the authorization line present exactly when both user and
   * password are given.
   */
  lemma RequestReadsBack(host: string, port: int, user: Option<string>, pass: Option<string>)
    requires '\r' !in host
    ensures HeaderLines(ConnectRequest(host, port, user, pass)) == Some(RequestLines(host, port, user, pass))
    ensures |RequestLines(host, port, user, pass)| == 4 <==> user.Some? && pass.Some?
  {
    var lines := RequestLines(host, port, user, pass);
    NoReturnInNumber(port);
    if user.Some? && pass.Some? {
      Base64HasNoReturn(Utf8(user.value + ":" + pass.value));
    }
    forall i | 0 <= i < |lines| ensures lines[i] != [] && '\r' !in lines[i] {
      assert lines[i][0] in "CHP";
    }
    BlockReadsBack(lines);
  }

  /**
   * The verdict on the response text read so far: none until the blank
   * line has arrived; then acceptance exactly when the header before it
   * starts with "HTTP/" and contains " 200 ".
   */
  function HeaderVerdict(resp: string): (v: Option<Outcome>)
    ensures v.None? <==> !Contains(resp, HeaderEnd)
  {
    var k := IndexOf(resp, HeaderEnd);
    if k < 0 then None
    else
      var header := resp[..k];
      if !StartsWith(header, "HTTP/") || !Contains(header, " 200 ") then Some(Failed(RefusedConnect(header)))
      else Some(Connected)
  }

  /** Once the blank line has arrived, later text does not change the first occurrence. */
  lemma IndexOfStays(resp: string, more: string, sub: string)
    requires Contains(resp, sub)
    ensures IndexOf(resp + more, sub) == IndexOf(resp, sub)
  {
    var k := IndexOf(resp, sub);
    var t := resp + more;
    assert t[k..k + |sub|] == resp[k..k + |sub|];
    assert ContainsAt(t, sub, k);
    forall j | 0 <= j < k ensures !ContainsAt(t, sub, j) {
      assert !ContainsAt(resp, sub, j);
      assert t[j..j + |sub|] == resp[j..j + |sub|];
    }
  }

  /** The verdict, once reached, holds whatever the proxy sends after the header. */
  lemma HeaderVerdictStays(resp: string, more: string)
    requires Contains(resp, HeaderEnd)
    ensures HeaderVerdict(resp + more) == HeaderVerdict(resp)
  {
    IndexOfStays(resp, more, HeaderEnd);
    var k := IndexOf(resp, HeaderEnd);
    assert (resp + more)[..k] == resp[..k];
  }

  /**
   * The read loop of `httpConnect`: a read of no bytes fails, the size
   * limit is checked before the blank line is looked for, and the verdict
   * comes as soon as the blank line has arrived.
   */
  function HttpLoop(incoming: seq<seq<byte>>, resp: string): Outcome
    requires |resp| <= MaxHeaderBytes
    decreases MaxHeaderBytes - |resp|
  {
    var d := ReadStep(incoming, ReadBufferSize);
    if d.n <= 0 then Failed(NoResponse)
    else
      var text := resp + Latin1Decode(d.data);
      if |text| > MaxHeaderBytes then Failed(TooLarge)
      else match HeaderVerdict(text)
        case Some(v) => v
        case None => HttpLoop(d.rest, text)
  }

  /**
   * Whatever the loop decides on a complete header is what the whole
   * stream says; it gives up for size only when the stream is over the
   * limit.
   */
  lemma {:induction false} HttpLoopAgrees(incoming: seq<seq<byte>>, resp: string)
    requires |resp| <= MaxHeaderBytes
    ensures var v := HttpLoop(incoming, resp);
      v != Failed(NoResponse) && v != Failed(TooLarge) ==>
        HeaderVerdict(resp + Latin1Decode(Flatten(incoming))) == Some(v)
    ensures HttpLoop(incoming, resp) == Failed(TooLarge) ==>
      |resp + Latin1Decode(Flatten(incoming))| > MaxHeaderBytes
    decreases MaxHeaderBytes - |resp|
  {
    var d := ReadStep(incoming, ReadBufferSize);
    if d.n > 0 {
      var text := resp + Latin1Decode(d.data);
      Latin1DecodeAppend(d.data, Flatten(d.rest));
      var whole := text + Latin1Decode(Flatten(d.rest));
      assert resp + Latin1Decode(Flatten(incoming)) == whole;
      if |text| <= MaxHeaderBytes {
        if Contains(text, HeaderEnd) {
          HttpMessagesDiffer(text[..IndexOf(text, HeaderEnd)]);
          HeaderVerdictStays(text, Latin1Decode(Flatten(d.rest)));
        } else {
          HttpLoopAgrees(d.rest, text);
        }
      }
    }
  }

  /** Every coming read delivers something. */
  predicate Delivering(incoming: seq<seq<byte>>)
  {
    forall i :: 0 <= i < |incoming| ==> incoming[i] != []
  }

  /**
   * When every read delivers and the whole response, blank line included,
   * fits in the limit, the loop reaches the verdict of the whole stream.
   */
  lemma {:induction false} HttpLoopComplete(incoming: seq<seq<byte>>, resp: string)
    requires |resp| <= MaxHeaderBytes && !Contains(resp, HeaderEnd) && Delivering(incoming)
    requires Contains(resp + Latin1Decode(Flatten(incoming)), HeaderEnd)
    requires |resp + Latin1Decode(Flatten(incoming))| <= MaxHeaderBytes
    ensures HeaderVerdict(resp + Latin1Decode(Flatten(incoming))) == Some(HttpLoop(incoming, resp))
    decreases MaxHeaderBytes - |resp|
  {
    if incoming == [] {
      NothingMore(resp);
      assert false;
    } else {
      var d := ReadStep(incoming, ReadBufferSize);
      assert incoming[0] != [];
      var text := resp + Latin1Decode(d.data);
      Latin1DecodeAppend(d.data, Flatten(d.rest));
      assert resp + Latin1Decode(Flatten(incoming)) == text + Latin1Decode(Flatten(d.rest));
      if Contains(text, HeaderEnd) {
        HeaderVerdictStays(text, Latin1Decode(Flatten(d.rest)));
      } else {
        RestDelivers(incoming);
        HttpLoopComplete(d.rest, text);
      }
    }
  }

  lemma NothingMore(resp: string)
    ensures resp + Latin1Decode(Flatten([])) == resp
  {
  }

  /** The three failure texts of the HTTP exchange are distinct. */
  lemma HttpMessagesDiffer(header: string)
    ensures RefusedConnect(header) != TooLarge && RefusedConnect(header) != NoResponse && NoResponse != TooLarge
  {
    assert RefusedConnect(header)[14] == 'f' && TooLarge[14] == 'r' && NoResponse[14] == 'n';
  }

  /** After a read from delivering segments, the rest still delivers, and the read got something. */
  lemma RestDelivers(incoming: seq<seq<byte>>)
    requires incoming != [] && Delivering(incoming)
    ensures ReadStep(incoming, ReadBufferSize).n > 0
    ensures Delivering(ReadStep(incoming, ReadBufferSize).rest)
  {
    var d := ReadStep(incoming, ReadBufferSize);
    assert incoming[0] != [];
    var take := Min(ReadBufferSize, |incoming[0]|);
    if take < |incoming[0]| {
      assert d.rest == [incoming[0][take..]] + incoming[1..];
    } else {
      assert d.rest == incoming[1..];
    }
  }

  /** `httpConnect`: sends the CONNECT request, then reads the response header. */
  method HttpConnect(ch: Channel, host: string, port: int, user: Option<string>, pass: Option<string>)
    returns (r: Outcome)
    modifies ch`written, ch`accepts, ch`incoming
    ensures ch.written == old(ch.written) + Latin1Encode(ConnectRequest(host, port, user, pass))
    ensures r == HttpLoop(old(ch.incoming), "")
  {
    var sb := BuildConnectRequest(host, port, user, pass);
    WriteFully(ch, Latin1Encode(sb));
    var resp := "";
    while true
      invariant |resp| <= MaxHeaderBytes
      invariant ch.written == old(ch.written) + Latin1Encode(ConnectRequest(host, port, user, pass))
      invariant HttpLoop(ch.incoming, resp) == HttpLoop(old(ch.incoming), "")
      decreases MaxHeaderBytes - |resp|
    {
      var n, data := ch.Read(ReadBufferSize);
      if n <= 0 {
        return Failed(NoResponse);
      }
      resp := resp + Latin1Decode(data);
      if |resp| > MaxHeaderBytes {
        return Failed(TooLarge);
      }
      var headerEnd := IndexOf(resp, HeaderEnd);
      if headerEnd >= 0 {
        var header := resp[..headerEnd];
        if !StartsWith(header, "HTTP/") || !Contains(header, " 200 ") {
          return Failed(RefusedConnect(header));
        }
        return Connected;
      }
    }
  }

  /** The StringBuilder part of `httpConnect`: each header line, then CRLF, then the blank line. */
  method BuildConnectRequest(host: string, port: int, user: Option<string>, pass: Option<string>)
    returns (sb: string)
    ensures sb == ConnectRequest(host, port, user, pass)
  {
    ghost var lines := RequestLines(host, port, user, pass);
    sb := "";
    assert lines[0..] == lines;
    sb := AppendLine(sb, "CONNECT " + host + ":" + IntToString(port) + " HTTP/1.1", lines, 0);
    sb := AppendLine(sb, "Host: " + host + ":" + IntToString(port), lines, 1);
    sb := AppendLine(sb, "Proxy-Connection: Keep-Alive", lines, 2);
    if user.Some? && pass.Some? {
      var token := Base64(Utf8(user.value + ":" + pass.value));
      sb := AppendLine(sb, "Proxy-Authorization: Basic " + token, lines, 3);
      assert lines[4..] == [];
    } else {
      assert lines[3..] == [];
    }
    sb := sb + "\r\n";
  }

  /** Appends one header line and its CRLF; the builder stays a prefix of the block of `lines`. */
  method AppendLine(sb: string, line: string, ghost lines: seq<string>, ghost k: nat) returns (sb': string)
    requires k < |lines| && lines[k] == line && sb + Block(lines[k..]) == Block(lines)
    ensures sb' == sb + line + "\r\n"
    ensures sb' + Block(lines[k + 1..]) == Block(lines)
  {
    sb' := sb + line + "\r\n";
    LineAdded(sb, lines, k);
  }

  /** Writing one more line and its CRLF keeps the builder a prefix of the block. */
  lemma LineAdded(sb: string, lines: seq<string>, k: nat)
    requires k < |lines| && sb + Block(lines[k..]) == Block(lines)
    ensures sb + lines[k] + "\r\n" + Block(lines[k + 1..]) == Block(lines)
  {
    BlockHead(lines, k);
    Regrouped(sb, lines[k], "\r\n", Block(lines[k + 1..]));
  }

  lemma Regrouped(a: string, b: string, c: string, d: string)
    ensures a + (b + c + d) == a + b + c + d
  {
  }

  lemma BlockHead(lines: seq<string>, k: nat)
    requires k < |lines|
    ensures Block(lines[k..]) == lines[k] + "\r\n" + Block(lines[k + 1..])
  {
    assert lines[k..][1..] == lines[k + 1..];
  }

  // ----- SOCKS5 -----

  /** The greeting: version 5, one method, "no authentication". */
  const Greeting: seq<byte> := [0x05, 0x01, 0x00]

  /** The CONNECT request with a domain-name address; the length byte keeps only the low 8 bits. */
  function Socks5Request(host: string, port: int): (r: seq<byte>)
    ensures |r| == 7 + |Utf8(host)|
  {
    var h := Utf8(host);
    var p := port % 65536;
    [0x05, 0x01, 0x00, 0x03, |h| % 256] + h + [p / 256, p % 256]
  }

  /** A proxy's reading of a CONNECT request with a domain-name address. */
  function ParseSocks5Request(r: seq<byte>): Option<(seq<byte>, int)>
  {
    if |r| < 7 || r[..4] != [0x05, 0x01, 0x00, 0x03] || |r| != 7 + r[4] as int then None
    else
      var len := r[4] as int;
      Some((r[5..5 + len], r[5 + len] as int * 256 + r[6 + len] as int))
  }

  /**
   * A proxy reads back the host's bytes and the port's low 16 bits when
   * the host fits the length byte; a longer host makes the request
   * unreadable.
   */
  lemma Socks5RequestRoundTrip(host: string, port: int)
    ensures |Utf8(host)| < 256 ==> ParseSocks5Request(Socks5Request(host, port)) == Some((Utf8(host), port % 65536))
    ensures |Utf8(host)| >= 256 ==> ParseSocks5Request(Socks5Request(host, port)) == None
  {
    var h := Utf8(host);
    var p := port % 65536;
    DomainRequestReadsBack([0x05, 0x01, 0x00, 0x03, |h| % 256], h, [p / 256, p % 256], p);
  }

  /** The three parts of a domain-name request, read back. */
  lemma DomainRequestReadsBack(head: seq<byte>, h: seq<byte>, tail: seq<byte>, p: int)
    requires 0 <= p < 65536
    requires head == [0x05, 0x01, 0x00, 0x03, |h| % 256] && tail == [p / 256, p % 256]
    ensures |h| < 256 ==> ParseSocks5Request(head + h + tail) == Some((h, p))
    ensures |h| >= 256 ==> ParseSocks5Request(head + h + tail) == None
  {
    var r := head + h + tail;
    assert r[..4] == head[..4] && r[4] == head[4];
    if |h| < 256 {
      assert r[5..5 + |h|] == h;
      assert r[5 + |h|] == tail[0] && r[6 + |h|] == tail[1];
    }
  }

  /** The request as `socks5Connect` fills its buffer of 4 + 1 + hostLen + 2 bytes. */
  method BuildSocks5Request(host: string, port: int) returns (req: seq<byte>)
    ensures req == Socks5Request(host, port)
  {
    var h := Utf8(host);
    var buf := new byte[4 + 1 + |h| + 2];
    buf[0], buf[1], buf[2], buf[3] := 0x05, 0x01, 0x00, 0x03;
    buf[4] := |h| % 256;
    forall i | 0 <= i < |h| {
      buf[5 + i] := h[i];
    }
    var p := port % 65536;
    buf[5 + |h|], buf[6 + |h|] := p / 256, p % 256;
    req := buf[..];
    Assembled(req, [0x05, 0x01, 0x00, 0x03, |h| % 256], h, [p / 256, p % 256]);
  }

  /** A buffer holding the head, then the host, then the tail, byte by byte, is their concatenation. */
  lemma Assembled(req: seq<byte>, head: seq<byte>, h: seq<byte>, tail: seq<byte>)
    requires |head| == 5 && |tail| == 2 && |req| == 7 + |h|
    requires forall i :: 0 <= i < 5 ==> req[i] == head[i]
    requires forall i :: 0 <= i < |h| ==> req[5 + i] == h[i]
    requires req[5 + |h|] == tail[0] && req[6 + |h|] == tail[1]
    ensures req == head + h + tail
  {
    var whole := head + h + tail;
    forall i | 0 <= i < |req| ensures req[i] == whole[i] {
      if 5 <= i < 5 + |h| {
        assert req[5 + (i - 5)] == h[i - 5];
      }
    }
  }

  /** The proxy accepted the "no authentication" method. */
  predicate MethodAccepted(s: seq<byte>)
  {
    |s| >= 2 && s[0] == 0x05 && s[1] == 0x00
  }

  /** A known address type: IPv4, domain name or IPv6. */
  predicate KnownAddressType(atyp: byte)
  {
    atyp == 0x01 || atyp == 0x03 || atyp == 0x04
  }

  /**
   * The length of a CONNECT reply that starts `t` (RFC 1928 section 6):
   * four header bytes, the bound address (4 bytes for IPv4, 16 for IPv6,
   * a length byte and that many bytes for a domain name) and two port
   * bytes.
   */
  function ReplySize(t: seq<byte>): nat
    requires |t| >= 4 && KnownAddressType(t[3])
  {
    if t[3] == 0x01 then 4 + 4 + 2
    else if t[3] == 0x04 then 4 + 16 + 2
    else if |t| < 5 then 5
    else 4 + 1 + t[4] as int + 2
  }

  /** The outcome of reading a CONNECT reply off the stream `t`. */
  function ReplyVerdict(t: seq<byte>): Outcome
  {
    if |t| < 4 then Failed(ChannelClosed)
    else if t[0] != 0x05 || t[1] != 0x00 then Failed(ConnectRefused(t[1]))
    else if !KnownAddressType(t[3]) then Failed(UnknownAddressType(t[3]))
    else if |t| < ReplySize(t) then Failed(ChannelClosed)
    else Connected
  }

  /**
   * The outcome of a SOCKS5 CONNECT read off the proxy's whole byte
   * stream (RFC 1928 sections 3 and 6): the method reply 05 00, then a
   * reply with version 05, REP 00, a known address type and the full
   * address and port.
   */
  function Socks5Verdict(s: seq<byte>): Outcome
  {
    if |s| < 2 then Failed(ChannelClosed)
    else if !MethodAccepted(s) then Failed(MethodRefused(s[0], s[1]))
    else ReplyVerdict(s[2..])
  }

  /** The bytes a successful handshake takes: the method reply and the CONNECT reply. */
  function ReplyLength(s: seq<byte>): nat
    requires Socks5Verdict(s) == Connected
  {
    2 + ReplySize(s[2..])
  }

  /** Bytes the proxy sends after its reply do not change the outcome, nor what the handshake takes. */
  lemma Socks5VerdictStays(s: seq<byte>, more: seq<byte>)
    requires Socks5Verdict(s) == Connected
    ensures Socks5Verdict(s + more) == Connected && ReplyLength(s + more) == ReplyLength(s)
  {
    assert (s + more)[2..] == s[2..] + more;
    assert (s + more)[..|s|] == s;
  }

  /**
   * `socks5Connect`: its outcome is the verdict on the proxy's byte
   * stream however the stream is cut into reads; the request goes out
   * only after the method was accepted; and a successful handshake takes
   * exactly the reply bytes, leaving what follows for the next layer.
   */
  method Socks5Connect(ch: Channel, host: string, port: int) returns (r: Outcome)
    modifies ch`written, ch`accepts, ch`incoming
    ensures r == Socks5Verdict(Flatten(old(ch.incoming)))
    ensures ch.written == old(ch.written) + Greeting
      + (if MethodAccepted(Flatten(old(ch.incoming))) then Socks5Request(host, port) else [])
    ensures r == Connected ==>
      Flatten(ch.incoming) == Flatten(old(ch.incoming))[ReplyLength(Flatten(old(ch.incoming)))..]
  {
    ghost var s := Flatten(ch.incoming);
    WriteFully(ch, Greeting);
    var resp := ReadFully(ch, 2);
    if resp.None? {
      return Failed(ChannelClosed);
    }
    var ver, chosen := resp.value[0], resp.value[1];
    if ver != 0x05 || chosen != 0x00 {
      return Failed(MethodRefused(ver, chosen));
    }
    var req := BuildSocks5Request(host, port);
    WriteFully(ch, req);
    r := ReadConnectReply(ch);
    assert r == Connected ==> s[2..][ReplySize(s[2..])..] == s[ReplyLength(s)..];
  }

  /** The reply half of `socks5Connect`, on the stream after the method reply. */
  method ReadConnectReply(ch: Channel) returns (r: Outcome)
    modifies ch`incoming
    ensures r == ReplyVerdict(Flatten(old(ch.incoming)))
    ensures r == Connected ==>
      Flatten(ch.incoming) == Flatten(old(ch.incoming))[ReplySize(Flatten(old(ch.incoming)))..]
  {
    ghost var t := Flatten(ch.incoming);
    var hdr := ReadFully(ch, 4);
    if hdr.None? {
      return Failed(ChannelClosed);
    }
    var rver, rep, atyp := hdr.value[0], hdr.value[1], hdr.value[3];
    if rver != 0x05 || rep != 0x00 {
      return Failed(ConnectRefused(rep));
    }
    var addrLen: nat;
    if atyp == 0x01 {
      addrLen := 4;
    } else if atyp == 0x04 {
      addrLen := 16;
    } else if atyp == 0x03 {
      var l := ReadFully(ch, 1);
      if l.None? {
        return Failed(ChannelClosed);
      }
      assert t[4..][1..] == t[5..];
      addrLen := l.value[0];
    } else {
      return Failed(UnknownAddressType(atyp));
    }
    var rest := ReadFully(ch, addrLen + 2);
    if rest.None? {
      return Failed(ChannelClosed);
    }
    assert t[ReplySize(t) - addrLen - 2..][addrLen + 2..] == t[ReplySize(t)..];
    return Connected;
  }
}
