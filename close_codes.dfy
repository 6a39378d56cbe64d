// ChannelCloseCode: the reason a connection was closed, carried as a Java
// Byte. The literals above 127 are narrowed by the (byte) cast, so
// INIT_STATUS (199) is stored as -57 and so on.

module CloseCodes {
  import opened Util

  datatype ChannelCloseCode =
    | NoCode | ReadError | WriterError | DecodeError | ChannelNotOpen
    | ReadCountIsZero | ClosedByPeer | ReadCountIsNegative
    | WriteCountIsNegative | ServerConnection | HeartbeatTimeout
    | ClientConnectionFail
    | SslErrorOnHandshake | SslSessionClosed | SslEncryptionError | SslDecryptError
    | UserCode0 | UserCode1 | UserCode2 | UserCode3 | UserCode4 | UserCode5
    | UserCode6 | UserCode7 | UserCode8 | UserCode9 | UserCode10
    | InitStatus | OtherError | PacketTooLarge | CloseByError | IpInBlackList

  /** Number of constants `values()` returns. */
  const CodeCount: nat := 32

  /** Position of a constant in declaration order (its ordinal). */
  function Index(c: ChannelCloseCode): (k: nat)
    ensures k < CodeCount && CodeAt(k) == c
  {
    match c
    case NoCode => 0
    case ReadError => 1
    case WriterError => 2
    case DecodeError => 3
    case ChannelNotOpen => 4
    case ReadCountIsZero => 5
    case ClosedByPeer => 6
    case ReadCountIsNegative => 7
    case WriteCountIsNegative => 8
    case ServerConnection => 9
    case HeartbeatTimeout => 10
    case ClientConnectionFail => 11
    case SslErrorOnHandshake => 12
    case SslSessionClosed => 13
    case SslEncryptionError => 14
    case SslDecryptError => 15
    case UserCode0 => 16
    case UserCode1 => 17
    case UserCode2 => 18
    case UserCode3 => 19
    case UserCode4 => 20
    case UserCode5 => 21
    case UserCode6 => 22
    case UserCode7 => 23
    case UserCode8 => 24
    case UserCode9 => 25
    case UserCode10 => 26
    case InitStatus => 27
    case OtherError => 28
    case PacketTooLarge => 29
    case CloseByError => 30
    case IpInBlackList => 31
  }

  /** The constant declared at position `k`, as `values()[k]`. */
  function CodeAt(k: nat): ChannelCloseCode
    requires k < CodeCount
  {
    if k < 16 then
      if k < 8 then
        [NoCode, ReadError, WriterError, DecodeError, ChannelNotOpen,
         ReadCountIsZero, ClosedByPeer, ReadCountIsNegative][k]
      else
        [WriteCountIsNegative, ServerConnection, HeartbeatTimeout, ClientConnectionFail,
         SslErrorOnHandshake, SslSessionClosed, SslEncryptionError, SslDecryptError][k - 8]
    else if k < 24 then
      [UserCode0, UserCode1, UserCode2, UserCode3, UserCode4, UserCode5,
       UserCode6, UserCode7][k - 16]
    else
      [UserCode8, UserCode9, UserCode10,
       InitStatus, OtherError, PacketTooLarge, CloseByError, IpInBlackList][k - 24]
  }

  lemma IndexOfCodeAt(k: nat)
    requires k < CodeCount
    ensures Index(CodeAt(k)) == k
  {
    if k < 8 {
      IndexOfFirstRow(k);
    } else if k < 16 {
      IndexOfSecondRow(k);
    } else if k < 24 {
      IndexOfThirdRow(k);
    } else {
      IndexOfFourthRow(k);
    }
  }

  /** The same, one row of eight constants at a time. */
  lemma IndexOfFirstRow(k: nat)
    requires k < 8
    ensures Index(CodeAt(k)) == k
  {
  }

  lemma IndexOfSecondRow(k: nat)
    requires 8 <= k < 16
    ensures Index(CodeAt(k)) == k
  {
  }

  lemma IndexOfThirdRow(k: nat)
    requires 16 <= k < 24
    ensures Index(CodeAt(k)) == k
  {
  }

  lemma IndexOfFourthRow(k: nat)
    requires 24 <= k < CodeCount
    ensures Index(CodeAt(k)) == k
  {
  }

  /** The integer literal each constant is declared with. */
  function Literal(c: ChannelCloseCode): int
  {
    match c
    case NoCode => 1
    case ReadError => 2
    case WriterError => 3
    case DecodeError => 4
    case ChannelNotOpen => 5
    case ReadCountIsZero => 6
    case ClosedByPeer => 7
    case ReadCountIsNegative => 8
    case WriteCountIsNegative => 9
    case ServerConnection => 9
    case HeartbeatTimeout => 10
    case ClientConnectionFail => 80
    case SslErrorOnHandshake => 50
    case SslSessionClosed => 51
    case SslEncryptionError => 52
    case SslDecryptError => 53
    case UserCode0 => 100
    case UserCode1 => 101
    case UserCode2 => 102
    case UserCode3 => 103
    case UserCode4 => 104
    case UserCode5 => 105
    case UserCode6 => 106
    case UserCode7 => 107
    case UserCode8 => 108
    case UserCode9 => 109
    case UserCode10 => 110
    case InitStatus => 199
    case OtherError => 200
    case PacketTooLarge => 201
    case CloseByError => 202
    case IpInBlackList => 203
  }

  /** The Byte a constant holds until someone calls setValue. */
  function DefaultValue(c: ChannelCloseCode): int
  {
    ToJavaByte(Literal(c))
  }

  /**
   * The value table of the enum, indexed by ordinal; an entry is None when
   * setValue stored a null Byte.
   */
  type ValueTable = t: seq<Option<int>> | |t| == CodeCount
    witness seq(CodeCount, _ => None)

  function DefaultValues(): (t: ValueTable)
    ensures forall c :: t[Index(c)] == Some(DefaultValue(c))
  {
    seq(CodeCount, k requires 0 <= k < CodeCount => Some(DefaultValue(CodeAt(k))))
  }

  /**
   * Linear search from position `k` for the first constant whose value
   * equals `v` (Objects.equals, so two nulls are equal).
   */
  function FirstWithValue(values: ValueTable, v: Option<int>, k: nat): (r: Option<nat>)
    requires k <= CodeCount
    ensures r.Some? ==> k <= r.value < CodeCount && values[r.value] == v
    ensures r.Some? ==> forall j :: k <= j < r.value ==> values[j] != v
    ensures r.None? ==> forall j :: k <= j < CodeCount ==> values[j] != v
    decreases CodeCount - k
  {
    if k == CodeCount then None
    else if values[k] == v then Some(k)
    else FirstWithValue(values, v, k + 1)
  }

  /** `ChannelCloseCode.from` over a given value table. */
  function From(values: ValueTable, v: Option<int>): (r: Option<ChannelCloseCode>)
    ensures r.Some? ==> values[Index(r.value)] == v
    ensures r.Some? ==> forall d :: Index(d) < Index(r.value) ==> values[Index(d)] != v
    ensures r.None? <==> forall c :: values[Index(c)] != v
  {
    match FirstWithValue(values, v, 0)
    case None => None
    case Some(k) =>
      IndexOfCodeAt(k);
      Some(CodeAt(k))
  }

  /**
   * Whatever constant carries `v`, `from(v)` finds a constant, and the one
   * it finds is declared no later.
   */
  lemma {:induction false} FromIsFirst(values: ValueTable, v: Option<int>, c: ChannelCloseCode)
    requires values[Index(c)] == v
    ensures From(values, v).Some?
    ensures Index(From(values, v).value) <= Index(c)
  {
    var r := FirstWithValue(values, v, 0);
    assert r.Some?;
    IndexOfCodeAt(r.value);
  }

  /**
   * The declared constant owning a default Byte, looked up the other way
   * round; the shared 9 belongs to the earlier WRITE_COUNT_IS_NEGATIVE.
   */
  function DefaultOwner(v: int): Option<ChannelCloseCode>
  {
    if v == 1 then Some(NoCode)
    else if v == 2 then Some(ReadError)
    else if v == 3 then Some(WriterError)
    else if v == 4 then Some(DecodeError)
    else if v == 5 then Some(ChannelNotOpen)
    else if v == 6 then Some(ReadCountIsZero)
    else if v == 7 then Some(ClosedByPeer)
    else if v == 8 then Some(ReadCountIsNegative)
    else if v == 9 then Some(WriteCountIsNegative)
    else if v == 10 then Some(HeartbeatTimeout)
    else if v == 80 then Some(ClientConnectionFail)
    else if v == 50 then Some(SslErrorOnHandshake)
    else if v == 51 then Some(SslSessionClosed)
    else if v == 52 then Some(SslEncryptionError)
    else if v == 53 then Some(SslDecryptError)
    else if v == 100 then Some(UserCode0)
    else if v == 101 then Some(UserCode1)
    else if v == 102 then Some(UserCode2)
    else if v == 103 then Some(UserCode3)
    else if v == 104 then Some(UserCode4)
    else if v == 105 then Some(UserCode5)
    else if v == 106 then Some(UserCode6)
    else if v == 107 then Some(UserCode7)
    else if v == 108 then Some(UserCode8)
    else if v == 109 then Some(UserCode9)
    else if v == 110 then Some(UserCode10)
    else if v == -57 then Some(InitStatus)
    else if v == -56 then Some(OtherError)
    else if v == -55 then Some(PacketTooLarge)
    else if v == -54 then Some(CloseByError)
    else if v == -53 then Some(IpInBlackList)
    else None
  }

  /** Each constant's default Byte leads back to it, but for the shadowed SERVER_CONNECTION. */
  lemma DefaultOwnerOf(c: ChannelCloseCode)
    ensures c != ServerConnection ==> DefaultOwner(DefaultValue(c)) == Some(c)
    ensures c == ServerConnection ==> DefaultOwner(DefaultValue(c)) == Some(WriteCountIsNegative)
  {
    if Index(c) < 16 {
      DefaultOwnerOfEarly(c);
    } else {
      DefaultOwnerOfLate(c);
    }
  }

  lemma DefaultOwnerOfEarly(c: ChannelCloseCode)
    requires Index(c) < 16
    ensures c != ServerConnection ==> DefaultOwner(DefaultValue(c)) == Some(c)
    ensures c == ServerConnection ==> DefaultOwner(DefaultValue(c)) == Some(WriteCountIsNegative)
  {
    match c
    case NoCode => assert DefaultValue(c) == 1;
    case ReadError => assert DefaultValue(c) == 2;
    case WriterError => assert DefaultValue(c) == 3;
    case DecodeError => assert DefaultValue(c) == 4;
    case ChannelNotOpen => assert DefaultValue(c) == 5;
    case ReadCountIsZero => assert DefaultValue(c) == 6;
    case ClosedByPeer => assert DefaultValue(c) == 7;
    case ReadCountIsNegative => assert DefaultValue(c) == 8;
    case WriteCountIsNegative => assert DefaultValue(c) == 9;
    case ServerConnection => assert DefaultValue(c) == 9;
    case HeartbeatTimeout => assert DefaultValue(c) == 10;
    case ClientConnectionFail => assert DefaultValue(c) == 80;
    case SslErrorOnHandshake => assert DefaultValue(c) == 50;
    case SslSessionClosed => assert DefaultValue(c) == 51;
    case SslEncryptionError => assert DefaultValue(c) == 52;
    case SslDecryptError => assert DefaultValue(c) == 53;
    case _ => assert false;
  }

  lemma DefaultOwnerOfLate(c: ChannelCloseCode)
    requires Index(c) >= 16
    ensures c != ServerConnection ==> DefaultOwner(DefaultValue(c)) == Some(c)
    ensures c == ServerConnection ==> DefaultOwner(DefaultValue(c)) == Some(WriteCountIsNegative)
  {
    if Index(c) < 27 {
      DefaultOwnerOfUserCode(c);
    } else {
      DefaultOwnerOfNarrowed(c);
    }
  }

  lemma DefaultOwnerOfUserCode(c: ChannelCloseCode)
    requires 16 <= Index(c) < 27
    ensures DefaultOwner(DefaultValue(c)) == Some(c)
  {
    match c
    case UserCode0 => assert DefaultValue(c) == 100;
    case UserCode1 => assert DefaultValue(c) == 101;
    case UserCode2 => assert DefaultValue(c) == 102;
    case UserCode3 => assert DefaultValue(c) == 103;
    case UserCode4 => assert DefaultValue(c) == 104;
    case UserCode5 => assert DefaultValue(c) == 105;
    case UserCode6 => assert DefaultValue(c) == 106;
    case UserCode7 => assert DefaultValue(c) == 107;
    case UserCode8 => assert DefaultValue(c) == 108;
    case UserCode9 => assert DefaultValue(c) == 109;
    case UserCode10 => assert DefaultValue(c) == 110;
    case _ => assert false;
  }

  lemma DefaultOwnerOfNarrowed(c: ChannelCloseCode)
    requires Index(c) >= 27
    ensures DefaultOwner(DefaultValue(c)) == Some(c)
  {
    match c
    case InitStatus => assert DefaultValue(c) == -57;
    case OtherError => assert DefaultValue(c) == -56;
    case PacketTooLarge => assert DefaultValue(c) == -55;
    case CloseByError => assert DefaultValue(c) == -54;
    case IpInBlackList => assert DefaultValue(c) == -53;
    case _ => assert false;
  }

  /** Apart from the shared 9, no two constants have the same default Byte. */
  lemma DefaultValueInjective(a: ChannelCloseCode, b: ChannelCloseCode)
    requires DefaultValue(a) == DefaultValue(b)
    requires a != ServerConnection && b != ServerConnection
    ensures a == b
  {
    DefaultOwnerOf(a);
    DefaultOwnerOf(b);
  }

  /** WRITE_COUNT_IS_NEGATIVE and SERVER_CONNECTION share 9; `from(9)` answers the earlier. */
  lemma FromNineIsWriteCountIsNegative()
    ensures DefaultValue(WriteCountIsNegative) == DefaultValue(ServerConnection) == 9
    ensures From(DefaultValues(), Some(9)) == Some(WriteCountIsNegative)
  {
    SharedNine();
    NineInDefaultTable(DefaultValues());
  }

  lemma SharedNine()
    ensures DefaultValue(WriteCountIsNegative) == DefaultValue(ServerConnection) == 9
  {
  }

  /** The search for 9 in a table holding the default values. */
  lemma NineInDefaultTable(t: ValueTable)
    requires forall c :: t[Index(c)] == Some(DefaultValue(c))
    ensures From(t, Some(9)) == Some(WriteCountIsNegative)
  {
    assert t[Index(WriteCountIsNegative)] == Some(9);
    FromIsFirst(t, Some(9), WriteCountIsNegative);
    var r := From(t, Some(9)).value;
    var k := Index(r);
    assert t[k] == Some(9) && t[k] == Some(DefaultValue(r));
    EarlyValues(k);
  }

  /** The first nine constants hold 1 to 9, in declaration order. */
  lemma EarlyValues(k: nat)
    requires k <= 8
    ensures DefaultValue(CodeAt(k)) == k + 1
  {
  }

  /**
   * With the default values, `from(c.getValue())` gives back `c` for every
   * constant except SERVER_CONNECTION, which the earlier
   * WRITE_COUNT_IS_NEGATIVE shadows.
   */
  lemma FromInvertsDefaultValue(c: ChannelCloseCode)
    ensures c != ServerConnection ==> From(DefaultValues(), Some(DefaultValue(c))) == Some(c)
    ensures c == ServerConnection ==> From(DefaultValues(), Some(DefaultValue(c))) == Some(WriteCountIsNegative)
  {
    var t := DefaultValues();
    FromNineIsWriteCountIsNegative();
    if c != ServerConnection {
      FromIsFirst(t, Some(DefaultValue(c)), c);
      var r := From(t, Some(DefaultValue(c))).value;
      DefaultOwnerOf(c);
      if r != ServerConnection {
        DefaultValueInjective(r, c);
      }
    }
  }

  /** NO_CODE and the narrowed values from INIT_STATUS on. */
  lemma KnownValues()
    ensures DefaultValue(NoCode) == 1
    ensures Literal(InitStatus) == 199 && DefaultValue(InitStatus) == -57
    ensures DefaultValue(OtherError) == -56 && DefaultValue(IpInBlackList) == -53
  {
  }

  /** The TLS codes span 50..53 and the user codes 100..110. */
  lemma TlsAndUserCodeValues()
    ensures DefaultValue(SslErrorOnHandshake) == 50 && DefaultValue(SslDecryptError) == 53
    ensures DefaultValue(UserCode0) == 100 && DefaultValue(UserCode10) == 110
  {
  }

  /**
   * The enum's mutable value table: setValue rewrites one constant's Byte,
   * and every later `from` sees the new table.
   */
  class CloseCodeTable {
    var values: ValueTable

    constructor ()
      ensures values == DefaultValues()
    {
      values := DefaultValues();
    }

    function GetValue(c: ChannelCloseCode): (r: Option<int>)
      reads this
      ensures r == values[Index(c)]
    {
      values[Index(c)]
    }

    function Lookup(v: Option<int>): (r: Option<ChannelCloseCode>)
      reads this
      ensures r.Some? ==> GetValue(r.value) == v
      ensures r.None? <==> forall c :: GetValue(c) != v
    {
      From(values, v)
    }

    method SetValue(c: ChannelCloseCode, v: Option<int>)
      modifies this
      ensures values == old(values)[Index(c) := v]
      ensures GetValue(c) == v
      ensures Lookup(v).Some? && Index(Lookup(v).value) <= Index(c)
    {
      values := values[Index(c) := v];
      FromIsFirst(values, v, c);
    }
  }
}
