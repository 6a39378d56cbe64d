// ByteBufferPoolMetricsSnapshot: a frozen copy of the buffer pool's
// counters, and its one-line report. The report shows each counter as
// `name=value`, separated by ", ", with the two time totals replaced by
// their per-operation averages. A reader of the report gets every reported
// value back under its own name (ParseReport below).

module PoolMetrics {
  import opened Util
  import opened Text

  /** The snapshot's thirteen counters, in declaration order. */
  datatype Snapshot = Snapshot(
    reuseHit: int, reuseMissSize: int, reuseMissType: int, queuePoll: int, queueOffer: int,
    newAlloc: int, cleanCount: int, tryCleanRuns: int, tryCleanDrains: int,
    allocOps: int, allocTimeNs: int, cleanOps: int, cleanTimeNs: int)

  /**
   * The average time per operation, in whole nanoseconds: zero when there
   * were no operations, and otherwise the total divided by the count,
   * truncated toward zero; a negative count divides by one.
   */
  function AvgNs(totalNs: int, ops: int): (avg: int)
    ensures ops == 0 ==> avg == 0
    ensures ops < 0 ==> avg == totalNs
    ensures ops > 0 && totalNs >= 0 ==> 0 <= avg && avg * ops <= totalNs < (avg + 1) * ops
    ensures ops > 0 && totalNs < 0 ==> avg <= 0 && -avg * ops <= -totalNs < (-avg + 1) * ops
  {
    if ops == 0 then 0
    else if ops < 0 then JavaDiv(totalNs, 1)
    else
      if totalNs >= 0 then DivBounds(totalNs, ops); JavaDiv(totalNs, ops)
      else DivBounds(-totalNs, ops); JavaDiv(totalNs, ops)
  }

  /** Floor division of a non-negative number by a positive one brackets the quotient. */
  lemma DivBounds(a: int, b: int)
    requires a >= 0 && b > 0
    ensures a / b >= 0 && (a / b) * b <= a < (a / b + 1) * b
  {
    var q, r := a / b, a % b;
    assert a == q * b + r;
    assert (q + 1) * b == q * b + b;
  }

  /** The reported name/value pairs, in report order, averages in place of the time totals. */
  function Reported(s: Snapshot): seq<(string, int)>
  {
    [("reuseHit", s.reuseHit), ("reuseMissSize", s.reuseMissSize), ("reuseMissType", s.reuseMissType),
     ("queuePoll", s.queuePoll), ("queueOffer", s.queueOffer), ("newAlloc", s.newAlloc),
     ("cleanCount", s.cleanCount), ("tryCleanRuns", s.tryCleanRuns), ("tryCleanDrains", s.tryCleanDrains),
     ("allocOps", s.allocOps), ("avgAllocNs", AvgNs(s.allocTimeNs, s.allocOps)),
     ("cleanOps", s.cleanOps), ("avgCleanNs", AvgNs(s.cleanTimeNs, s.cleanOps))]
  }

  /** `name=value` for each pair. */
  function Render(pairs: seq<(string, int)>): (r: seq<string>)
    ensures |r| == |pairs|
  {
    if pairs == [] then [] else [pairs[0].0 + "=" + IntToString(pairs[0].1)] + Render(pairs[1..])
  }

  /** `toString`: the rendered pairs separated by ", ". */
  function ToString(s: Snapshot): (r: string)
    ensures |r| > 0
  {
    Join(Render(Reported(s)), ", ")
  }

  /** `name=value`, read back. */
  function ParseEntry(piece: string): Option<(string, int)>
  {
    var halves := Split(piece, '=');
    if |halves| != 2 then None
    else match ParseInt(halves[1])
      case Some(v) => Some((halves[0], v))
      case None => None
  }

  function ParseAll(pieces: seq<string>): (r: Option<seq<(string, int)>>)
  {
    if pieces == [] then Some([])
    else match (ParseEntry(pieces[0]), ParseAll(pieces[1..]))
      case (Some(e), Some(es)) => Some([e] + es)
      case _ => None
  }

  /** Reads a report back into its name/value pairs. */
  function ParseReport(text: string): Option<seq<(string, int)>>
  {
    var pieces := Split(text, ',');
    match Unpadded(pieces[1..])
      case Some(rest) => ParseAll([pieces[0]] + rest)
      case None => None
  }

  predicate PlainName(name: string)
  {
    ',' !in name && '=' !in name
  }

  lemma NoSeparatorInNumber(x: int)
    ensures ',' !in IntToString(x) && '=' !in IntToString(x)
  {
    var r := IntToString(x);
    forall i | 0 <= i < |r| ensures r[i] != ',' && r[i] != '=' {
      assert r[i] == '-' || '0' <= r[i] <= '9';
    }
  }

  lemma EntryRoundTrip(name: string, x: int)
    requires PlainName(name)
    ensures ParseEntry(name + "=" + IntToString(x)) == Some((name, x))
    ensures ',' !in name + "=" + IntToString(x)
  {
    var v := IntToString(x);
    NoSeparatorInNumber(x);
    SplitEntry(name, v);
    ParseIntToString(x);
  }

  /** `name=value` with no '=' in either half splits into the two halves. */
  lemma SplitEntry(name: string, v: string)
    requires '=' !in name && '=' !in v
    ensures Split(name + "=" + v, '=') == [name, v]
  {
    var e := name + "=" + v;
    assert e[..|name|] == name && e[|name|] == '=' && e[|name| + 1..] == v;
    FirstIndexAt(e, '=', |name|);
    SplitAt(e, '=', |name|, name, v);
    SplitWhole(v, '=');
  }

  lemma {:induction false} RenderRoundTrip(pairs: seq<(string, int)>)
    requires forall i :: 0 <= i < |pairs| ==> PlainName(pairs[i].0)
    ensures ParseAll(Render(pairs)) == Some(pairs)
    ensures Free(Render(pairs), ',')
  {
    if pairs != [] {
      var entry := pairs[0].0 + "=" + IntToString(pairs[0].1);
      EntryRoundTrip(pairs[0].0, pairs[0].1);
      RenderRoundTrip(pairs[1..]);
      var rest := Render(pairs[1..]);
      assert Render(pairs) == [entry] + rest;
      ParseAllStep(entry, rest);
      FreeStep(entry, rest, ',');
      assert [pairs[0]] + pairs[1..] == pairs;
    }
  }

  lemma ParseAllStep(piece: string, rest: seq<string>)
    requires ParseEntry(piece).Some? && ParseAll(rest).Some?
    ensures ParseAll([piece] + rest) == Some([ParseEntry(piece).value] + ParseAll(rest).value)
  {
    assert ([piece] + rest)[1..] == rest;
  }

  lemma FreeStep(piece: string, rest: seq<string>, c: char)
    requires c !in piece && Free(rest, c)
    ensures Free([piece] + rest, c)
  {
    forall i | 1 <= i < |rest| + 1 ensures c !in ([piece] + rest)[i] {
      assert ([piece] + rest)[i] == rest[i - 1];
    }
  }

  /** The report reads back as exactly the reported pairs. */
  lemma ReportRoundTrip(s: Snapshot)
    ensures ParseReport(ToString(s)) == Some(Reported(s))
  {
    var pairs := Reported(s);
    ReportedNamesPlain(pairs, s);
    JoinedRoundTrip(pairs);
  }

  /** No reported name holds ',' or '='. */
  lemma ReportedNamesPlain(pairs: seq<(string, int)>, s: Snapshot)
    requires pairs == Reported(s)
    ensures forall i :: 0 <= i < |pairs| ==> PlainName(pairs[i].0)
  {
    assert PlainName("reuseHit");
    assert PlainName("reuseMissSize");
    assert PlainName("reuseMissType");
    assert PlainName("queuePoll");
    assert PlainName("queueOffer");
    assert PlainName("newAlloc");
    assert PlainName("cleanCount");
    assert PlainName("tryCleanRuns");
    assert PlainName("tryCleanDrains");
    assert PlainName("allocOps");
    assert PlainName("avgAllocNs");
    assert PlainName("cleanOps");
    assert PlainName("avgCleanNs");
  }

  /** Any non-empty list of pairs with plain names, rendered and joined, reads back as itself. */
  lemma JoinedRoundTrip(pairs: seq<(string, int)>)
    requires |pairs| >= 1
    requires forall i :: 0 <= i < |pairs| ==> PlainName(pairs[i].0)
    ensures ParseReport(Join(Render(pairs), ", ")) == Some(pairs)
  {
    RenderRoundTrip(pairs);
    var rendered := Render(pairs);
    CommaPieces(rendered);
    ParseReportOf(Join(rendered, ", "), rendered[0], rendered[1..]);
    assert [rendered[0]] + rendered[1..] == rendered;
  }

  /** Pieces free of ',' joined by ", " split at ',' into the first and the space-padded rest. */
  lemma CommaPieces(rendered: seq<string>)
    requires |rendered| >= 1 && Free(rendered, ',')
    ensures Split(Join(rendered, ", "), ',') == [rendered[0]] + Padded(rendered[1..], " ")
  {
    var sep := [','] + " ";
    SeparatorSpelled(sep);
    SplitJoin(rendered, ',', " ");
  }

  lemma SeparatorSpelled(sep: string)
    requires sep == [','] + " "
    ensures sep == ", "
  {
  }

  /** A report whose pieces are a first entry and space-padded others parses those entries. */
  lemma ParseReportOf(text: string, first: string, rest: seq<string>)
    requires Split(text, ',') == [first] + Padded(rest, " ")
    ensures ParseReport(text) == ParseAll([first] + rest)
  {
    var pieces := Split(text, ',');
    assert pieces[1..] == Padded(rest, " ");
    UnpaddedPadded(rest);
  }
}
