/** The node service: the persistent node identity (`node.id`) and the issuing of
    time-ordered version-1 UUIDs (section 4.2.1 of RFC 4122) whose clock sequence
    is a counter within one 100-nanosecond tick. */
module NodeService {
  import opened Base
  import opened ConfigRepository

  /** The fields of an issued id the service sets or reads back: the Unix time in
      100-nanosecond ticks, the node and the clock sequence. */
  datatype Uuid = Uuid(time100ns: int, node: int, clockSeq: int)

  /** The clock sequence field of a version-1 UUID holds 14 bits and the node field
      48 bits (sections 4.1.5 and 4.1.6 of RFC 4122). */
  const ClockSeqRange := 0x4000
  const NodeRange := 0x1_0000_0000_0000

  /** The clock sequence the id keeps: the low 14 bits of the counter. */
  function ClockSeqField(c: int): (r: int)
    ensures 0 <= r < ClockSeqRange
    ensures 0 <= c < ClockSeqRange ==> r == c
  {
    c % ClockSeqRange
  }

  /** The node the id keeps: the low 48 bits of the node id. */
  function NodeField(n: int): (r: int)
    ensures 0 <= r < NodeRange
    ensures 0 <= n < NodeRange ==> r == n
  {
    n % NodeRange
  }

  /** The `(lastTimestamp, clock)` pair `Issue` updates. */
  datatype IdState = IdState(lastTimestamp: int, clock: int)

  /** One sequential `Issue` at tick `now`, where the id library chose clock sequence
      `libClockSeq`: the new state and the issued id's clock sequence. The
      compare-and-swap never fails without a concurrent caller, so the retry loop
      always ends in its first round. */
  function Step(s: IdState, now: int, libClockSeq: int): (r: (IdState, int))
    ensures r.0.lastTimestamp == now
    ensures s.lastTimestamp == now ==> r.0.clock == WrapInt32(s.clock + 1) && r.1 == r.0.clock
    ensures s.lastTimestamp != now ==> r.0.clock == 0 && r.1 == libClockSeq
  {
    if s.lastTimestamp == now then
      var c := WrapInt32(s.clock + 1);
      (IdState(now, c), c)
    else
      (IdState(now, 0), libClockSeq)
  }

  /** The clock sequences of the ids issued at the ticks `ticks`, in order. */
  function ClockSequences(s: IdState, ticks: seq<int>, libClockSeqs: seq<int>): (r: seq<int>)
    requires |libClockSeqs| == |ticks|
    ensures |r| == |ticks|
    decreases |ticks|
  {
    if |ticks| == 0 then []
    else
      var (next, c) := Step(s, ticks[0], libClockSeqs[0]);
      [c] + ClockSequences(next, ticks[1..], libClockSeqs[1..])
  }

  /** Ids issued within the tick the state last saw, starting from counter `c`, get
      clock sequences c+1, c+2, … while the int32 counter does not overflow. */
  lemma {:induction false} SameTickCounts(c: int, tick: int, ticks: seq<int>, libClockSeqs: seq<int>)
    requires |libClockSeqs| == |ticks|
    requires forall k :: 0 <= k < |ticks| ==> ticks[k] == tick
    requires 0 <= c && c + |ticks| <= MaxInt32
    ensures forall k :: 0 <= k < |ticks| ==>
              ClockSequences(IdState(tick, c), ticks, libClockSeqs)[k] == c + k + 1
    decreases |ticks|
  {
    if |ticks| > 0 {
      var rest := ClockSequences(IdState(tick, c + 1), ticks[1..], libClockSeqs[1..]);
      SameTickCounts(c + 1, tick, ticks[1..], libClockSeqs[1..]);
      assert ClockSequences(IdState(tick, c), ticks, libClockSeqs) == [c + 1] + rest;
    }
  }

  /** After a tick change resets the counter, the following ids within that tick get
      clock sequences 1, 2, 3, …; the first keeps the library's choice. */
  lemma AfterResetCounts(s: IdState, tick: int, ticks: seq<int>, libClockSeqs: seq<int>)
    requires |libClockSeqs| == |ticks| && |ticks| >= 1
    requires s.lastTimestamp != tick
    requires forall k :: 0 <= k < |ticks| ==> ticks[k] == tick
    requires |ticks| <= MaxInt32
    ensures ClockSequences(s, ticks, libClockSeqs)[0] == libClockSeqs[0]
    ensures forall k :: 1 <= k < |ticks| ==> ClockSequences(s, ticks, libClockSeqs)[k] == k
  {
    var rest := ClockSequences(IdState(tick, 0), ticks[1..], libClockSeqs[1..]);
    SameTickCounts(0, tick, ticks[1..], libClockSeqs[1..]);
    assert ClockSequences(s, ticks, libClockSeqs) == [libClockSeqs[0]] + rest;
  }

  /** A tick earlier than the last one is taken as it is: nothing keeps the larger. */
  lemma BackwardsTickLowers(s: IdState, now: int, libClockSeq: int)
    requires now < s.lastTimestamp
    ensures Step(s, now, libClockSeq).0.lastTimestamp < s.lastTimestamp
    ensures Step(s, now, libClockSeq).0.clock == 0
  {
  }

  /** `id.UnixTimeMillis()`: the 100-nanosecond ticks in whole milliseconds. */
  function Millis(time100ns: int): (r: int)
    ensures time100ns >= 0 ==> 0 <= r && r * 10000 <= time100ns < (r + 1) * 10000
  {
    TruncDiv(time100ns, 10000)
  }

  class NodeService {
    var nodeIdHex: string
    var nodeId: int
    var lastTimestamp: int
    var clock: int

    constructor ()
      ensures nodeIdHex == "" && nodeId == 0 && lastTimestamp == 0 && clock == 0
    {
      nodeIdHex := "";
      nodeId := 0;
      lastTimestamp := 0;
      clock := 0;
    }

    /** Get-or-create of the node identity. `configured` is property `node.id`;
        `generated` is the `(hex, error)` pair of the id generator and `parseNodeId`
        the hex parser, both outside this model. */
    method PostConstruct(configured: string, generated: (string, Option<string>),
                         parseNodeId: string -> (int, Option<string>), repo: Repository)
      returns (err: Option<string>)
      requires repo.Valid()
      modifies this`nodeIdHex, this`nodeId, repo`backend
      ensures repo.Valid()
      ensures configured != "" ==>
                repo.backend == old(repo.backend) && nodeIdHex == configured
                && nodeId == parseNodeId(configured).0 && err == parseNodeId(configured).1
      ensures configured == "" && generated.1.Some? ==>
                repo.backend == old(repo.backend) && nodeId == old(nodeId) && nodeIdHex == generated.0
                && err == Some("generate node id, " + generated.1.value)
      ensures configured == "" && generated.1.None? && old(repo.backend).NoBackend? ==>
                repo.backend == old(repo.backend) && nodeId == old(nodeId)
                && nodeIdHex == generated.0 && err == Some(NilDereference)
      ensures configured == "" && generated.1.None? && old(repo.backend).Store?
              && old(repo.backend).failure.Some? ==>
                repo.backend == old(repo.backend) && nodeId == old(nodeId) && nodeIdHex == generated.0
                && err == Some("set property 'node.id' with value '" + generated.0 + "', "
                               + old(repo.backend).failure.value)
      ensures configured == "" && generated.1.None? && old(repo.backend).Store?
              && old(repo.backend).failure.None? ==>
                repo.backend == Store(Write(old(repo.backend).data, "node.id", generated.0), None)
                && nodeIdHex == generated.0
                && nodeId == parseNodeId(generated.0).0 && err == parseNodeId(generated.0).1
    {
      nodeIdHex := configured;
      if nodeIdHex == "" {
        nodeIdHex := generated.0;
        if generated.1.Some? {
          return Some("generate node id, " + generated.1.value);
        }
        if repo.backend.NoBackend? {
          // the nil store panics inside Set and the deferred recover returns it
          return Some(NilDereference);
        }
        var setErr, _ := repo.Set("node.id", nodeIdHex);
        if setErr.Some? {
          return Some("set property 'node.id' with value '" + nodeIdHex + "', " + setErr.value);
        }
      }
      var parsed := parseNodeId(nodeIdHex);
      nodeId := parsed.0;
      err := parsed.1;
    }

    function NodeId(): (r: int)
      reads this
      ensures r == nodeId
    {
      nodeId
    }

    function NodeIdHex(): (r: string)
      reads this
      ensures r == nodeIdHex
    {
      nodeIdHex
    }

    function State(): IdState
      reads this
    {
      IdState(lastTimestamp, clock)
    }

    /** Issues an id for tick `now`; `libClockSeq` is the clock sequence the id
        library put in the fresh id. The id carries the node id, converted to int64,
        and both it and the clock sequence are cut to their field widths. */
    method Issue(now: int, libClockSeq: int) returns (id: Uuid)
      modifies this`lastTimestamp, this`clock
      ensures id.time100ns == now && id.node == NodeField(WrapInt64(nodeId))
      ensures State() == Step(old(State()), now, libClockSeq).0
      ensures id.clockSeq == ClockSeqField(Step(old(State()), now, libClockSeq).1)
    {
      id := Uuid(now, NodeField(WrapInt64(nodeId)), ClockSeqField(libClockSeq));
      var curr := id.time100ns;
      var last := lastTimestamp;
      if last == curr {
        clock := WrapInt32(clock + 1);
        id := id.(clockSeq := ClockSeqField(clock));
      } else {
        lastTimestamp := curr;
        clock := 0;
      }
    }

    /** The id's time in milliseconds, its node and its clock sequence. */
    function Parse(id: Uuid): (r: (int, int, int))
    {
      (Millis(id.time100ns), id.node, id.clockSeq)
    }
  }

  /** Parsing an issued id gives back its millisecond time, the low 48 bits of the
      issuing node and the low 14 bits of the clock sequence `Issue` chose; a node id
      below 2^48 and a counter below 2^14 come back whole. */
  lemma ParseIssued(svc: NodeService, s: IdState, now: int, libClockSeq: int, nodeId: int)
    requires now >= 0
    ensures var (_, c) := Step(s, now, libClockSeq);
            var r := svc.Parse(Uuid(now, NodeField(WrapInt64(nodeId)), ClockSeqField(c)));
            r.0 * 10000 <= now < (r.0 + 1) * 10000
            && r.1 == NodeField(WrapInt64(nodeId))
            && (0 <= nodeId < NodeRange ==> r.1 == nodeId)
            && r.2 == ClockSeqField(if s.lastTimestamp == now then WrapInt32(s.clock + 1) else libClockSeq)
            && (s.lastTimestamp == now && 0 <= s.clock && s.clock + 1 < ClockSeqRange ==> r.2 == s.clock + 1)
  {
  }

  /** The 14-bit clock sequence repeats after 16384 ids within one tick: the first id
      and the 16385th issued in the same tick carry the same time, node and clock
      sequence, so they are the same id. */
  lemma {:induction false} SameTickIdsCollide(c: int, tick: int, ticks: seq<int>, libClockSeqs: seq<int>)
    requires |libClockSeqs| == |ticks| > ClockSeqRange
    requires forall k :: 0 <= k < |ticks| ==> ticks[k] == tick
    requires 0 <= c && c + |ticks| <= MaxInt32
    ensures var cs := ClockSequences(IdState(tick, c), ticks, libClockSeqs);
            ClockSeqField(cs[0]) == ClockSeqField(cs[ClockSeqRange])
  {
    SameTickCounts(c, tick, ticks, libClockSeqs);
    var cs := ClockSequences(IdState(tick, c), ticks, libClockSeqs);
    assert cs[0] == c + 1 && cs[ClockSeqRange] == c + 1 + ClockSeqRange;
  }
}
