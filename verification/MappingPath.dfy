/** svspubsub.cpp and mapping-provider.cpp: how the names of missing publications are looked up,
    asked for in requests of limited size, and answered. */
module MappingPath {
  import opened Numbers
  import opened Names
  import opened Tlv
  import opened VectorCodec
  import opened MappingCodec
  import opened Reporting

  // ---- Splitting a missing range (updateCallbackInternal) ----

  const REQUEST_SPAN: nat := 10

  /** The mapping requests for what is left of a range. */
  function Requests(low: nat, high: nat): seq<Range>
    decreases high + 1 - low
  {
    if low > high then []
    else [Range(low, Min(high, low + REQUEST_SPAN))] + Requests(low + 11, high)
  }

  ghost predicate Short(requests: seq<Range>) {
    forall i | 0 <= i < |requests| :: requests[i].low <= requests[i].high <= requests[i].low + REQUEST_SPAN
  }

  lemma {:induction false} RequestsShort(low: nat, high: nat)
    ensures Short(Requests(low, high))
    decreases high + 1 - low
  {
    if low <= high {
      RequestsShort(low + 11, high);
      var rest := Requests(low + 11, high);
      forall i | 0 <= i < |Requests(low, high)|
        ensures var r := Requests(low, high)[i]; r.low <= r.high <= r.low + REQUEST_SPAN
      {
        if i > 0 { assert Requests(low, high)[i] == rest[i - 1]; }
      }
    }
  }

  /** Putting a range in front of ranges that tile what follows it. */
  lemma {:induction false} TilesPrepend(r: Range, ranges: seq<Range>, to: nat)
    requires 0 < r.low <= r.high && Tiles(ranges, r.high, to)
    ensures Tiles([r] + ranges, r.low - 1, to)
    decreases |ranges|
  {
    if ranges == [] {
      assert ([r] + ranges)[..0] == [];
    } else {
      var rest, last := ranges[..|ranges| - 1], ranges[|ranges| - 1];
      TilesPrepend(r, rest, last.low - 1);
      assert ([r] + ranges)[..|ranges|] == [r] + rest;
    }
  }

  /** The requests cover what is left exactly, without overlap. */
  lemma {:induction false} RequestsTile(low: nat, high: nat)
    requires 0 < low <= high + 1
    ensures Tiles(Requests(low, high), low - 1, high)
    decreases high + 1 - low
  {
    if low <= high {
      if low + 11 <= high + 1 {
        RequestsTile(low + 11, high);
        TilesPrepend(Range(low, low + 10), Requests(low + 11, high), high);
      } else {
        TilesPrepend(Range(low, high), [], high);
      }
    }
  }

  /** How many requests that takes. */
  lemma {:induction false} RequestsCount(low: nat, high: nat)
    requires low <= high + 1
    ensures |Requests(low, high)| == CeilDiv(high + 1 - low, 11)
    decreases high + 1 - low
  {
    if low + 11 <= high + 1 { RequestsCount(low + 11, high); }
  }

  lemma {:induction false} RequestNo(low: nat, high: nat, i: nat)
    requires i < |Requests(low, high)|
    ensures low + 11 * i <= high &&
            Requests(low, high)[i] == Range(low + 11 * i, Min(high, low + 11 * i + REQUEST_SPAN))
    decreases i
  {
    if i > 0 { RequestNo(low + 11, high, i - 1); }
  }

  /** remainingInfo.low += 11, in 64 bits. */
  function Onward(counter: Number): Number {
    if counter + 11 > MAX64 then counter + 11 - MAX64 - 1 else counter + 11
  }

  /** The counter of the second loop after so many turns; it has wrapped already if the first loop found
      the last number there is. */
  function Counter(next: nat, turns: nat): Number
    requires next <= MAX64 + 1
  {
    if turns == 0 then (if next > MAX64 then 0 else next) else Onward(Counter(next, turns - 1))
  }

  lemma {:induction false} CounterIs(next: nat, turns: nat) returns (rounds: nat)
    requires next <= MAX64 + 1
    ensures next + 11 * turns == Counter(next, turns) + rounds * (MAX64 + 1)
    decreases turns
  {
    if turns == 0 {
      rounds := if next > MAX64 then 1 else 0;
    } else {
      rounds := CounterIs(next, turns - 1);
      if Counter(next, turns - 1) + 11 > MAX64 { rounds := rounds + 1; }
    }
  }

  function RequestFrom(low: Number, high: Number): Range {
    Range(low, if high - low > 10 then low + 10 else high)
  }

  /** The requests of the first turns, all made from a counter within the range. */
  ghost predicate MadeBy(requests: seq<Range>, next: nat, high: Number)
    requires next <= MAX64 + 1
  {
    forall i | 0 <= i < |requests| ::
      Counter(next, i) <= high && requests[i] == RequestFrom(Counter(next, i), high)
  }

  /** The inverse of 11 modulo 2^64. */
  const INVERSE: nat := 0x2E8B_A2E8_BA2E_8BA3

  /** As 11 is prime to 2^64, the counter takes every value, the last one among them. */
  lemma CounterReaches(next: nat) returns (i: nat)
    requires next <= MAX64
    ensures i <= MAX64 && Counter(next, i) == MAX64
  {
    var d := MAX64 - next;
    var q := (INVERSE * d) / (MAX64 + 1);
    i := (INVERSE * d) % (MAX64 + 1);
    var rounds := CounterIs(next, i);
    OnlyResidue(Counter(next, i), rounds, 2 * d - 11 * q);
  }

  lemma OnlyResidue(c: Number, rounds: int, q: int)
    requires c + rounds * (MAX64 + 1) == q * (MAX64 + 1) + MAX64
    ensures c == MAX64
  {
  }

  lemma CounterUnwrapped(next: nat, i: nat)
    requires next + 11 * i <= MAX64
    ensures Counter(next, i) == next + 11 * i
  {
    var rounds := CounterIs(next, i);
  }

  /** The turns before the counter passes the range make the requests that tile it. */
  lemma FirstTurns(requests: seq<Range>, next: nat, high: Number)
    requires next <= high + 1 && MadeBy(requests, next, high)
    requires |requests| <= MAX64 ==> Counter(next, |requests|) > high
    ensures |Requests(next, high)| <= |requests| && requests[..|Requests(next, high)|] == Requests(next, high)
  {
    var n := |Requests(next, high)|;
    RequestsCount(next, high);
    if |requests| < n {
      RequestNo(next, high, |requests|);
      CounterUnwrapped(next, |requests|);
    }
    forall i | 0 <= i < n ensures requests[i] == Requests(next, high)[i] {
      RequestNo(next, high, i);
      CounterUnwrapped(next, i);
    }
  }

  /** The second loop: requests until nothing remains. It may come round to where it started; then it
      does not end. */
  method RequestRest(next: nat, high: Number) returns (requests: seq<Range>, ends: bool)
    requires next <= high + 1
    ensures MadeBy(requests, next, high)
    ensures |requests| <= MAX64 + 1 && (ends <==> Counter(next, |requests|) > high)
    ensures !ends ==> |requests| == MAX64 + 1
  {
    requests := [];
    var remaining: Number := if next > MAX64 then 0 else next;
    while remaining <= high && |requests| <= MAX64
      invariant |requests| <= MAX64 + 1 && remaining == Counter(next, |requests|)
      invariant MadeBy(requests, next, high)
      decreases MAX64 + 1 - |requests|
    {
      var truncated := high;
      if truncated - remaining > 10 {
        truncated := remaining + 10;
      }
      requests := requests + [Range(remaining, truncated)];
      remaining := Onward(remaining);
    }
    ends := remaining > high;
  }

  /** What the requests of a range are: the first of them partition it, and any more are asked for because
      the counter wrapped. */
  ghost predicate SplitsRest(requests: seq<Range>, next: nat, high: Number)
    requires 0 < next <= high + 1
  {
    var n := CeilDiv(high + 1 - next, 11);
    && n <= |requests| && Tiles(requests[..n], next - 1, high) && Short(requests[..n])
    && MadeBy(requests, next, high)
  }

  /** For one missing range: how far the local mappings reach, and the requests for the rest. The known
      prefix and the first requests partition the range, none of them asking for more than eleven
      numbers. There are no others if the counter of the program, which has 64 bits, does not pass them
      after the last of these; otherwise it wraps and goes on. The loop ends unless the range ends at the
      last number there is. */
  method SplitRange(low: Number, high: Number, known: nat -> bool)
    returns (next: nat, requests: seq<Range>, ends: bool)
    requires 0 < low <= high
    ensures low <= next <= high + 1
    ensures forall i | low <= i < next :: known(i)
    ensures next <= high ==> !known(next)
    ensures SplitsRest(requests, next, high)
    ensures ends <==> high < MAX64
    ensures next + 11 * CeilDiv(high + 1 - next, 11) <= MAX64 ==> |requests| == CeilDiv(high + 1 - next, 11)
  {
    next := low;
    while next <= high && known(next)
      invariant low <= next <= high + 1
      invariant forall i | low <= i < next :: known(i)
    {
      next := next + 1;
    }
    requests, ends := RequestRest(next, high);
    RestIsSplit(requests, next, high, ends);
  }

  lemma RestIsSplit(requests: seq<Range>, next: nat, high: Number, ends: bool)
    requires 0 < next <= high + 1 && MadeBy(requests, next, high) && |requests| <= MAX64 + 1
    requires ends <==> Counter(next, |requests|) > high
    requires !ends ==> |requests| == MAX64 + 1
    ensures SplitsRest(requests, next, high)
    ensures ends <==> high < MAX64
    ensures next + 11 * CeilDiv(high + 1 - next, 11) <= MAX64 ==> |requests| == CeilDiv(high + 1 - next, 11)
  {
    var n := CeilDiv(high + 1 - next, 11);
    FirstTurns(requests, next, high);
    RequestsTile(next, high);
    RequestsShort(next, high);
    RequestsCount(next, high);
    if next + 11 * n <= MAX64 {
      CounterUnwrapped(next, n);
    }
    if high < MAX64 {
      var i := CounterReaches(next);
    }
  }

  // ---- Query names ----

  const GENERIC: ComponentType := 8

  function NumberComponent(n: Number): Component {
    Component(GENERIC, NonNegativeInteger(n))
  }

  /** Component::toNumber */
  function ToNumber(c: Component): Result<nat> {
    ReadNonNegativeInteger(Block(c.typ, c.value))
  }

  const MAPPING: Component := Component(GENERIC, [77, 65, 80, 80, 73, 78, 71])

  datatype Query = Query(nodeId: Name, low: Number, high: Number)

  /** getMappingQueryDataName */
  function QueryName(syncPrefix: Name, q: Query): Name {
    q.nodeId + syncPrefix + [MAPPING] + [NumberComponent(q.low)] + [NumberComponent(q.high)]
  }

  /** parseMappingQueryDataName: the two last components are the bounds, and what precedes the sync
      prefix and the keyword is the node. */
  function ParseQuery(syncPrefix: Name, name: Name): Result<Query> {
    if |name| < 3 + |syncPrefix| then Err(OutOfRange)
    else
      match ToNumber(name[|name| - 2])
      case Err(e) => Err(e)
      case Ok(low) =>
        match ToNumber(name[|name| - 1])
        case Err(e) => Err(e)
        case Ok(high) =>
          ToNumberInRange(name[|name| - 2]);
          ToNumberInRange(name[|name| - 1]);
          Ok(Query(name[..|name| - 3 - |syncPrefix|], low, high))
  }

  lemma ToNumberInRange(c: Component)
    ensures ToNumber(c).Ok? ==> ToNumber(c).value <= MAX64
  {
    NumberInRange(Block(c.typ, c.value));
  }

  /** A query survives being turned into a name. */
  lemma QueryInverse(syncPrefix: Name, q: Query)
    ensures ParseQuery(syncPrefix, QueryName(syncPrefix, q)) == Ok(q)
  {
    NonNegativeIntegerInverse(GENERIC, q.low);
    NonNegativeIntegerInverse(GENERIC, q.high);
    var name := QueryName(syncPrefix, q);
    assert name[..|name| - 3 - |syncPrefix|] == q.nodeId;
  }

  // ---- The provider ----

  /** The key of m_map: the node's name with the number appended. */
  function MappingKey(nodeId: Name, seqNo: Number): Name {
    nodeId + [NumberComponent(seqNo)]
  }

  /** Different publications have different keys. */
  lemma KeyInjective(a: Name, m: Number, b: Name, n: Number)
    ensures MappingKey(a, m) == MappingKey(b, n) <==> a == b && m == n
  {
    if MappingKey(a, m) == MappingKey(b, n) {
      var k := MappingKey(a, m);
      assert a == k[..|k| - 1] && b == k[..|k| - 1];
      assert NumberComponent(m) == k[|k| - 1] && NumberComponent(n) == k[|k| - 1];
      NonNegativeIntegerInverse(GENERIC, m);
      NonNegativeIntegerInverse(GENERIC, n);
    }
  }

  /** All mappings from low to high, in order, if every one of them is there. */
  function Answer(known: map<Name, Mapping>, nodeId: Name, low: nat, n: nat): (r: Result<seq<Pair>>)
    requires low + n <= MAX64 + 1
  {
    if n == 0 then Ok([])
    else
      match Answer(known, nodeId, low, n - 1)
      case Err(e) => Err(e)
      case Ok(pairs) =>
        if MappingKey(nodeId, low + n - 1) in known
        then Ok(pairs + [Pair(low + n - 1, known[MappingKey(nodeId, low + n - 1)])])
        else Err(OutOfRange)
  }

  lemma {:induction false} AnswerGiven(known: map<Name, Mapping>, nodeId: Name, low: nat, n: nat)
    requires low + n <= MAX64 + 1
    ensures Answer(known, nodeId, low, n).Ok? <==> forall i: nat | low <= i < low + n :: MappingKey(nodeId, i) in known
    ensures Answer(known, nodeId, low, n).Ok? ==> |Answer(known, nodeId, low, n).value| == n
    decreases n
  {
    if n > 0 {
      AnswerGiven(known, nodeId, low, n - 1);
      if forall i: nat | low <= i < low + n :: MappingKey(nodeId, i) in known {
        assert MappingKey(nodeId, low + n - 1) in known;
      }
    }
  }

  lemma {:induction false} AnswerAt(known: map<Name, Mapping>, nodeId: Name, low: nat, n: nat, i: nat)
    requires low + n <= MAX64 + 1 && i < n && Answer(known, nodeId, low, n).Ok?
    ensures var pairs := Answer(known, nodeId, low, n).value;
            && |pairs| == n && MappingKey(nodeId, low + i) in known
            && pairs[i] == Pair(low + i, known[MappingKey(nodeId, low + i)])
    decreases n
  {
    AnswerGiven(known, nodeId, low, n - 1);
    if i < n - 1 { AnswerAt(known, nodeId, low, n - 1, i); }
  }

  /** The mappings asked for, in order. */
  ghost predicate IsAnswer(known: map<Name, Mapping>, nodeId: Name, low: nat, n: nat, pairs: seq<Pair>)
    requires low + n <= MAX64 + 1
  {
    |pairs| == n && forall i: nat | i < n ::
      MappingKey(nodeId, low + i) in known && pairs[i] == Pair(low + i, known[MappingKey(nodeId, low + i)])
  }

  /** An answer is complete or not given at all. */
  lemma AnswerComplete(known: map<Name, Mapping>, nodeId: Name, low: nat, n: nat)
    requires low + n <= MAX64 + 1
    ensures var answer := Answer(known, nodeId, low, n);
            if forall i: nat | low <= i < low + n :: MappingKey(nodeId, i) in known
            then answer.Ok? && IsAnswer(known, nodeId, low, n, answer.value)
            else answer == Err(OutOfRange)
  {
    AnswerGiven(known, nodeId, low, n);
    AnswerError(known, nodeId, low, n);
    if Answer(known, nodeId, low, n).Ok? {
      forall i: nat | i < n
        ensures MappingKey(nodeId, low + i) in known
        ensures Answer(known, nodeId, low, n).value[i] == Pair(low + i, known[MappingKey(nodeId, low + i)])
      {
        AnswerAt(known, nodeId, low, n, i);
      }
    }
  }

  lemma {:induction false} AnswerError(known: map<Name, Mapping>, nodeId: Name, low: nat, n: nat)
    requires low + n <= MAX64 + 1
    ensures Answer(known, nodeId, low, n).Ok? || Answer(known, nodeId, low, n) == Err(OutOfRange)
    decreases n
  {
    if n > 0 { AnswerError(known, nodeId, low, n - 1); }
  }

  /** A 64-bit counter. */
  function Wrapped(n: nat): Number
    requires n <= 2 * MAX64 + 1
  {
    if n > MAX64 then n - MAX64 - 1 else n
  }

  /** What becomes of a query: a reply, none, or a loop without end. */
  datatype Reply = Replied(list: MappingList) | Silent | Endless

  ghost predicate AllKnown(mappings: map<Name, Mapping>, nodeId: Name) {
    forall i: Number :: MappingKey(nodeId, i) in mappings
  }

  ghost function ReplyFor(mappings: map<Name, Mapping>, query: Query): Reply {
    var last := Max(query.high, query.low);
    if last == MAX64 then
      if AllKnown(mappings, query.nodeId) then Endless else Silent
    else
      match Answer(mappings, query.nodeId, query.low, last - query.low + 1)
      case Ok(pairs) => Replied(MappingList(query.nodeId, pairs))
      case Err(_) => Silent
  }

  predicate KnownAfter(mappings: map<Name, Mapping>, nodeId: Name, low: Number, turns: nat)
    requires turns <= MAX64
  {
    MappingKey(nodeId, Wrapped(low + turns)) in mappings
  }

  /** The numbers of the first turns are known. */
  ghost predicate Seen(mappings: map<Name, Mapping>, nodeId: Name, low: Number, turns: nat) {
    forall j: nat | j < turns && j <= MAX64 :: KnownAfter(mappings, nodeId, low, j)
  }

  lemma AllSeen(mappings: map<Name, Mapping>, nodeId: Name, low: Number)
    requires Seen(mappings, nodeId, low, MAX64 + 1)
    ensures AllKnown(mappings, nodeId)
  {
    forall i: Number ensures MappingKey(nodeId, i) in mappings {
      var j: nat := if i < low then i + MAX64 + 1 - low else i - low;
      assert KnownAfter(mappings, nodeId, low, j);
    }
  }

  lemma SeenMore(mappings: map<Name, Mapping>, nodeId: Name, low: Number, turns: nat)
    requires turns <= MAX64 && Seen(mappings, nodeId, low, turns) && KnownAfter(mappings, nodeId, low, turns)
    ensures Seen(mappings, nodeId, low, turns + 1)
  {
  }

  class MappingProvider {
    const syncPrefix: Name
    var mappings: map<Name, Mapping>

    constructor (syncPrefix: Name)
      ensures this.syncPrefix == syncPrefix && mappings == map[]
    {
      this.syncPrefix := syncPrefix;
      mappings := map[];
    }

    method InsertMapping(nodeId: Name, seqNo: Number, entry: Mapping)
      modifies this
      ensures mappings == old(mappings)[MappingKey(nodeId, seqNo) := entry]
    {
      mappings := mappings[MappingKey(nodeId, seqNo) := entry];
    }

    method GetMapping(nodeId: Name, seqNo: Number) returns (r: Result<Mapping>)
      ensures r == if MappingKey(nodeId, seqNo) in mappings then Ok(mappings[MappingKey(nodeId, seqNo)])
              else Err(OutOfRange)
    {
      if MappingKey(nodeId, seqNo) in mappings {
        return Ok(mappings[MappingKey(nodeId, seqNo)]);
      }
      return Err(OutOfRange);
    }

    /** onMappingQuery: the list put into the reply, unless some mapping is missing. The loop always
        looks at the lower bound, even when the upper one is smaller. If it is to end at the last number
        there is, its counter wraps to zero instead, and it goes on until it finds a mapping missing:
        such a query is never answered, and if none is missing the loop does not end. */
    method OnMappingQuery(query: Query) returns (reply: Reply)
      ensures reply == ReplyFor(mappings, query)
    {
      var last := Max(query.high, query.low);
      var visited: nat, pairs: seq<Pair> := 0, [];
      var i: Number := query.low;
      while i <= last && visited <= MAX64
        invariant visited <= MAX64 + 1 && i == Wrapped(query.low + visited)
        invariant Seen(mappings, query.nodeId, query.low, visited)
        invariant last < MAX64 ==> i == query.low + visited && i <= last + 1
        invariant last < MAX64 ==> Answer(mappings, query.nodeId, query.low, visited) == Ok(pairs)
        decreases MAX64 + 1 - visited
      {
        var mapping := GetMapping(query.nodeId, i);
        if mapping.Err? {
          if last < MAX64 { AnswerStops(mappings, query.nodeId, query.low, visited + 1, last - query.low + 1); }
          return Silent;
        }
        SeenMore(mappings, query.nodeId, query.low, visited);
        pairs := pairs + [Pair(i, mapping.value)];
        i := if i == MAX64 then 0 else i + 1;
        visited := visited + 1;
      }
      if i <= last {
        AllSeen(mappings, query.nodeId, query.low);
        return Endless;
      }
      return Replied(MappingList(query.nodeId, pairs));
    }

    /** What fetchNameMapping does with a validated list: it keeps what it did not know. */
    method LearnMappings(nodeId: Name, pairs: seq<Pair>)
      modifies this
      ensures mappings == Learned(old(mappings), nodeId, pairs, |pairs|)
    {
      var i := 0;
      while i < |pairs|
        invariant i <= |pairs| && mappings == Learned(old(mappings), nodeId, pairs, i)
      {
        var mapping := GetMapping(nodeId, pairs[i].seqNo);
        if mapping.Err? {
          InsertMapping(nodeId, pairs[i].seqNo, pairs[i].mapping);
        }
        i := i + 1;
      }
    }
  }

  /** The mappings known after the first n pairs of a list. */
  function Learned(known: map<Name, Mapping>, nodeId: Name, pairs: seq<Pair>, n: nat): map<Name, Mapping>
    requires n <= |pairs|
  {
    if n == 0 then known
    else
      var before := Learned(known, nodeId, pairs, n - 1);
      var key := MappingKey(nodeId, pairs[n - 1].seqNo);
      if key in before then before else before[key := pairs[n - 1].mapping]
  }

  lemma {:induction false} LearnedKeeps(known: map<Name, Mapping>, nodeId: Name, pairs: seq<Pair>, n: nat, m: nat,
                                        key: Name)
    requires n <= m <= |pairs| && key in Learned(known, nodeId, pairs, n)
    ensures key in Learned(known, nodeId, pairs, m)
    ensures Learned(known, nodeId, pairs, m)[key] == Learned(known, nodeId, pairs, n)[key]
    decreases m
  {
    if n < m { LearnedKeeps(known, nodeId, pairs, n, m - 1, key); }
  }

  ghost predicate DistinctNumbers(pairs: seq<Pair>) {
    forall i, j | 0 <= i < j < |pairs| :: pairs[i].seqNo != pairs[j].seqNo
  }

  lemma {:induction false} NotYetLearned(known: map<Name, Mapping>, nodeId: Name, pairs: seq<Pair>, n: nat,
                                         seqNo: Number)
    requires n <= |pairs| && MappingKey(nodeId, seqNo) !in known && forall i | 0 <= i < n :: pairs[i].seqNo != seqNo
    ensures MappingKey(nodeId, seqNo) !in Learned(known, nodeId, pairs, n)
    decreases n
  {
    if n > 0 {
      NotYetLearned(known, nodeId, pairs, n - 1, seqNo);
      KeyInjective(nodeId, seqNo, nodeId, pairs[n - 1].seqNo);
    }
  }

  /** Of a list without repetitions every unknown mapping is learned. */
  lemma LearnedFrom(known: map<Name, Mapping>, nodeId: Name, pairs: seq<Pair>, i: nat)
    requires i < |pairs| && DistinctNumbers(pairs) && MappingKey(nodeId, pairs[i].seqNo) !in known
    ensures var key := MappingKey(nodeId, pairs[i].seqNo);
            var after := Learned(known, nodeId, pairs, |pairs|);
            key in after && after[key] == pairs[i].mapping
  {
    NotYetLearned(known, nodeId, pairs, i, pairs[i].seqNo);
    LearnedKeeps(known, nodeId, pairs, i + 1, |pairs|, MappingKey(nodeId, pairs[i].seqNo));
  }

  /** The reply to a query every mapping of which is known. */
  function ReplyTo(provider: map<Name, Mapping>, nodeId: Name, low: nat, n: nat): MappingList
    requires low + n <= MAX64 + 1 && Answer(provider, nodeId, low, n).Ok?
  {
    MappingList(nodeId, Answer(provider, nodeId, low, n).value)
  }

  lemma ReceivedAt(provider: map<Name, Mapping>, nodeId: Name, low: nat, n: nat, i: nat)
    requires low + n <= MAX64 + 1 && Answer(provider, nodeId, low, n).Ok? && i < n
    ensures var pairs := Travelled(ReplyTo(provider, nodeId, low, n)).pairs;
            var key := MappingKey(nodeId, low + n - 1 - i);
            && |pairs| == n && key in provider && pairs[i].seqNo == low + n - 1 - i
            && pairs[i].mapping == provider[key].(extra := Reverse(provider[key].extra))
  {
    AnswerGiven(provider, nodeId, low, n);
    TravelledAt(ReplyTo(provider, nodeId, low, n), i);
    AnswerAt(provider, nodeId, low, n, n - 1 - i);
  }

  lemma ReceivedDistinct(provider: map<Name, Mapping>, nodeId: Name, low: nat, n: nat)
    requires low + n <= MAX64 + 1 && Answer(provider, nodeId, low, n).Ok?
    ensures DistinctNumbers(Travelled(ReplyTo(provider, nodeId, low, n)).pairs)
  {
    AnswerGiven(provider, nodeId, low, n);
    var pairs := Travelled(ReplyTo(provider, nodeId, low, n)).pairs;
    forall i, j | 0 <= i < j < |pairs| ensures pairs[i].seqNo != pairs[j].seqNo {
      ReceivedAt(provider, nodeId, low, n, i);
      ReceivedAt(provider, nodeId, low, n, j);
    }
  }

  /** A complete exchange: the query crosses the wire as a name, the reply as a list. What the
      requester then knows of a number asked for, and did not know before, is what the provider
      knows: the same name, and the additional blocks in the opposite order. */
  lemma ExchangeTeaches(provider: map<Name, Mapping>, requester: map<Name, Mapping>, nodeId: Name, low: nat, n: nat,
                        seqNo: nat)
    requires low + n <= MAX64 + 1 && Answer(provider, nodeId, low, n).Ok? && ListFits(ReplyTo(provider, nodeId, low, n))
    requires low <= seqNo < low + n && MappingKey(nodeId, seqNo) !in requester
    ensures var received := DecodeList(ListBlock(ReplyTo(provider, nodeId, low, n)));
            var key := MappingKey(nodeId, seqNo);
            && received.Ok? && key in provider
            && var after := Learned(requester, nodeId, received.value.pairs, |received.value.pairs|);
               key in after && after[key] == provider[key].(extra := Reverse(provider[key].extra))
  {
    var reply := ReplyTo(provider, nodeId, low, n);
    ListInverse(reply);
    PairsTeach(provider, requester, nodeId, low, n, low + n - 1 - seqNo, Travelled(reply).pairs);
  }

  lemma PairsTeach(provider: map<Name, Mapping>, requester: map<Name, Mapping>, nodeId: Name, low: nat, n: nat, i: nat,
                   pairs: seq<Pair>)
    requires low + n <= MAX64 + 1 && Answer(provider, nodeId, low, n).Ok? && i < n
    requires pairs == Travelled(ReplyTo(provider, nodeId, low, n)).pairs
    requires MappingKey(nodeId, low + n - 1 - i) !in requester
    ensures var key := MappingKey(nodeId, low + n - 1 - i);
            var after := Learned(requester, nodeId, pairs, |pairs|);
            key in provider && key in after && after[key] == provider[key].(extra := Reverse(provider[key].extra))
  {
    ReceivedDistinct(provider, nodeId, low, n);
    ReceivedAt(provider, nodeId, low, n, i);
    LearnedFrom(requester, nodeId, pairs, i);
  }

  lemma {:induction false} AnswerStops(known: map<Name, Mapping>, nodeId: Name, low: nat, n: nat, m: nat)
    requires n <= m && low + m <= MAX64 + 1 && Answer(known, nodeId, low, n).Err?
    ensures Answer(known, nodeId, low, m).Err?
    decreases m
  {
    if n < m { AnswerStops(known, nodeId, low, n, m - 1); }
  }
}
