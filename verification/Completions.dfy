/** How Interests end: an Interest asked for is told to the application once, or never if its data
    failed to be validated for good. */
module Completions {
  import opened Fetching

  /** How often the application was called back about an Interest. */
  function Calls(done: seq<Completion>, interest: nat): nat {
    if done == [] then 0
    else Calls(done[..|done| - 1], interest) + if done[|done| - 1].interest == interest then 1 else 0
  }

  /** The request with this id waits in the queue, is under way, or is held for a callback. */
  predicate LiveId(f: FetchState, id: nat) {
    |f.sent| < id <= f.counter || id in f.pending || id in f.validating || id in f.awaiting
  }

  /** The latest copy of the Interest does. */
  predicate Live(f: FetchState, interest: nat) {
    interest in f.latest && LiveId(f, f.latest[interest])
  }

  /** All requests ever queued, by id. */
  function Queued(f: FetchState): seq<Request> { f.sent + f.queue }

  /** The latest copy of an Interest is one of its copies. */
  ghost predicate Traced(f: FetchState) {
    f.asked.Keys == f.latest.Keys && TracedIn(f.latest, Queued(f))
  }

  ghost predicate TracedIn(latest: map<nat, nat>, requests: seq<Request>) {
    forall i | i in latest :: 1 <= latest[i] <= |requests| && requests[latest[i] - 1].interest == i
  }

  /** Each Interest asked for is live, or was told, or failed; and just one of these, once. */
  ghost predicate SettledAt(f: FetchState, i: nat) {
    Calls(f.done, i) + (if Live(f, i) then 1 else 0) + (if i in f.failed then 1 else 0) ==
    if i in f.asked then 1 else 0
  }

  ghost predicate Settled(f: FetchState) {
    forall i: nat :: SettledAt(f, i)
  }

  ghost predicate Tracked(f: FetchState) {
    Traced(f) && Settled(f)
  }

  lemma CallsOneMore(done: seq<Completion>, c: Completion, interest: nat)
    ensures Calls(done + [c], interest) == Calls(done, interest) + if c.interest == interest then 1 else 0
  {
    assert (done + [c])[..|done|] == done;
  }

  // ---- Processing the queue ----

  /** What processing the queue does not change. */
  ghost predicate SameLife(f: FetchState, g: FetchState) {
    && g.asked == f.asked && g.latest == f.latest && g.done == f.done && g.failed == f.failed
    && Queued(g) == Queued(f) && forall id :: LiveId(g, id) <==> LiveId(f, id)
  }

  lemma DispatchLife(f: FetchState)
    requires f.queue != [] && Numbered(f)
    ensures SameLife(f, Dispatch(f))
  {
    assert f.sent + [f.queue[0]] + f.queue[1..] == f.sent + f.queue;
  }

  lemma {:induction false} ProcessLife(f: FetchState)
    requires Numbered(f)
    ensures SameLife(f, Process(f))
    decreases |f.queue|
  {
    if f.queue != [] && |f.pending| < WINDOW {
      DispatchLife(f);
      DispatchNumbered(f);
      ProcessLife(Dispatch(f));
    }
  }

  lemma SameLifeTracked(f: FetchState, g: FetchState)
    requires Tracked(f) && SameLife(f, g)
    ensures Tracked(g)
  {
    forall i: nat ensures SettledAt(g, i) { assert SettledAt(f, i); }
  }

  // ---- Queueing ----

  lemma QueuedOneMore(f: FetchState, r: Request)
    ensures Queued(Push(f, r)) == Queued(f) + [r.(id := f.counter + 1)]
  {
  }

  lemma TracedMore(latest: map<nat, nat>, requests: seq<Request>, r: Request)
    requires TracedIn(latest, requests)
    ensures TracedIn(latest[r.interest := |requests| + 1], requests + [r])
  {
  }

  lemma QueuedCounts(f: FetchState)
    requires Numbered(f)
    ensures |Queued(f)| == f.counter
  {
  }

  lemma PushTraced(f: FetchState, r: Request)
    requires Numbered(f) && Traced(f) && r.interest in f.asked
    ensures Traced(Push(f, r))
  {
    QueuedOneMore(f, r);
    QueuedCounts(f);
    TracedMore(f.latest, Queued(f), r.(id := f.counter + 1));
  }

  /** Every other Interest lives on as it did. */
  lemma PushLife(f: FetchState, r: Request, i: nat)
    requires Numbered(f) && Placed(f) && Traced(f)
    ensures Live(Push(f, r), i) <==> Live(f, i) || i == r.interest
  {
  }

  // ---- Taking a request out of its place ----

  /** The same fetcher, with the request of this id in no place. */
  ghost predicate Without(f: FetchState, g: FetchState, id: nat) {
    && g == f.(pending := f.pending - {id}, validating := f.validating - {id}, awaiting := f.awaiting - {id})
    && 1 <= id <= |f.sent|
  }

  lemma WithoutLife(f: FetchState, g: FetchState, id: nat, i: nat)
    requires Numbered(f) && Traced(f) && Without(f, g, id) && LiveId(f, id)
    requires f.sent[id - 1].interest in f.latest && f.latest[f.sent[id - 1].interest] == id
    ensures Live(g, i) <==> Live(f, i) && i != f.sent[id - 1].interest
    ensures Live(f, f.sent[id - 1].interest)
  {
    if i in f.latest && f.latest[i] == id { assert Queued(f)[id - 1] == f.sent[id - 1]; }
  }

  /** What is known of a request held somewhere. */
  ghost predicate Holding(f: FetchState, id: nat, r: Request) {
    && 1 <= id <= |f.sent| && r == f.sent[id - 1] && LiveId(f, id)
    && r.interest in f.latest && f.latest[r.interest] == id && r.interest in f.asked
  }

  lemma HeldRequest(f: FetchState, o: Options, m: map<nat, Request>, id: nat)
    requires Consistent(f, o) && (m == f.pending || m == f.validating || m == f.awaiting) && id in m
    ensures Holding(f, id, m[id])
  {
    Clauses(f, o);
    assert Budgeted(f, o, m[id], 0);
  }

  lemma TakenFromOne(f: FetchState, o: Options, id: nat)
    requires Consistent(f, o)
    ensures id in f.pending ==> Without(f, f.(pending := f.pending - {id}), id)
    ensures id in f.validating ==> Without(f, f.(validating := f.validating - {id}), id)
    ensures id in f.awaiting ==> Without(f, f.(awaiting := f.awaiting - {id}), id)
  {
    Clauses(f, o);
    Absent(f.pending, id);
    Absent(f.validating, id);
    Absent(f.awaiting, id);
  }

  lemma Absent(m: map<nat, Request>, id: nat)
    ensures id !in m ==> m - {id} == m
  {
  }

  // ---- The events ----

  /** One Interest has ended, in one of the two ways. */
  ghost predicate Ends(f: FetchState, g: FetchState, i: nat) {
    && g.asked == f.asked && Traced(g)
    && (forall k :: Live(g, k) <==> Live(f, k) && k != i) && Live(f, i)
    && (forall k :: Calls(g.done, k) + (if k in g.failed then 1 else 0) ==
                    Calls(f.done, k) + (if k in f.failed then 1 else 0) + if k == i then 1 else 0)
  }

  lemma EndsTracked(f: FetchState, g: FetchState, i: nat)
    requires Tracked(f) && Ends(f, g, i)
    ensures Tracked(g)
  {
    forall k: nat ensures SettledAt(g, k) {
      assert SettledAt(f, k);
      assert Calls(g.done, k) + (if k in g.failed then 1 else 0) ==
             Calls(f.done, k) + (if k in f.failed then 1 else 0) + if k == i then 1 else 0;
    }
  }

  lemma CalledLife(f: FetchState, g: FetchState, h: FetchState, id: nat, r: Request, outcome: Outcome, k: nat)
    requires Numbered(f) && Traced(f) && Holding(f, id, r) && Without(f, g, id) && SameLife(g, h)
    ensures Live(h.Called(r, outcome), k) <==> Live(f, k) && k != r.interest
    ensures Live(f, r.interest)
  {
    WithoutLife(f, g, id, k);
    if k in f.latest {
      assert LiveId(h, f.latest[k]) <==> LiveId(g, f.latest[k]);
      assert LiveId(h.Called(r, outcome), f.latest[k]) <==> LiveId(h, f.latest[k]);
    }
  }

  /** Taken out, the queue processed, and the application called back. */
  lemma CalledEnds(f: FetchState, g: FetchState, h: FetchState, id: nat, r: Request, outcome: Outcome)
    requires Numbered(f) && Tracked(f) && Holding(f, id, r) && Without(f, g, id) && SameLife(g, h)
    ensures Ends(f, h.Called(r, outcome), r.interest)
  {
    var h' := h.Called(r, outcome);
    forall k ensures Live(h', k) <==> Live(f, k) && k != r.interest { CalledLife(f, g, h, id, r, outcome, k); }
    CalledLife(f, g, h, id, r, outcome, r.interest);
    forall k ensures Calls(h'.done, k) == Calls(f.done, k) + if k == r.interest then 1 else 0 {
      CallsOneMore(h.done, Completion(r.interest, outcome), k);
    }
  }

  /** Taken out, and given up for good. */
  lemma FailedEnds(f: FetchState, g: FetchState, id: nat, r: Request)
    requires Numbered(f) && Tracked(f) && Holding(f, id, r) && Without(f, g, id)
    ensures Ends(f, g.(failed := g.failed + {r.interest}), r.interest)
  {
    var h := g.(failed := g.failed + {r.interest});
    forall k ensures Live(h, k) <==> Live(f, k) && k != r.interest { WithoutLife(f, g, id, k); }
    WithoutLife(f, g, id, r.interest);
    assert SettledAt(f, r.interest);
  }

  lemma AgainSettles(f: FetchState, g: FetchState, id: nat, r: Request, r': Request, k: nat)
    requires Numbered(f) && Placed(g) && Traced(f) && Holding(f, id, r) && Without(f, g, id) && SettledAt(f, k)
    requires r'.interest == r.interest
    ensures SettledAt(Push(g, r'), k)
  {
    WithoutLife(f, g, id, k);
    WithoutLife(f, g, id, r.interest);
    PushLife(g, r', k);
  }

  /** Taken out, it may be queued again. */
  ghost predicate TakenOut(f: FetchState, g: FetchState, id: nat, r: Request) {
    Numbered(f) && Numbered(g) && Placed(g) && Holding(f, id, r) && Without(f, g, id)
  }

  lemma PushTracked(f: FetchState, g: FetchState, id: nat, r: Request, r': Request)
    requires Tracked(f) && TakenOut(f, g, id, r) && r'.interest == r.interest
    ensures Tracked(Push(g, r'))
  {
    PushTraced(g, r');
    forall k: nat ensures SettledAt(Push(g, r'), k) {
      assert SettledAt(f, k);
      AgainSettles(f, g, id, r, r', k);
    }
  }

  lemma AgainTracked(f: FetchState, g: FetchState, id: nat, r: Request, r': Request)
    requires Tracked(f) && TakenOut(f, g, id, r) && r'.interest == r.interest
    ensures Tracked(Again(g, r'))
  {
    PushTracked(f, g, id, r, r');
    PushNumbered(g, r');
    ProcessLife(Push(g, r'));
    SameLifeTracked(Push(g, r'), Again(g, r'));
  }

  lemma PushNumbered(f: FetchState, r: Request)
    requires Numbered(f)
    ensures Numbered(Push(f, r))
  {
  }

  lemma {:induction false} NeverCalled(done: seq<Completion>, interest: nat)
    requires forall k | 0 <= k < |done| :: done[k].interest != interest
    ensures Calls(done, interest) == 0
  {
    if done != [] { NeverCalled(done[..|done| - 1], interest); }
  }

  lemma JoinTraced(f: FetchState, nRetries: int, onValidationFail: int)
    requires Numbered(f) && Traced(f)
    ensures Traced(Join(f, nRetries, onValidationFail)) && Numbered(Join(f, nRetries, onValidationFail))
  {
    var id := f.counter + 1;
    var r := Request(id, id, nRetries, onValidationFail);
    QueuedOneMore(f.(asked := f.asked[id := nRetries]), r);
    TracedMore(f.latest, Queued(f), r);
    PushNumbered(f.(asked := f.asked[id := nRetries]), r);
  }

  lemma JoinLife(f: FetchState, nRetries: int, onValidationFail: int, i: nat)
    requires Numbered(f) && Placed(f) && Traced(f)
    ensures Live(Join(f, nRetries, onValidationFail), i) <==> Live(f, i) || i == f.counter + 1
  {
  }

  lemma JoinSettles(f: FetchState, nRetries: int, onValidationFail: int, k: nat)
    requires Numbered(f) && Placed(f) && Traced(f) && SettledAt(f, k) && f.counter + 1 !in f.asked
    ensures SettledAt(Join(f, nRetries, onValidationFail), k)
  {
    JoinLife(f, nRetries, onValidationFail, k);
  }

  lemma JoinTracked(f: FetchState, nRetries: int, onValidationFail: int)
    requires Numbered(f) && Placed(f) && Tracked(f) && Historied(f)
    ensures Tracked(Join(f, nRetries, onValidationFail)) && Numbered(Join(f, nRetries, onValidationFail))
  {
    JoinTraced(f, nRetries, onValidationFail);
    assert f.counter + 1 !in f.latest;
    forall k: nat ensures SettledAt(Join(f, nRetries, onValidationFail), k) {
      assert SettledAt(f, k);
      JoinSettles(f, nRetries, onValidationFail, k);
    }
  }

  lemma AskedTracked(f: FetchState, o: Options, nRetries: int)
    requires Consistent(f, o) && Tracked(f)
    ensures Tracked(Express(f, nRetries, o.onValidationFail))
  {
    Clauses(f, o);
    JoinTracked(f, nRetries, o.onValidationFail);
    ProcessLife(Join(f, nRetries, o.onValidationFail));
    SameLifeTracked(Join(f, nRetries, o.onValidationFail), Express(f, nRetries, o.onValidationFail));
  }

  /** Taken out of the window, and the queue processed. */
  lemma UnpendedLife(f: FetchState, o: Options, id: nat)
    requires Consistent(f, o) && id in f.pending
    ensures Numbered(f) && Holding(f, id, f.pending[id]) && Without(f, Unpend(f, id), id)
    ensures SameLife(Unpend(f, id), Process(Unpend(f, id)))
  {
    Clauses(f, o);
    HeldRequest(f, o, f.pending, id);
    TakenFromOne(f, o, id);
    UnpendFewer(f, o, id);
    FewerConsistent(f, Unpend(f, id), o);
    Clauses(Unpend(f, id), o);
    ProcessLife(Unpend(f, id));
  }

  lemma ClosedTracked(f: FetchState, o: Options, id: nat, outcome: Outcome)
    requires Consistent(f, o) && Tracked(f) && id in f.pending
    ensures Tracked(Process(Unpend(f, id)).Called(f.pending[id], outcome))
  {
    UnpendedLife(f, o, id);
    CalledEnds(f, Unpend(f, id), Process(Unpend(f, id)), id, f.pending[id], outcome);
    EndsTracked(f, Process(Unpend(f, id)).Called(f.pending[id], outcome), f.pending[id].interest);
  }

  /** The request goes to the validator: it stays live. */
  lemma ValidatingTracked(f: FetchState, o: Options, id: nat)
    requires Consistent(f, o) && Tracked(f) && id in f.pending
    ensures Tracked(OnData(f, id, true))
  {
    UnpendedLife(f, o, id);
    KeptTracked(f, Unpend(f, id), Process(Unpend(f, id)), OnData(f, id, true), id);
  }

  lemma KeptTracked(f: FetchState, g: FetchState, h: FetchState, h': FetchState, id: nat)
    requires Tracked(f) && Without(f, g, id) && LiveId(f, id) && SameLife(g, h)
    requires h' == h.(validating := h'.validating) && h'.validating.Keys == h.validating.Keys + {id}
    ensures Tracked(h')
  {
    forall k: nat ensures SettledAt(h', k) {
      assert SettledAt(f, k);
      KeptLife(f, g, h, h', id, k);
    }
  }

  lemma KeptLife(f: FetchState, g: FetchState, h: FetchState, h': FetchState, id: nat, k: nat)
    requires Without(f, g, id) && LiveId(f, id) && SameLife(g, h)
    requires h' == h.(validating := h'.validating) && h'.validating.Keys == h.validating.Keys + {id}
    ensures Live(h', k) <==> Live(f, k)
  {
    if k in f.latest {
      var x := f.latest[k];
      assert LiveId(h, x) <==> LiveId(g, x);
      assert LiveId(h', x) <==> LiveId(h, x) || x == id;
    }
  }

  lemma OutOfPlace(f: FetchState, g: FetchState, id: nat)
    requires Numbered(f) && Placed(f) && Without(f, g, id)
    ensures Numbered(g) && Placed(g)
  {
  }

  lemma UnpendedOut(f: FetchState, o: Options, id: nat)
    requires Consistent(f, o) && id in f.pending
    ensures TakenOut(f, Unpend(f, id), id, f.pending[id])
  {
    Clauses(f, o);
    HeldRequest(f, o, f.pending, id);
    TakenFromOne(f, o, id);
    OutOfPlace(f, Unpend(f, id), id);
  }

  lemma RetriedTracked(f: FetchState, o: Options, id: nat, r: Request)
    requires Consistent(f, o) && Tracked(f) && id in f.pending && r.interest == f.pending[id].interest
    ensures Tracked(Again(Unpend(f, id), r))
  {
    UnpendedOut(f, o, id);
    AgainTracked(f, Unpend(f, id), id, f.pending[id], r);
  }

  lemma TimedOutTracked(f: FetchState, o: Options, id: nat)
    requires Consistent(f, o) && Tracked(f) && id in f.pending
    ensures Tracked(OnTimeout(f, id))
  {
    if f.pending[id].nRetries == 0 {
      ClosedTracked(f, o, id, GivenUp);
    } else {
      RetriedTracked(f, o, id, f.pending[id].(nRetries := f.pending[id].nRetries - 1));
    }
  }

  /** Taken back from the validator. */
  lemma ValidatedLife(f: FetchState, o: Options, id: nat)
    requires Consistent(f, o) && id in f.validating
    ensures Numbered(f) && Holding(f, id, f.validating[id])
    ensures Without(f, f.(validating := f.validating - {id}), id)
  {
    Clauses(f, o);
    HeldRequest(f, o, f.validating, id);
    TakenFromOne(f, o, id);
  }

  lemma SelfLife(f: FetchState)
    ensures SameLife(f, f)
  {
  }

  lemma ValidTracked(f: FetchState, o: Options, id: nat)
    requires Consistent(f, o) && Tracked(f) && id in f.validating
    ensures Tracked(OnValidated(f, id))
  {
    var g := f.(validating := f.validating - {id});
    ValidatedLife(f, o, id);
    SelfLife(g);
    CalledEnds(f, g, g, id, f.validating[id], Satisfied);
    EndsTracked(f, OnValidated(f, id), f.validating[id].interest);
  }

  lemma RejectedTracked(f: FetchState, o: Options, id: nat)
    requires Consistent(f, o) && Tracked(f) && id in f.validating && f.validating[id].nRetriesOnValidationFail <= 0
    ensures Tracked(OnValidationFailed(f, id))
  {
    ValidatedLife(f, o, id);
    FailedEnds(f, f.(validating := f.validating - {id}), id, f.validating[id]);
    EndsTracked(f, OnValidationFailed(f, id), f.validating[id].interest);
  }

  lemma MovedTracked(f: FetchState, g: FetchState, id: nat)
    requires Tracked(f) && id in f.validating
    requires g == f.(validating := f.validating - {id}, awaiting := g.awaiting)
    requires g.awaiting.Keys == f.awaiting.Keys + {id}
    ensures Tracked(g)
  {
    forall k: nat ensures SettledAt(g, k) {
      assert SettledAt(f, k);
      assert Live(g, k) <==> Live(f, k);
    }
  }

  lemma InvalidTracked(f: FetchState, o: Options, id: nat)
    requires Consistent(f, o) && Tracked(f) && id in f.validating
    ensures Tracked(OnValidationFailed(f, id))
  {
    if f.validating[id].nRetriesOnValidationFail > 0 {
      MovedTracked(f, OnValidationFailed(f, id), id);
    } else {
      RejectedTracked(f, o, id);
    }
  }

  lemma AwaitedOut(f: FetchState, o: Options, id: nat)
    requires Consistent(f, o) && id in f.awaiting
    ensures TakenOut(f, f.(awaiting := f.awaiting - {id}), id, f.awaiting[id])
  {
    Clauses(f, o);
    HeldRequest(f, o, f.awaiting, id);
    TakenFromOne(f, o, id);
    OutOfPlace(f, f.(awaiting := f.awaiting - {id}), id);
  }

  lemma RequeuedTracked(f: FetchState, o: Options, id: nat, r: Request)
    requires Consistent(f, o) && Tracked(f) && id in f.awaiting && r.interest == f.awaiting[id].interest
    ensures Tracked(Again(f.(awaiting := f.awaiting - {id}), r))
  {
    AwaitedOut(f, o, id);
    AgainTracked(f, f.(awaiting := f.awaiting - {id}), id, f.awaiting[id], r);
  }

  lemma RetryTracked(f: FetchState, o: Options, id: nat)
    requires Consistent(f, o) && Tracked(f) && id in f.awaiting
    ensures Tracked(OnRetry(f, id))
  {
    var r := f.awaiting[id];
    RequeuedTracked(f, o, id, r.(nRetriesOnValidationFail := r.nRetriesOnValidationFail - 1));
  }

  /** Every event keeps track. */
  lemma StepTracked(f: FetchState, o: Options, e: Event)
    requires Consistent(f, o) && Tracked(f) && Enabled(f, e)
    ensures Tracked(Step(f, o, e))
  {
    match e {
      case Asked(nRetries) => AskedTracked(f, o, nRetries);
      case Data(id) =>
        if o.validator { ValidatingTracked(f, o, id); } else { ClosedTracked(f, o, id, Satisfied); }
      case Nack(id) => ClosedTracked(f, o, id, Nacked);
      case Timeout(id) => TimedOutTracked(f, o, id);
      case Valid(id) => ValidTracked(f, o, id);
      case Invalid(id) => InvalidTracked(f, o, id);
      case Retry(id) => RetryTracked(f, o, id);
    }
  }

  // ---- Runs ----

  lemma NewIsTracked()
    ensures Tracked(NEW)
  {
    forall i: nat ensures SettledAt(NEW, i) { }
  }

  lemma {:induction false} RunTracked(fs: seq<FetchState>, o: Options, es: seq<Event>, n: nat)
    requires IsRun(fs, o, es) && n < |fs|
    ensures Tracked(fs[n])
    decreases n
  {
    if n == 0 {
      NewIsTracked();
    } else {
      RunTracked(fs, o, es, n - 1);
      RunConsistent(fs, o, es, n - 1);
      TrackedNext(fs, o, es, n - 1);
    }
  }

  lemma TrackedNext(fs: seq<FetchState>, o: Options, es: seq<Event>, n: nat)
    requires IsRun(fs, o, es) && n < |es| && Consistent(fs[n], o) && Tracked(fs[n])
    ensures Tracked(fs[n + 1])
  {
    assert RunAt(fs, o, es, n);
    StepTracked(fs[n], o, es[n]);
  }

  /** No copy of an Interest is anywhere exactly if its latest one is not live. */
  lemma LiveIffSomewhere(f: FetchState, o: Options, interest: nat)
    requires Consistent(f, o) && Tracked(f)
    ensures NotLive(f, interest) <==> !Live(f, interest)
  {
    Clauses(f, o);
    if Live(f, interest) {
      LatestSomewhere(f, interest);
    } else {
      NowhereLive(f, o, interest);
    }
  }

  lemma LatestSomewhere(f: FetchState, interest: nat)
    requires Numbered(f) && Placed(f) && Traced(f) && Live(f, interest)
    ensures !NotLive(f, interest)
  {
    var id := f.latest[interest];
    if id > |f.sent| {
      assert Queued(f)[id - 1] == f.queue[id - 1 - |f.sent|];
    } else {
      assert Queued(f)[id - 1] == f.sent[id - 1];
    }
  }

  lemma NowhereLive(f: FetchState, o: Options, interest: nat)
    requires Numbered(f) && Placed(f) && Accounted(f, o) && !Live(f, interest)
    ensures NotLive(f, interest)
  {
    forall i | 0 <= i < |f.queue| ensures f.queue[i].interest != interest { assert Budgeted(f, o, f.queue[i], 1); }
    forall id | id in f.pending ensures f.pending[id].interest != interest { assert Budgeted(f, o, f.pending[id], 0); }
    forall id | id in f.validating ensures f.validating[id].interest != interest {
      assert Budgeted(f, o, f.validating[id], 0);
    }
    forall id | id in f.awaiting ensures f.awaiting[id].interest != interest {
      assert Budgeted(f, o, f.awaiting[id], 0);
    }
  }

  /** In every run the application is called back about an Interest it asked for at most once; not
      before the last copy is gone, and then exactly once unless the Interest failed. */
  lemma CompletesOnce(fs: seq<FetchState>, o: Options, es: seq<Event>, n: nat, interest: nat)
    requires IsRun(fs, o, es) && n < |fs| && interest in fs[n].asked
    ensures Calls(fs[n].done, interest) <= 1
    ensures !NotLive(fs[n], interest) ==> Calls(fs[n].done, interest) == 0
    ensures NotLive(fs[n], interest) ==> (Calls(fs[n].done, interest) == 1 <==> interest !in fs[n].failed)
  {
    RunConsistent(fs, o, es, n);
    RunTracked(fs, o, es, n);
    LiveIffSomewhere(fs[n], o, interest);
    assert SettledAt(fs[n], interest);
  }

  // ---- Failures ----

  /** The event reports that the data of this Interest was not valid, and no retry is left. */
  predicate Fails(f: FetchState, e: Event, interest: nat) {
    e.Invalid? && e.id in f.validating && f.validating[e.id].interest == interest
    && f.validating[e.id].nRetriesOnValidationFail <= 0
  }

  /** Nothing new in the history. */
  ghost predicate SameHistory(f: FetchState, g: FetchState) {
    g.done == f.done && g.failed == f.failed
  }

  lemma {:induction false} ProcessHistory(f: FetchState)
    ensures SameHistory(f, Process(f))
    decreases |f.queue|
  {
    if f.queue != [] && |f.pending| < WINDOW { ProcessHistory(Dispatch(f)); }
  }

  lemma AgainHistory(f: FetchState, r: Request)
    ensures SameHistory(f, Again(f, r))
  {
    ProcessHistory(Push(f, r));
  }

  ghost predicate NotRejected(done: seq<Completion>) {
    forall k | 0 <= k < |done| :: done[k].outcome != Rejected
  }

  /** What an event adds to the history. */
  ghost predicate Adds(f: FetchState, e: Event, g: FetchState) {
    && (forall i: nat :: i in g.failed <==> i in f.failed || Fails(f, e, i))
    && (NotRejected(f.done) ==> NotRejected(g.done))
  }

  lemma CallHistory(f: FetchState, e: Event, g: FetchState, r: Request, outcome: Outcome)
    requires !e.Invalid? && SameHistory(f, g) && outcome != Rejected
    ensures Adds(f, e, g.Called(r, outcome))
  {
  }

  lemma NoHistory(f: FetchState, e: Event, g: FetchState)
    requires SameHistory(f, g) && !e.Invalid?
    ensures Adds(f, e, g)
  {
  }

  lemma InvalidHistory(f: FetchState, id: nat)
    requires id in f.validating
    ensures Adds(f, Invalid(id), OnValidationFailed(f, id))
  {
  }

  lemma TimeoutHistory(f: FetchState, id: nat)
    requires id in f.pending
    ensures Adds(f, Timeout(id), OnTimeout(f, id))
  {
    var r := f.pending[id];
    if r.nRetries == 0 {
      ProcessHistory(Unpend(f, id));
      CallHistory(f, Timeout(id), Process(Unpend(f, id)), r, GivenUp);
    } else {
      AgainHistory(Unpend(f, id), r.(nRetries := r.nRetries - 1));
      NoHistory(f, Timeout(id), OnTimeout(f, id));
    }
  }

  lemma DataHistory(f: FetchState, id: nat, validator: bool)
    requires id in f.pending
    ensures Adds(f, Data(id), OnData(f, id, validator))
  {
    ProcessHistory(Unpend(f, id));
    if validator {
      NoHistory(f, Data(id), OnData(f, id, true));
    } else {
      CallHistory(f, Data(id), Process(Unpend(f, id)), f.pending[id], Satisfied);
    }
  }

  lemma StepHistory(f: FetchState, o: Options, e: Event)
    requires Enabled(f, e)
    ensures Adds(f, e, Step(f, o, e))
  {
    match e {
      case Asked(nRetries) =>
        ProcessHistory(Join(f, nRetries, o.onValidationFail));
        NoHistory(f, e, Step(f, o, e));
      case Data(id) => DataHistory(f, id, o.validator);
      case Nack(id) =>
        ProcessHistory(Unpend(f, id));
        CallHistory(f, e, Process(Unpend(f, id)), f.pending[id], Nacked);
      case Timeout(id) => TimeoutHistory(f, id);
      case Valid(id) => CallHistory(f, e, f.(validating := f.validating - {id}), f.validating[id], Satisfied);
      case Invalid(id) => InvalidHistory(f, id);
      case Retry(id) =>
        var r := f.awaiting[id];
        AgainHistory(f.(awaiting := f.awaiting - {id}),
                     r.(nRetriesOnValidationFail := r.nRetriesOnValidationFail - 1));
        NoHistory(f, e, Step(f, o, e));
    }
  }

  ghost predicate FailedBefore(fs: seq<FetchState>, es: seq<Event>, n: nat, interest: nat)
    requires |fs| == |es| + 1
  {
    exists m :: 0 <= m < n && m < |es| && Fails(fs[m], es[m], interest)
  }

  lemma HistoryNext(fs: seq<FetchState>, o: Options, es: seq<Event>, n: nat)
    requires IsRun(fs, o, es) && n < |es|
    ensures Adds(fs[n], es[n], fs[n + 1])
  {
    assert RunAt(fs, o, es, n);
    StepHistory(fs[n], o, es[n]);
  }

  /** An Interest has failed exactly if some validation of it failed with no retry left; and of that the
      application is never told: afterValidationFailed is never called. */
  lemma {:induction false} FailsSilently(fs: seq<FetchState>, o: Options, es: seq<Event>, n: nat)
    requires IsRun(fs, o, es) && n < |fs|
    ensures forall i: nat :: i in fs[n].failed <==> FailedBefore(fs, es, n, i)
    ensures NotRejected(fs[n].done)
    decreases n
  {
    if n > 0 {
      FailsSilently(fs, o, es, n - 1);
      HistoryNext(fs, o, es, n - 1);
      forall i: nat ensures i in fs[n].failed <==> FailedBefore(fs, es, n, i) {
        if FailedBefore(fs, es, n - 1, i) {
          var m: nat :| m < n - 1 && Fails(fs[m], es[m], i);
        } else if Fails(fs[n - 1], es[n - 1], i) {
        }
      }
    }
  }
}
