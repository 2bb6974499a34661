/** How often the fetcher tries: an Interest is given up exactly when its last try has timed out, and fails
    exactly when its last validation has. */
module Retries {
  import opened Numbers
  import opened Fetching
  import opened Completions

  /** A copy of this Interest times out, or its data turns out not to be valid. */
  predicate TimesOut(f: FetchState, e: Event, i: nat) {
    e.Timeout? && e.id in f.pending && f.pending[e.id].interest == i
  }

  predicate Refuses(f: FetchState, e: Event, i: nat) {
    e.Invalid? && e.id in f.validating && f.validating[e.id].interest == i
  }

  /** How often that has happened. */
  datatype Tally = Tally(timeouts: nat, refusals: nat) {
    function Next(f: FetchState, e: Event, i: nat): Tally {
      Tally(timeouts + (if TimesOut(f, e, i) then 1 else 0), refusals + (if Refuses(f, e, i) then 1 else 0))
    }
  }

  /** In the first n steps of a run. */
  function TallyOf(fs: seq<FetchState>, es: seq<Event>, n: nat, i: nat): Tally
    requires n <= |fs| && n <= |es|
  {
    if n == 0 then Tally(0, 0) else TallyOf(fs, es, n - 1, i).Next(fs[n - 1], es[n - 1], i)
  }

  /** The application was told this. */
  ghost predicate CalledWith(done: seq<Completion>, c: Completion) {
    exists k :: 0 <= k < |done| && done[k] == c
  }

  lemma CalledMore(done: seq<Completion>, more: seq<Completion>, c: Completion)
    ensures CalledWith(done + more, c) <==> CalledWith(done, c) || CalledWith(more, c)
  {
    var all := done + more;
    if CalledWith(done, c) {
      var k :| 0 <= k < |done| && done[k] == c;
      assert all[k] == c;
    }
    if CalledWith(more, c) {
      var k :| 0 <= k < |more| && more[k] == c;
      assert all[|done| + k] == c;
    }
    if CalledWith(all, c) {
      var k :| 0 <= k < |all| && all[k] == c;
      assert k < |done| ==> done[k] == c;
      assert k >= |done| ==> more[k - |done|] == c;
    }
  }

  ghost predicate Abandoned(done: seq<Completion>, i: nat) { CalledWith(done, Completion(i, GivenUp)) }

  /** The latest copy of an Interest. */
  function LatestCopy(f: FetchState, i: nat): Request
    requires i in f.latest && 1 <= f.latest[i] <= |Queued(f)|
  {
    Queued(f)[f.latest[i] - 1]
  }

  /** How many validations of the copy have failed that its number of retries does not show yet. */
  function Waiting(f: FetchState, i: nat): nat
    requires i in f.latest
  {
    if f.latest[i] in f.awaiting then 1 else 0
  }

  /** The tries left are those asked for less those used up. */
  predicate Used(o: Options, asked: int, r: Request, waiting: nat, c: Tally) {
    && asked == r.nRetries + c.timeouts && (asked >= 0 ==> c.timeouts <= asked)
    && o.onValidationFail + waiting == r.nRetriesOnValidationFail + c.refusals
    && c.refusals <= Max(0, o.onValidationFail)
  }

  /** A live Interest has tries left; it is given up when one more has timed out than may be tried again, and
      fails when one more validation has failed. */
  ghost predicate Counted(f: FetchState, o: Options, i: nat, c: Tally)
    requires Traced(f)
  {
    if i !in f.asked then c == Tally(0, 0) && !Abandoned(f.done, i) && i !in f.failed
    else
      && (Live(f, i) ==> Used(o, f.asked[i], LatestCopy(f, i), Waiting(f, i), c))
      && (Abandoned(f.done, i) <==> f.asked[i] >= 0 && c.timeouts == f.asked[i] + 1)
      && (i in f.failed <==> c.refusals == Max(0, o.onValidationFail) + 1)
  }

  // ---- What leaves an Interest alone ----

  /** The Interest is as it was, or no longer live. */
  ghost predicate SameFor(f: FetchState, g: FetchState, i: nat)
    requires Traced(f) && Traced(g)
  {
    && (i in g.asked <==> i in f.asked)
    && (Abandoned(g.done, i) <==> Abandoned(f.done, i)) && (i in g.failed <==> i in f.failed)
    && (i in f.asked && i in g.asked ==>
          && g.asked[i] == f.asked[i]
          && (Live(g, i) ==> Live(f, i) && LatestCopy(g, i) == LatestCopy(f, i) && Waiting(g, i) == Waiting(f, i)))
  }

  lemma SameCounts(f: FetchState, g: FetchState, o: Options, i: nat, c: Tally)
    requires Traced(f) && Traced(g) && Counted(f, o, i, c) && SameFor(f, g, i)
    ensures Counted(g, o, i, c)
  {
  }

  lemma SameTransitive(f: FetchState, g: FetchState, h: FetchState, i: nat)
    requires Traced(f) && Traced(g) && Traced(h) && SameFor(f, g, i) && SameFor(g, h, i)
    ensures SameFor(f, h, i)
  {
  }

  /** The same requests, with the same history. */
  ghost predicate SameRecords(f: FetchState, g: FetchState) {
    && g.asked == f.asked && g.latest == f.latest && g.done == f.done && g.failed == f.failed
    && Queued(g) == Queued(f)
  }

  lemma SameByRecords(f: FetchState, g: FetchState, i: nat)
    requires Traced(f) && SameRecords(f, g) && (Live(g, i) ==> Live(f, i))
    requires i in f.latest ==> Waiting(g, i) == Waiting(f, i)
    ensures Traced(g) && SameFor(f, g, i)
  {
  }

  lemma SameLifeLive(f: FetchState, g: FetchState, i: nat)
    requires SameLife(f, g)
    ensures SameRecords(f, g) && (Live(g, i) <==> Live(f, i))
  {
    if i in f.latest { assert LiveId(g, f.latest[i]) <==> LiveId(f, f.latest[i]); }
  }

  lemma ProcessSame(f: FetchState, i: nat)
    requires Numbered(f) && Traced(f)
    ensures Traced(Process(f)) && SameFor(f, Process(f), i)
  {
    ProcessLife(f);
    ProcessMoves(f);
    SameLifeLive(f, Process(f), i);
    SameByRecords(f, Process(f), i);
  }

  lemma WithoutTraced(f: FetchState, g: FetchState, id: nat)
    requires Traced(f) && Without(f, g, id)
    ensures Traced(g)
  {
  }

  lemma LatestElsewhere(f: FetchState, id: nat, r: Request, i: nat)
    requires Traced(f) && Holding(f, id, r) && i in f.latest && i != r.interest
    ensures f.latest[i] != id
  {
    assert Queued(f)[id - 1] == f.sent[id - 1];
  }

  lemma WithoutSame(f: FetchState, g: FetchState, id: nat, r: Request, i: nat)
    requires Numbered(f) && Traced(f) && Holding(f, id, r) && Without(f, g, id)
    ensures Traced(g) && SameFor(f, g, i) && (i == r.interest ==> !Live(g, i))
  {
    WithoutTraced(f, g, id);
    WithoutLife(f, g, id, i);
    if i in f.latest && f.latest[i] == id { assert Queued(f)[id - 1] == f.sent[id - 1]; }
  }

  lemma PushCopy(f: FetchState, r: Request, i: nat)
    requires Traced(f) && Traced(Push(f, r)) && i in f.latest && i != r.interest
    ensures i in Push(f, r).latest
    ensures LatestCopy(Push(f, r), i) == LatestCopy(f, i) && Waiting(Push(f, r), i) == Waiting(f, i)
  {
    QueuedOneMore(f, r);
  }

  lemma PushSame(f: FetchState, r: Request, i: nat)
    requires Numbered(f) && Placed(f) && Traced(f) && r.interest in f.asked && i != r.interest
    ensures Traced(Push(f, r)) && SameFor(f, Push(f, r), i)
  {
    PushTraced(f, r);
    PushLife(f, r, i);
    if i in f.latest { PushCopy(f, r, i); }
  }

  lemma AbandonedMore(done: seq<Completion>, c: Completion, i: nat)
    ensures Abandoned(done + [c], i) <==> Abandoned(done, i) || c == Completion(i, GivenUp)
  {
    CalledMore(done, [c], Completion(i, GivenUp));
    assert [c][0] == c;
  }

  lemma CalledSame(f: FetchState, r: Request, outcome: Outcome, i: nat)
    requires Traced(f) && (i != r.interest || outcome != GivenUp)
    ensures Traced(f.Called(r, outcome)) && SameFor(f, f.Called(r, outcome), i)
  {
    AbandonedMore(f.done, Completion(r.interest, outcome), i);
  }

  // ---- The events ----

  /** Taken from its place, and queued again if need be. */
  lemma TakenSame(f: FetchState, g: FetchState, id: nat, r: Request, i: nat)
    requires Traced(f) && TakenOut(f, g, id, r)
    ensures Traced(g) && SameFor(f, g, i) && (i == r.interest ==> !Live(g, i) && i in g.asked)
  {
    WithoutSame(f, g, id, r, i);
  }

  /** A closed request: the Interest is not live any more. */
  lemma ClosedCounts(f: FetchState, o: Options, id: nat, outcome: Outcome, i: nat, c: Tally)
    requires Consistent(f, o) && Traced(f) && id in f.pending && Counted(f, o, i, c)
    requires i != f.pending[id].interest || outcome != GivenUp
    ensures var g := Process(Unpend(f, id)).Called(f.pending[id], outcome); Traced(g) && Counted(g, o, i, c)
  {
    var r, g := f.pending[id], Unpend(f, id);
    UnpendedOut(f, o, id);
    TakenSame(f, g, id, r, i);
    ProcessSame(g, i);
    CalledSame(Process(g), r, outcome, i);
    SameTransitive(f, g, Process(g), i);
    SameTransitive(f, Process(g), Process(g).Called(r, outcome), i);
    SameCounts(f, Process(g).Called(r, outcome), o, i, c);
  }

  /** The last try has timed out. */
  lemma GivenUpCounts(f: FetchState, o: Options, id: nat, c: Tally)
    requires Consistent(f, o) && Traced(f) && id in f.pending && f.pending[id].nRetries == 0
    requires Counted(f, o, f.pending[id].interest, c)
    ensures Traced(OnTimeout(f, id))
    ensures Counted(OnTimeout(f, id), o, f.pending[id].interest, Tally(c.timeouts + 1, c.refusals))
  {
    var r, g := f.pending[id], Unpend(f, id);
    var i := r.interest;
    UnpendedOut(f, o, id);
    HeldCounts(f, o, id, r, c);
    TakenSame(f, g, id, r, i);
    ProcessSame(g, i);
    AbandonedMore(Process(g).done, Completion(i, GivenUp), i);
  }

  /** What is known of a request that is held. */
  lemma HeldCounts(f: FetchState, o: Options, id: nat, r: Request, c: Tally)
    requires Traced(f) && Holding(f, id, r) && Counted(f, o, r.interest, c)
    ensures LatestCopy(f, r.interest) == r && Used(o, f.asked[r.interest], r, Waiting(f, r.interest), c)
  {
    assert Queued(f)[id - 1] == f.sent[id - 1];
  }

  lemma PushCounts(f: FetchState, o: Options, r: Request, c: Tally, c': Tally)
    requires Numbered(f) && Placed(f) && Traced(f) && r.interest in f.asked && Counted(f, o, r.interest, c)
    requires !Abandoned(f.done, r.interest) && r.interest !in f.failed && Used(o, f.asked[r.interest], r, 0, c')
    ensures Traced(Push(f, r)) && Counted(Push(f, r), o, r.interest, c')
  {
    PushTraced(f, r);
    QueuedOneMore(f, r);
    QueuedCounts(f);
  }

  /** Another try: what it uses up is counted. */
  lemma AgainCounts(f: FetchState, o: Options, g: FetchState, id: nat, r: Request, r': Request, c: Tally, c': Tally)
    requires Traced(f) && TakenOut(f, g, id, r) && Counted(f, o, r.interest, c)
    requires r'.interest == r.interest && Used(o, f.asked[r.interest], r', 0, c')
    ensures Traced(Again(g, r')) && Counted(Again(g, r'), o, r.interest, c')
  {
    var i := r.interest;
    HeldCounts(f, o, id, r, c);
    TakenSame(f, g, id, r, i);
    SameCounts(f, g, o, i, c);
    PushCounts(g, o, r', c, c');
    PushNumbered(g, r');
    ProcessSame(Push(g, r'), i);
    SameCounts(Push(g, r'), Again(g, r'), o, i, c');
  }

  lemma AgainSame(f: FetchState, g: FetchState, id: nat, r: Request, r': Request, i: nat)
    requires Traced(f) && TakenOut(f, g, id, r) && r'.interest == r.interest && i != r.interest
    ensures Traced(Again(g, r')) && SameFor(f, Again(g, r'), i)
  {
    TakenSame(f, g, id, r, i);
    PushSame(g, r', i);
    PushNumbered(g, r');
    ProcessSame(Push(g, r'), i);
    SameTransitive(f, g, Push(g, r'), i);
    SameTransitive(f, Push(g, r'), Again(g, r'), i);
  }

  lemma OtherTimeoutCounts(f: FetchState, o: Options, id: nat, i: nat, c: Tally)
    requires Consistent(f, o) && Traced(f) && id in f.pending && Counted(f, o, i, c) && i != f.pending[id].interest
    ensures Traced(OnTimeout(f, id)) && Counted(OnTimeout(f, id), o, i, c)
  {
    var r := f.pending[id];
    if r.nRetries == 0 {
      ClosedCounts(f, o, id, GivenUp, i, c);
    } else {
      RetriedSame(f, o, id, r.(nRetries := r.nRetries - 1), i);
      SameCounts(f, OnTimeout(f, id), o, i, c);
    }
  }

  lemma RetriedSame(f: FetchState, o: Options, id: nat, r: Request, i: nat)
    requires Consistent(f, o) && Traced(f) && id in f.pending
    requires r.interest == f.pending[id].interest && i != r.interest
    ensures Traced(Again(Unpend(f, id), r)) && SameFor(f, Again(Unpend(f, id), r), i)
  {
    UnpendedOut(f, o, id);
    AgainSame(f, Unpend(f, id), id, f.pending[id], r, i);
  }

  lemma TimeoutCounts(f: FetchState, o: Options, id: nat, i: nat, c: Tally)
    requires Consistent(f, o) && Traced(f) && id in f.pending && Counted(f, o, i, c)
    ensures Traced(OnTimeout(f, id)) && Counted(OnTimeout(f, id), o, i, c.Next(f, Timeout(id), i))
  {
    if i != f.pending[id].interest {
      OtherTimeoutCounts(f, o, id, i, c);
    } else if f.pending[id].nRetries == 0 {
      GivenUpCounts(f, o, id, c);
    } else {
      TriedAgainCounts(f, o, id, c);
    }
  }

  lemma NotWaiting(f: FetchState, o: Options, id: nat)
    requires Consistent(f, o) && (id in f.pending || id in f.validating)
    ensures id !in f.awaiting
  {
    Clauses(f, o);
  }

  lemma TriedAgainCounts(f: FetchState, o: Options, id: nat, c: Tally)
    requires Consistent(f, o) && Traced(f) && id in f.pending && f.pending[id].nRetries != 0
    requires Counted(f, o, f.pending[id].interest, c)
    ensures Traced(OnTimeout(f, id))
    ensures Counted(OnTimeout(f, id), o, f.pending[id].interest, Tally(c.timeouts + 1, c.refusals))
  {
    var r, c' := f.pending[id], Tally(c.timeouts + 1, c.refusals);
    var r' := r.(nRetries := r.nRetries - 1);
    UnpendedOut(f, o, id);
    NotWaiting(f, o, id);
    HeldCounts(f, o, id, r, c);
    OneTryLess(o, f.asked[r.interest], r, r', c, c');
    AgainCounts(f, o, Unpend(f, id), id, r, r', c, c');
  }

  lemma OneTryLess(o: Options, asked: int, r: Request, r': Request, c: Tally, c': Tally)
    requires Used(o, asked, r, 0, c) && r.nRetries != 0
    requires r' == r.(nRetries := r.nRetries - 1) && c' == Tally(c.timeouts + 1, c.refusals)
    ensures Used(o, asked, r', 0, c')
  {
  }

  // ---- Validation ----

  /** On its way to the validator the request stays what it is. */
  lemma ValidatingSame(f: FetchState, o: Options, id: nat, i: nat)
    requires Consistent(f, o) && Traced(f) && id in f.pending
    ensures Traced(OnData(f, id, true)) && SameFor(f, OnData(f, id, true), i)
  {
    var g := Unpend(f, id);
    UnpendedLife(f, o, id);
    OutNumbered(f, o, id);
    ProcessMoves(g);
    KeptLife(f, g, Process(g), OnData(f, id, true), id, i);
    SameLifeLive(g, Process(g), i);
    ValidatingRecords(f, id);
    SameByRecords(f, OnData(f, id, true), i);
  }

  lemma ValidatingRecords(f: FetchState, id: nat)
    requires id in f.pending && SameRecords(Unpend(f, id), Process(Unpend(f, id)))
    requires Process(Unpend(f, id)).awaiting == f.awaiting
    ensures SameRecords(f, OnData(f, id, true)) && OnData(f, id, true).awaiting == f.awaiting
  {
  }

  lemma OutNumbered(f: FetchState, o: Options, id: nat)
    requires Consistent(f, o) && id in f.pending
    ensures Numbered(Unpend(f, id))
  {
    UnpendedOut(f, o, id);
  }

  lemma ValidatingCounts(f: FetchState, o: Options, id: nat, i: nat, c: Tally)
    requires Consistent(f, o) && Traced(f) && id in f.pending && Counted(f, o, i, c)
    ensures Traced(OnData(f, id, true)) && Counted(OnData(f, id, true), o, i, c)
  {
    ValidatingSame(f, o, id, i);
    SameCounts(f, OnData(f, id, true), o, i, c);
  }

  lemma DataCounts(f: FetchState, o: Options, id: nat, i: nat, c: Tally)
    requires Consistent(f, o) && Traced(f) && id in f.pending && Counted(f, o, i, c)
    ensures Traced(OnData(f, id, o.validator)) && Counted(OnData(f, id, o.validator), o, i, c)
  {
    if o.validator { ValidatingCounts(f, o, id, i, c); } else { ClosedCounts(f, o, id, Satisfied, i, c); }
  }

  lemma ValidCounts(f: FetchState, o: Options, id: nat, i: nat, c: Tally)
    requires Consistent(f, o) && Traced(f) && id in f.validating && Counted(f, o, i, c)
    ensures Traced(OnValidated(f, id)) && Counted(OnValidated(f, id), o, i, c)
  {
    var r, g := f.validating[id], f.(validating := f.validating - {id});
    ValidatedLife(f, o, id);
    WithoutSame(f, g, id, r, i);
    CalledSame(g, r, Satisfied, i);
    SameTransitive(f, g, g.Called(r, Satisfied), i);
    SameCounts(f, OnValidated(f, id), o, i, c);
  }

  lemma MovedSame(f: FetchState, g: FetchState, o: Options, id: nat, i: nat)
    requires Consistent(f, o) && Traced(f) && id in f.validating && i != f.validating[id].interest
    requires g == f.(validating := f.validating - {id}, awaiting := f.awaiting[id := f.validating[id]])
    ensures Traced(g) && SameFor(f, g, i)
  {
    ValidatedLife(f, o, id);
    if i in f.latest { LatestElsewhere(f, id, f.validating[id], i); }
  }

  lemma MovedCounts(f: FetchState, g: FetchState, o: Options, id: nat, c: Tally)
    requires Consistent(f, o) && Traced(f) && id in f.validating
    requires f.validating[id].nRetriesOnValidationFail > 0 && Counted(f, o, f.validating[id].interest, c)
    requires g == f.(validating := f.validating - {id}, awaiting := f.awaiting[id := f.validating[id]])
    ensures Traced(g) && Counted(g, o, f.validating[id].interest, Tally(c.timeouts, c.refusals + 1))
  {
    ValidatedLife(f, o, id);
    NotWaiting(f, o, id);
    HeldCounts(f, o, id, f.validating[id], c);
  }

  lemma FailedCounts(f: FetchState, g: FetchState, o: Options, id: nat, i: nat, c: Tally)
    requires Consistent(f, o) && Traced(f) && id in f.validating && Counted(f, o, i, c)
    requires f.validating[id].nRetriesOnValidationFail <= 0
    requires g == f.(validating := f.validating - {id}, failed := f.failed + {f.validating[id].interest})
    ensures Traced(g) && Counted(g, o, i, c.Next(f, Invalid(id), i))
  {
    var r, h := f.validating[id], f.(validating := f.validating - {id});
    ValidatedLife(f, o, id);
    WithoutSame(f, h, id, r, i);
    SameCounts(f, h, o, i, c);
    if i == r.interest {
      NotWaiting(f, o, id);
      HeldCounts(f, o, id, r, c);
    }
  }

  lemma InvalidCounts(f: FetchState, o: Options, id: nat, i: nat, c: Tally)
    requires Consistent(f, o) && Traced(f) && id in f.validating && Counted(f, o, i, c)
    ensures Traced(OnValidationFailed(f, id))
    ensures Counted(OnValidationFailed(f, id), o, i, c.Next(f, Invalid(id), i))
  {
    var r := f.validating[id];
    if r.nRetriesOnValidationFail <= 0 {
      FailedCounts(f, OnValidationFailed(f, id), o, id, i, c);
    } else if i == r.interest {
      MovedCounts(f, OnValidationFailed(f, id), o, id, c);
    } else {
      MovedSame(f, OnValidationFailed(f, id), o, id, i);
      SameCounts(f, OnValidationFailed(f, id), o, i, c);
    }
  }

  lemma RequeuedCounts(f: FetchState, o: Options, id: nat, r: Request, c: Tally)
    requires Consistent(f, o) && Traced(f) && id in f.awaiting && Counted(f, o, r.interest, c)
    requires r == f.awaiting[id].(nRetriesOnValidationFail := f.awaiting[id].nRetriesOnValidationFail - 1)
    ensures var g := Again(f.(awaiting := f.awaiting - {id}), r); Traced(g) && Counted(g, o, r.interest, c)
  {
    AwaitedOut(f, o, id);
    HeldCounts(f, o, id, f.awaiting[id], c);
    AgainCounts(f, o, f.(awaiting := f.awaiting - {id}), id, f.awaiting[id], r, c, c);
  }

  lemma RequeuedSame(f: FetchState, o: Options, id: nat, r: Request, i: nat)
    requires Consistent(f, o) && Traced(f) && id in f.awaiting
    requires r.interest == f.awaiting[id].interest && i != r.interest
    ensures var g := Again(f.(awaiting := f.awaiting - {id}), r); Traced(g) && SameFor(f, g, i)
  {
    AwaitedOut(f, o, id);
    AgainSame(f, f.(awaiting := f.awaiting - {id}), id, f.awaiting[id], r, i);
  }

  lemma RetryCounts(f: FetchState, o: Options, id: nat, i: nat, c: Tally)
    requires Consistent(f, o) && Traced(f) && id in f.awaiting && Counted(f, o, i, c)
    ensures Traced(OnRetry(f, id)) && Counted(OnRetry(f, id), o, i, c)
  {
    var r := f.awaiting[id].(nRetriesOnValidationFail := f.awaiting[id].nRetriesOnValidationFail - 1);
    var g := Again(f.(awaiting := f.awaiting - {id}), r);
    assert OnRetry(f, id) == g;
    if i == r.interest {
      RequeuedCounts(f, o, id, r, c);
    } else {
      RequeuedSame(f, o, id, r, i);
      SameCounts(f, g, o, i, c);
    }
  }

  // ---- New Interests ----

  lemma JoinSame(f: FetchState, nRetries: int, onValidationFail: int, i: nat)
    requires Numbered(f) && Placed(f) && Traced(f) && i != f.counter + 1
    ensures var g := Join(f, nRetries, onValidationFail); Traced(g) && SameFor(f, g, i)
  {
    JoinTraced(f, nRetries, onValidationFail);
    JoinLife(f, nRetries, onValidationFail, i);
    JoinQueued(f, nRetries, onValidationFail);
  }

  lemma JoinQueued(f: FetchState, nRetries: int, onValidationFail: int)
    requires Numbered(f)
    ensures var id := f.counter + 1;
            Queued(Join(f, nRetries, onValidationFail)) == Queued(f) + [Request(id, id, nRetries, onValidationFail)] &&
            |Queued(f)| == f.counter
  {
    var id := f.counter + 1;
    QueuedOneMore(f.(asked := f.asked[id := nRetries]), Request(id, id, nRetries, onValidationFail));
    QueuedCounts(f);
  }

  lemma NewCounts(f: FetchState, o: Options, nRetries: int, c: Tally)
    requires Numbered(f) && Traced(f) && f.counter + 1 !in f.asked && Counted(f, o, f.counter + 1, c)
    requires forall id | id in f.awaiting :: id <= f.counter
    ensures var g := Join(f, nRetries, o.onValidationFail); Traced(g) && Counted(g, o, f.counter + 1, c)
  {
    JoinTraced(f, nRetries, o.onValidationFail);
    JoinQueued(f, nRetries, o.onValidationFail);
  }

  lemma IsNew(f: FetchState, o: Options)
    requires Consistent(f, o) && Traced(f)
    ensures Numbered(f) && Placed(f) && f.counter + 1 !in f.asked
    ensures forall id | id in f.awaiting :: id <= f.counter
  {
    Clauses(f, o);
    NewNumber(f, o);
  }

  lemma JoinCounts(f: FetchState, o: Options, nRetries: int, i: nat, c: Tally)
    requires Consistent(f, o) && Traced(f) && Counted(f, o, i, c)
    ensures var g := Join(f, nRetries, o.onValidationFail);
            Numbered(g) && Traced(g) && Counted(g, o, i, c)
  {
    IsNew(f, o);
    JoinTraced(f, nRetries, o.onValidationFail);
    if i == f.counter + 1 {
      NewCounts(f, o, nRetries, c);
    } else {
      JoinSame(f, nRetries, o.onValidationFail, i);
      SameCounts(f, Join(f, nRetries, o.onValidationFail), o, i, c);
    }
  }

  lemma AskedCounts(f: FetchState, o: Options, nRetries: int, i: nat, c: Tally)
    requires Consistent(f, o) && Traced(f) && Counted(f, o, i, c)
    ensures var g := Express(f, nRetries, o.onValidationFail); Traced(g) && Counted(g, o, i, c)
  {
    JoinCounts(f, o, nRetries, i, c);
    ProcessSame(Join(f, nRetries, o.onValidationFail), i);
    SameCounts(Join(f, nRetries, o.onValidationFail), Express(f, nRetries, o.onValidationFail), o, i, c);
  }

  // ---- Runs ----

  /** Every event is counted. */
  lemma StepCounts(f: FetchState, o: Options, e: Event, i: nat, c: Tally)
    requires Consistent(f, o) && Traced(f) && Enabled(f, e) && Counted(f, o, i, c)
    ensures Traced(Step(f, o, e)) && Counted(Step(f, o, e), o, i, c.Next(f, e, i))
  {
    match e {
      case Asked(nRetries) => AskedCounts(f, o, nRetries, i, c);
      case Data(id) => DataCounts(f, o, id, i, c);
      case Nack(id) => ClosedCounts(f, o, id, Nacked, i, c);
      case Timeout(id) => TimeoutCounts(f, o, id, i, c);
      case Valid(id) => ValidCounts(f, o, id, i, c);
      case Invalid(id) => InvalidCounts(f, o, id, i, c);
      case Retry(id) => RetryCounts(f, o, id, i, c);
    }
  }

  lemma CountsNext(fs: seq<FetchState>, o: Options, es: seq<Event>, n: nat, i: nat)
    requires IsRun(fs, o, es) && n < |es| && Traced(fs[n]) && Counted(fs[n], o, i, TallyOf(fs, es, n, i))
    ensures Traced(fs[n + 1]) && Counted(fs[n + 1], o, i, TallyOf(fs, es, n + 1, i))
  {
    RunConsistent(fs, o, es, n);
    assert RunAt(fs, o, es, n);
    StepCounts(fs[n], o, es[n], i, TallyOf(fs, es, n, i));
  }

  lemma {:induction false} RunCounts(fs: seq<FetchState>, o: Options, es: seq<Event>, n: nat, i: nat)
    requires IsRun(fs, o, es) && n < |fs|
    ensures Traced(fs[n]) && Counted(fs[n], o, i, TallyOf(fs, es, n, i))
    decreases n
  {
    if n > 0 {
      RunCounts(fs, o, es, n - 1, i);
      CountsNext(fs, o, es, n - 1, i);
    }
  }

  /** In every run an Interest asked for with nRetries is given up if and only if nRetries is not negative and
      exactly nRetries + 1 of its copies have timed out; and it fails if and only if one more of its
      validations has failed than may be retried. */
  lemma EndsExactly(fs: seq<FetchState>, o: Options, es: seq<Event>, n: nat, i: nat)
    requires IsRun(fs, o, es) && n < |fs| && i in fs[n].asked
    ensures Abandoned(fs[n].done, i) <==> fs[n].asked[i] >= 0 && TallyOf(fs, es, n, i).timeouts == fs[n].asked[i] + 1
    ensures i in fs[n].failed <==> TallyOf(fs, es, n, i).refusals == Max(0, o.onValidationFail) + 1
  {
    RunCounts(fs, o, es, n, i);
  }

  lemma AgainAt(fs: seq<FetchState>, o: Options, es: seq<Event>, n: nat, i: nat)
    requires IsRun(fs, o, es) && n < |es| && TimesOut(fs[n], es[n], i)
    ensures i in fs[n].asked
    ensures fs[n].asked[i] < 0 || TallyOf(fs, es, n, i).timeouts < fs[n].asked[i] ==>
            Live(fs[n + 1], i) && fs[n + 1].done == fs[n].done
  {
    RunConsistent(fs, o, es, n);
    RunCounts(fs, o, es, n, i);
    assert RunAt(fs, o, es, n);
    TimeoutTries(fs[n], o, es[n].id, i, TallyOf(fs, es, n, i));
  }

  /** A timeout that leaves tries leads to another copy, and to no callback. */
  lemma TriesAgain(fs: seq<FetchState>, o: Options, es: seq<Event>, n: nat, i: nat)
    requires IsRun(fs, o, es) && n < |es| && TimesOut(fs[n], es[n], i)
    ensures i in fs[n].asked
    ensures fs[n].asked[i] < 0 || TallyOf(fs, es, n, i).timeouts < fs[n].asked[i] ==>
            !NotLive(fs[n + 1], i) && fs[n + 1].done == fs[n].done
  {
    AgainAt(fs, o, es, n, i);
    if Live(fs[n + 1], i) { StillSomewhere(fs, o, es, n + 1, i); }
  }

  lemma TimeoutTries(f: FetchState, o: Options, id: nat, i: nat, c: Tally)
    requires Consistent(f, o) && Traced(f) && TimesOut(f, Timeout(id), i) && Counted(f, o, i, c)
    ensures i in f.asked
    ensures f.asked[i] < 0 || c.timeouts < f.asked[i] ==> Live(OnTimeout(f, id), i) && OnTimeout(f, id).done == f.done
  {
    PendingCounts(f, o, id, c);
    if f.pending[id].nRetries != 0 { TriedAgain(f, o, id); }
  }

  lemma PendingCounts(f: FetchState, o: Options, id: nat, c: Tally)
    requires Consistent(f, o) && Traced(f) && id in f.pending && Counted(f, o, f.pending[id].interest, c)
    ensures f.pending[id].interest in f.asked
    ensures f.asked[f.pending[id].interest] == f.pending[id].nRetries + c.timeouts
  {
    UnpendedOut(f, o, id);
    HeldCounts(f, o, id, f.pending[id], c);
  }

  lemma StillSomewhere(fs: seq<FetchState>, o: Options, es: seq<Event>, n: nat, i: nat)
    requires IsRun(fs, o, es) && n < |fs| && Live(fs[n], i)
    ensures !NotLive(fs[n], i)
  {
    RunConsistent(fs, o, es, n);
    RunTracked(fs, o, es, n);
    LiveIffSomewhere(fs[n], o, i);
  }

  lemma TriedAgain(f: FetchState, o: Options, id: nat)
    requires Consistent(f, o) && Traced(f) && id in f.pending && f.pending[id].nRetries != 0
    ensures Live(OnTimeout(f, id), f.pending[id].interest) && OnTimeout(f, id).done == f.done
  {
    var r, g := f.pending[id], Unpend(f, id);
    var r' := r.(nRetries := r.nRetries - 1);
    UnpendedOut(f, o, id);
    WithoutTraced(f, g, id);
    PushLife(g, r', r.interest);
    PushNumbered(g, r');
    ProcessLife(Push(g, r'));
    assert LiveId(Again(g, r'), g.counter + 1) <==> LiveId(Push(g, r'), g.counter + 1);
  }

  /** A validation that fails while retries are left leads to another copy once the retry is due. */
  lemma ValidatesAgain(fs: seq<FetchState>, o: Options, es: seq<Event>, n: nat, i: nat)
    requires IsRun(fs, o, es) && n < |es| && Refuses(fs[n], es[n], i)
    ensures i in fs[n].asked
    ensures TallyOf(fs, es, n, i).refusals < o.onValidationFail ==>
            es[n].id in fs[n + 1].awaiting && fs[n + 1].awaiting[es[n].id].interest == i && fs[n + 1].done == fs[n].done
  {
    var id := es[n].id;
    RunConsistent(fs, o, es, n);
    RunCounts(fs, o, es, n, i);
    assert RunAt(fs, o, es, n);
    ValidatedLife(fs[n], o, id);
    NotWaiting(fs[n], o, id);
    HeldCounts(fs[n], o, id, fs[n].validating[id], TallyOf(fs, es, n, i));
  }

  // ---- Which callback ----

  /** The callback an event leads to, if any. */
  function CallOf(f: FetchState, o: Options, e: Event): seq<Completion>
    requires Enabled(f, e)
  {
    match e
    case Data(id) => if o.validator then [] else [Completion(f.pending[id].interest, Satisfied)]
    case Nack(id) => [Completion(f.pending[id].interest, Nacked)]
    case Timeout(id) => if f.pending[id].nRetries == 0 then [Completion(f.pending[id].interest, GivenUp)] else []
    case Valid(id) => [Completion(f.validating[id].interest, Satisfied)]
    case _ => []
  }

  lemma DataCalls(f: FetchState, o: Options, id: nat)
    requires id in f.pending
    ensures OnData(f, id, o.validator).done == f.done + CallOf(f, o, Data(id))
    ensures o.validator ==>
              id in OnData(f, id, true).validating && OnData(f, id, true).validating[id] == f.pending[id]
  {
    ProcessHistory(Unpend(f, id));
  }

  lemma TimeoutCalls(f: FetchState, o: Options, id: nat)
    requires id in f.pending
    ensures OnTimeout(f, id).done == f.done + CallOf(f, o, Timeout(id))
  {
    if f.pending[id].nRetries == 0 {
      ProcessHistory(Unpend(f, id));
    } else {
      AgainHistory(Unpend(f, id), f.pending[id].(nRetries := f.pending[id].nRetries - 1));
    }
  }

  lemma RetryCalls(f: FetchState, id: nat)
    requires id in f.awaiting
    ensures OnRetry(f, id).done == f.done
  {
    var r := f.awaiting[id];
    AgainHistory(f.(awaiting := f.awaiting - {id}), r.(nRetriesOnValidationFail := r.nRetriesOnValidationFail - 1));
  }

  /** An event calls back once or not at all, and data goes to the validator if there is one. */
  lemma StepCalls(f: FetchState, o: Options, e: Event)
    requires Enabled(f, e)
    ensures Step(f, o, e).done == f.done + CallOf(f, o, e)
    ensures e.Data? && o.validator ==>
              e.id in Step(f, o, e).validating && Step(f, o, e).validating[e.id] == f.pending[e.id]
  {
    match e {
      case Asked(nRetries) => ProcessHistory(Join(f, nRetries, o.onValidationFail));
      case Data(id) => DataCalls(f, o, id);
      case Nack(id) => ProcessHistory(Unpend(f, id));
      case Timeout(id) => TimeoutCalls(f, o, id);
      case Retry(id) => RetryCalls(f, id);
      case _ =>
    }
  }

  /** What an Interest was asked for has arrived: data that was valid, or any data if nobody validates. */
  predicate Satisfies(f: FetchState, o: Options, e: Event, i: nat) {
    (e.Valid? && e.id in f.validating && f.validating[e.id].interest == i)
    || (e.Data? && !o.validator && e.id in f.pending && f.pending[e.id].interest == i)
  }

  predicate Nacks(f: FetchState, e: Event, i: nat) {
    e.Nack? && e.id in f.pending && f.pending[e.id].interest == i
  }

  lemma CallIs(f: FetchState, o: Options, e: Event, i: nat)
    requires Enabled(f, e)
    ensures CalledWith(CallOf(f, o, e), Completion(i, Satisfied)) <==> Satisfies(f, o, e, i)
    ensures CalledWith(CallOf(f, o, e), Completion(i, Nacked)) <==> Nacks(f, e, i)
  {
    var calls := CallOf(f, o, e);
    if calls != [] { assert calls == [calls[0]]; }
  }

  ghost predicate SatisfiedBefore(fs: seq<FetchState>, o: Options, es: seq<Event>, n: nat, i: nat)
    requires n <= |fs| && n <= |es|
  {
    exists m :: 0 <= m < n && Satisfies(fs[m], o, es[m], i)
  }

  ghost predicate NackedBefore(fs: seq<FetchState>, es: seq<Event>, n: nat, i: nat)
    requires n <= |fs| && n <= |es|
  {
    exists m :: 0 <= m < n && Nacks(fs[m], es[m], i)
  }

  lemma CallsNext(fs: seq<FetchState>, o: Options, es: seq<Event>, n: nat, i: nat)
    requires IsRun(fs, o, es) && n < |es|
    ensures CalledWith(fs[n + 1].done, Completion(i, Satisfied)) <==>
            CalledWith(fs[n].done, Completion(i, Satisfied)) || Satisfies(fs[n], o, es[n], i)
    ensures CalledWith(fs[n + 1].done, Completion(i, Nacked)) <==>
            CalledWith(fs[n].done, Completion(i, Nacked)) || Nacks(fs[n], es[n], i)
  {
    assert RunAt(fs, o, es, n);
    StepCalls(fs[n], o, es[n]);
    CallIs(fs[n], o, es[n], i);
    CalledMore(fs[n].done, CallOf(fs[n], o, es[n]), Completion(i, Satisfied));
    CalledMore(fs[n].done, CallOf(fs[n], o, es[n]), Completion(i, Nacked));
  }

  /** In every run the application is told of an Interest that it is satisfied if and only if its data has come
      and, if there is a validator, turned out valid; and that it is nacked if and only if it was. */
  lemma {:induction false} ToldExactly(fs: seq<FetchState>, o: Options, es: seq<Event>, n: nat, i: nat)
    requires IsRun(fs, o, es) && n < |fs|
    ensures CalledWith(fs[n].done, Completion(i, Satisfied)) <==> SatisfiedBefore(fs, o, es, n, i)
    ensures CalledWith(fs[n].done, Completion(i, Nacked)) <==> NackedBefore(fs, es, n, i)
    decreases n
  {
    if n > 0 {
      ToldExactly(fs, o, es, n - 1, i);
      CallsNext(fs, o, es, n - 1, i);
      OneMoreStep(fs, o, es, n, i);
    }
  }

  lemma OneMoreStep(fs: seq<FetchState>, o: Options, es: seq<Event>, n: nat, i: nat)
    requires 0 < n <= |fs| && n <= |es|
    ensures SatisfiedBefore(fs, o, es, n, i) <==>
            SatisfiedBefore(fs, o, es, n - 1, i) || Satisfies(fs[n - 1], o, es[n - 1], i)
    ensures NackedBefore(fs, es, n, i) <==> NackedBefore(fs, es, n - 1, i) || Nacks(fs[n - 1], es[n - 1], i)
  {
  }
}
