/** fetcher.cpp: Interests wait in a queue, at most ten are under way, and some are tried again. */
module Fetching {
  import opened Collections
  import opened Numbers

  const WINDOW: nat := 10

  /** A queued Interest. Copies of one Interest, made to try it again, share `interest`, which is the
      number its first copy was queued under. */
  datatype Request = Request(id: nat, interest: nat, nRetries: int, nRetriesOnValidationFail: int)

  /** The callbacks that tell the application how an Interest ended: afterSatisfied, afterNacked,
      afterTimeout, afterValidationFailed. */
  datatype Outcome = Satisfied | Nacked | GivenUp | Rejected

  datatype Completion = Completion(interest: nat, outcome: Outcome)

  /** The fetcher: besides the fields of the program, the requests that callbacks hold while data is
      validated or a retry is scheduled, and a history of what was sent, what was asked for, which copy
      of an Interest is the latest, which callbacks were called, and which Interests failed for good to
      be validated. */
  datatype FetchState = FetchState(
    counter: nat,
    queue: seq<Request>,
    pending: map<nat, Request>,
    validating: map<nat, Request>,
    awaiting: map<nat, Request>,
    sent: seq<Request>,
    asked: map<nat, int>,
    latest: map<nat, nat>,
    done: seq<Completion>,
    failed: set<nat>)
  {
    function Called(r: Request, outcome: Outcome): FetchState {
      this.(done := done + [Completion(r.interest, outcome)])
    }
  }

  const NEW := FetchState(0, [], map[], map[], map[], [], map[], map[], [], {})

  // ---- Steps ----

  /** One turn of processQueue. */
  function Dispatch(f: FetchState): FetchState
    requires f.queue != []
  {
    var r := f.queue[0];
    f.(queue := f.queue[1..], pending := f.pending[r.id := r], sent := f.sent + [r])
  }

  function Process(f: FetchState): FetchState
    decreases |f.queue|
  {
    if f.queue != [] && |f.pending| < WINDOW then Process(Dispatch(f)) else f
  }

  /** Put a copy with a fresh id at the end of the queue. */
  function Push(f: FetchState, r: Request): FetchState {
    var id := f.counter + 1;
    f.(counter := id, queue := f.queue + [r.(id := id)], latest := f.latest[r.interest := id])
  }

  /** A new Interest joins the queue. */
  function Join(f: FetchState, nRetries: int, onValidationFail: int): FetchState {
    var id := f.counter + 1;
    Push(f.(asked := f.asked[id := nRetries]), Request(id, id, nRetries, onValidationFail))
  }

  /** expressInterest for a new Interest. */
  function Express(f: FetchState, nRetries: int, onValidationFail: int): FetchState {
    Process(Join(f, nRetries, onValidationFail))
  }

  /** expressInterest for another try. */
  function Again(f: FetchState, r: Request): FetchState {
    Process(Push(f, r))
  }

  function Unpend(f: FetchState, id: nat): FetchState {
    f.(pending := f.pending - {id})
  }

  function OnData(f: FetchState, id: nat, validator: bool): FetchState
    requires id in f.pending
  {
    var g := Process(Unpend(f, id));
    if validator then g.(validating := g.validating[id := f.pending[id]]) else g.Called(f.pending[id], Satisfied)
  }

  function OnNack(f: FetchState, id: nat): FetchState
    requires id in f.pending
  {
    Process(Unpend(f, id)).Called(f.pending[id], Nacked)
  }

  function OnTimeout(f: FetchState, id: nat): FetchState
    requires id in f.pending
  {
    var r := f.pending[id];
    if r.nRetries == 0 then Process(Unpend(f, id)).Called(r, GivenUp)
    else Again(Unpend(f, id), r.(nRetries := r.nRetries - 1))
  }

  function OnValidated(f: FetchState, id: nat): FetchState
    requires id in f.validating
  {
    f.(validating := f.validating - {id}).Called(f.validating[id], Satisfied)
  }

  /** Without retries left the program returns before it would call afterValidationFailed. */
  function OnValidationFailed(f: FetchState, id: nat): FetchState
    requires id in f.validating
  {
    var r := f.validating[id];
    var g := f.(validating := f.validating - {id});
    if r.nRetriesOnValidationFail > 0 then g.(awaiting := g.awaiting[id := r])
    else g.(failed := g.failed + {r.interest})
  }

  function OnRetry(f: FetchState, id: nat): FetchState
    requires id in f.awaiting
  {
    var r := f.awaiting[id];
    Again(f.(awaiting := f.awaiting - {id}), r.(nRetriesOnValidationFail := r.nRetriesOnValidationFail - 1))
  }

  datatype Event =
    | Asked(nRetries: int)
    | Data(id: nat)
    | Nack(id: nat)
    | Timeout(id: nat)
    | Valid(id: nat)
    | Invalid(id: nat)
    | Retry(id: nat)

  /** The security options of a fetcher. */
  datatype Options = Options(validator: bool, onValidationFail: int)

  predicate Enabled(f: FetchState, e: Event) {
    match e
    case Asked(_) => true
    case Data(id) => id in f.pending
    case Nack(id) => id in f.pending
    case Timeout(id) => id in f.pending
    case Valid(id) => id in f.validating
    case Invalid(id) => id in f.validating
    case Retry(id) => id in f.awaiting
  }

  function Step(f: FetchState, o: Options, e: Event): FetchState
    requires Enabled(f, e)
  {
    match e
    case Asked(nRetries) => Express(f, nRetries, o.onValidationFail)
    case Data(id) => OnData(f, id, o.validator)
    case Nack(id) => OnNack(f, id)
    case Timeout(id) => OnTimeout(f, id)
    case Valid(id) => OnValidated(f, id)
    case Invalid(id) => OnValidationFailed(f, id)
    case Retry(id) => OnRetry(f, id)
  }

  // ---- The invariant ----

  /** Dispatch is first in, first out: numbers are given out in order, and what has been sent and
      what is queued are, in this order, the numbers from one up to the counter. */
  ghost predicate Numbered(f: FetchState) {
    && |f.sent| + |f.queue| == f.counter
    && (forall i | 0 <= i < |f.sent| :: f.sent[i].id == i + 1)
    && (forall i | 0 <= i < |f.queue| :: f.queue[i].id == |f.sent| + i + 1)
  }

  /** A request waiting in one of the maps has been sent, and is there under its own id. */
  ghost predicate Held(f: FetchState, m: map<nat, Request>) {
    forall id | id in m :: 1 <= id <= |f.sent| && m[id] == f.sent[id - 1]
  }

  /** Every request is in at most one place. */
  ghost predicate Placed(f: FetchState) {
    && Held(f, f.pending) && Held(f, f.validating) && Held(f, f.awaiting)
    && f.pending.Keys !! f.validating.Keys && f.pending.Keys !! f.awaiting.Keys && f.validating.Keys !! f.awaiting.Keys
  }

  function Count(sent: seq<Request>, interest: nat): nat {
    if sent == [] then 0
    else Count(sent[..|sent| - 1], interest) + if sent[|sent| - 1].interest == interest then 1 else 0
  }

  /** How often an Interest may be sent in all. */
  function Allowance(o: Options, nRetries: int): int {
    1 + nRetries + Max(0, o.onValidationFail)
  }

  function Remaining(r: Request): int {
    r.nRetries + Max(0, r.nRetriesOnValidationFail)
  }

  /** A live request is the latest copy of its Interest, and what it may still be sent, after the
      times its Interest was sent and those due, stays within the allowance. */
  ghost predicate Budgeted(f: FetchState, o: Options, r: Request, due: nat) {
    && r.interest in f.latest && f.latest[r.interest] == r.id
    && r.interest in f.asked
    && (f.asked[r.interest] >= 0 ==>
          r.nRetries >= 0 && Count(f.sent, r.interest) + due + Remaining(r) <= Allowance(o, f.asked[r.interest]))
  }

  ghost predicate QueueBudgeted(f: FetchState, o: Options) {
    forall i | 0 <= i < |f.queue| :: Budgeted(f, o, f.queue[i], 1)
  }

  ghost predicate MapBudgeted(f: FetchState, o: Options, m: map<nat, Request>) {
    forall id | id in m :: Budgeted(f, o, m[id], 0)
  }

  /** No Interest with a number of retries was sent more often than allowed. */
  ghost predicate WithinAllowance(f: FetchState, o: Options) {
    forall i | i in f.asked && f.asked[i] >= 0 :: Count(f.sent, i) <= Allowance(o, f.asked[i])
  }

  ghost predicate Historied(f: FetchState) {
    && (forall i | i in f.latest :: i <= f.counter)
    && (forall k | 0 <= k < |f.sent| :: f.sent[k].interest in f.latest)
  }

  ghost predicate Accounted(f: FetchState, o: Options) {
    && QueueBudgeted(f, o) && MapBudgeted(f, o, f.pending) && MapBudgeted(f, o, f.validating) &&
       MapBudgeted(f, o, f.awaiting)
    && WithinAllowance(f, o) && Historied(f)
  }

  /** Only requests that may be tried again after a failed validation wait for it. */
  ghost predicate Retryable(f: FetchState) {
    forall id | id in f.awaiting :: f.awaiting[id].nRetriesOnValidationFail > 0
  }

  /** Between events nothing waits while the window has room. */
  predicate WindowUsed(f: FetchState) {
    |f.pending| <= WINDOW && (f.queue != [] ==> |f.pending| == WINDOW)
  }

  /** What the invariant has to say. */
  datatype Clause = Numbering | Placing | Accounting | Retrying | Windowing

  ghost predicate Holds(f: FetchState, o: Options, c: Clause) {
    match c
    case Numbering => Numbered(f)
    case Placing => Placed(f)
    case Accounting => Accounted(f, o)
    case Retrying => Retryable(f)
    case Windowing => |f.pending| <= WINDOW
  }

  ghost predicate Consistent(f: FetchState, o: Options) {
    forall c: Clause :: Holds(f, o, c)
  }

  lemma Clauses(f: FetchState, o: Options)
    requires Consistent(f, o)
    ensures Numbered(f) && Placed(f) && Accounted(f, o) && Retryable(f) && |f.pending| <= WINDOW
  {
    assert Holds(f, o, Numbering) && Holds(f, o, Placing) && Holds(f, o, Accounting);
    assert Holds(f, o, Retrying) && Holds(f, o, Windowing);
  }

  lemma AllClauses(f: FetchState, o: Options)
    requires Numbered(f) && Placed(f) && Accounted(f, o) && Retryable(f) && |f.pending| <= WINDOW
    ensures Consistent(f, o)
  {
  }

  lemma NewIsConsistent(o: Options)
    ensures Consistent(NEW, o) && WindowUsed(NEW)
  {
    AllClauses(NEW, o);
  }

  /** Callbacks and failures change nothing that the invariant speaks of. */
  lemma HistoryIrrelevant(f: FetchState, g: FetchState, o: Options)
    requires Consistent(f, o) && g == f.(done := g.done, failed := g.failed)
    ensures Consistent(g, o)
  {
    Clauses(f, o);
    SameAccounts(f, g, o);
    AllClauses(g, o);
  }

  lemma SameAccounts(f: FetchState, g: FetchState, o: Options)
    requires Accounted(f, o) && g == f.(done := g.done, failed := g.failed)
    ensures Accounted(g, o)
  {
    forall i | 0 <= i < |g.queue| ensures Budgeted(g, o, g.queue[i], 1) { assert Budgeted(f, o, f.queue[i], 1); }
    SameMapBudgets(f, g, o, f.pending);
    SameMapBudgets(f, g, o, f.validating);
    SameMapBudgets(f, g, o, f.awaiting);
  }

  lemma SameMapBudgets(f: FetchState, g: FetchState, o: Options, m: map<nat, Request>)
    requires MapBudgeted(f, o, m) && g.sent == f.sent && g.asked == f.asked && g.latest == f.latest
    ensures MapBudgeted(g, o, m)
  {
    forall id | id in m ensures Budgeted(g, o, m[id], 0) { assert Budgeted(f, o, m[id], 0); }
  }

  // ---- Sending ----

  lemma CountOne(sent: seq<Request>, r: Request, interest: nat)
    ensures Count(sent + [r], interest) == Count(sent, interest) + if r.interest == interest then 1 else 0
  {
    assert (sent + [r])[..|sent|] == sent;
  }

  lemma DispatchNumbers(f: FetchState)
    requires f.queue != [] && Numbered(f) && Placed(f)
    ensures Numbered(Dispatch(f)) && Placed(Dispatch(f))
  {
    DispatchNumbered(f);
  }

  /** Sending one request leaves the others' accounts alone. */
  lemma OthersBudgeted(f: FetchState, o: Options, r: Request, due: nat)
    requires f.queue != [] && Budgeted(f, o, r, due) && Budgeted(f, o, f.queue[0], 1) && r.id != f.queue[0].id
    ensures Budgeted(Dispatch(f), o, r, due)
  {
    CountOne(f.sent, f.queue[0], r.interest);
  }

  lemma DispatchedBudgeted(f: FetchState, o: Options)
    requires f.queue != [] && Budgeted(f, o, f.queue[0], 1)
    ensures Budgeted(Dispatch(f), o, f.queue[0], 0)
  {
    CountOne(f.sent, f.queue[0], f.queue[0].interest);
  }

  lemma DispatchMaps(f: FetchState, o: Options, m: map<nat, Request>)
    requires f.queue != [] && Numbered(f) && Held(f, m) && MapBudgeted(f, o, m) && Budgeted(f, o, f.queue[0], 1)
    ensures MapBudgeted(Dispatch(f), o, m)
  {
    forall id | id in m ensures Budgeted(Dispatch(f), o, m[id], 0) { OthersBudgeted(f, o, m[id], 0); }
  }

  lemma DispatchQueue(f: FetchState, o: Options)
    requires f.queue != [] && Numbered(f) && QueueBudgeted(f, o)
    ensures QueueBudgeted(Dispatch(f), o)
  {
    var g := Dispatch(f);
    forall i | 0 <= i < |g.queue| ensures Budgeted(g, o, g.queue[i], 1) {
      assert g.queue[i] == f.queue[i + 1];
      OthersBudgeted(f, o, f.queue[i + 1], 1);
    }
  }

  lemma DispatchHistory(f: FetchState, o: Options)
    requires f.queue != [] && Budgeted(f, o, f.queue[0], 1) && WithinAllowance(f, o) && Historied(f)
    ensures WithinAllowance(Dispatch(f), o) && Historied(Dispatch(f))
  {
    var g := Dispatch(f);
    forall i | i in g.asked && g.asked[i] >= 0 ensures Count(g.sent, i) <= Allowance(o, g.asked[i]) {
      CountOne(f.sent, f.queue[0], i);
    }
  }

  lemma DispatchPending(f: FetchState, o: Options)
    requires f.queue != [] && Numbered(f) && Held(f, f.pending) && MapBudgeted(f, o, f.pending) &&
             Budgeted(f, o, f.queue[0], 1)
    ensures MapBudgeted(Dispatch(f), o, Dispatch(f).pending)
  {
    DispatchMaps(f, o, f.pending);
    DispatchedBudgeted(f, o);
  }

  lemma DispatchConsistent(f: FetchState, o: Options)
    requires Consistent(f, o) && f.queue != [] && |f.pending| < WINDOW
    ensures Consistent(Dispatch(f), o)
  {
    Clauses(f, o);
    DispatchNumbers(f);
    DispatchAccounts(f, o);
    AllClauses(Dispatch(f), o);
  }

  lemma DispatchAccounts(f: FetchState, o: Options)
    requires f.queue != [] && Numbered(f) && Placed(f) && Accounted(f, o)
    ensures Accounted(Dispatch(f), o)
  {
    DispatchQueue(f, o);
    DispatchPending(f, o);
    DispatchMaps(f, o, f.validating);
    DispatchMaps(f, o, f.awaiting);
    DispatchHistory(f, o);
  }

  lemma {:induction false} ProcessConsistent(f: FetchState, o: Options)
    requires Consistent(f, o)
    ensures Consistent(Process(f), o) && WindowUsed(Process(f))
    decreases |f.queue|
  {
    Clauses(f, o);
    if f.queue != [] && |f.pending| < WINDOW {
      DispatchConsistent(f, o);
      ProcessConsistent(Dispatch(f), o);
    }
  }

  // ---- Queueing ----

  /** No live request is a copy of this Interest. */
  ghost predicate NotLive(f: FetchState, interest: nat) {
    && (forall i | 0 <= i < |f.queue| :: f.queue[i].interest != interest)
    && (forall id | id in f.pending :: f.pending[id].interest != interest)
    && (forall id | id in f.validating :: f.validating[id].interest != interest)
    && (forall id | id in f.awaiting :: f.awaiting[id].interest != interest)
  }

  /** One more sending of this request stays within its allowance. */
  ghost predicate Affordable(f: FetchState, o: Options, r: Request) {
    && r.interest in f.asked
    && (f.asked[r.interest] >= 0 ==>
          r.nRetries >= 0 && Count(f.sent, r.interest) + 1 + Remaining(r) <= Allowance(o, f.asked[r.interest]))
  }

  lemma PushConsistent(f: FetchState, o: Options, r: Request)
    requires Consistent(f, o) && NotLive(f, r.interest) && Affordable(f, o, r) && r.interest <= f.counter + 1
    ensures Consistent(Push(f, r), o)
  {
    Clauses(f, o);
    PushAccounts(f, o, r);
    AllClauses(Push(f, r), o);
  }

  lemma PushAccounts(f: FetchState, o: Options, r: Request)
    requires Numbered(f) && Accounted(f, o) && NotLive(f, r.interest) && Affordable(f, o, r)
    requires r.interest <= f.counter + 1
    ensures Numbered(Push(f, r)) && Accounted(Push(f, r), o)
  {
    PushQueue(f, o, r);
    PushMap(f, o, r, f.pending);
    PushMap(f, o, r, f.validating);
    PushMap(f, o, r, f.awaiting);
  }

  lemma PushQueue(f: FetchState, o: Options, r: Request)
    requires Numbered(f) && QueueBudgeted(f, o) && NotLive(f, r.interest) && Affordable(f, o, r)
    ensures Numbered(Push(f, r)) && QueueBudgeted(Push(f, r), o)
  {
    var g := Push(f, r);
    forall i | 0 <= i < |g.queue| ensures g.queue[i].id == |g.sent| + i + 1 && Budgeted(g, o, g.queue[i], 1) {
      if i < |f.queue| { assert g.queue[i] == f.queue[i] && Budgeted(f, o, f.queue[i], 1); }
    }
  }

  lemma PushMap(f: FetchState, o: Options, r: Request, m: map<nat, Request>)
    requires MapBudgeted(f, o, m) && forall id | id in m :: m[id].interest != r.interest
    ensures MapBudgeted(Push(f, r), o, m)
  {
    forall id | id in m ensures Budgeted(Push(f, r), o, m[id], 0) { assert Budgeted(f, o, m[id], 0); }
  }

  lemma {:induction false} NeverSent(sent: seq<Request>, interest: nat)
    requires forall k | 0 <= k < |sent| :: sent[k].interest != interest
    ensures Count(sent, interest) == 0
  {
    if sent != [] { NeverSent(sent[..|sent| - 1], interest); }
  }

  lemma NewAffordable(f: FetchState, o: Options, id: nat)
    requires id in f.asked && Count(f.sent, id) == 0
    ensures Affordable(f, o, Request(id, id, f.asked[id], o.onValidationFail))
  {
  }

  lemma JoinConsistent(f: FetchState, o: Options, nRetries: int)
    requires Consistent(f, o)
    ensures Consistent(Join(f, nRetries, o.onValidationFail), o)
  {
    var id := f.counter + 1;
    var g := f.(asked := f.asked[id := nRetries]);
    NewInterest(f, g, o, id);
    NewAffordable(g, o, id);
    PushConsistent(g, o, Request(id, id, nRetries, o.onValidationFail));
  }

  lemma AskedConsistent(f: FetchState, o: Options, nRetries: int)
    requires Consistent(f, o)
    ensures Consistent(Express(f, nRetries, o.onValidationFail), o) &&
            WindowUsed(Express(f, nRetries, o.onValidationFail))
  {
    JoinConsistent(f, o, nRetries);
    ProcessConsistent(Join(f, nRetries, o.onValidationFail), o);
  }

  /** A number not given out yet has not been sent under, and can be asked for. */
  lemma NewInterest(f: FetchState, g: FetchState, o: Options, id: nat)
    requires Consistent(f, o) && id == f.counter + 1 && g == f.(asked := g.asked)
    requires g.asked.Keys == f.asked.Keys + {id} && forall i | i in f.asked && i != id :: g.asked[i] == f.asked[i]
    ensures NotLive(g, id) && Count(g.sent, id) == 0 && Consistent(g, o)
  {
    Clauses(f, o);
    NewNumber(f, o);
    AskedAccounts(f, g, o, id);
    AskedPlaces(f, g);
    AllClauses(g, o);
  }

  lemma AskedPlaces(f: FetchState, g: FetchState)
    requires Numbered(f) && Placed(f) && Retryable(f) && g == f.(asked := g.asked)
    ensures Numbered(g) && Placed(g) && Retryable(g)
  {
  }

  lemma NewNumber(f: FetchState, o: Options)
    requires Accounted(f, o)
    ensures f.counter + 1 !in f.latest && Count(f.sent, f.counter + 1) == 0 && NotLive(f, f.counter + 1)
  {
    NeverSent(f.sent, f.counter + 1);
    UnknownNotLive(f, o, f.counter + 1);
  }

  lemma AskedAccounts(f: FetchState, g: FetchState, o: Options, id: nat)
    requires Accounted(f, o) && g == f.(asked := g.asked) && id !in f.latest && Count(f.sent, id) == 0
    requires g.asked.Keys == f.asked.Keys + {id} && forall i | i in f.asked && i != id :: g.asked[i] == f.asked[i]
    ensures Accounted(g, o)
  {
    SameBudgets(f, g, o, f.pending);
    SameBudgets(f, g, o, f.validating);
    SameBudgets(f, g, o, f.awaiting);
    SameQueueBudgets(f, g, o);
  }

  lemma MapInterests(f: FetchState, o: Options, m: map<nat, Request>, interest: nat)
    requires MapBudgeted(f, o, m) && interest !in f.latest
    ensures forall id | id in m :: m[id].interest != interest
  {
    forall id | id in m ensures m[id].interest != interest { assert Budgeted(f, o, m[id], 0); }
  }

  lemma UnknownNotLive(f: FetchState, o: Options, interest: nat)
    requires Accounted(f, o) && interest !in f.latest
    ensures NotLive(f, interest)
  {
    MapInterests(f, o, f.pending, interest);
    MapInterests(f, o, f.validating, interest);
    MapInterests(f, o, f.awaiting, interest);
    forall i | 0 <= i < |f.queue| ensures f.queue[i].interest != interest { assert Budgeted(f, o, f.queue[i], 1); }
  }

  lemma SameBudgets(f: FetchState, g: FetchState, o: Options, m: map<nat, Request>)
    requires MapBudgeted(f, o, m) && g == f.(asked := g.asked)
    requires forall i | i in f.latest && i in f.asked :: i in g.asked && g.asked[i] == f.asked[i]
    ensures MapBudgeted(g, o, m)
  {
    forall id | id in m ensures Budgeted(g, o, m[id], 0) { assert Budgeted(f, o, m[id], 0); }
  }

  lemma SameQueueBudgets(f: FetchState, g: FetchState, o: Options)
    requires QueueBudgeted(f, o) && g == f.(asked := g.asked)
    requires forall i | i in f.latest && i in f.asked :: i in g.asked && g.asked[i] == f.asked[i]
    ensures QueueBudgeted(g, o)
  {
    forall i | 0 <= i < |g.queue| ensures Budgeted(g, o, g.queue[i], 1) { assert Budgeted(f, o, f.queue[i], 1); }
  }

  // ---- Taking a request out of its place ----

  /** The same fetcher with fewer requests held. */
  ghost predicate Fewer(f: FetchState, g: FetchState) {
    && g == f.(pending := g.pending, validating := g.validating, awaiting := g.awaiting,
               done := g.done, failed := g.failed)
    && SubMap(g.pending, f.pending) && SubMap(g.validating, f.validating) && SubMap(g.awaiting, f.awaiting)
  }

  ghost predicate SubMap(m: map<nat, Request>, n: map<nat, Request>) {
    forall id | id in m :: id in n && m[id] == n[id]
  }

  lemma SubMapBudgeted(f: FetchState, g: FetchState, o: Options, m: map<nat, Request>, n: map<nat, Request>)
    requires MapBudgeted(f, o, n) && SubMap(m, n) && g.sent == f.sent && g.asked == f.asked && g.latest == f.latest
    ensures MapBudgeted(g, o, m)
  {
    forall id | id in m ensures Budgeted(g, o, m[id], 0) { assert Budgeted(f, o, n[id], 0); }
  }

  lemma FewerConsistent(f: FetchState, g: FetchState, o: Options)
    requires Consistent(f, o) && Fewer(f, g)
    ensures Consistent(g, o)
  {
    Clauses(f, o);
    FewerAccounts(f, g, o);
    SubsetSize(g.pending.Keys, f.pending.Keys);
    AllClauses(g, o);
  }

  lemma FewerAccounts(f: FetchState, g: FetchState, o: Options)
    requires Accounted(f, o) && Fewer(f, g)
    ensures Accounted(g, o)
  {
    SubMapBudgeted(f, g, o, g.pending, f.pending);
    SubMapBudgeted(f, g, o, g.validating, f.validating);
    SubMapBudgeted(f, g, o, g.awaiting, f.awaiting);
    forall i | 0 <= i < |g.queue| ensures Budgeted(g, o, g.queue[i], 1) { assert Budgeted(f, o, f.queue[i], 1); }
  }

  /** The request with this id is nowhere any more. */
  predicate Gone(f: FetchState, id: nat) {
    id !in f.pending && id !in f.validating && id !in f.awaiting && 1 <= id <= |f.sent|
  }

  lemma MapNotLive(f: FetchState, o: Options, m: map<nat, Request>, id: nat, interest: nat)
    requires MapBudgeted(f, o, m) && Held(f, m) && Numbered(f) && id !in m && interest in f.latest &&
             f.latest[interest] == id
    ensures forall k | k in m :: m[k].interest != interest
  {
    forall k | k in m ensures m[k].interest != interest { assert Budgeted(f, o, m[k], 0); }
  }

  /** Then its Interest has no live copy. */
  lemma GoneNotLive(f: FetchState, o: Options, id: nat, interest: nat)
    requires Consistent(f, o) && Gone(f, id) && interest in f.latest && f.latest[interest] == id
    ensures NotLive(f, interest)
  {
    Clauses(f, o);
    forall i | 0 <= i < |f.queue| ensures f.queue[i].interest != interest { assert Budgeted(f, o, f.queue[i], 1); }
    MapNotLive(f, o, f.pending, id, interest);
    MapNotLive(f, o, f.validating, id, interest);
    MapNotLive(f, o, f.awaiting, id, interest);
  }

  /** A request taken out of its place can be queued again if it gives up one of its tries. */
  lemma AgainConsistent(f: FetchState, g: FetchState, o: Options, r: Request, r': Request)
    requires Consistent(f, o) && Budgeted(f, o, r, 0) && Fewer(f, g) && Gone(g, r.id)
    requires r'.interest == r.interest && Remaining(r') == Remaining(r) - 1 && (r.nRetries >= 0 ==> r'.nRetries >= 0)
    ensures Consistent(Again(g, r'), o) && WindowUsed(Again(g, r'))
  {
    FewerConsistent(f, g, o);
    GoneNotLive(g, o, r.id, r.interest);
    BoundOfInterest(f, o, r);
    PushConsistent(g, o, r');
    ProcessConsistent(Push(g, r'), o);
  }

  lemma BoundOfInterest(f: FetchState, o: Options, r: Request)
    requires Consistent(f, o) && Budgeted(f, o, r, 0)
    ensures r.interest <= f.counter
  {
    Clauses(f, o);
  }

  lemma UnpendFewer(f: FetchState, o: Options, id: nat)
    requires Consistent(f, o) && id in f.pending
    ensures Fewer(f, Unpend(f, id)) && Gone(Unpend(f, id), id)
    ensures f.pending[id].id == id && f.pending[id] == f.sent[id - 1] && Budgeted(f, o, f.pending[id], 0)
  {
    Clauses(f, o);
  }

  // ---- The events ----

  lemma TimeoutConsistent(f: FetchState, o: Options, id: nat)
    requires Consistent(f, o) && id in f.pending
    ensures Consistent(OnTimeout(f, id), o) && WindowUsed(OnTimeout(f, id))
  {
    var r := f.pending[id];
    UnpendFewer(f, o, id);
    if r.nRetries == 0 {
      FewerConsistent(f, Unpend(f, id), o);
      ProcessConsistent(Unpend(f, id), o);
      HistoryIrrelevant(Process(Unpend(f, id)), OnTimeout(f, id), o);
    } else {
      AgainConsistent(f, Unpend(f, id), o, r, r.(nRetries := r.nRetries - 1));
    }
  }

  lemma NackConsistent(f: FetchState, o: Options, id: nat)
    requires Consistent(f, o) && id in f.pending
    ensures Consistent(OnNack(f, id), o) && WindowUsed(OnNack(f, id))
  {
    UnpendFewer(f, o, id);
    FewerConsistent(f, Unpend(f, id), o);
    ProcessConsistent(Unpend(f, id), o);
    HistoryIrrelevant(Process(Unpend(f, id)), OnNack(f, id), o);
  }

  /** Processing the queue only moves requests from the queue to the window. */
  lemma {:induction false} ProcessMoves(f: FetchState)
    requires Numbered(f)
    ensures var g := Process(f);
            && g.validating == f.validating && g.awaiting == f.awaiting && g.asked == f.asked && g.latest == f.latest
            && g.counter == f.counter && g.done == f.done && g.failed == f.failed
            && |g.sent| >= |f.sent| && g.sent[..|f.sent|] == f.sent
            && forall id | id in g.pending && id !in f.pending :: id > |f.sent|
    decreases |f.queue|
  {
    if f.queue != [] && |f.pending| < WINDOW {
      DispatchNumbered(f);
      ProcessMoves(Dispatch(f));
    }
  }

  lemma DispatchNumbered(f: FetchState)
    requires f.queue != [] && Numbered(f)
    ensures Numbered(Dispatch(f))
  {
    var g := Dispatch(f);
    forall i | 0 <= i < |g.queue| ensures g.queue[i].id == |g.sent| + i + 1 { assert g.queue[i] == f.queue[i + 1]; }
  }

  /** Requests queued, in the window or dropped are not what a data packet was received for. */
  lemma {:induction false} ProcessBudget(f: FetchState, o: Options, r: Request)
    requires Consistent(f, o) && Budgeted(f, o, r, 0) && r.id <= |f.sent|
    ensures Budgeted(Process(f), o, r, 0)
    decreases |f.queue|
  {
    if f.queue != [] && |f.pending| < WINDOW {
      Clauses(f, o);
      OthersBudgeted(f, o, r, 0);
      DispatchConsistent(f, o);
      ProcessBudget(Dispatch(f), o, r);
    }
  }

  /** Requests may move between the places that hold them. */
  lemma MovedConsistent(f: FetchState, g: FetchState, o: Options)
    requires Consistent(f, o) && g == f.(validating := g.validating, awaiting := g.awaiting)
    requires Placed(g) && Retryable(g) && MapBudgeted(f, o, g.validating) && MapBudgeted(f, o, g.awaiting)
    ensures Consistent(g, o)
  {
    Clauses(f, o);
    MovedAccounts(f, g, o);
    AllClauses(g, o);
  }

  lemma MovedAccounts(f: FetchState, g: FetchState, o: Options)
    requires Accounted(f, o) && g == f.(validating := g.validating, awaiting := g.awaiting)
    requires MapBudgeted(f, o, g.validating) && MapBudgeted(f, o, g.awaiting)
    ensures Accounted(g, o)
  {
    SubMapBudgeted(f, g, o, g.pending, f.pending);
    SubMapBudgeted(f, g, o, g.validating, g.validating);
    SubMapBudgeted(f, g, o, g.awaiting, g.awaiting);
    forall i | 0 <= i < |g.queue| ensures Budgeted(g, o, g.queue[i], 1) { assert Budgeted(f, o, f.queue[i], 1); }
  }

  lemma OneMoreBudgeted(f: FetchState, o: Options, m: map<nat, Request>, id: nat, r: Request)
    requires MapBudgeted(f, o, m) && Budgeted(f, o, r, 0)
    ensures MapBudgeted(f, o, m[id := r])
  {
    var n := m[id := r];
    forall k | k in n ensures Budgeted(f, o, n[k], 0) {
      if k != id { assert Budgeted(f, o, m[k], 0); }
    }
  }

  lemma ValidatingConsistent(f: FetchState, o: Options, id: nat, r: Request)
    requires Consistent(f, o) && Gone(f, id) && r == f.sent[id - 1] && Budgeted(f, o, r, 0)
    ensures Consistent(f.(validating := f.validating[id := r]), o)
  {
    Clauses(f, o);
    OneMoreBudgeted(f, o, f.validating, id, r);
    MovedConsistent(f, f.(validating := f.validating[id := r]), o);
  }

  /** The queue is processed before a data packet goes to the validator. */
  lemma ReceivedConsistent(f: FetchState, o: Options, id: nat)
    requires Consistent(f, o) && id in f.pending
    ensures var g, r := Process(Unpend(f, id)), f.pending[id];
            && Consistent(g, o) && WindowUsed(g) && Gone(g, id) && r == g.sent[id - 1] && Budgeted(g, o, r, 0)
  {
    var r, g := f.pending[id], Unpend(f, id);
    UnpendFewer(f, o, id);
    FewerConsistent(f, g, o);
    ProcessConsistent(g, o);
    assert Budgeted(g, o, r, 0);
    ProcessBudget(g, o, r);
    Clauses(g, o);
    StillGone(g, id);
  }

  lemma StillGone(f: FetchState, id: nat)
    requires Numbered(f) && Gone(f, id)
    ensures Gone(Process(f), id) && Process(f).sent[id - 1] == f.sent[id - 1]
  {
    ProcessMoves(f);
    assert Process(f).sent[id - 1] == Process(f).sent[..|f.sent|][id - 1];
  }

  lemma DataConsistent(f: FetchState, o: Options, id: nat)
    requires Consistent(f, o) && id in f.pending
    ensures Consistent(OnData(f, id, o.validator), o) && WindowUsed(OnData(f, id, o.validator))
  {
    ReceivedConsistent(f, o, id);
    var g := Process(Unpend(f, id));
    if o.validator {
      ValidatingConsistent(g, o, id, f.pending[id]);
    } else {
      HistoryIrrelevant(g, OnData(f, id, false), o);
    }
  }

  lemma AwaitingPlaced(f: FetchState, id: nat, r: Request)
    requires Placed(f) && Retryable(f) && Gone(f, id) && r == f.sent[id - 1] && r.nRetriesOnValidationFail > 0
    ensures var g := f.(awaiting := f.awaiting[id := r]);
            Placed(g) && Retryable(g)
  {
  }

  lemma AwaitingConsistent(f: FetchState, o: Options, id: nat, r: Request)
    requires Consistent(f, o) && Gone(f, id) && r == f.sent[id - 1] && Budgeted(f, o, r, 0) &&
             r.nRetriesOnValidationFail > 0
    ensures Consistent(f.(awaiting := f.awaiting[id := r]), o)
  {
    Clauses(f, o);
    OneMoreBudgeted(f, o, f.awaiting, id, r);
    AwaitingPlaced(f, id, r);
    MovedConsistent(f, f.(awaiting := f.awaiting[id := r]), o);
  }

  lemma ValidatedGone(f: FetchState, o: Options, id: nat)
    requires Consistent(f, o) && id in f.validating
    ensures var g, r := f.(validating := f.validating - {id}), f.validating[id];
            Fewer(f, g) && Gone(g, id) && r == f.sent[id - 1] && Budgeted(f, o, r, 0) && Budgeted(g, o, r, 0)
  {
    Clauses(f, o);
    assert Budgeted(f, o, f.validating[id], 0);
  }

  lemma InvalidConsistent(f: FetchState, o: Options, id: nat)
    requires Consistent(f, o) && id in f.validating
    ensures Consistent(OnValidationFailed(f, id), o)
  {
    var r := f.validating[id];
    var g := f.(validating := f.validating - {id});
    ValidatedGone(f, o, id);
    FewerConsistent(f, g, o);
    if r.nRetriesOnValidationFail > 0 {
      AwaitingConsistent(g, o, id, r);
    } else {
      HistoryIrrelevant(g, OnValidationFailed(f, id), o);
    }
  }

  lemma AwaitedGone(f: FetchState, o: Options, id: nat)
    requires Consistent(f, o) && id in f.awaiting
    ensures var g, r := f.(awaiting := f.awaiting - {id}), f.awaiting[id];
            Fewer(f, g) && Gone(g, id) && r.id == id && Budgeted(f, o, r, 0) && r.nRetriesOnValidationFail > 0
  {
    Clauses(f, o);
    assert Budgeted(f, o, f.awaiting[id], 0);
  }

  lemma RetryConsistent(f: FetchState, o: Options, id: nat)
    requires Consistent(f, o) && id in f.awaiting
    ensures Consistent(OnRetry(f, id), o) && WindowUsed(OnRetry(f, id))
  {
    var r := f.awaiting[id];
    var g := f.(awaiting := f.awaiting - {id});
    AwaitedGone(f, o, id);
    AgainConsistent(f, g, o, r, r.(nRetriesOnValidationFail := r.nRetriesOnValidationFail - 1));
  }

  /** Every event keeps the fetcher consistent and the window used. */
  lemma StepConsistent(f: FetchState, o: Options, e: Event)
    requires Consistent(f, o) && WindowUsed(f) && Enabled(f, e)
    ensures Consistent(Step(f, o, e), o) && WindowUsed(Step(f, o, e))
  {
    match e {
      case Asked(nRetries) => AskedConsistent(f, o, nRetries);
      case Data(id) => DataConsistent(f, o, id);
      case Nack(id) => NackConsistent(f, o, id);
      case Timeout(id) => TimeoutConsistent(f, o, id);
      case Valid(id) => FewerConsistent(f, OnValidated(f, id), o);
      case Invalid(id) => InvalidConsistent(f, o, id);
      case Retry(id) => RetryConsistent(f, o, id);
    }
  }

  // ---- Runs ----

  ghost predicate IsRun(fs: seq<FetchState>, o: Options, es: seq<Event>) {
    |fs| == |es| + 1 && fs[0] == NEW && forall i: nat :: RunAt(fs, o, es, i)
  }

  predicate RunAt(fs: seq<FetchState>, o: Options, es: seq<Event>, i: nat)
    requires |fs| == |es| + 1
  {
    i < |es| ==> Enabled(fs[i], es[i]) && fs[i + 1] == Step(fs[i], o, es[i])
  }

  lemma {:induction false} RunConsistent(fs: seq<FetchState>, o: Options, es: seq<Event>, n: nat)
    requires IsRun(fs, o, es) && n < |fs|
    ensures Consistent(fs[n], o) && WindowUsed(fs[n])
    decreases n
  {
    if n == 0 {
      NewIsConsistent(o);
    } else {
      RunConsistent(fs, o, es, n - 1);
      RunNext(fs, o, es, n - 1);
    }
  }

  lemma RunNext(fs: seq<FetchState>, o: Options, es: seq<Event>, n: nat)
    requires IsRun(fs, o, es) && n < |es| && Consistent(fs[n], o) && WindowUsed(fs[n])
    ensures Consistent(fs[n + 1], o) && WindowUsed(fs[n + 1])
  {
    assert RunAt(fs, o, es, n);
    StepConsistent(fs[n], o, es[n]);
  }

  /** After every event at most ten Interests are under way and none waits while there is room;
      Interests have been sent in the order of their numbers; every request is in one place; and an
      Interest asked for with nRetries >= 0 was sent at most 1 + nRetries + nRetriesOnValidationFail
      times. */
  lemma FetcherPromise(fs: seq<FetchState>, o: Options, es: seq<Event>, n: nat, interest: nat)
    requires IsRun(fs, o, es) && n < |fs|
    ensures |fs[n].pending| <= 10 && (fs[n].queue != [] ==> |fs[n].pending| == 10)
    ensures forall i | 0 <= i < |fs[n].sent| :: fs[n].sent[i].id == i + 1
    ensures forall i | 0 <= i < |fs[n].queue| :: fs[n].queue[i].id == |fs[n].sent| + i + 1
    ensures Placed(fs[n])
    ensures interest in fs[n].asked && fs[n].asked[interest] >= 0 ==>
              Count(fs[n].sent, interest) <= 1 + fs[n].asked[interest] + Max(0, o.onValidationFail)
  {
    RunConsistent(fs, o, es, n);
    Clauses(fs[n], o);
  }

  // ---- The class ----

  class Fetcher {
    const options: Options
    var counter: nat
    var queue: seq<Request>
    var pending: map<nat, Request>
    // requests held by callbacks: of the validator, and of the scheduler
    var validating: map<nat, Request>
    var awaiting: map<nat, Request>
    // history
    ghost var sent: seq<Request>
    ghost var asked: map<nat, int>
    ghost var latest: map<nat, nat>
    ghost var done: seq<Completion>
    ghost var failed: set<nat>

    ghost function State(): FetchState reads this {
      FetchState(counter, queue, pending, validating, awaiting, sent, asked, latest, done, failed)
    }

    constructor (options: Options)
      ensures this.options == options && State() == NEW
    {
      this.options := options;
      counter, queue, pending, validating, awaiting := 0, [], map[], map[], map[];
      sent, asked, latest, done, failed := [], map[], map[], [], {};
    }

    method ProcessQueue()
      modifies this`queue, this`pending, this`sent
      ensures State() == Process(old(State()))
    {
      while queue != [] && |pending| < WINDOW
        invariant Process(State()) == Process(old(State()))
        decreases |queue|
      {
        var i := queue[0];
        queue := queue[1..];
        pending := pending[i.id := i];
        sent := sent + [i];
      }
    }

    method PushCopy(qi: Request)
      modifies this`counter, this`queue, this`latest
      ensures State() == Push(old(State()), qi)
    {
      counter := counter + 1;
      queue := queue + [qi.(id := counter)];
      latest := latest[qi.interest := counter];
    }

    method ExpressInterest(nRetries: int)
      modifies this
      ensures State() == Step(old(State()), options, Asked(nRetries))
    {
      asked := asked[counter + 1 := nRetries];
      PushCopy(Request(counter + 1, counter + 1, nRetries, options.onValidationFail));
      assert State() == Join(old(State()), nRetries, options.onValidationFail);
      ProcessQueue();
    }

    method ExpressAgain(qi: Request)
      modifies this
      ensures State() == Again(old(State()), qi)
    {
      PushCopy(qi);
      ProcessQueue();
    }

    method TakePending(id: nat) returns (qi: Request)
      requires id in pending
      modifies this`pending
      ensures State() == Unpend(old(State()), id) && qi == old(pending)[id]
    {
      qi := pending[id];
      pending := pending - {id};
    }

    /** A callback of the application. */
    ghost method Call(qi: Request, outcome: Outcome)
      modifies this`done
      ensures State() == old(State()).Called(qi, outcome)
    {
      done := done + [Completion(qi.interest, outcome)];
    }

    method HandleData(id: nat)
      requires id in pending
      modifies this
      ensures State() == Step(old(State()), options, Data(id))
    {
      var qi := TakePending(id);
      ProcessQueue();
      if options.validator {
        validating := validating[id := qi];
      } else {
        Call(qi, Satisfied);
      }
    }

    method HandleNack(id: nat)
      requires id in pending
      modifies this
      ensures State() == Step(old(State()), options, Nack(id))
    {
      var qi := TakePending(id);
      ProcessQueue();
      Call(qi, Nacked);
    }

    method HandleTimeout(id: nat)
      requires id in pending
      modifies this
      ensures State() == OnTimeout(old(State()), id)
    {
      var qi := TakePending(id);
      if qi.nRetries == 0 {
        ProcessQueue();
        Call(qi, GivenUp);
      } else {
        ExpressAgain(qi.(nRetries := qi.nRetries - 1));
      }
    }

    method HandleValidated(id: nat)
      requires id in validating
      modifies this
      ensures State() == Step(old(State()), options, Valid(id))
    {
      var qi := validating[id];
      validating := validating - {id};
      Call(qi, Satisfied);
    }

    method HandleValidationFailed(id: nat)
      requires id in validating
      modifies this
      ensures State() == Step(old(State()), options, Invalid(id))
    {
      var qi := validating[id];
      validating := validating - {id};
      if qi.nRetriesOnValidationFail > 0 {
        awaiting := awaiting[id := qi];
      } else {
        failed := failed + {qi.interest};
      }
    }

    method HandleRetry(id: nat)
      requires id in awaiting
      modifies this
      ensures State() == Step(old(State()), options, Retry(id))
    {
      var qi := awaiting[id];
      awaiting := awaiting - {id};
      ghost var f := State();
      assert f == old(State()).(awaiting := old(State()).awaiting - {id});
      ExpressAgain(qi.(nRetriesOnValidationFail := qi.nRetriesOnValidationFail - 1));
    }
  }
}
