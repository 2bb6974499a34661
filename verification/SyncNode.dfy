/** core.hpp, SVSyncCore: one node of a group, with the fields and the loops of the program. Every
    method is proved against the step function of Core.dfy that specifies it. */
module SyncNode {
  import opened Collections
  import opened Nodes
  import opened Orders
  import opened Numbers
  import opened VersionVectors
  import opened Scoring
  import opened Selector
  import opened Settings
  import opened Scheduler
  import opened Merging
  import opened Timing
  import opened Core

  // ---- One turn of the loops over vectors ----

  /** The vector once the news among the first i nodes is taken over, entry by entry. */
  function MergedUpTo(vv: VersionVector, other: VersionVector, nodes: seq<NodeID>, i: nat, now: Time): VersionVector
    requires i <= |nodes|
  {
    if i == 0 then vv
    else
      var before := MergedUpTo(vv, other, nodes, i - 1, now);
      if Later(vv, other, nodes[i - 1]) then before.Set(nodes[i - 1], other.Get(nodes[i - 1]), now) else before
  }

  /** The entries among the first i nodes of which the other vector knows more. */
  ghost function NewsAmong(vv: VersionVector, other: VersionVector, nodes: seq<NodeID>, i: nat): set<NodeID>
    requires i <= |nodes|
  {
    if i == 0 then {}
    else NewsAmong(vv, other, nodes, i - 1) + if Later(vv, other, nodes[i - 1]) then {nodes[i - 1]} else {}
  }

  lemma TakeoverNone(vv: VersionVector, other: VersionVector, now: Time)
    ensures Takeover(vv, other, {}, now) == vv
  {
  }

  lemma TakeoverEntries(vv: VersionVector, other: VersionVector, done: set<NodeID>, x: NodeID, now: Time)
    ensures Takeover(vv, other, done + {x}, now).entries == Takeover(vv, other, done, now).entries[x := other.Get(x)]
  {
  }

  lemma TakeoverStamps(vv: VersionVector, other: VersionVector, done: set<NodeID>, x: NodeID, now: Time)
    ensures Takeover(vv, other, done + {x}, now).stamps == Takeover(vv, other, done, now).stamps[x := now]
  {
  }

  lemma TakeoverOne(vv: VersionVector, other: VersionVector, done: set<NodeID>, x: NodeID, now: Time)
    ensures Takeover(vv, other, done + {x}, now) == Takeover(vv, other, done, now).Set(x, other.Get(x), now)
  {
    TakeoverEntries(vv, other, done, x, now);
    TakeoverStamps(vv, other, done, x, now);
  }

  lemma {:induction false} MergedUpToIs(vv: VersionVector, other: VersionVector, nodes: seq<NodeID>, i: nat, now: Time)
    requires i <= |nodes|
    ensures MergedUpTo(vv, other, nodes, i, now) == Takeover(vv, other, NewsAmong(vv, other, nodes, i), now)
  {
    if i == 0 {
      TakeoverNone(vv, other, now);
    } else {
      MergedUpToIs(vv, other, nodes, i - 1, now);
      var done := NewsAmong(vv, other, nodes, i - 1);
      if Later(vv, other, nodes[i - 1]) {
        TakeoverOne(vv, other, done, nodes[i - 1], now);
      } else {
        assert done + {} == done;
      }
    }
  }

  lemma {:induction false} NewsAmongIs(vv: VersionVector, other: VersionVector, nodes: seq<NodeID>, i: nat, x: NodeID)
    requires i <= |nodes|
    ensures x in NewsAmong(vv, other, nodes, i) <==> Later(vv, other, x) && exists k :: 0 <= k < i && nodes[k] == x
  {
    if i > 0 { NewsAmongIs(vv, other, nodes, i - 1, x); }
  }

  lemma AllNews(vv: VersionVector, other: VersionVector, now: Time)
    ensures MergedUpTo(vv, other, OrderedNodes(other), |OrderedNodes(other)|, now) == Merged(vv, other, now)
  {
    var nodes := OrderedNodes(other);
    forall x ensures x in NewsAmong(vv, other, nodes, |nodes|) <==> x in News(vv, other) {
      NewsAmongIs(vv, other, nodes, |nodes|, x);
      if x in other.entries {
        ListingHas(BY_NAME, other.entries.Keys, x);
        assert nodes[IndexOf(nodes, x)] == x;
      }
    }
    assert NewsAmong(vv, other, nodes, |nodes|) == News(vv, other);
    MergedUpToIs(vv, other, nodes, |nodes|, now);
  }

  /** The entry of a node whose turn has not come is untouched. */
  lemma {:induction false} NotYetMerged(vv: VersionVector, other: VersionVector, nodes: seq<NodeID>, i: nat, now: Time,
                                        x: NodeID)
    requires i <= |nodes| && forall k | 0 <= k < i :: nodes[k] != x
    ensures MergedUpTo(vv, other, nodes, i, now).Get(x) == vv.Get(x)
  {
    if i > 0 { NotYetMerged(vv, other, nodes, i - 1, now, x); }
  }

  lemma TurnUntouched(vv: VersionVector, other: VersionVector, i: nat, now: Time)
    requires i < |OrderedNodes(other)|
    ensures MergedUpTo(vv, other, OrderedNodes(other), i, now).Get(OrderedNodes(other)[i]) ==
            vv.Get(OrderedNodes(other)[i])
  {
    ListingFacts(BY_NAME, other.entries.Keys);
    NotYetMerged(vv, other, OrderedNodes(other), i, now, OrderedNodes(other)[i]);
  }

  lemma InfosStep(vv: VersionVector, other: VersionVector, nodes: seq<NodeID>, i: nat)
    requires i < |nodes|
    ensures Infos(vv, other, nodes[..i + 1])
         == Infos(vv, other, nodes[..i]) + if Later(vv, other, nodes[i]) then [InfoOf(vv, other, nodes[i])] else []
  {
    assert nodes[..i + 1][..i] == nodes[..i];
  }

  /** The loop shared by mergeStateVector and recordVector: set every entry of which the other
      vector knows more, and list what was missing. */
  method TakeOverNews(vv: VersionVector, other: VersionVector, now: Time)
    returns (merged: VersionVector, missing: seq<MissingDataInfo>)
    ensures merged == Merged(vv, other, now)
    ensures missing == MissingInfo(vv, other)
  {
    var nodes := OrderedNodes(other);
    merged, missing := vv, [];
    var i := 0;
    while i < |nodes|
      invariant i <= |nodes|
      invariant merged == MergedUpTo(vv, other, nodes, i, now)
      invariant missing == Infos(vv, other, nodes[..i])
    {
      TurnUntouched(vv, other, i, now);
      InfosStep(vv, other, nodes, i);
      var seqOther := other.Get(nodes[i]);
      if merged.Get(nodes[i]) < seqOther {
        missing := missing + [MissingDataInfo(nodes[i], merged.Get(nodes[i]) + 1, seqOther, 0)];
        merged := merged.Set(nodes[i], seqOther, now);
      }
      i := i + 1;
    }
    AllNews(vv, other, now);
    assert nodes[..|nodes|] == nodes;
  }

  /** The second loop of mergeStateVector, which stops at the first entry it may speak about. */
  method HasNews(vv: VersionVector, other: VersionVector, now: Time, suppression: Time) returns (mine: bool)
    ensures mine == MyVectorNew(vv, other, now, suppression)
  {
    var nodes := OrderedNodes(vv);
    var i := 0;
    while i < |nodes|
      invariant i <= |nodes|
      invariant MyVectorNew(vv, other, now, suppression) == AnySpeaks(vv, other, nodes, i, now, suppression)
    {
      if now - vv.GetLastUpdate(nodes[i]) >= suppression && other.Get(nodes[i]) < vv.Get(nodes[i]) {
        return true;
      }
      i := i + 1;
    }
    return false;
  }

  // ---- The counters of missed builds ----

  /** The counters once the first i nodes have been visited. */
  function CountsUpTo(missed: map<NodeID, nat>, sent: VersionVector, nodes: seq<NodeID>, i: nat): map<NodeID, nat>
    requires i <= |nodes|
  {
    if i == 0 then missed
    else
      var before := CountsUpTo(missed, sent, nodes, i - 1);
      before[nodes[i - 1] := if nodes[i - 1] in sent.entries then 0 else Missed(before, nodes[i - 1]) + 1]
  }

  lemma {:induction false} CountOf(missed: map<NodeID, nat>, sent: VersionVector, nodes: seq<NodeID>, i: nat, x: NodeID)
    requires i <= |nodes| && Distinct(nodes)
    ensures x in CountsUpTo(missed, sent, nodes, i) <==> x in missed || exists k :: 0 <= k < i && nodes[k] == x
    ensures (exists k :: 0 <= k < i && nodes[k] == x) ==>
              Missed(CountsUpTo(missed, sent, nodes, i), x) == if x in sent.entries then 0 else Missed(missed, x) + 1
    ensures (forall k | 0 <= k < i :: nodes[k] != x) ==>
            Missed(CountsUpTo(missed, sent, nodes, i), x) == Missed(missed, x)
  {
    if i > 0 { CountOf(missed, sent, nodes, i - 1, x); }
  }

  lemma OrderedNodesHas(vv: VersionVector, x: NodeID)
    ensures x in vv.entries <==> exists k :: 0 <= k < |OrderedNodes(vv)| && OrderedNodes(vv)[k] == x
  {
    ListingFacts(BY_NAME, vv.entries.Keys);
    if x in vv.entries { assert OrderedNodes(vv)[IndexOf(OrderedNodes(vv), x)] == x; }
  }

  lemma CountOfNode(vv: VersionVector, missed: map<NodeID, nat>, sent: VersionVector, x: NodeID)
    ensures var counts := CountsUpTo(Known(missed, vv), sent, OrderedNodes(vv), |OrderedNodes(vv)|);
            && (x in counts <==> x in vv.entries)
            && (x in vv.entries ==> Missed(counts, x) == if x in sent.entries then 0 else Missed(missed, x) + 1)
  {
    var nodes := OrderedNodes(vv);
    OrderedNodesHas(vv, x);
    CountOf(Known(missed, vv), sent, nodes, |nodes|, x) by { ListingFacts(BY_NAME, vv.entries.Keys); }
  }

  lemma AllCounted(vv: VersionVector, missed: map<NodeID, nat>, sent: VersionVector)
    ensures CountsUpTo(Known(missed, vv), sent, OrderedNodes(vv), |OrderedNodes(vv)|) == MissedAfter(vv, missed, sent)
  {
    var counts := CountsUpTo(Known(missed, vv), sent, OrderedNodes(vv), |OrderedNodes(vv)|);
    forall x ensures x in counts <==> x in MissedAfter(vv, missed, sent)
      ensures x in counts ==> counts[x] == MissedAfter(vv, missed, sent)[x]
    {
      CountOfNode(vv, missed, sent, x);
    }
  }

  /** The loop of buildSyncVector over the counters. */
  method CountMissed(vv: VersionVector, missed: map<NodeID, nat>, sent: VersionVector)
    returns (counts: map<NodeID, nat>)
    ensures counts == MissedAfter(vv, missed, sent)
  {
    var nodes := OrderedNodes(vv);
    counts := Known(missed, vv);
    var i := 0;
    while i < |nodes|
      invariant i <= |nodes| && counts == CountsUpTo(Known(missed, vv), sent, nodes, i)
    {
      counts := counts[nodes[i] := if sent.Has(nodes[i]) then 0 else Missed(counts, nodes[i]) + 1];
      i := i + 1;
    }
    AllCounted(vv, missed, sent);
  }

  /** Sending a vector, put together from its parts. */
  lemma SendSyncIs(cfg: Settings, s: NodeState, clock: Clock, draws: Draws, built: NodeState, sent: VersionVector)
    requires s.initialized && (sent, built.sched) == Build(cfg, s.Load(), s.vv, s.sched, draws.chance)
    requires built == s.(sched := built.sched)
    ensures SendSync(cfg, s, clock, draws) == Sending(NoteSent(cfg, built, sent, clock.steady), Some(sent))
  {
  }

  // ---- The node ----

  /** retxSyncInterest: send now or not, and schedule the next attempt. */
  function Retx(cfg: Settings, s: NodeState, send: bool, delay: nat, clock: Clock, draws: Draws): Sending {
    if !send then Sending(Schedule(s, delay, clock, draws), None)
    else if Deferred(cfg, s, clock.steady)
    then Sending(Schedule(s, DeferredDelay(cfg, s, clock.steady), clock, draws), None)
    else
      var r := SendUnlessSuppressed(cfg, s, clock, draws);
      r.(state := Schedule(r.state, delay, clock, draws))
  }

  /** What is noted of a transmission. */
  function NoteSent(cfg: Settings, s: NodeState, sent: VersionVector, now: int): NodeState {
    s.(lastTx := now,
       feedback := s.feedback.(pending := NoteSend(cfg, s.feedback.pending, sent.Get(cfg.id), now)))
  }

  class SVSyncCore {
    const cfg: Settings

    var vv: VersionVector
    var recorded: Option<VersionVector>
    var cursor: nat
    var missedRounds: map<NodeID, nat>
    var lastSelected: seq<NodeID>
    var burst: nat

    var periodMs: int
    var minPeriodMs: int
    var maxSuppressionMs: int
    var activity: real
    var lastAdjustUs: int
    var delayMs: real
    var jitterMs: real
    var samples: nat
    var pending: seq<Pending>

    var lastTxUs: int
    var nextSyncUs: int
    var initialized: bool

    function TheTimer(): Timer reads this {
      Timer(periodMs, minPeriodMs, maxSuppressionMs, activity, lastAdjustUs, delayMs, jitterMs, samples)
    }

    function TheSched(): Sched reads this {
      Sched(cursor, missedRounds, lastSelected, burst)
    }

    /** The abstract value of the node. */
    function State(): NodeState reads this {
      NodeState(vv, recorded, TheSched(), Feedback(TheTimer(), pending), lastTxUs, nextSyncUs, initialized)
    }

    constructor (cfg: Settings)
      ensures this.cfg == cfg
      ensures State() == InitialState(cfg, nextSyncUs)
    {
      var t := ConfiguredTimer(cfg);
      this.cfg := cfg;
      vv, recorded := EMPTY, None;
      cursor, missedRounds, lastSelected, burst := 0, map[], [], 0;
      periodMs, minPeriodMs, maxSuppressionMs := t.period, t.minPeriod, t.maxSuppression;
      activity, lastAdjustUs := t.activity, t.lastAdjust;
      delayMs, jitterMs, samples, pending := t.delay, t.jitter, t.samples, [];
      lastTxUs, nextSyncUs, initialized := 0, 0, false;
      new;
      RefreshNetworkAwareTimerState();
      ClampPeriod();
    }

    method ClampPeriod()
      modifies this`periodMs
      ensures periodMs == InBounds(old(periodMs), minPeriodMs)
    {
      if periodMs < minPeriodMs {
        periodMs := minPeriodMs;
      }
      if periodMs > MAX_PERIOD_MS {
        periodMs := MAX_PERIOD_MS;
      }
    }

    method RefreshNetworkAwareTimerState()
      modifies this`periodMs, this`minPeriodMs, this`maxSuppressionMs
      ensures TheTimer() == Refresh(cfg, old(TheTimer()))
    {
      if !cfg.timerMode.NetworkAware? {
        return;
      }
      var delay, jitter := MaxReal(40.0, delayMs), MaxReal(15.0, jitterMs);
      maxSuppressionMs := SuppressionFor(cfg, delay, jitter);
      minPeriodMs := MinPeriodFor(cfg, delay, jitter);
      ClampPeriod();
    }

    /** Too soon after the last adjustment: only a repair may shorten the period, by half the way. */
    method NudgeInterval(signal: SyncSignal, nowUs: int)
      requires !cfg.timerMode.Fixed? && RateLimited(TheTimer(), nowUs)
      modifies this`periodMs
      ensures TheTimer() == Adjust(cfg, old(TheTimer()), Size(vv), signal, nowUs)
    {
      var floorMs := FloorFor(cfg, minPeriodMs, Size(vv));
      if signal.RepairNeeded? && periodMs > floorMs {
        periodMs := floorMs + Max(0, Quot(periodMs - floorMs, 2));
      }
    }

    method AdjustByActivity(signal: SyncSignal, nowUs: int)
      requires cfg.timerMode.Adaptive? && !RateLimited(TheTimer(), nowUs)
      modifies this`periodMs, this`activity, this`lastAdjustUs
      ensures TheTimer() == Adjust(cfg, old(TheTimer()), Size(vv), signal, nowUs)
    {
      var floorMs := FloorFor(cfg, minPeriodMs, Size(vv));
      lastAdjustUs := nowUs;
      activity := Activity(activity, signal);
      var next := AdaptiveStep(periodMs, floorMs, signal);
      next := Max(floorMs + Round(activity * 250.0), next);
      periodMs := Min(MAX_PERIOD_MS, Max(minPeriodMs, next));
    }

    method AdjustByFeedback(signal: SyncSignal, nowUs: int)
      requires cfg.timerMode.NetworkAware? && !RateLimited(TheTimer(), nowUs)
      modifies this`periodMs, this`lastAdjustUs
      ensures TheTimer() == Adjust(cfg, old(TheTimer()), Size(vv), signal, nowUs)
    {
      var floorMs := FloorFor(cfg, minPeriodMs, Size(vv));
      lastAdjustUs := nowUs;
      var target := FeedbackTarget(cfg, TheTimer(), floorMs);
      periodMs := Approach(periodMs, target, Alpha(cfg, signal), floorMs);
    }

    method UpdateSyncInterval(signal: SyncSignal, nowUs: int)
      modifies this`periodMs, this`activity, this`lastAdjustUs
      ensures TheTimer() == Adjust(cfg, old(TheTimer()), Size(vv), signal, nowUs)
      ensures State() == old(State()).WithTimer(TheTimer())
    {
      if cfg.timerMode.Fixed? {
        return;
      }
      if lastAdjustUs != 0 && nowUs - lastAdjustUs < ADJUST_GAP_US {
        NudgeInterval(signal, nowUs);
      } else if cfg.timerMode.Adaptive? {
        AdjustByActivity(signal, nowUs);
      } else {
        AdjustByFeedback(signal, nowUs);
      }
    }

    // ---- Feedback ----

    method RecordPropagationFeedbackSend(localSeq: SeqNo, sendTimeUs: int)
      modifies this`pending
      ensures pending == NoteSend(cfg, old(pending), localSeq, sendTimeUs)
    {
      if !cfg.timerMode.NetworkAware? || localSeq == 0 {
        return;
      }
      if pending != [] && pending[|pending| - 1].seqNo >= localSeq {
        return;
      }
      pending := pending + [Pending(localSeq, sendTimeUs)];
      ghost var all := pending;
      while |pending| > MAX_PENDING
        invariant LastOf(all, MAX_PENDING) == LastOf(pending, MAX_PENDING)
      {
        pending := pending[1..];
      }
    }

    /** Drop the confirmed numbers; the result is when the last of them was sent, or zero. */
    method DropConfirmed(echoedSeq: SeqNo) returns (sentUs: int)
      modifies this`pending
      ensures var k := Confirmed(old(pending), echoedSeq);
              pending == old(pending)[k..] && sentUs == if k == 0 then 0 else old(pending)[k - 1].sentAt
      ensures State() == old(State()).(feedback := old(State()).feedback.(pending := pending))
    {
      sentUs := 0;
      ghost var all, dropped := pending, 0;
      while pending != [] && pending[0].seqNo <= echoedSeq
        invariant dropped <= |all| && pending == all[dropped..]
        invariant Confirmed(all, echoedSeq) == dropped + Confirmed(pending, echoedSeq)
        invariant sentUs == if dropped == 0 then 0 else all[dropped - 1].sentAt
        decreases |pending|
      {
        sentUs := pending[0].sentAt;
        pending := pending[1..];
        dropped := dropped + 1;
      }
    }

    method ObservePropagationFeedback(other: VersionVector, nowUs: int)
      modifies this`pending, this`delayMs, this`jitterMs, this`samples, this`periodMs, this`minPeriodMs,
               this`maxSuppressionMs
      ensures State() ==
              old(State()).(feedback := Observe(cfg, old(State()).feedback, other.Get(cfg.id), nowUs))
    {
      if !cfg.timerMode.NetworkAware? {
        return;
      }
      var echoedSeq := other.Get(cfg.id);
      if echoedSeq == 0 {
        return;
      }
      var sentUs := DropConfirmed(echoedSeq);
      if sentUs == 0 || nowUs <= sentUs {
        return;
      }
      LearnDelay(ObservedDelay(sentUs, nowUs));
    }

    method LearnDelay(observed: real)
      modifies this`delayMs, this`jitterMs, this`samples, this`periodMs, this`minPeriodMs, this`maxSuppressionMs
      ensures State() == old(State()).WithTimer(Refresh(cfg, Sample(old(TheTimer()), observed)))
    {
      TakeSample(observed);
      RefreshNetworkAwareTimerState();
    }

    method TakeSample(observed: real)
      modifies this`delayMs, this`jitterMs, this`samples
      ensures TheTimer() == Sample(old(TheTimer()), observed)
    {
      var previous := MaxReal(1.0, delayMs);
      if samples == 0 {
        delayMs := observed;
        jitterMs := MaxReal(15.0, observed * 0.15);
      } else {
        delayMs := (1.0 - 0.18) * delayMs + 0.18 * observed;
        jitterMs := MaxReal(10.0, (1.0 - 0.22) * jitterMs + 0.22 * Abs(observed - previous));
      }
      samples := samples + 1;
    }

    // ---- Vectors ----

    method MergeStateVector(other: VersionVector, wall: Time) returns (result: MergeResult)
      modifies this`vv
      ensures vv == Merged(old(vv), other, wall)
      ensures State() == old(State()).(vv := vv)
      ensures result == Report(old(vv), other, wall, maxSuppressionMs * 1000)
    {
      var missing;
      vv, missing := TakeOverNews(vv, other, wall);
      var mine := HasNews(vv, other, wall, maxSuppressionMs * 1000);
      result := MergeResult(mine, missing != [], missing);
    }

    /** Merge into the recorded vector, if there is one. */
    method RecordVector(other: VersionVector, wall: Time) returns (recording: bool)
      modifies this`recorded
      ensures recording == old(recorded).Some?
      ensures recorded == if recording then Some(Merged(old(recorded).value, other, wall)) else None
    {
      if recorded.None? {
        return false;
      }
      var missing;
      var merged;
      merged, missing := TakeOverNews(recorded.value, other, wall);
      recorded := Some(merged);
      return true;
    }

    method EnterSuppressionState(other: VersionVector)
      modifies this`recorded
      ensures recorded == if old(recorded).None? then Some(other) else old(recorded)
    {
      if recorded.None? {
        recorded := Some(other);
      }
    }

    /** Call selectSubset with what the configured strategy and the coordination make of it. */
    method ChooseEntries(load: Load, limit: nat, chance: Chance) returns (sent: VersionVector)
      requires vv.entries != map[]
      ensures sent == PartialVector(cfg, load, vv, TheSched(), chance, limit)
    {
      var strategy := Effective(cfg, load, |vv.entries|, limit, burst).0;
      var selector := if cfg.strategy.Random? then chance.roll else cursor;
      var req := RequestOf(cfg, load, TheSched(), limit, strategy, selector);
      var tune := TuningOf(cfg, load, strategy, Known(missedRounds, vv));
      sent := SelectSubset(vv, req, tune, chance.outside);
    }

    method MoveCursor(limit: nat, random: bool)
      requires vv.entries != map[]
      modifies this`cursor
      ensures cursor == if random then old(cursor) else (old(cursor) + limit) % |vv.entries|
    {
      if !random {
        cursor := (cursor + limit) % |vv.entries|;
      }
    }

    method RememberChoice(load: Load, sent: VersionVector, limit: nat)
      requires !SendsAll(cfg, vv, limit)
      modifies this`cursor, this`missedRounds, this`lastSelected, this`burst
      ensures TheSched() == Remember(cfg, load, vv, old(TheSched()), sent, limit)
    {
      var effective := Effective(cfg, load, |vv.entries|, limit, burst);
      burst := effective.1;
      MoveCursor(limit, effective.0.Random?);
      lastSelected := RecentNodes(sent);
      missedRounds := CountMissed(vv, missedRounds, sent);
    }

    method BuildWithin(load: Load, limit: nat, chance: Chance) returns (sent: VersionVector)
      modifies this`cursor, this`missedRounds, this`lastSelected, this`burst
      ensures sent == VectorWithin(cfg, load, vv, old(TheSched()), chance, limit)
      ensures TheSched() == Remember(cfg, load, vv, old(TheSched()), sent, limit)
    {
      if limit >= |vv.entries| || cfg.strategy.Full? {
        missedRounds := CountMissed(vv, missedRounds, vv);
        return vv;
      }
      sent := ChooseEntries(load, limit, chance);
      RememberChoice(load, sent, limit);
    }

    method BuildSyncVector(chance: Chance) returns (sent: VersionVector)
      modifies this`cursor, this`missedRounds, this`lastSelected, this`burst
      ensures (sent, TheSched()) == Build(cfg, old(State()).Load(), vv, old(TheSched()), chance)
      ensures State() == old(State()).(sched := TheSched())
    {
      var load := Load(HOTSPOT_SCORE, activity);
      sent := BuildWithin(load, Limit(cfg, load, |vv.entries|), chance);
    }

    // ---- Sending ----

    method NoteTransmission(sent: VersionVector, nowUs: int)
      modifies this`pending, this`lastTxUs
      ensures State() == NoteSent(cfg, old(State()), sent, nowUs)
    {
      lastTxUs := nowUs;
      RecordPropagationFeedbackSend(sent.Get(cfg.id), nowUs);
    }

    method SendSyncInterest(clock: Clock, draws: Draws) returns (sent: Option<VersionVector>)
      modifies this`cursor, this`missedRounds, this`lastSelected, this`burst, this`pending, this`lastTxUs
      ensures Sending(State(), sent) == SendSync(cfg, old(State()), clock, draws)
    {
      if !initialized {
        return None;
      }
      ghost var s := State();
      var syncVv := BuildSyncVector(draws.chance);
      SendSyncIs(cfg, s, clock, draws, State(), syncVv);
      NoteTransmission(syncVv, clock.steady);
      return Some(syncVv);
    }

    /** The part of retxSyncInterest that is not deferred: send unless all has been said. */
    method SendIfNeeded(clock: Clock, draws: Draws) returns (sent: Option<VersionVector>)
      modifies this`vv, this`recorded, this`cursor, this`missedRounds, this`lastSelected, this`burst, this`pending,
               this`lastTxUs
      ensures Sending(State(), sent) == SendUnlessSuppressed(cfg, old(State()), clock, draws)
    {
      sent := None;
      if recorded.None? {
        sent := SendSyncInterest(clock, draws);
      } else {
        var result := MergeStateVector(recorded.value, clock.wall);
        recorded := None;
        if result.myVectorNew {
          sent := SendSyncInterest(clock, draws);
        }
      }
    }

    method ScheduleNext(delay: nat, clock: Clock, draws: Draws)
      modifies this`nextSyncUs
      ensures State() == Schedule(old(State()), delay, clock, draws)
    {
      var wait := delay;
      if wait == 0 {
        wait := draws.periodDelay;
      }
      nextSyncUs := clock.steady + 1000 * wait;
    }

    method RetxSyncInterest(send: bool, delay: nat, clock: Clock, draws: Draws) returns (sent: Option<VersionVector>)
      modifies this
      ensures Sending(State(), sent) == Retx(cfg, old(State()), send, delay, clock, draws)
    {
      sent := None;
      var wait := delay;
      if send {
        var minGapUs := MinGap(cfg, activity);
        if minGapUs > 0 && lastTxUs > 0 && clock.steady < lastTxUs + minGapUs {
          wait := Max(1, (lastTxUs + minGapUs - clock.steady + 999) / 1000);
        } else {
          sent := SendIfNeeded(clock, draws);
        }
      }
      ScheduleNext(wait, clock, draws);
    }

    /** The event sendInitialInterest schedules: from now on the node may send. */
    method Initialize(clock: Clock, draws: Draws) returns (sent: Option<VersionVector>)
      modifies this
      ensures Sending(State(), sent) == Fire(cfg, old(State()).(initialized := true), clock, draws)
    {
      initialized := true;
      sent := RetxSyncInterest(true, 0, clock, draws);
    }

    /** The event every retxSyncInterest schedules. */
    method OnTimeout(clock: Clock, draws: Draws) returns (sent: Option<VersionVector>)
      modifies this
      ensures Sending(State(), sent) == Fire(cfg, old(State()), clock, draws)
    {
      sent := RetxSyncInterest(true, 0, clock, draws);
    }

    // ---- Receiving ----

    method AdjustAfter(result: MergeResult, nowUs: int)
      modifies this`periodMs, this`activity, this`lastAdjustUs
      ensures State() == old(State()).WithTimer(Adjust(cfg, old(TheTimer()), Size(vv), SignalOf(result), nowUs))
    {
      var signal := Idle;
      if result.missingInfo != [] {
        signal := RepairNeeded;
      } else if result.myVectorNew || result.otherVectorNew {
        signal := RemoteUpdate;
      }
      UpdateSyncInterval(signal, nowUs);
    }

    method LearnFrom(other: VersionVector, clock: Clock) returns (result: MergeResult)
      modifies this`vv, this`pending, this`delayMs, this`jitterMs, this`samples, this`periodMs, this`minPeriodMs,
               this`maxSuppressionMs
      ensures (State(), result) == Learn(cfg, old(State()), other, clock)
    {
      ObservePropagationFeedback(other, clock.steady);
      result := MergeStateVector(other, clock.wall);
    }

    method AbsorbVector(other: VersionVector, clock: Clock) returns (result: MergeResult)
      modifies this`vv, this`pending, this`delayMs, this`jitterMs, this`samples, this`periodMs, this`minPeriodMs,
               this`maxSuppressionMs, this`activity, this`lastAdjustUs
      ensures (State(), result) == Absorb(cfg, old(State()), other, clock)
    {
      result := LearnFrom(other, clock);
      AdjustAfter(result, clock.steady);
    }

    method RespondTo(other: VersionVector, myVectorNew: bool, clock: Clock, draws: Draws)
      modifies this
      ensures State() == Respond(old(State()), other, myVectorNew, clock, draws)
    {
      var recording := RecordVector(other, clock.wall);
      if recording {
        return;
      }
      if !myVectorNew {
        var sent := RetxSyncInterest(false, 0, clock, draws);
      } else {
        EnterSuppressionState(other);
        if clock.steady + draws.replyDelay * 1000 < nextSyncUs {
          var sent := RetxSyncInterest(false, draws.replyDelay, clock, draws);
        }
      }
    }

    /** From the decoded vector on. What the program passes to its update callback is returned. */
    method OnSyncInterestValidated(other: VersionVector, face: nat, clock: Clock, draws: Draws)
      returns (reported: seq<MissingDataInfo>)
      modifies this
      ensures Hearing(State(), reported) == Hear(cfg, old(State()), other, face, clock, draws)
    {
      var result := AbsorbVector(other, clock);
      reported := OnFace(result.missingInfo, face);
      RespondTo(other, result.myVectorNew, clock, draws);
    }

    // ---- Publishing ----

    method GetSeqNo(nid: NodeID) returns (seqNo: SeqNo)
      ensures seqNo == SeqNoOf(cfg, State(), nid)
    {
      var target := if nid == EMPTY_NODE_ID then cfg.id else nid;
      return vv.Get(target);
    }

    method UpdateSeqNo(seqNo: SeqNo, nid: NodeID, clock: Clock, draws: Draws)
      modifies this
      ensures State() == Update(cfg, old(State()), seqNo, nid, clock, draws)
    {
      var target := if nid == EMPTY_NODE_ID then cfg.id else nid;
      var prev := vv.Get(target);
      vv := vv.Set(target, seqNo, clock.wall);
      if seqNo > prev {
        UpdateSyncInterval(LocalUpdate, clock.steady);
        var sent := RetxSyncInterest(false, LocalDelay(cfg, activity), clock, draws);
      }
    }
  }
}
