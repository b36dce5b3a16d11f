// The deadline of an authentication request over a flow's life: when a flow
// has one, what a timeout does to a flow that has its result already, and what
// becomes of a flow that was started and never got one.
module FlowDeadlines {
  import opened Prelude
  import opened FlowTable
  import opened AuthQueue
  import opened FlowRuns
  import TcpTracker

  // ---- One section ----

  // A deadline is set by sending a request, and cleared by a server's retry and by a timeout that leaves
  // attempts. Nothing else changes it, not even the result.
  function DeadlineAfter(t: Table, op: Op, r: nat): Option<Time>
    requires r < |t.flows|
  {
    var f := t.flows[r];
    match op
    case OpMarkSent(authID, deadline) => if ByID(t, authID) == Some(r) && !f.latched then Some(deadline) else f.authDeadline
    case OpRetry(authID, _, _) => if ByID(t, authID) == Some(r) && !f.latched then None else f.authDeadline
    case OpExpireAuth(now, _) =>
      if r in Due(t, now) && f.authTimeouts + 1 < MAX_AUTH_ATTEMPTS then None else f.authDeadline
    case _ => f.authDeadline
  }

  lemma DeadlineOf(t: Table, op: Op, r: nat)
    requires Inv(t) && r < |t.flows|
    ensures r < |Apply(t, op).flows| && Apply(t, op).flows[r].authDeadline == DeadlineAfter(t, op, r)
  {
    hide Inv, Without, Due, RemoveKey, RemoveExpired, CloseTable, CompleteAuth, GetOrCreate, ExpireAuth;
    match op
    case OpExpireAuth(now, err) =>
      ExpireFlowByFlow(t, Due(t, now), now, err);
      TimeoutSetsDeadline(t, now, err, r);
    case OpGetOrCreate(key, appID, nodeGroupID, now) => CreationKeepsDeadline(t, key, appID, nodeGroupID, now, r);
    case OpComplete(authID, token, err) => CompletionKeepsDeadline(t, authID, token, err, r);
    case OpRemove(key) => RemovalKeepsDeadline(t, op, r);
    case OpRemoveExpired(now) => RemovalKeepsDeadline(t, op, r);
    case OpClose => RemovalKeepsDeadline(t, op, r);
    case _ => UpdateSetsDeadline(t, op, r);
  }

  lemma UpdateSetsDeadline(t: Table, op: Op, r: nat)
    requires r < |t.flows|
    requires op.OpMarkSent? || op.OpRetry? || op.OpCache? || op.OpObserve? || op.OpNextBatch?
    ensures r < |Apply(t, op).flows| && Apply(t, op).flows[r].authDeadline == DeadlineAfter(t, op, r)
  {
    hide Without;
  }

  lemma TimeoutSetsDeadline(t: Table, now: Time, err: Error, r: nat)
    requires r < |t.flows|
    ensures r < |ExpireAuth(t, now, err).flows|
    ensures ExpireAuth(t, now, err).flows[r].authDeadline == DeadlineAfter(t, OpExpireAuth(now, err), r)
  {
    hide Without;
  }

  lemma CompletionKeepsDeadline(t: Table, authID: nat, token: string, err: Option<Error>, r: nat)
    requires r < |t.flows|
    ensures r < |CompleteAuth(t, authID, token, err).flows|
    ensures CompleteAuth(t, authID, token, err).flows[r].authDeadline == t.flows[r].authDeadline
  {
    hide Without;
  }

  lemma CreationKeepsDeadline(t: Table, key: string, appID: string, nodeGroupID: string, now: Time, r: nat)
    requires r < |t.flows|
    ensures var t' := GetOrCreate(t, key, appID, nodeGroupID, now).0;
            r < |t'.flows| && t'.flows[r].authDeadline == t.flows[r].authDeadline
  {
    hide Without, Oldest, Expired;
  }

  lemma RemovalKeepsDeadline(t: Table, op: Op, r: nat)
    requires r < |t.flows| && (op.OpRemove? || op.OpRemoveExpired? || op.OpClose?)
    ensures r < |Apply(t, op).flows| && Apply(t, op).flows[r].authDeadline == t.flows[r].authDeadline
  {
    hide Without;
  }

  lemma NewFlowsHaveNoDeadline(t: Table, op: Op, r: nat)
    requires r >= |t.flows|
    ensures r < |Apply(t, op).flows| ==> Apply(t, op).flows[r].authDeadline == None
  {
    hide Without;
  }

  // ---- Deadlines before a flow is started ----

  ghost predicate NoStrayDeadline(t: Table) {
    forall r: nat :: r < |t.flows| && !t.flows[r].authStarted ==> t.flows[r].authDeadline == None
  }

  // The request that is marked as sent was not overtaken by a retry.
  ghost predicate MarksStarted(t: Table, op: Op) {
    op.OpMarkSent? && ByID(t, op.authID).Some? && !t.flows[ByID(t, op.authID).value].latched ==>
      t.flows[ByID(t, op.authID).value].authStarted
  }

  lemma StrayOnlyByMark(t: Table, op: Op)
    requires Inv(t) && NoStrayDeadline(t)
    ensures NoStrayDeadline(Apply(t, op)) <==> MarksStarted(t, op)
  {
    var t' := Apply(t, op);
    if MarksStarted(t, op) {
      forall r: nat | r < |t'.flows| && !t'.flows[r].authStarted
        ensures t'.flows[r].authDeadline == None
      {
        UnstartedStaysClear(t, op, r);
      }
    } else {
      var r := ByID(t, op.authID).value;
      assert !t'.flows[r].authStarted && t'.flows[r].authDeadline.Some?;
    }
  }

  lemma UnstartedStaysClear(t: Table, op: Op, r: nat)
    requires Inv(t) && NoStrayDeadline(t) && MarksStarted(t, op)
    requires r < |Apply(t, op).flows| && !Apply(t, op).flows[r].authStarted
    ensures Apply(t, op).flows[r].authDeadline == None
  {
    hide Inv, Apply, Chosen, Due;
    if r < |t.flows| {
      DeadlineOf(t, op, r);
      BookkeepingFollowsEvents(t, op, r);
      if EventOf(t, op, r) == Some(TimedOut) {
        TimeoutUnstarts(t, op, r);
      }
    } else {
      NewFlowsHaveNoDeadline(t, op, r);
    }
  }

  // A timeout clears the started mark together with the deadline, or neither.
  lemma TimeoutUnstarts(t: Table, op: Op, r: nat)
    requires op.OpExpireAuth? && r < |t.flows| && r in Due(t, op.now)
    ensures r < |Apply(t, op).flows|
    ensures Apply(t, op).flows[r].authStarted ==
            (t.flows[r].authStarted && t.flows[r].authTimeouts + 1 >= MAX_AUTH_ATTEMPTS)
  {
    hide Without;
  }

  ghost predicate MarksAllStarted(t: Table, ops: seq<Op>) {
    ops != [] ==>
      var before := ops[..|ops| - 1];
      MarksAllStarted(t, before) && MarksStarted(Run(t, before), ops[|ops| - 1])
  }

  ghost predicate NeverStray(t: Table, ops: seq<Op>) {
    forall n: nat :: n <= |ops| ==> NoStrayDeadline(Run(t, ops[..n]))
  }

  lemma NeverStrayByStep(t: Table, ops: seq<Op>)
    requires ops != []
    ensures NeverStray(t, ops) <==> NeverStray(t, ops[..|ops| - 1]) && NoStrayDeadline(Run(t, ops))
    ensures NeverStray(t, ops[..|ops| - 1]) ==> NoStrayDeadline(Run(t, ops[..|ops| - 1]))
  {
    hide NoStrayDeadline, Run;
    var before := ops[..|ops| - 1];
    assert forall n: nat :: n <= |before| ==> before[..n] == ops[..n];
    assert ops[..|ops|] == ops && before[..|before|] == before;
  }

  // In every state of a run the flows not started have no deadline, if and only if no request is marked as
  // sent after the retry that overtook it.
  lemma {:induction false} DeadlinesFollowStarts(t: Table, ops: seq<Op>)
    requires Inv(t) && ClockMonotone(t, ops) && NoStrayDeadline(t)
    ensures NeverStray(t, ops) <==> MarksAllStarted(t, ops)
  {
    hide Inv, Apply, MarksStarted, NoStrayDeadline;
    if ops != [] {
      hide NeverStray;
      var before := ops[..|ops| - 1];
      DeadlinesFollowStarts(t, before);
      EveryRunKeepsInv(t, before);
      NeverStrayByStep(t, ops);
      if NeverStray(t, before) {
        StrayOnlyByMark(Run(t, before), ops[|ops| - 1]);
      }
    }
  }

  // ---- A flow that was started and never got a deadline ----

  ghost predicate Stranded(t: Table, r: nat) {
    r < |t.flows| && t.flows[r].authStarted && t.flows[r].authDeadline == None && !t.flows[r].latched
  }

  ghost predicate Answers(op: Op, r: nat) {
    (op.OpRetry? || op.OpComplete? || op.OpMarkSent?) && op.authID == r + 1
  }

  // No retry and no result names the flow, and a request is marked as sent only for a flow that was chosen.
  ghost predicate Unanswered(t: Table, ops: seq<Op>, r: nat) {
    ops != [] ==>
      var before, op := ops[..|ops| - 1], ops[|ops| - 1];
      && Unanswered(t, before, r)
      && (Answers(op, r) ==> op.OpMarkSent? && Started in History(t, before, r))
  }

  ghost predicate Waiting(t: Table, r: nat) {
    Stranded(t, r) && Indexed(t, r)
  }

  ghost predicate Lost(t: Table, r: nat) {
    r < |t.flows| && t.flows[r].latched && t.flows[r].authErr.Some? && !Indexed(t, r)
  }

  // A stranded flow is in the table, is never chosen and never due, and stays so until it is removed.
  lemma {:induction false} StrandedStays(t: Table, ops: seq<Op>, r: nat)
    requires Inv(t) && ClockMonotone(t, ops) && Stranded(t, r) && Unanswered(t, ops, r)
    ensures History(t, ops, r) == []
    ensures Waiting(Run(t, ops), r) || Lost(Run(t, ops), r)
  {
    hide Inv, Apply, Waiting, Lost, EventOf, Monotone;
    if ops == [] {
      StrandedIsWaiting(t, r);
    } else {
      var before, op := ops[..|ops| - 1], ops[|ops| - 1];
      StrandedStays(t, before, r);
      EveryRunKeepsInv(t, before);
      if Waiting(Run(t, before), r) {
        WaitingStep(Run(t, before), op, r);
      } else {
        LostStep(Run(t, before), op, r);
      }
    }
  }

  lemma StrandedIsWaiting(t: Table, r: nat)
    requires Inv(t) && Stranded(t, r)
    ensures Waiting(t, r)
  {
    assert FlowOk(t.flows[r], Indexed(t, r));
  }

  lemma WaitingStep(t: Table, op: Op, r: nat)
    requires Inv(t) && Monotone(t, op) && Waiting(t, r) && !Answers(op, r)
    ensures EventOf(t, op, r) == None
    ensures Waiting(Apply(t, op), r) || Lost(Apply(t, op), r)
  {
    hide Inv, Apply, EventOf, Indexed;
    NoEventUnlessAnswered(t, op, r);
    DeadlineKept(t, op, r);
    BookkeepingFollowsEvents(t, op, r);
    ApplyKeepsInv(t, op);
    LatchedOnlyWithError(t, op, r);
    LatchedErrorIsLost(Apply(t, op), r);
  }

  lemma LatchedErrorIsLost(t: Table, r: nat)
    requires Inv(t) && r < |t.flows|
    ensures if t.flows[r].latched then t.flows[r].authErr.Some? ==> Lost(t, r) else Indexed(t, r)
  {
    assert FlowOk(t.flows[r], Indexed(t, r));
  }

  lemma NamedOnly(t: Table, authID: nat, r: nat)
    requires Inv(t) && ByID(t, authID) == Some(r)
    ensures authID == r + 1
  {
  }

  lemma NoEventUnlessAnswered(t: Table, op: Op, r: nat)
    requires Inv(t) && Waiting(t, r) && !Answers(op, r)
    ensures EventOf(t, op, r) == None
  {
    hide Inv, Chosen;
    if op.OpNextBatch? && r in Chosen(t, op.limit, op.reading) {
      ChosenAreWaiting(t, op.limit, op.reading, r);
    }
    if op.OpRetry? && ByID(t, op.authID) == Some(r) {
      NamedOnly(t, op.authID, r);
    }
  }

  lemma DeadlineKept(t: Table, op: Op, r: nat)
    requires Inv(t) && Waiting(t, r) && !Answers(op, r)
    ensures r < |Apply(t, op).flows| && Apply(t, op).flows[r].authDeadline == None
  {
    DeadlineOf(t, op, r);
    hide Inv, Apply;
    if op.OpMarkSent? && ByID(t, op.authID) == Some(r) {
      NamedOnly(t, op.authID, r);
    }
  }

  lemma LatchedOnlyWithError(t: Table, op: Op, r: nat)
    requires Inv(t) && Monotone(t, op) && Waiting(t, r) && !Answers(op, r)
    ensures r < |Apply(t, op).flows|
    ensures Apply(t, op).flows[r].latched ==> Apply(t, op).flows[r].authErr.Some?
  {
    if !op.OpCache? {
      hide Inv, Apply;
      EveryOpEvolves(t, op);
      if Delivers(t, op, r) {
        NamedOnly(t, op.authID, r);
      }
    }
  }

  lemma LostStep(t: Table, op: Op, r: nat)
    requires Inv(t) && Monotone(t, op) && Lost(t, r)
    ensures EventOf(t, op, r) == None && Lost(Apply(t, op), r)
  {
    hide Inv, Apply, EventOf, Indexed;
    LatchedNoEvent(t, op, r);
    EveryOpEvolves(t, op);
    if EventOf(t, op, r) == Some(TimedOut) {
      OnlyIndexedTimeOut(t, op, r);
      assert false;
    }
  }

  lemma OnlyIndexedTimeOut(t: Table, op: Op, r: nat)
    requires Inv(t) && EventOf(t, op, r) == Some(TimedOut)
    ensures Indexed(t, r) && t.flows[r].authDeadline.Some?
    ensures op.OpExpireAuth? && t.flows[r].authDeadline.value <= op.now
  {
  }

  // ---- A flow that has its result ----

  // A flow with a result is not started again and a retry passes it by.
  lemma LatchedNoEvent(t: Table, op: Op, r: nat)
    requires Inv(t) && r < |t.flows| && t.flows[r].latched
    ensures EventOf(t, op, r) == None || EventOf(t, op, r) == Some(TimedOut)
  {
    if op.OpNextBatch? && r in Chosen(t, op.limit, op.reading) {
      ChosenAreWaiting(t, op.limit, op.reading, r);
    }
  }

  // A timeout pass charges exactly the listed flows whose deadline has passed, with a result or without,
  // and removes exactly those of them that were charged twice before.
  lemma ChargedIffDue(t: Table, now: Time, err: Error, r: nat)
    requires Inv(t) && Indexed(t, r)
    ensures var t' := ExpireAuth(t, now, err);
            var due := t.flows[r].authDeadline.Some? && t.flows[r].authDeadline.value <= now;
            && r < |t'.flows|
            && t'.flows[r].authTimeouts == t.flows[r].authTimeouts + (if due then 1 else 0)
            && (Indexed(t', r) <==> !(due && t.flows[r].authTimeouts == 2))
            && t'.flows[r].latched == (t.flows[r].latched || !Indexed(t', r))
  {
    assert r in t.lru && FlowOk(t.flows[r], true);
    ExpireFlowByFlow(t, Due(t, now), now, err);
    hide Inv, RemoveAll, ChargeAll;
  }

  // The timeouts that can still be charged to a flow with a result.
  ghost function Outstanding(t: Table, r: nat): nat {
    if Indexed(t, r) && t.flows[r].authDeadline.Some? then 1 else 0
  }

  lemma LatchedCharged(t: Table, op: Op, r: nat)
    requires Inv(t) && r < |t.flows| && EventOf(t, op, r) == Some(TimedOut)
    ensures Outstanding(t, r) == 1 && Outstanding(Apply(t, op), r) == 0
  {
    OnlyIndexedTimeOut(t, op, r);
    DeadlineOf(t, op, r);
    ChargedIffDue(t, op.now, op.expireErr, r);
    hide Inv, Indexed, ExpireAuth;
  }

  lemma LatchedStep(t: Table, op: Op, r: nat)
    requires Inv(t) && Monotone(t, op) && r < |t.flows| && t.flows[r].latched
    ensures r < |Apply(t, op).flows| && Apply(t, op).flows[r].latched
    ensures EventOf(t, op, r) == None || EventOf(t, op, r) == Some(TimedOut)
    ensures Outstanding(Apply(t, op), r) + (if EventOf(t, op, r) == Some(TimedOut) then 1 else 0) <= Outstanding(t, r)
  {
    hide Inv, Apply, Indexed, EventOf;
    LatchedNoEvent(t, op, r);
    EveryOpEvolves(t, op);
    DeadlineOf(t, op, r);
    if EventOf(t, op, r) == Some(TimedOut) {
      LatchedCharged(t, op, r);
    }
  }

  // Over any run, a flow with a result is never started and never retried; a request that was still out
  // when the result came can be charged to it, once.
  lemma {:induction false} OneTimeoutAfterResult(t: Table, ops: seq<Op>, r: nat)
    requires Inv(t) && ClockMonotone(t, ops) && r < |t.flows| && t.flows[r].latched
    ensures r < |Run(t, ops).flows| && Run(t, ops).flows[r].latched
    ensures History(t, ops, r) == [] || History(t, ops, r) == [TimedOut]
    ensures |History(t, ops, r)| + Outstanding(Run(t, ops), r) <= Outstanding(t, r)
  {
    if ops != [] {
      hide Inv, Apply, EventOf, Monotone, Outstanding;
      var before := ops[..|ops| - 1];
      OneTimeoutAfterResult(t, before, r);
      EveryRunKeepsInv(t, before);
      LatchedStep(Run(t, before), ops[|ops| - 1], r);
    }
  }

  // ---- Two runs of a single flow ----

  // A table of one flow.
  function Single(f: Flow): Table {
    EMPTY.(flows := [f], byKey := map[f.key := 0], byID := map[f.authID := 0], lru := [0], clock := f.lastSeen)
  }

  function At(now: Time): nat -> Time {
    _ => now
  }

  lemma RunThen(t: Table, ops: seq<Op>, op: Op)
    ensures Run(t, ops + [op]) == Apply(Run(t, ops), op)
    ensures ClockMonotone(t, ops + [op]) <==> ClockMonotone(t, ops) && Monotone(Run(t, ops), op)
  {
    assert (ops + [op])[..|ops|] == ops;
  }

  lemma SingleCreated(key: string)
    ensures Apply(EMPTY, OpGetOrCreate(key, "", "", 0)) == Single(NewFlow(EMPTY, key, "", "", 0))
  {
    RemoveNothing(EMPTY, ConntrackEvicted);
    assert Expired(EMPTY, 0) == {};
  }

  lemma SingleCached(f: Flow, packet: Packet)
    requires !f.latched && f.pending == []
    ensures Apply(Single(f), OpCache(0, NO_META, packet)) == Single(f.(authMeta := NO_META, pending := [packet]))
  {
    assert CacheOutcome(Single(f), 0) == Cached && f.pending + [packet] == [packet];
    assert [f][0 := f.(authMeta := NO_META, pending := [packet])] == [f.(authMeta := NO_META, pending := [packet])];
  }

  lemma SingleStarted(f: Flow, now: Time)
    requires Eligible(f, now)
    ensures Apply(Single(f), OpNextBatch(1, At(now))) == Single(f.(authStarted := true))
  {
    var t := Single(f);
    assert EligibleRefs(t, At(now), 0) == [] && EligibleRefs(t, At(now), 1) == [0];
    assert StartAll(t, [0]).flows == [f.(authStarted := true)];
  }

  lemma SingleSent(f: Flow, deadline: Time)
    requires !f.latched
    ensures Apply(Single(f), OpMarkSent(f.authID, deadline)) == Single(f.(authDeadline := Some(deadline)))
  {
  }

  lemma SingleRetried(f: Flow, now: Time)
    requires !f.latched
    ensures Apply(Single(f), OpRetry(f.authID, 0, now)) ==
            Single(f.(authStarted := false, authDeadline := None, authRetryAt := Some(now)))
  {
  }

  lemma SingleTimedOut(f: Flow, now: Time)
    requires f.authDeadline == Some(now)
    ensures f.authTimeouts < 2 ==> Apply(Single(f), OpExpireAuth(now, AuthTimeout)) == Single(Charged(f, now))
    ensures f.authTimeouts == 2 ==> Apply(Single(f), OpExpireAuth(now, AuthTimeout)).lru == []
  {
    var t := Single(f);
    assert Due(t, now) == {0};
    if f.authTimeouts < 2 {
      RemoveNothing(ChargeAll(t, {0}, now), AuthTimeout);
      assert Exhausted(t, {0}) == {};
      assert ChargeAll(t, {0}, now).flows == [Charged(f, now)];
    } else if f.authTimeouts == 2 {
      assert Exhausted(t, {0}) == {0};
      assert Without([0], {0}) == [];
      assert ExpireAuth(t, now, AuthTimeout).lru == Without([0], {0});
    }
  }

  lemma SingleCompleted(f: Flow, token: string)
    requires !f.latched
    ensures Apply(Single(f), OpComplete(f.authID, token, None)) == Single(Completed(f, token, None))
  {
  }

  // One request that no one answers: chosen, sent, and charged at its deadline.
  lemma SingleRound(ops: seq<Op>, f: Flow, now: Time, deadline: Time) returns (longer: seq<Op>)
    requires ClockMonotone(EMPTY, ops) && Run(EMPTY, ops) == Single(f)
    requires Eligible(f, now) && !f.latched && f.authTimeouts < 2
    ensures ClockMonotone(EMPTY, longer)
    ensures Run(EMPTY, longer) == Single(Charged(f.(authStarted := true, authDeadline := Some(deadline)), deadline))
  {
    hide Run, ClockMonotone, Apply, Eligible, Single, Charged;
    var started := f.(authStarted := true);
    longer := SingleRequest(ops, f, now, deadline);
    SingleTimedOut(started.(authDeadline := Some(deadline)), deadline);
    RunThen(EMPTY, longer, OpExpireAuth(deadline, AuthTimeout));
    longer := longer + [OpExpireAuth(deadline, AuthTimeout)];
  }

  lemma SingleRequest(ops: seq<Op>, f: Flow, now: Time, deadline: Time) returns (longer: seq<Op>)
    requires ClockMonotone(EMPTY, ops) && Run(EMPTY, ops) == Single(f)
    requires Eligible(f, now) && !f.latched
    ensures ClockMonotone(EMPTY, longer)
    ensures Run(EMPTY, longer) == Single(f.(authStarted := true, authDeadline := Some(deadline)))
  {
    hide Run, ClockMonotone, Apply, Eligible, Single;
    var started := f.(authStarted := true);
    SingleStarted(f, now);
    RunThen(EMPTY, ops, OpNextBatch(1, At(now)));
    longer := ops + [OpNextBatch(1, At(now))];
    SingleSent(started, deadline);
    RunThen(EMPTY, longer, OpMarkSent(f.authID, deadline));
    longer := longer + [OpMarkSent(f.authID, deadline)];
  }

  lemma SingleBegun(packet: Packet) returns (ops: seq<Op>, f: Flow)
    ensures ClockMonotone(EMPTY, ops) && Run(EMPTY, ops) == Single(f)
    ensures f == NewFlow(EMPTY, "", "", "", 0).(pending := [packet])
  {
    f := NewFlow(EMPTY, "", "", "", 0).(pending := [packet]);
    var create, cache := OpGetOrCreate("", "", "", 0), OpCache(0, NO_META, packet);
    SingleCreated("");
    SingleCached(NewFlow(EMPTY, "", "", "", 0), packet);
    assert [] + [create] == [create];
    RunThen(EMPTY, [], create);
    RunThen(EMPTY, [create], cache);
    ops := [create] + [cache];
  }

  // An authenticated flow can be lost to a timeout: two requests time out, the third is answered with
  // success, and its deadline is still charged.
  lemma AuthenticatedFlowTimesOut(packet: Packet, token: string) returns (ops: seq<Op>, last: Op)
    ensures ClockMonotone(EMPTY, ops + [last]) && last.OpExpireAuth?
    ensures var before := Run(EMPTY, ops);
            && |before.flows| == 1 && before.lru == [0]
            && before.flows[0].latched && before.flows[0].authErr == None
            && (token != "" ==> before.flows[0].connectToken == token)
    ensures Run(EMPTY, ops + [last]).lru == []
  {
    var f;
    ops, f := SingleBegun(packet);
    ops := SingleRound(ops, f, 0, 5 * SECOND);
    f := Charged(f.(authStarted := true, authDeadline := Some(5 * SECOND)), 5 * SECOND);
    ops := SingleRound(ops, f, 5 * SECOND, 10 * SECOND);
    f := Charged(f.(authStarted := true, authDeadline := Some(10 * SECOND)), 10 * SECOND);
    ops := SingleRequest(ops, f, 10 * SECOND, 15 * SECOND);
    f := f.(authStarted := true, authDeadline := Some(15 * SECOND));
    SingleCompleted(f, token);
    RunThen(EMPTY, ops, OpComplete(f.authID, token, None));
    ops := ops + [OpComplete(f.authID, token, None)];
    last := OpExpireAuth(15 * SECOND, AuthTimeout);
    hide Run, ClockMonotone, Apply;
    RunThen(EMPTY, ops, last);
    SingleTimedOut(Completed(f, token, None), 15 * SECOND);
  }

  // A retry can overtake the mark of the request it answers: the flow waits for its next request with the
  // deadline of the last one.
  lemma RetryOvertakesMark(packet: Packet, deadline: Time) returns (ops: seq<Op>)
    ensures ClockMonotone(EMPTY, ops) && !MarksAllStarted(EMPTY, ops)
    ensures var t := Run(EMPTY, ops);
            |t.flows| == 1 && !t.flows[0].authStarted && t.flows[0].authDeadline == Some(deadline)
  {
    hide Run, ClockMonotone, Apply, MarksAllStarted, Single, Inv;
    var f;
    ops, f := SingleBegun(packet);
    SingleStarted(f, 0);
    RunThen(EMPTY, ops, OpNextBatch(1, At(0)));
    ops := ops + [OpNextBatch(1, At(0))];
    f := f.(authStarted := true);
    SingleRetried(f, 0);
    RunThen(EMPTY, ops, OpRetry(f.authID, 0, 0));
    ops := ops + [OpRetry(f.authID, 0, 0)];
    f := f.(authStarted := false, authDeadline := None, authRetryAt := Some(0));
    SingleSent(f, deadline);
    RunThen(EMPTY, ops, OpMarkSent(f.authID, deadline));
    ops := ops + [OpMarkSent(f.authID, deadline)];
    StrayRun(ops, f.(authDeadline := Some(deadline)));
  }

  lemma StrayRun(ops: seq<Op>, f: Flow)
    requires ClockMonotone(EMPTY, ops) && Run(EMPTY, ops) == Single(f)
    requires !f.authStarted && f.authDeadline.Some?
    ensures !MarksAllStarted(EMPTY, ops) && Single(f).flows == [f]
  {
    hide Run, MarksAllStarted;
    EmptyTableOk(0, 16384);
    DeadlinesFollowStarts(EMPTY, ops);
    assert ops[..|ops|] == ops && !Run(EMPTY, ops).flows[0].authStarted;
    assert !NoStrayDeadline(Run(EMPTY, ops));
  }
}
