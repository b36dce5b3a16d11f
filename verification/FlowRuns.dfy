// What holds over every run of the flow table's sections, in any order and
// with any arguments: the table invariant, one result per flow, a bounded
// timeout budget, and no second authentication request without a reason.
module FlowRuns {
  import opened Prelude
  import opened FlowTable
  import opened AuthQueue

  // ---- One section at a time ----

  // A flow keeps its identity; a result, once latched, is final and its queue is empty.
  ghost predicate Evolved(f: Flow, f': Flow) {
    && f'.key == f.key && f'.authID == f.authID && f'.appID == f.appID && f'.nodeGroupID == f.nodeGroupID
    && (f.latched ==> f'.latched && f'.authErr == f.authErr && f'.connectToken == f.connectToken)
  }

  // Without a latched result, or losing the queue together with a latched error.
  ghost predicate Untouched(f: Flow, f': Flow) {
    || (f'.latched == f.latched && f'.authErr == f.authErr && f'.connectToken == f.connectToken && f'.pending == f.pending)
    || (!f.latched && f'.latched && f'.authErr.Some? && f'.pending == [])
  }

  ghost predicate Delivers(t: Table, op: Op, r: nat) {
    || (op.OpCache? && op.r == r)
    || (op.OpComplete? && op.completeErr.None? && ByID(t, op.authID) == Some(r))
  }

  ghost predicate FlowsEvolve(t: Table, t': Table) {
    && |t.flows| <= |t'.flows|
    && forall r: nat :: r < |t.flows| ==> Evolved(t.flows[r], t'.flows[r]) && Untouched(t.flows[r], t'.flows[r])
  }

  ghost predicate Evolves(t: Table, op: Op) {
    var t' := Apply(t, op);
    && |t.flows| <= |t'.flows|
    && (forall r: nat :: r < |t.flows| ==> Evolved(t.flows[r], t'.flows[r]))
    && (forall r: nat :: r < |t.flows| && !Indexed(t, r) ==> !Indexed(t', r))
    && (forall r: nat :: r < |t.flows| && !Delivers(t, op, r) ==> Untouched(t.flows[r], t'.flows[r]))
  }

  lemma RemoveEvolves(t: Table, gone: set<nat>, err: Error)
    requires FlowsOk(t)
    ensures var t' := RemoveAll(t, gone, err);
            && |t'.flows| == |t.flows|
            && FlowsEvolve(t, t')
            && (forall r: nat :: !Indexed(t, r) ==> !Indexed(t', r))
  {
    RemoveUnindexes(t, gone, err);
    forall r: nat | r < |t.flows|
      ensures Evolved(t.flows[r], RemoveAll(t, gone, err).flows[r]) && Untouched(t.flows[r], RemoveAll(t, gone, err).flows[r])
    {
      assert FlowOk(t.flows[r], Indexed(t, r));
    }
  }

  lemma UpdateKeepsFlows(t: Table, op: Op)
    requires op.OpMarkSent? || op.OpRetry?
    ensures Apply(t, op).byKey == t.byKey && FlowsEvolve(t, Apply(t, op))
  {
  }

  lemma UpdateEvolves(t: Table, op: Op)
    requires op.OpMarkSent? || op.OpRetry?
    ensures Evolves(t, op)
  {
    UpdateKeepsFlows(t, op);
    hide Apply;
    SameKeysEvolve(t, op);
  }

  // A section that unindexes nothing by key.
  lemma SameKeysEvolve(t: Table, op: Op)
    requires Apply(t, op).byKey == t.byKey && FlowsEvolve(t, Apply(t, op))
    ensures Evolves(t, op)
  {
    hide Apply, Delivers;
  }

  lemma UnindexingEvolves(t: Table, op: Op)
    requires FlowsEvolve(t, Apply(t, op)) && forall r: nat :: !Indexed(t, r) ==> !Indexed(Apply(t, op), r)
    ensures Evolves(t, op)
  {
    hide Apply, Delivers, Indexed;
  }

  lemma StartEvolves(t: Table, limit: nat, clock: nat -> Time)
    ensures Evolves(t, OpNextBatch(limit, clock))
  {
    hide Chosen;
    assert NextAuthBatch(t, limit, clock).byKey == t.byKey;
  }

  lemma CacheEvolves(t: Table, r: nat, meta: PacketMeta, packet: Packet)
    ensures Evolves(t, OpCache(r, meta, packet))
  {
    hide CacheOutcome;
    assert CachePacket(t, r, meta, packet).byKey == t.byKey;
  }

  lemma ObserveEvolves(t: Table, key: string, o: Observed, now: Time)
    ensures Evolves(t, OpObserve(key, o, now))
  {
    hide Without, ObservedFlow;
    assert ObservePacket(t, key, o, now).byKey == t.byKey;
    ObservingKeepsResults(t, o, now);
  }

  lemma ObservingKeepsResults(t: Table, o: Observed, now: Time)
    ensures forall r: nat :: r < |t.flows| ==>
      var f := t.flows[r];
      var f' := ObservedFlow(f, o, now);
      && f'.key == f.key && f'.authID == f.authID && f'.appID == f.appID && f'.nodeGroupID == f.nodeGroupID
      && f'.latched == f.latched && f'.authErr == f.authErr && f'.connectToken == f.connectToken && f'.pending == f.pending
  {
  }

  // Completing an authentication touches no other flow.
  lemma CompleteTouchesOne(t: Table, authID: nat, token: string, err: Option<Error>)
    ensures |CompleteAuth(t, authID, token, err).flows| == |t.flows|
    ensures forall x: nat :: x < |t.flows| && ByID(t, authID) != Some(x) ==>
              CompleteAuth(t, authID, token, err).flows[x] == t.flows[x]
  {
    hide Without;
  }

  lemma CompletedFlow(t: Table, authID: nat, token: string, err: Option<Error>, r: nat)
    requires ByID(t, authID) == Some(r) && r < |t.flows| && FlowOk(t.flows[r], Indexed(t, r))
    ensures Evolved(t.flows[r], CompleteAuth(t, authID, token, err).flows[r])
    ensures err.Some? ==> Untouched(t.flows[r], CompleteAuth(t, authID, token, err).flows[r])
  {
    hide Without;
  }

  lemma CompleteUnindexes(t: Table, authID: nat, token: string, err: Option<Error>, r: nat)
    requires !Indexed(t, r)
    ensures !Indexed(CompleteAuth(t, authID, token, err), r)
  {
    hide Without;
  }

  lemma CompleteEvolves(t: Table, authID: nat, token: string, err: Option<Error>)
    requires Inv(t)
    ensures Evolves(t, OpComplete(authID, token, err))
  {
    var t' := CompleteAuth(t, authID, token, err);
    CompleteTouchesOne(t, authID, token, err);
    forall r: nat | r < |t.flows|
      ensures Evolved(t.flows[r], t'.flows[r])
      ensures !Delivers(t, OpComplete(authID, token, err), r) ==> Untouched(t.flows[r], t'.flows[r])
      ensures !Indexed(t, r) ==> !Indexed(t', r)
    {
      if ByID(t, authID) == Some(r) {
        assert FlowOk(t.flows[r], Indexed(t, r));
        CompletedFlow(t, authID, token, err, r);
      }
      if !Indexed(t, r) { CompleteUnindexes(t, authID, token, err, r); }
    }
    hide CompleteAuth, Inv, Indexed;
  }

  lemma ExpireEvolves(t: Table, now: Time, err: Error)
    requires Inv(t)
    ensures Evolves(t, OpExpireAuth(now, err))
  {
    hide IndexesAgree, IDsInOrder, Sorted, FlowsOk, RemoveAll, ChargeAll, Indexed;
    var due := Due(t, now);
    var t' := ExpireThese(t, due, now, err);
    assert t' == ExpireAuth(t, now, err);
    ExpireFlowByFlow(t, due, now, err);
    forall r: nat | r < |t.flows|
      ensures Evolved(t.flows[r], t'.flows[r]) && Untouched(t.flows[r], t'.flows[r])
    {
      LatchedMeansEmpty(t, r);
    }
  }

  lemma LatchedMeansEmpty(t: Table, r: nat)
    requires FlowsOk(t) && r < |t.flows|
    ensures t.flows[r].latched ==> t.flows[r].pending == []
  {
    assert FlowOk(t.flows[r], Indexed(t, r));
  }

  lemma EvolveTwice(t0: Table, t1: Table, t2: Table)
    requires FlowsEvolve(t0, t1) && FlowsEvolve(t1, t2)
    ensures FlowsEvolve(t0, t2)
  {
  }

  lemma CreateEvolves(t0: Table, key: string, appID: string, nodeGroupID: string, now: Time)
    requires Inv(t0) && t0.clock <= now
    ensures Evolves(t0, OpGetOrCreate(key, appID, nodeGroupID, now))
  {
    hide Inv, Indexed, RemoveExpired, MakeRoom, Added, Touched, NewFlow, FlowsEvolve, Monotone;
    var t := RemoveExpired(t0, now);
    ExpiryEvolves(t0, now);
    CreationUnindexes(t, key, appID, nodeGroupID, now);
    CreationEvolves(t, key, appID, nodeGroupID, now);
    var t' := GetOrCreate(t0, key, appID, nodeGroupID, now).0;
    assert FlowsEvolve(t, t');
    EvolveTwice(t0, t, t');
    EvolveMeans(t0, t');
  }

  lemma EvolveMeans(t: Table, t': Table)
    requires FlowsEvolve(t, t')
    ensures |t.flows| <= |t'.flows|
    ensures forall r: nat :: r < |t.flows| ==> Evolved(t.flows[r], t'.flows[r]) && Untouched(t.flows[r], t'.flows[r])
  {
  }

  lemma ExpiryEvolves(t: Table, now: Time)
    requires Inv(t)
    ensures Inv(RemoveExpired(t, now)) && FlowsEvolve(t, RemoveExpired(t, now))
    ensures |RemoveExpired(t, now).flows| == |t.flows|
    ensures forall r: nat :: !Indexed(t, r) ==> !Indexed(RemoveExpired(t, now), r)
  {
    RemoveKeepsInv(t, Expired(t, now), ConntrackEvicted);
    RemoveEvolves(t, Expired(t, now), ConntrackEvicted);
  }

  // Each outcome of creation leaves the existing flows' results and queues alone.
  lemma CreationEvolves(t: Table, key: string, appID: string, nodeGroupID: string, now: Time)
    requires Inv(t)
    ensures var f := NewFlow(t, key, appID, nodeGroupID, now);
            && FlowsEvolve(t, Added(MakeRoom(t), f))
            && FlowsEvolve(t, t.(flows := t.flows + [f]))
            && (key in t.byKey && t.byKey[key] < |t.flows| ==>
                  FlowsEvolve(t, Touched(t, t.byKey[key], t.flows[t.byKey[key]], now)))
  {
    hide Structured, RemoveAll, Without;
    RemoveEvolves(t, Oldest(t), ConntrackEvicted);
  }

  // Creating a flow indexes no other flow.
  lemma CreationUnindexes(t: Table, key: string, appID: string, nodeGroupID: string, now: Time)
    requires Inv(t)
    ensures var f := NewFlow(t, key, appID, nodeGroupID, now);
            && (forall r: nat :: r < |t.flows| && !Indexed(t, r) ==> !Indexed(Added(MakeRoom(t), f), r))
            && (key in t.byKey ==> forall r: nat :: r < |t.flows| && !Indexed(t, r) ==>
                  !Indexed(Touched(t, t.byKey[key], t.flows[t.byKey[key]], now), r))
            && (forall r: nat :: r < |t.flows| && !Indexed(t, r) ==> !Indexed(t.(flows := t.flows + [f]), r))
  {
    hide Structured, FlowsOk, Without;
    RemoveUnindexes(t, Oldest(t), ConntrackEvicted);
    assert key in t.byKey ==> t.byKey[key] < |t.flows| by {
      EntriesInRange(t);
    }
  }

  lemma EntriesInRange(t: Table)
    requires Inv(t)
    ensures forall k :: k in t.byKey ==> t.byKey[k] < |t.flows| && t.flows[t.byKey[k]].key == k
  {
  }

  lemma CloseEvolves(t: Table)
    requires Inv(t)
    ensures Evolves(t, OpClose)
  {
    hide Structured, RemoveAll, Indexed, FlowsOk, Evolved, Untouched;
    var all := set k | k in t.byKey :: t.byKey[k];
    ClosedMarkIsNoChange(t, all);
    RemoveEvolves(t, all, NetClosed);
    UnindexingEvolves(t, OpClose);
  }

  lemma ClosedMarkIsNoChange(t: Table, gone: set<nat>)
    ensures RemoveAll(t.(closed := true), gone, NetClosed).flows == RemoveAll(t, gone, NetClosed).flows
    ensures forall r: nat :: Indexed(RemoveAll(t.(closed := true), gone, NetClosed), r) <==>
                             Indexed(RemoveAll(t, gone, NetClosed), r)
  {
  }

  lemma EveryOpEvolves(t: Table, op: Op)
    requires Inv(t) && Monotone(t, op)
    ensures Evolves(t, op)
  {
    hide Evolves, Inv;
    match op
    case OpGetOrCreate(key, appID, nodeGroupID, now) => CreateEvolves(t, key, appID, nodeGroupID, now);
    case OpComplete(authID, token, err) => CompleteEvolves(t, authID, token, err);
    case OpExpireAuth(now, err) => ExpireEvolves(t, now, err);
    case OpRemove(key) => RemovalEvolves(t, op);
    case OpRemoveExpired(now) => RemovalEvolves(t, op);
    case OpClose => CloseEvolves(t);
    case OpCache(r, meta, packet) => CacheEvolves(t, r, meta, packet);
    case OpObserve(key, o, now) => ObserveEvolves(t, key, o, now);
    case OpNextBatch(limit, clock) => StartEvolves(t, limit, clock);
    case _ => UpdateEvolves(t, op);
  }

  lemma RemovalEvolves(t: Table, op: Op)
    requires Inv(t) && (op.OpRemove? || op.OpRemoveExpired?)
    ensures Evolves(t, op)
  {
    hide Structured, RemoveAll, Indexed, FlowsOk, FlowsEvolve, Evolves, Expired;
    if op.OpRemoveExpired? {
      RemoveEvolves(t, Expired(t, op.now), ConntrackEvicted);
    } else if op.key in t.byKey {
      RemoveEvolves(t, {t.byKey[op.key]}, ConntrackEvicted);
    } else {
      NothingEvolves(t);
    }
    UnindexingEvolves(t, op);
  }

  lemma NothingEvolves(t: Table)
    ensures FlowsEvolve(t, t)
  {
  }

  // ---- Whole runs ----

  function Run(t: Table, ops: seq<Op>): Table {
    if ops == [] then t else Apply(Run(t, ops[..|ops| - 1]), ops[|ops| - 1])
  }

  ghost predicate ClockMonotone(t: Table, ops: seq<Op>) {
    ops != [] ==>
      var before := ops[..|ops| - 1];
      ClockMonotone(t, before) && Monotone(Run(t, before), ops[|ops| - 1])
  }

  lemma EmptyTableOk(ttl: Time, maxEntries: nat)
    ensures Inv(EMPTY.(ttl := ttl, maxEntries := maxEntries))
  {
  }

  lemma {:induction false} EveryRunKeepsInv(t: Table, ops: seq<Op>)
    requires Inv(t) && ClockMonotone(t, ops)
    ensures Inv(Run(t, ops))
  {
    if ops != [] {
      hide Inv, Apply;
      var before := ops[..|ops| - 1];
      EveryRunKeepsInv(t, before);
      ApplyKeepsInv(Run(t, before), ops[|ops| - 1]);
    }
  }

  // A flow that has its result keeps it for the rest of the run: its latch closes once.
  lemma {:induction false} ResultsAreFinal(t: Table, ops: seq<Op>, r: nat)
    requires Inv(t) && ClockMonotone(t, ops) && r < |t.flows|
    ensures r < |Run(t, ops).flows|
    ensures Evolved(t.flows[r], Run(t, ops).flows[r])
    ensures !Indexed(t, r) ==> !Indexed(Run(t, ops), r)
  {
    if ops != [] {
      hide Inv, Apply, Indexed;
      var before := ops[..|ops| - 1];
      ResultsAreFinal(t, before, r);
      EveryRunKeepsInv(t, before);
      EveryOpEvolves(Run(t, before), ops[|ops| - 1]);
    }
  }

  // The fallback error for an evicted flow without a result is never returned: a flow that
  // left the table always carries its own result.
  lemma EvictionFallbackUnreachable(t: Table, r: nat)
    requires Inv(t) && r < |t.flows|
    ensures CacheOutcome(t, r).Refused? ==> CacheOutcome(t, r).err == t.flows[r].authErr && t.flows[r].latched
    ensures CacheOutcome(t, r) == Refused(None) <==> t.flows[r].latched && t.flows[r].authErr == None
  {
    assert FlowOk(t.flows[r], Indexed(t, r));
  }

  // ---- Authentication requests ----

  datatype AuthEvent = Started | TimedOut | ToldToRetry

  function EventOf(t: Table, op: Op, r: nat): Option<AuthEvent> {
    match op
    case OpNextBatch(limit, reading) => if r in Chosen(t, limit, reading) then Some(Started) else None
    case OpExpireAuth(now, _) => if r in Due(t, now) then Some(TimedOut) else None
    case OpRetry(authID, _, _) =>
      if ByID(t, authID) == Some(r) && !t.flows[r].latched then Some(ToldToRetry) else None
    case _ => None
  }

  // What happened to one flow's authentication during a run, oldest first.
  function History(t: Table, ops: seq<Op>, r: nat): seq<AuthEvent> {
    if ops == [] then [] else
    var before := ops[..|ops| - 1];
    var event := EventOf(Run(t, before), ops[|ops| - 1], r);
    History(t, before, r) + if event.Some? then [event.value] else []
  }

  function Timeouts(h: seq<AuthEvent>): nat {
    if h == [] then 0 else Timeouts(h[..|h| - 1]) + if h[|h| - 1] == TimedOut then 1 else 0
  }

  ghost predicate NeverStartedTwice(h: seq<AuthEvent>) {
    forall i :: 0 <= i && i + 1 < |h| && h[i] == Started ==> h[i + 1] != Started
  }

  lemma ChosenAreWaiting(t: Table, limit: nat, clock: nat -> Time, r: nat)
    requires Inv(t) && r in Chosen(t, limit, clock)
    ensures Indexed(t, r) && !t.flows[r].latched && !t.flows[r].authStarted && t.flows[r].pending != []
  {
    EligibleMembers(t, clock, |t.lru|);
    assert r in EligibleRefs(t, clock, |t.lru|);
    assert FlowOk(t.flows[r], Indexed(t, r));
  }

  lemma {:induction false} EligibleMembers(t: Table, clock: nat -> Time, n: nat)
    requires n <= |t.lru|
    ensures forall r :: r in EligibleRefs(t, clock, n) ==>
      && r < |t.flows| && r in t.lru && !t.flows[r].authStarted && t.flows[r].pending != []
  {
    if n > 0 {
      EligibleMembers(t, clock, n - 1);
    }
  }

  lemma TakenOrNot(before: seq<nat>, x: nat, rest: seq<nat>, limit: nat)
    requires x !in before && x !in rest
    ensures var all := before + [x] + rest; x in all[..Min(limit, |all|)] <==> |before| < limit
    ensures var all := before + rest; x !in all[..Min(limit, |all|)]
  {
    var all := before + [x] + rest;
    assert forall k :: 0 <= k < |all| && all[k] == x ==> k == |before|;
    assert all[|before|] == x;
    if |before| < limit {
      assert all[..Min(limit, |all|)][|before|] == x;
    }
  }

  // A batch is exactly the eligible flows with fewer than `limit` eligible flows before them.
  lemma {:induction false} BatchIsFirstEligible(t: Table, limit: nat, clock: nat -> Time, i: nat)
    requires NoDuplicates(t.lru) && i < |t.lru| && t.lru[i] < |t.flows|
    ensures t.lru[i] in Chosen(t, limit, clock) <==>
            Eligible(t.flows[t.lru[i]], clock(i)) && |EligibleRefs(t, clock, i)| < limit
  {
    var all, before := EligibleRefs(t, clock, |t.lru|), EligibleRefs(t, clock, i);
    var rank := |before|;
    NotAmongEarlier(t, clock, i);
    EligiblePrefix(t, clock, i, |t.lru|);
    EligiblePrefix(t, clock, i + 1, |t.lru|);
    LaterEligible(t, clock, i, |t.lru|);
    hide Eligible;
    if Eligible(t.flows[t.lru[i]], clock(i)) {
      assert EligibleRefs(t, clock, i + 1) == before + [t.lru[i]];
      assert all == before + [t.lru[i]] + all[rank + 1..];
      TakenOrNot(before, t.lru[i], all[rank + 1..], limit);
    } else {
      assert all == before + all[rank..];
      TakenOrNot(before, t.lru[i], all[rank..], limit);
    }
  }

  lemma NotAmongEarlier(t: Table, clock: nat -> Time, i: nat)
    requires NoDuplicates(t.lru) && i < |t.lru|
    ensures t.lru[i] !in EligibleRefs(t, clock, i)
  {
    EligiblePrefix(t, clock, i, i);
  }

  // List elements after the i-th contribute nothing equal to the i-th.
  lemma {:induction false} LaterEligible(t: Table, clock: nat -> Time, i: nat, n: nat)
    requires NoDuplicates(t.lru) && i < n <= |t.lru| && t.lru[i] < |t.flows|
    ensures var rank := |EligibleRefs(t, clock, i)| + if Eligible(t.flows[t.lru[i]], clock(i)) then 1 else 0;
            rank <= |EligibleRefs(t, clock, n)| && t.lru[i] !in EligibleRefs(t, clock, n)[rank..]
  {
    if n > i + 1 {
      LaterEligible(t, clock, i, n - 1);
      var rank := |EligibleRefs(t, clock, i)| + if Eligible(t.flows[t.lru[i]], clock(i)) then 1 else 0;
      var shorter := EligibleRefs(t, clock, n - 1);
      var longer := EligibleRefs(t, clock, n);
      assert longer[rank..] == shorter[rank..] + longer[|shorter|..];
    }
  }

  ghost predicate HistoryFits(t: Table, h: seq<AuthEvent>, r: nat) {
    && NeverStartedTwice(h)
    && (r >= |t.flows| ==> h == [])
    && (r < |t.flows| ==>
         && Timeouts(h) == t.flows[r].authTimeouts
         && (h != [] && h[|h| - 1] == Started ==> t.flows[r].authStarted))
  }

  ghost predicate BooksFollow(f: Flow, f': Flow, event: Option<AuthEvent>) {
    match event
    case None => f'.authTimeouts == f.authTimeouts && f'.authStarted == f.authStarted
    case Some(Started) => f'.authTimeouts == f.authTimeouts && f'.authStarted && !f.authStarted
    case Some(TimedOut) => f'.authTimeouts == f.authTimeouts + 1
    case Some(ToldToRetry) => f'.authTimeouts == f.authTimeouts && !f'.authStarted
  }

  // The attempt counter and the started mark change only by an event of the flow's history.
  lemma BookkeepingFollowsEvents(t: Table, op: Op, r: nat)
    requires Inv(t) && r < |t.flows|
    ensures r < |Apply(t, op).flows| && BooksFollow(t.flows[r], Apply(t, op).flows[r], EventOf(t, op, r))
  {
    hide Inv, Without, BooksFollow;
    match op
    case OpNextBatch(limit, clock) =>
      if r in Chosen(t, limit, clock) {
        ChosenAreWaiting(t, limit, clock, r);
      }
      UpdateKeepsBooks(t, op, r);
    case OpExpireAuth(now, err) =>
      ExpireFlowByFlow(t, Due(t, now), now, err);
      TimeoutKeepsBooks(t, now, err, r);
    case OpGetOrCreate(key, appID, nodeGroupID, now) => CreationKeepsBooks(t, key, appID, nodeGroupID, now, r);
    case OpComplete(authID, token, err) => CompletionKeepsBooks(t, authID, token, err, r);
    case OpRemove(key) => RemovalKeepsBooks(t, op, r);
    case OpRemoveExpired(now) => RemovalKeepsBooks(t, op, r);
    case OpClose => RemovalKeepsBooks(t, op, r);
    case _ => UpdateKeepsBooks(t, op, r);
  }

  lemma UpdateKeepsBooks(t: Table, op: Op, r: nat)
    requires r < |t.flows|
    requires op.OpMarkSent? || op.OpRetry? || op.OpCache? || op.OpObserve? || op.OpNextBatch?
    requires op.OpNextBatch? && r in Chosen(t, op.limit, op.reading) ==> !t.flows[r].authStarted
    ensures r < |Apply(t, op).flows| && BooksFollow(t.flows[r], Apply(t, op).flows[r], EventOf(t, op, r))
  {
    hide Without;
  }

  lemma TimeoutKeepsBooks(t: Table, now: Time, err: Error, r: nat)
    requires r < |t.flows|
    ensures r < |ExpireAuth(t, now, err).flows|
    ensures BooksFollow(t.flows[r], ExpireAuth(t, now, err).flows[r], EventOf(t, OpExpireAuth(now, err), r))
  {
    hide Without;
  }

  lemma CompletionKeepsBooks(t: Table, authID: nat, token: string, err: Option<Error>, r: nat)
    requires r < |t.flows|
    ensures r < |CompleteAuth(t, authID, token, err).flows|
    ensures BooksFollow(t.flows[r], CompleteAuth(t, authID, token, err).flows[r], None)
  {
    hide Without;
  }

  lemma CreationKeepsBooks(t: Table, key: string, appID: string, nodeGroupID: string, now: Time, r: nat)
    requires r < |t.flows|
    ensures var t' := GetOrCreate(t, key, appID, nodeGroupID, now).0;
            r < |t'.flows| && BooksFollow(t.flows[r], t'.flows[r], None)
  {
    hide Without, Oldest, Expired;
  }

  lemma RemovalKeepsBooks(t: Table, op: Op, r: nat)
    requires r < |t.flows| && (op.OpRemove? || op.OpRemoveExpired? || op.OpClose?)
    ensures r < |Apply(t, op).flows| && BooksFollow(t.flows[r], Apply(t, op).flows[r], EventOf(t, op, r))
  {
    hide Without;
  }

  lemma HistoryStep(t: Table, op: Op, h: seq<AuthEvent>, r: nat)
    requires Inv(t) && HistoryFits(t, h, r)
    ensures var event := EventOf(t, op, r);
            HistoryFits(Apply(t, op), h + (if event.Some? then [event.value] else []), r)
  {
    hide Inv, Apply, EventOf;
    if r < |t.flows| {
      BookkeepingFollowsEvents(t, op, r);
    } else {
      NewFlowsAreQuiet(t, op, r);
    }
    var event := EventOf(t, op, r);
    assert event.Some? ==> (h + [event.value])[..|h|] == h;
    assert h + [] == h;
  }

  lemma {:induction false} HistoriesFit(ttl: Time, maxEntries: nat, ops: seq<Op>, r: nat)
    requires ClockMonotone(EMPTY.(ttl := ttl, maxEntries := maxEntries), ops)
    ensures var t := EMPTY.(ttl := ttl, maxEntries := maxEntries);
            HistoryFits(Run(t, ops), History(t, ops, r), r)
  {
    var t0 := EMPTY.(ttl := ttl, maxEntries := maxEntries);
    EmptyTableOk(ttl, maxEntries);
    if ops != [] {
      hide Inv, Apply, EventOf, Monotone;
      var before := ops[..|ops| - 1];
      HistoriesFit(ttl, maxEntries, before, r);
      EveryRunKeepsInv(t0, before);
      HistoryStep(Run(t0, before), ops[|ops| - 1], History(t0, before, r), r);
    }
  }

  // A flow that does not exist yet has no event, and starts with clean books.
  lemma NewFlowsAreQuiet(t: Table, op: Op, r: nat)
    requires r >= |t.flows|
    ensures EventOf(t, op, r) == None
    ensures r < |Apply(t, op).flows| ==> Apply(t, op).flows[r].authTimeouts == 0 && !Apply(t, op).flows[r].authStarted
  {
    hide Without;
    if op.OpNextBatch? {
      EligibleMembers(t, op.reading, |t.lru|);
      assert r !in EligibleRefs(t, op.reading, |t.lru|);
    }
  }

  // No flow is authenticated twice in a row without a timeout or a server retry in between;
  // a flow is charged at most three timeouts in its life, and at most two while it is indexed;
  // nothing but a timeout is ever charged.
  lemma AuthenticationDiscipline(ttl: Time, maxEntries: nat, ops: seq<Op>, r: nat)
    requires ClockMonotone(EMPTY.(ttl := ttl, maxEntries := maxEntries), ops)
    ensures var t := EMPTY.(ttl := ttl, maxEntries := maxEntries);
            var h := History(t, ops, r);
            && NeverStartedTwice(h)
            && Timeouts(h) <= MAX_AUTH_ATTEMPTS
            && (Indexed(Run(t, ops), r) ==> Timeouts(h) < MAX_AUTH_ATTEMPTS)
  {
    var t := EMPTY.(ttl := ttl, maxEntries := maxEntries);
    EmptyTableOk(ttl, maxEntries);
    HistoriesFit(ttl, maxEntries, ops, r);
    EveryRunKeepsInv(t, ops);
    var last := Run(t, ops);
    assert r < |last.flows| ==> FlowOk(last.flows[r], Indexed(last, r));
  }
}
