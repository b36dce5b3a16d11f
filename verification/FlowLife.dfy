// The life of a flow in the table: how long it is kept, which flow a key
// finds, which flow makes room, and what its tracker has seen.
module FlowLife {
  import opened Prelude
  import opened FlowTable
  import opened AuthQueue
  import opened FlowRuns
  import TcpTracker

  // ---- Which flow a key finds ----

  // In the table, and its time is not over: a fixed time after its last use, if the table has one, else
  // the time set when it was last observed.
  ghost predicate Live(t: Table, now: Time, r: nat) {
    Indexed(t, r) && now < if t.ttl > 0 then t.flows[r].lastSeen + t.ttl else t.flows[r].expiresAt
  }

  lemma ExpiredNotLive(t: Table, now: Time, r: nat)
    requires Inv(t) && Indexed(t, r)
    ensures r in Expired(t, now) <==> !Live(t, now, r)
  {
    assert r in t.lru;
    hide Inv;
  }

  // Expiry unlinks exactly the flows whose time is over; those without a result fail.
  lemma ExpiryIsExact(t: Table, now: Time, r: nat)
    requires Inv(t) && r < |t.flows|
    ensures var t' := RemoveExpired(t, now);
            && |t'.flows| == |t.flows| && (Indexed(t', r) <==> Live(t, now, r))
            && t'.flows[r] == if !Indexed(t, r) || Live(t, now, r) || t.flows[r].latched then t.flows[r]
                              else t.flows[r].(pending := [], latched := true, authErr := Some(ConntrackEvicted))
  {
    RemoveUnindexes(t, Expired(t, now), ConntrackEvicted);
    assert FlowOk(t.flows[r], Indexed(t, r));
    if Indexed(t, r) {
      ExpiredNotLive(t, now, r);
    } else {
      assert r !in t.lru;
    }
    hide Inv, Without, Live, Indexed;
  }

  // The flow a new flow is made as.
  function Newborn(t: Table, key: string, appID: string, nodeGroupID: string, now: Time): Flow {
    Flow(key := key, authID := |t.flows| + 1, appID := appID, nodeGroupID := nodeGroupID,
         latched := t.closed, authErr := if t.closed then Some(NetClosed) else None, connectToken := "",
         authStarted := false, authTimeouts := 0, authMeta := PacketMeta(0, 0, "", "", 0, 0),
         authDeadline := None, authRetryAt := None, pending := [],
         lastSeen := now, expiresAt := now + 60 * SECOND, tcp := TcpTracker.Tracker(TcpTracker.Reset, 0, 0))
  }

  // After expiry the table holds the live flows, each under its key.
  lemma LeftAreLive(t: Table, now: Time, key: string)
    requires Inv(t)
    ensures Inv(RemoveExpired(t, now)) && |RemoveExpired(t, now).flows| == |t.flows|
    ensures forall x: nat :: Indexed(RemoveExpired(t, now), x) <==> Live(t, now, x)
    ensures key in RemoveExpired(t, now).byKey <==> key in t.byKey && Live(t, now, t.byKey[key])
    ensures key in RemoveExpired(t, now).byKey ==> RemoveExpired(t, now).byKey[key] == t.byKey[key] < |t.flows|
                                                   && t.flows[t.byKey[key]].key == key
  {
    RemoveKeepsInv(t, Expired(t, now), ConntrackEvicted);
    KeyLeft(t, now, key);
    hide Inv, Live, Indexed, Expired;
    SizesLeft(t, now);
    forall x: nat
      ensures Indexed(RemoveExpired(t, now), x) <==> Live(t, now, x)
    {
      LiveInRange(t, now, x);
      LiveInRange(RemoveExpired(t, now), now, x);
      if x < |t.flows| {
        ExpiryIsExact(t, now, x);
      }
    }
    hide RemoveExpired;
  }

  lemma SizesLeft(t: Table, now: Time)
    ensures |RemoveExpired(t, now).flows| == |t.flows|
  {
  }

  lemma LiveInRange(t: Table, now: Time, r: nat)
    ensures Live(t, now, r) || Indexed(t, r) ==> r < |t.flows|
  {
  }

  lemma KeyLeft(t: Table, now: Time, key: string)
    requires Inv(t)
    ensures key in RemoveExpired(t, now).byKey <==> key in t.byKey && Live(t, now, t.byKey[key])
    ensures key in RemoveExpired(t, now).byKey ==> RemoveExpired(t, now).byKey[key] == t.byKey[key] < |t.flows|
                                                   && t.flows[t.byKey[key]].key == key
  {
    if key in t.byKey {
      assert Indexed(t, t.byKey[key]);
      ExpiredNotLive(t, now, t.byKey[key]);
      assert t.byKey[key] < |t.flows| && t.flows[t.byKey[key]].key == key;
    }
    hide Inv, Live, Expired, Without;
  }

  lemma KeysName(t: Table, key: string)
    requires Inv(t) && key in t.byKey
    ensures t.byKey[key] < |t.flows| && t.flows[t.byKey[key]].key == key && Indexed(t, t.byKey[key])
  {
  }

  // A key with a live flow finds that flow, which is thereby seen now; nothing live is lost.
  lemma LiveKeyKeepsItsFlow(t: Table, key: string, appID: string, nodeGroupID: string, now: Time)
    requires Inv(t) && key in t.byKey && Live(t, now, t.byKey[key])
    ensures t.byKey[key] < |t.flows|
    ensures var (t', r) := GetOrCreate(t, key, appID, nodeGroupID, now);
            && r == t.byKey[key] && |t'.flows| == |t.flows| && t'.flows[r] == t.flows[r].(lastSeen := now)
            && (forall x: nat :: Indexed(t', x) <==> Live(t, now, x))
            && t'.lru != [] && t'.lru[|t'.lru| - 1] == r
  {
    hide Inv, RemoveExpired, Live, Without;
    LeftAreLive(t, now, key);
    LiveIsIndexed(t, now, t.byKey[key]);
    ExpiryIsExact(t, now, t.byKey[key]);
    TouchUnlinksNothing(RemoveExpired(t, now), t.byKey[key], now);
  }

  lemma TouchUnlinksNothing(t: Table, r: nat, now: Time)
    requires r < |t.flows|
    ensures var t' := Touched(t, r, t.flows[r], now);
            && t'.flows[r] == t.flows[r].(lastSeen := now) && |t'.flows| == |t.flows|
            && t'.lru != [] && t'.lru[|t'.lru| - 1] == r
            && forall x: nat :: Indexed(t', x) <==> Indexed(t, x)
  {
    hide Without;
  }

  // A key without a live flow gets a new one, under its key unless the table is closed.
  lemma NoLiveFlowMakesOne(t: Table, key: string, appID: string, nodeGroupID: string, now: Time)
    requires Inv(t) && (key in t.byKey ==> !Live(t, now, t.byKey[key]))
    ensures var (t', r) := GetOrCreate(t, key, appID, nodeGroupID, now);
            && r == |t.flows| && |t'.flows| == |t.flows| + 1
            && t'.flows[r] == Newborn(t, key, appID, nodeGroupID, now)
            && (Indexed(t', r) <==> !t.closed)
  {
    LeftAreLive(t, now, key);
    var t1 := RemoveExpired(t, now);
    assert !Indexed(t1, |t.flows|);
    RoomKeepsRest(t1, key);
    hide Inv, Live, Expired, Without, MakeRoom;
  }

  lemma RoomKeepsRest(t: Table, key: string)
    ensures |MakeRoom(t).flows| == |t.flows| && MakeRoom(t).closed == t.closed
    ensures !Indexed(t.(flows := t.flows + [Newborn(t, key, "", "", 0)]), |t.flows|) <== key !in t.byKey
  {
  }

  ghost function LiveFlows(t: Table, now: Time): set<nat> {
    set r | r in t.lru && Live(t, now, r)
  }

  lemma LiveCounted(t: Table, now: Time)
    requires Inv(t)
    ensures |LiveFlows(t, now)| == |RemoveExpired(t, now).lru| == |RemoveExpired(t, now).byKey|
    ensures forall r: nat :: r in LiveFlows(t, now) <==> Live(t, now, r)
  {
    hide Live, Indexed, RemoveExpired;
    var t1 := RemoveExpired(t, now);
    LeftAreLive(t, now, "");
    ListCounted(t1);
    hide Inv;
    forall r: nat
      ensures r in LiveFlows(t, now) <==> Live(t, now, r)
      ensures r in Elements(t1.lru) <==> Live(t, now, r)
    {
      ListedIsIndexed(t, r);
      ListedIsIndexed(t1, r);
      LiveIsIndexed(t, now, r);
    }
    assert LiveFlows(t, now) == Elements(t1.lru);
  }

  lemma LiveIsIndexed(t: Table, now: Time, r: nat)
    ensures Live(t, now, r) ==> Indexed(t, r)
  {
  }

  lemma ListCounted(t: Table)
    requires Inv(t)
    ensures |Elements(t.lru)| == |t.lru| == |t.byKey|
  {
    IndexesHaveOneSize(t);
    ElementsCounted(t.lru);
  }

  // When a new flow finds room, every live flow stays; when the table is full of live flows, it takes the
  // place of the one that was seen the longest ago.
  lemma LeastRecentMakesRoom(t: Table, key: string, appID: string, nodeGroupID: string, now: Time)
    returns (victim: nat)
    requires Inv(t) && !t.closed && (key in t.byKey ==> !Live(t, now, t.byKey[key]))
    ensures var (t', r) := GetOrCreate(t, key, appID, nodeGroupID, now);
            if |LiveFlows(t, now)| < t.maxEntries || LiveFlows(t, now) == {} then
              forall x: nat :: Indexed(t', x) <==> Live(t, now, x) || x == r
            else
              && victim in LiveFlows(t, now) && victim < |t.flows| && victim < |t'.flows|
              && (forall x :: x in LiveFlows(t, now) ==>
                    x < |t.flows| && t.flows[victim].lastSeen <= t.flows[x].lastSeen)
              && (forall x: nat :: Indexed(t', x) <==> (Live(t, now, x) && x != victim) || x == r)
              && t'.flows[victim].latched && t'.flows[victim].pending == []
              && (!t.flows[victim].latched ==> t'.flows[victim].authErr == Some(ConntrackEvicted))
  {
    LiveCounted(t, now);
    LeftAreLive(t, now, key);
    var t1, f := RemoveExpired(t, now), NewFlow(RemoveExpired(t, now), key, appID, nodeGroupID, now);
    victim := FrontMakesRoom(t1);
    RoomMade(t1);
    SameInLive(t, now, t1.lru);
    AddedIsIndexed(MakeRoom(t1), f);
    assert GetOrCreate(t, key, appID, nodeGroupID, now) == (Added(MakeRoom(t1), f), |t1.flows|);
    hide Inv, RemoveExpired, MakeRoom, NewFlow, Added, Live, Indexed, GetOrCreate;
    if t1.lru == [] {
      assert LiveFlows(t, now) == {};
    }
  }

  lemma FrontMakesRoom(t: Table) returns (victim: nat)
    requires Inv(t)
    ensures |MakeRoom(t).flows| == |t.flows| && MakeRoom(t).closed == t.closed
    ensures if |t.byKey| < t.maxEntries || t.lru == [] then
              forall x: nat :: Indexed(MakeRoom(t), x) <==> Indexed(t, x)
            else
              && victim in t.lru && victim < |t.flows|
              && (forall x :: x in t.lru ==> x < |t.flows| && t.flows[victim].lastSeen <= t.flows[x].lastSeen)
              && (forall x: nat :: Indexed(MakeRoom(t), x) <==> Indexed(t, x) && x != victim)
              && MakeRoom(t).flows[victim].latched && MakeRoom(t).flows[victim].pending == []
              && (!t.flows[victim].latched ==> MakeRoom(t).flows[victim].authErr == Some(ConntrackEvicted))
  {
    hide Inv, Indexed, Without;
    victim := if t.lru == [] then 0 else t.lru[0];
    RemoveUnindexes(t, Oldest(t), ConntrackEvicted);
    if t.lru != [] {
      FrontSeenFirst(t);
    }
  }

  lemma FrontSeenFirst(t: Table)
    requires Inv(t) && t.lru != []
    ensures t.lru[0] < |t.flows| && t.lru[0] in t.lru
    ensures forall x :: x in t.lru ==> x < |t.flows| && t.flows[t.lru[0]].lastSeen <= t.flows[x].lastSeen
    ensures t.flows[t.lru[0]].latched ==> t.flows[t.lru[0]].pending == []
  {
    assert t.lru == [t.lru[0]] + t.lru[1..];
    assert SeenInOrder(t.flows, t.lru);
    assert FlowOk(t.flows[t.lru[0]], Indexed(t, t.lru[0]));
    hide Inv;
  }

  lemma AddedIsIndexed(t: Table, f: Flow)
    requires Inv(t) && f.key !in t.byKey && f.authID == |t.flows| + 1
    ensures |Added(t, f).flows| == |t.flows| + 1 && forall x :: 0 <= x < |t.flows| ==> Added(t, f).flows[x] == t.flows[x]
    ensures forall x: nat :: Indexed(Added(t, f), x) <==> Indexed(t, x) || x == |t.flows|
  {
    AddKeepsIndexes(t, f);
  }

  // Live flows are as they were after expiry.
  lemma SameInLive(t: Table, now: Time, s: seq<nat>)
    requires Inv(t) && s == RemoveExpired(t, now).lru
    ensures forall x :: x in s ==> x < |t.flows| && RemoveExpired(t, now).flows[x] == t.flows[x]
    ensures forall x: nat :: x in s <==> Live(t, now, x)
    ensures |RemoveExpired(t, now).flows| == |t.flows|
  {
    LeftAreLive(t, now, "");
    forall x: nat
      ensures x in s <==> Live(t, now, x)
      ensures x in s ==> x < |t.flows| && RemoveExpired(t, now).flows[x] == t.flows[x]
    {
      ListedIsIndexed(RemoveExpired(t, now), x);
      if Live(t, now, x) {
        ExpiryIsExact(t, now, x);
      }
    }
    hide Inv, RemoveExpired, Live, Indexed;
  }

  lemma ListedIsIndexed(t: Table, r: nat)
    requires Inv(t)
    ensures r in t.lru <==> Indexed(t, r)
  {
  }

  // ---- What a flow has seen ----

  // An observed packet finds the flow of its key and nothing else: the flow is seen now, its tracker has
  // observed the segment, and it lives on for its tracker's lifetime, or for 120, 30 or 60 seconds.
  lemma ObservingMeans(t: Table, key: string, o: Observed, now: Time)
    requires Inv(t)
    ensures var t' := ObservePacket(t, key, o, now);
            if key !in t.byKey then t' == t else
            var r := t.byKey[key];
            && r < |t.flows| == |t'.flows|
            && (forall x: nat :: Indexed(t', x) <==> Indexed(t, x))
            && (forall x: nat :: x < |t.flows| && x != r ==> t'.flows[x] == t.flows[x])
            && var f, f' := t.flows[r], t'.flows[r];
               && f'.tcp == (if o.Tcp? then TcpTracker.Observe(f.tcp, o.segment) else f.tcp)
               && f'.expiresAt == now + SECOND * (if o.Tcp? then f'.tcp.ttl
                                                   else if o.Udp? then 120 else if o.Icmp? then 30 else 60)
               && f'.authMeta.proto == (if o.Tcp? || o.ShortTcp? then 6 else if o.Udp? then 17 else if o.Icmp? then 1
                                        else if o.OtherProtocol? then o.number else f.authMeta.proto)
               && f' == f.(tcp := f'.tcp, expiresAt := f'.expiresAt, lastSeen := now,
                           authMeta := f.authMeta.(proto := f'.authMeta.proto))
  {
    if key in t.byKey {
      KeysName(t, key);
    }
    hide Inv, Without, TcpTracker.Observe;
  }

  // The segments observed for a flow, when its time is over, and when it was last used.
  datatype Books = Books(segments: seq<TcpTracker.Segment>, expiresAt: Time, lastSeen: Time)

  function Seconds(o: Observed, segments: seq<TcpTracker.Segment>): nat {
    if o.Tcp? then TcpTracker.Run(segments).ttl else if o.Udp? then 120 else if o.Icmp? then 30 else 60
  }

  // What one section adds to them: an observation under the flow's key, its creation, or a look-up of its
  // key while it is live; nothing else.
  ghost function BooksAfter(t: Table, op: Op, r: nat, b: Books): Books {
    match op
    case OpObserve(key, o, now) =>
      if key in t.byKey && t.byKey[key] == r then
        var segments := if o.Tcp? then b.segments + [o.segment] else b.segments;
        Books(segments, now + SECOND * Seconds(o, segments), now)
      else b
    case OpGetOrCreate(key, _, _, now) =>
      if key in t.byKey && Live(t, now, t.byKey[key]) then
        if t.byKey[key] == r then b.(lastSeen := now) else b
      else if r == |t.flows| then Books([], now + SECOND * 60, now) else b
    case _ => b
  }

  ghost function BooksOf(t: Table, ops: seq<Op>, r: nat): Books {
    if ops == [] then Books([], 0, 0) else
    var before := ops[..|ops| - 1];
    BooksAfter(Run(t, before), ops[|ops| - 1], r, BooksOf(t, before, r))
  }

  ghost predicate KeptBy(t: Table, r: nat, b: Books) {
    r < |t.flows| ==>
      && t.flows[r].tcp == TcpTracker.Run(b.segments) && t.flows[r].expiresAt == b.expiresAt
      && t.flows[r].lastSeen == b.lastSeen
  }

  ghost predicate SameLife(t: Table, t': Table, r: nat) {
    && r < |t.flows| && r < |t'.flows| && t'.flows[r].tcp == t.flows[r].tcp
    && t'.flows[r].expiresAt == t.flows[r].expiresAt && t'.flows[r].lastSeen == t.flows[r].lastSeen
  }

  lemma UpdateKeepsLife(t: Table, op: Op, r: nat)
    requires r < |t.flows| && (op.OpMarkSent? || op.OpRetry? || op.OpCache? || op.OpNextBatch?)
    ensures SameLife(t, Apply(t, op), r) && |Apply(t, op).flows| == |t.flows|
  {
  }

  lemma TimeoutKeepsLife(t: Table, now: Time, err: Error, r: nat)
    requires r < |t.flows|
    ensures SameLife(t, ExpireAuth(t, now, err), r) && |ExpireAuth(t, now, err).flows| == |t.flows|
  {
    hide Without;
  }

  lemma CompletionKeepsLife(t: Table, authID: nat, token: string, err: Option<Error>, r: nat)
    requires r < |t.flows|
    ensures SameLife(t, CompleteAuth(t, authID, token, err), r)
    ensures |CompleteAuth(t, authID, token, err).flows| == |t.flows|
  {
    hide Without;
  }

  lemma RemovalKeepsLife(t: Table, op: Op, r: nat)
    requires r < |t.flows| && (op.OpRemove? || op.OpRemoveExpired? || op.OpClose?)
    ensures SameLife(t, Apply(t, op), r) && |Apply(t, op).flows| == |t.flows|
  {
    hide Without;
  }

  lemma CreationKeepsLife(t: Table, key: string, appID: string, nodeGroupID: string, now: Time, r: nat)
    requires r < |t.flows|
    ensures var (t', found) := GetOrCreate(t, key, appID, nodeGroupID, now);
            r != found ==> SameLife(t, t', r)
  {
    hide Without, Oldest, Expired;
  }

  lemma OthersKeepLife(t: Table, op: Op, r: nat)
    requires r < |t.flows| && !op.OpGetOrCreate? && !op.OpObserve?
    ensures SameLife(t, Apply(t, op), r) && |Apply(t, op).flows| == |t.flows|
  {
    hide SameLife, ExpireAuth, CompleteAuth;
    match op
    case OpExpireAuth(now, err) => TimeoutKeepsLife(t, now, err, r);
    case OpComplete(authID, token, err) => CompletionKeepsLife(t, authID, token, err, r);
    case OpRemove(key) => RemovalKeepsLife(t, op, r);
    case OpRemoveExpired(now) => RemovalKeepsLife(t, op, r);
    case OpClose => RemovalKeepsLife(t, op, r);
    case _ => UpdateKeepsLife(t, op, r);
  }

  lemma NobodyNew(t: Table, op: Op)
    requires !op.OpGetOrCreate?
    ensures |Apply(t, op).flows| == |t.flows|
  {
    hide Without, Chosen;
  }

  lemma CreationStep(t: Table, op: Op, r: nat, b: Books)
    requires Inv(t) && op.OpGetOrCreate? && KeptBy(t, r, b)
    ensures KeptBy(Apply(t, op), r, BooksAfter(t, op, r, b))
  {
    var (t', found) := GetOrCreate(t, op.key, op.appID, op.nodeGroupID, op.now);
    if op.key in t.byKey && Live(t, op.now, t.byKey[op.key]) {
      LiveKeyKeepsItsFlow(t, op.key, op.appID, op.nodeGroupID, op.now);
    } else {
      NoLiveFlowMakesOne(t, op.key, op.appID, op.nodeGroupID, op.now);
    }
    if r < |t.flows| {
      CreationKeepsLife(t, op.key, op.appID, op.nodeGroupID, op.now, r);
    }
    assert TcpTracker.Run([]) == TcpTracker.FRESH;
    hide Inv, GetOrCreate, Live, Indexed, TcpTracker.Run;
  }

  lemma ObservationStep(t: Table, op: Op, r: nat, b: Books)
    requires Inv(t) && op.OpObserve? && KeptBy(t, r, b)
    ensures KeptBy(Apply(t, op), r, BooksAfter(t, op, r, b))
  {
    ObservingMeans(t, op.key, op.observed, op.now);
    if op.observed.Tcp? {
      assert (b.segments + [op.observed.segment])[..|b.segments|] == b.segments;
    }
    hide Inv, ObservePacket, Indexed, TcpTracker.Observe;
  }

  lemma LifeStep(t: Table, op: Op, r: nat, b: Books)
    requires Inv(t) && KeptBy(t, r, b)
    ensures KeptBy(Apply(t, op), r, BooksAfter(t, op, r, b))
  {
    if op.OpGetOrCreate? {
      CreationStep(t, op, r, b);
    } else if op.OpObserve? {
      ObservationStep(t, op, r, b);
    } else {
      NobodyNew(t, op);
      if r < |t.flows| {
        OthersKeepLife(t, op, r);
      }
      hide Inv, Apply;
    }
  }

  // Over any run: a flow's tracker has run over exactly the segments observed under its key, its time is
  // over when its last observation says, and its last use is its creation, observation or look-up.
  lemma {:induction false} LifeFollowsObservations(ttl: Time, maxEntries: nat, ops: seq<Op>, r: nat)
    requires ClockMonotone(EMPTY.(ttl := ttl, maxEntries := maxEntries), ops)
    ensures var t := EMPTY.(ttl := ttl, maxEntries := maxEntries);
            KeptBy(Run(t, ops), r, BooksOf(t, ops, r))
  {
    var t := EMPTY.(ttl := ttl, maxEntries := maxEntries);
    if ops != [] {
      hide Inv, Apply, BooksAfter, KeptBy, Monotone;
      var before := ops[..|ops| - 1];
      LifeFollowsObservations(ttl, maxEntries, before, r);
      EmptyTableOk(ttl, maxEntries);
      EveryRunKeepsInv(t, before);
      LifeStep(Run(t, before), ops[|ops| - 1], r, BooksOf(t, before, r));
    }
  }

  // ---- Removal on purpose ----

  // Removing a key takes exactly its flow out of the table, with an error if it has no result.
  lemma RemovalIsExact(t: Table, key: string, r: nat)
    requires Inv(t) && r < |t.flows|
    ensures var t' := RemoveKey(t, key);
            && |t'.flows| == |t.flows| && key !in t'.byKey
            && (Indexed(t', r) <==> Indexed(t, r) && t.flows[r].key != key)
            && t'.flows[r] == if !Indexed(t, r) || t.flows[r].key != key || t.flows[r].latched then t.flows[r]
                              else t.flows[r].(pending := [], latched := true, authErr := Some(ConntrackEvicted))
  {
    assert FlowOk(t.flows[r], Indexed(t, r));
    if key in t.byKey {
      KeysName(t, key);
      RemoveUnindexes(t, {t.byKey[key]}, ConntrackEvicted);
    }
    hide Inv, Without;
  }

  // Closing empties the table; the flows that had no result fail as closed, and no flow can be made later.
  lemma ClosingIsFinal(t: Table, r: nat)
    requires Inv(t) && r < |t.flows|
    ensures var t' := CloseTable(t);
            && t'.closed && t'.lru == [] && t'.byKey == map[] && |t'.flows| == |t.flows|
            && t'.flows[r] == if t.flows[r].latched then t.flows[r]
                              else t.flows[r].(pending := [], latched := true, authErr := Some(NetClosed))
  {
    CloseKeepsInv(t);
    assert FlowOk(t.flows[r], Indexed(t, r));
    assert Indexed(t, r) ==> r in set k | k in t.byKey :: t.byKey[k];
    hide Inv, Without;
  }

  // ---- Waiting before the next request ----

  // When a flow may be asked for again: after the delay of a server's retry, or at once after a timeout
  // that leaves attempts.
  function RetryTimeAfter(t: Table, op: Op, r: nat): Option<Time>
    requires r < |t.flows|
  {
    var f := t.flows[r];
    if op.OpRetry? && op.authID == r + 1 && ByID(t, op.authID).Some? && !f.latched then Some(op.now + op.delay)
    else if op.OpExpireAuth? && r in t.lru && f.authDeadline.Some? && f.authDeadline.value <= op.now && f.authTimeouts < 2
    then Some(op.now)
    else f.authRetryAt
  }

  lemma TimeoutSetsRetryTime(t: Table, op: Op, r: nat)
    requires op.OpExpireAuth? && r < |t.flows|
    ensures r < |Apply(t, op).flows| && Apply(t, op).flows[r].authRetryAt == RetryTimeAfter(t, op, r)
  {
    hide Without;
  }

  lemma RetrySetsRetryTime(t: Table, op: Op, r: nat)
    requires Inv(t) && r < |t.flows| && op.OpRetry?
    ensures r < |Apply(t, op).flows| && Apply(t, op).flows[r].authRetryAt == RetryTimeAfter(t, op, r)
  {
    if ByID(t, op.authID).Some? {
      ByIDIsIndexed(t, op.authID);
      assert t.flows[ByID(t, op.authID).value].authID == op.authID == ByID(t, op.authID).value + 1;
    }
    hide Inv, ByID;
  }

  lemma UpdateKeepsRetryTime(t: Table, op: Op, r: nat)
    requires r < |t.flows| && (op.OpMarkSent? || op.OpCache? || op.OpObserve? || op.OpNextBatch?)
    ensures r < |Apply(t, op).flows| && Apply(t, op).flows[r].authRetryAt == t.flows[r].authRetryAt
  {
    hide Without, Chosen;
  }

  lemma RemovalKeepsRetryTime(t: Table, op: Op, r: nat)
    requires r < |t.flows| && (op.OpRemove? || op.OpRemoveExpired? || op.OpClose? || op.OpComplete?)
    ensures r < |Apply(t, op).flows| && Apply(t, op).flows[r].authRetryAt == t.flows[r].authRetryAt
  {
    hide Without;
  }

  lemma CreationKeepsRetryTime(t: Table, op: Op, r: nat)
    requires op.OpGetOrCreate? && r < |t.flows|
    ensures r < |Apply(t, op).flows| && Apply(t, op).flows[r].authRetryAt == t.flows[r].authRetryAt
  {
    hide Without, Oldest, Expired;
  }

  lemma RetryTimeOf(t: Table, op: Op, r: nat)
    requires Inv(t) && r < |t.flows|
    ensures r < |Apply(t, op).flows| && Apply(t, op).flows[r].authRetryAt == RetryTimeAfter(t, op, r)
  {
    hide Apply, Inv;
    match op
    case OpGetOrCreate(_, _, _, _) => CreationKeepsRetryTime(t, op, r);
    case OpExpireAuth(_, _) => TimeoutSetsRetryTime(t, op, r);
    case OpComplete(_, _, _) => RemovalKeepsRetryTime(t, op, r);
    case OpRemove(_) => RemovalKeepsRetryTime(t, op, r);
    case OpRemoveExpired(_) => RemovalKeepsRetryTime(t, op, r);
    case OpClose => RemovalKeepsRetryTime(t, op, r);
    case OpRetry(_, _, _) => RetrySetsRetryTime(t, op, r);
    case _ => UpdateKeepsRetryTime(t, op, r);
  }

  // A flow may be asked for: it has packets waiting, no request out, and its waiting time is over.
  predicate MayStart(f: Flow, now: Time) {
    f.pending != [] && !f.authStarted && (f.authRetryAt == None || f.authRetryAt.value <= now)
  }

  // How many of the first n flows of the list may be asked for; the clock is read once for each.
  function Startable(t: Table, clock: nat -> Time, n: nat): nat
    requires n <= |t.lru|
  {
    if n == 0 then 0
    else Startable(t, clock, n - 1)
         + if t.lru[n - 1] < |t.flows| && MayStart(t.flows[t.lru[n - 1]], clock(n - 1)) then 1 else 0
  }

  lemma {:induction false} StartableAreEligible(t: Table, clock: nat -> Time, n: nat)
    requires n <= |t.lru|
    ensures |EligibleRefs(t, clock, n)| == Startable(t, clock, n)
  {
    if n > 0 {
      StartableAreEligible(t, clock, n - 1);
    }
  }

  // A batch starts exactly the first `limit` flows that may be asked for, in the order of the list; it tells
  // of more exactly when there are more.
  lemma BatchTakesTheFirst(t: Table, limit: nat, clock: nat -> Time, i: nat)
    requires Inv(t) && i < |t.lru|
    ensures t.lru[i] < |t.flows|
    ensures var f, f' := t.flows[t.lru[i]], NextAuthBatch(t, limit, clock).flows[t.lru[i]];
            f' == if MayStart(f, clock(i)) && Startable(t, clock, i) < limit then f.(authStarted := true) else f
    ensures MoreEligible(t, limit, clock) <==> Startable(t, clock, |t.lru|) > limit
  {
    ListedIsIndexed(t, t.lru[i]);
    assert t.lru[i] in t.lru && NoDuplicates(t.lru);
    StartableAreEligible(t, clock, i);
    StartableAreEligible(t, clock, |t.lru|);
    BatchIsFirstEligible(t, limit, clock, i);
    hide Inv, Chosen, Startable, EligibleRefs;
  }

  // A server's retry is honoured: until another one or a timeout, no batch asks for the flow whose clock
  // reads less than the time the server gave.
  lemma {:induction false} RetryIsHonoured(t: Table, ops: seq<Op>, r: nat, until: Time)
    requires Inv(t) && ClockMonotone(t, ops) && r < |t.flows| && t.flows[r].authRetryAt == Some(until)
    requires forall k :: 0 <= k < |ops| ==> !(ops[k].OpRetry? && ops[k].authID == r + 1) && !ops[k].OpExpireAuth?
    ensures r < |Run(t, ops).flows| && Run(t, ops).flows[r].authRetryAt == Some(until)
    ensures forall limit: nat, clock: nat -> Time ::
              (forall i :: clock(i) < until) ==> r !in Chosen(Run(t, ops), limit, clock)
  {
    if ops != [] {
      var before, op := ops[..|ops| - 1], ops[|ops| - 1];
      RetryIsHonoured(t, before, r, until);
      EveryRunKeepsInv(t, before);
      RetryTimeOf(Run(t, before), op, r);
    }
    forall limit: nat, clock: nat -> Time | forall i :: clock(i) < until
      ensures r !in Chosen(Run(t, ops), limit, clock)
    {
      EarlyIsNotEligible(Run(t, ops), clock, |Run(t, ops).lru|, r, until);
    }
  }

  lemma {:induction false} EarlyIsNotEligible(t: Table, clock: nat -> Time, n: nat, r: nat, until: Time)
    requires r < |t.flows| && t.flows[r].authRetryAt == Some(until) && n <= |t.lru| && forall i :: clock(i) < until
    ensures r !in EligibleRefs(t, clock, n)
  {
    if n > 0 {
      EarlyIsNotEligible(t, clock, n - 1, r, until);
    }
  }
}
