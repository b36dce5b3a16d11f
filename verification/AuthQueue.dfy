// The sections of the flow table that authenticate flows and queue packets
// for them, every section as one operation on the table, and what holds over
// every run of operations.
module AuthQueue {
  import opened Prelude
  import opened FlowTable
  import TcpTracker

  const RESPONSE_TIMEOUT: Time := 5 * SECOND

  // ---- Single-flow sections ----

  function ProtocolOf(o: Observed, proto: int): int {
    match o
    case Malformed => proto
    case ShortTcp => 6
    case Tcp(_) => 6
    case Udp => 17
    case Icmp => 1
    case OtherProtocol(n) => n
  }

  function Lifetime(f: Flow, o: Observed): Time {
    match o
    case Tcp(p) => TcpTracker.Observe(f.tcp, p).ttl * SECOND
    case Udp => UDP_TTL
    case Icmp => ICMP_TTL
    case _ => DEFAULT_TTL
  }

  function ObservedFlow(f: Flow, o: Observed, now: Time): Flow {
    f.(authMeta := f.authMeta.(proto := ProtocolOf(o, f.authMeta.proto)),
       tcp := if o.Tcp? then TcpTracker.Observe(f.tcp, o.segment) else f.tcp,
       expiresAt := now + Lifetime(f, o))
  }

  function ObservePacket(t: Table, key: string, o: Observed, now: Time): Table {
    if key in t.byKey && t.byKey[key] < |t.flows| then
      Touched(t, t.byKey[key], ObservedFlow(t.flows[t.byKey[key]], o, now), now)
    else t
  }

  function Update(t: Table, r: nat, f: Flow): Table
    requires r < |t.flows|
  {
    t.(flows := t.flows[r := f])
  }

  function ByID(t: Table, authID: nat): Option<nat> {
    if authID in t.byID && t.byID[authID] < |t.flows| then Some(t.byID[authID]) else None
  }

  function Completed(f: Flow, token: string, err: Option<Error>): Flow {
    f.(latched := true, authErr := err, pending := [], connectToken := if token != "" then token else f.connectToken)
  }

  function CompleteAuth(t: Table, authID: nat, token: string, err: Option<Error>): Table {
    match ByID(t, authID)
    case None => t
    case Some(r) =>
      if t.flows[r].latched then t else
      var t' := Update(t, r, Completed(t.flows[r], token, err));
      if err.Some? then RemoveAll(t', {r}, err.value) else t'
  }

  // The packets completeAuth hands to its caller, who then sends them.
  function Released(t: Table, authID: nat, err: Option<Error>): seq<Packet> {
    match ByID(t, authID)
    case None => []
    case Some(r) => if t.flows[r].latched || err.Some? then [] else t.flows[r].pending
  }

  datatype CacheResult = Cached | Full | Refused(err: Option<Error>)

  function CacheOutcome(t: Table, r: nat): CacheResult
    requires r < |t.flows|
  {
    var f := t.flows[r];
    if !(f.key in t.byKey && t.byKey[f.key] == r) then
      Refused(if f.latched then f.authErr else Some(ConntrackEvicted))
    else if f.latched then Refused(f.authErr)
    else if |f.pending| >= PENDING_LIMIT then Full
    else Cached
  }

  function CachePacket(t: Table, r: nat, meta: PacketMeta, packet: Packet): Table {
    if r < |t.flows| && CacheOutcome(t, r) == Cached then
      Update(t, r, t.flows[r].(authMeta := meta, pending := t.flows[r].pending + [packet]))
    else t
  }

  function MarkAuthSent(t: Table, authID: nat, deadline: Time): Table {
    match ByID(t, authID)
    case None => t
    case Some(r) => if t.flows[r].latched then t else Update(t, r, t.flows[r].(authDeadline := Some(deadline)))
  }

  function RetryAuth(t: Table, authID: nat, delay: Time, now: Time): Table {
    match ByID(t, authID)
    case None => t
    case Some(r) =>
      if t.flows[r].latched then t
      else Update(t, r, t.flows[r].(authStarted := false, authDeadline := None, authRetryAt := Some(now + delay)))
  }

  function RemoveKey(t: Table, key: string): Table {
    if key in t.byKey then RemoveAll(t, {t.byKey[key]}, ConntrackEvicted) else t
  }

  function CloseTable(t: Table): Table {
    RemoveAll(t.(closed := true), set k | k in t.byKey :: t.byKey[k], NetClosed)
  }

  // ---- Starting authentications ----

  function Eligible(f: Flow, now: Time): bool {
    !f.authStarted && f.pending != [] && (f.authRetryAt.Some? ==> now >= f.authRetryAt.value)
  }

  // The eligible flows among the first n of the list, in list order. The clock
  // is read once per list element.
  function EligibleRefs(t: Table, clock: nat -> Time, n: nat): seq<nat>
    requires n <= |t.lru|
  {
    if n == 0 then [] else
    var before := EligibleRefs(t, clock, n - 1);
    var r := t.lru[n - 1];
    if r < |t.flows| && Eligible(t.flows[r], clock(n - 1)) then before + [r] else before
  }

  function Min(a: nat, b: nat): nat {
    if a < b then a else b
  }

  function Chosen(t: Table, limit: nat, clock: nat -> Time): seq<nat> {
    var all := EligibleRefs(t, clock, |t.lru|);
    all[..Min(limit, |all|)]
  }

  function MoreEligible(t: Table, limit: nat, clock: nat -> Time): bool {
    |EligibleRefs(t, clock, |t.lru|)| > limit
  }

  function StartAll(t: Table, chosen: seq<nat>): Table {
    t.(flows := seq(|t.flows|, i requires 0 <= i < |t.flows| =>
      if i in chosen then t.flows[i].(authStarted := true) else t.flows[i]))
  }

  function NextAuthBatch(t: Table, limit: nat, clock: nat -> Time): Table {
    StartAll(t, Chosen(t, limit, clock))
  }

  // ---- Timeouts ----

  function Due(t: Table, now: Time): set<nat> {
    set r | r in t.lru && r < |t.flows| && t.flows[r].authDeadline.Some? && now >= t.flows[r].authDeadline.value
  }

  function Charged(f: Flow, now: Time): Flow {
    var f' := f.(authTimeouts := f.authTimeouts + 1);
    if f'.authTimeouts < MAX_AUTH_ATTEMPTS then f'.(authStarted := false, authDeadline := None, authRetryAt := Some(now))
    else f'
  }

  function ChargeAll(t: Table, due: set<nat>, now: Time): Table {
    t.(flows := seq(|t.flows|, i requires 0 <= i < |t.flows| => if i in due then Charged(t.flows[i], now) else t.flows[i]))
  }

  function Exhausted(t: Table, due: set<nat>): set<nat> {
    set r | r in due && r < |t.flows| && t.flows[r].authTimeouts + 1 >= MAX_AUTH_ATTEMPTS
  }

  function ExpireAuth(t: Table, now: Time, err: Error): Table {
    RemoveAll(ChargeAll(t, Due(t, now), now), Exhausted(t, Due(t, now)), err)
  }

  // ---- The same sections, list element by list element ----

  function ExpiredAmong(t: Table, now: Time, n: nat): set<nat>
    requires n <= |t.lru|
  {
    set r | r in t.lru[..n] && r < |t.flows| && now >= ExpiresAt(t, t.flows[r])
  }

  function DueAmong(t: Table, now: Time, n: nat): set<nat>
    requires n <= |t.lru|
  {
    set r | r in t.lru[..n] && r < |t.flows| && t.flows[r].authDeadline.Some? && now >= t.flows[r].authDeadline.value
  }

  function ExpireThese(t: Table, due: set<nat>, now: Time, err: Error): Table {
    RemoveAll(ChargeAll(t, due, now), Exhausted(t, due), err)
  }

  lemma OneMoreExpired(t: Table, now: Time, n: nat)
    requires n < |t.lru| && NoDuplicates(t.lru) && t.lru[n] < |t.flows|
    ensures t.lru[n] !in ExpiredAmong(t, now, n)
    ensures ExpiredAmong(t, now, n + 1) ==
            ExpiredAmong(t, now, n) + if now >= ExpiresAt(t, t.flows[t.lru[n]]) then {t.lru[n]} else {}
  {
    assert t.lru[..n + 1] == t.lru[..n] + [t.lru[n]];
  }

  lemma OneMoreDue(t: Table, now: Time, n: nat)
    requires n < |t.lru| && NoDuplicates(t.lru) && t.lru[n] < |t.flows|
    ensures t.lru[n] !in DueAmong(t, now, n)
    ensures DueAmong(t, now, n + 1) ==
            DueAmong(t, now, n) + if t.flows[t.lru[n]].authDeadline.Some? && now >= t.flows[t.lru[n]].authDeadline.value
                                  then {t.lru[n]} else {}
  {
    assert t.lru[..n + 1] == t.lru[..n] + [t.lru[n]];
  }

  // Charging one more flow that has attempts left.
  lemma ChargeOneMore(t: Table, due: set<nat>, r: nat, now: Time, err: Error)
    requires r !in due && r < |t.flows| && t.flows[r].authTimeouts + 1 < MAX_AUTH_ATTEMPTS
    ensures ExpireThese(t, due, now, err).flows[r] == t.flows[r]
    ensures ExpireThese(t, due + {r}, now, err) ==
            Update(ExpireThese(t, due, now, err), r, Charged(t.flows[r], now))
  {
    var charged := Update(ExpireThese(t, due, now, err), r, Charged(t.flows[r], now));
    assert Exhausted(t, due + {r}) == Exhausted(t, due);
    assert ExpireThese(t, due + {r}, now, err).flows == charged.flows;
  }

  // Charging one more flow for its last attempt removes it.
  lemma ExhaustOneMore(t: Table, due: set<nat>, r: nat, now: Time, err: Error)
    requires r !in due && r < |t.flows| && t.flows[r].authTimeouts + 1 >= MAX_AUTH_ATTEMPTS
    ensures ExpireThese(t, due, now, err).flows[r] == t.flows[r]
    ensures ExpireThese(t, due + {r}, now, err) ==
            RemoveAll(Update(ExpireThese(t, due, now, err), r, Charged(t.flows[r], now)), {r}, err)
  {
    var after := ExpireThese(t, due + {r}, now, err);
    var removed := RemoveAll(Update(ExpireThese(t, due, now, err), r, Charged(t.flows[r], now)), {r}, err);
    assert Exhausted(t, due + {r}) == Exhausted(t, due) + {r};
    WithoutTwice(t.lru, Exhausted(t, due), {r});
    assert after.flows == removed.flows;
    assert after.byKey == removed.byKey;
    assert after.byID == removed.byID;
  }

  lemma {:induction false} EligiblePrefix(t: Table, clock: nat -> Time, i: nat, n: nat)
    requires i <= n <= |t.lru|
    ensures EligibleRefs(t, clock, i) <= EligibleRefs(t, clock, n)
    ensures forall r :: r in EligibleRefs(t, clock, i) ==> r in t.lru[..i]
  {
    if i < n {
      EligiblePrefix(t, clock, i, n - 1);
    } else if i > 0 {
      EligiblePrefix(t, clock, i - 1, i - 1);
      assert t.lru[..i] == t.lru[..i - 1] + [t.lru[i - 1]];
    }
  }

  // ---- Every section as an operation ----

  datatype Op =
    | OpGetOrCreate(key: string, appID: string, nodeGroupID: string, now: Time)
    | OpObserve(key: string, observed: Observed, now: Time)
    | OpComplete(authID: nat, token: string, completeErr: Option<Error>)
    | OpCache(r: nat, meta: PacketMeta, packet: Packet)
    | OpNextBatch(limit: nat, reading: nat -> Time)
    | OpMarkSent(authID: nat, deadline: Time)
    | OpExpireAuth(now: Time, expireErr: Error)
    | OpRetry(authID: nat, delay: Time, now: Time)
    | OpRemove(key: string)
    | OpRemoveExpired(now: Time)
    | OpClose

  function Apply(t: Table, op: Op): Table {
    match op
    case OpGetOrCreate(key, appID, nodeGroupID, now) => GetOrCreate(t, key, appID, nodeGroupID, now).0
    case OpObserve(key, observed, now) => ObservePacket(t, key, observed, now)
    case OpComplete(authID, token, err) => CompleteAuth(t, authID, token, err)
    case OpCache(r, meta, packet) => CachePacket(t, r, meta, packet)
    case OpNextBatch(limit, reading) => NextAuthBatch(t, limit, reading)
    case OpMarkSent(authID, deadline) => MarkAuthSent(t, authID, deadline)
    case OpExpireAuth(now, err) => ExpireAuth(t, now, err)
    case OpRetry(authID, delay, now) => RetryAuth(t, authID, delay, now)
    case OpRemove(key) => RemoveKey(t, key)
    case OpRemoveExpired(now) => RemoveExpired(t, now)
    case OpClose => CloseTable(t)
  }

  // The clock never runs backwards between the sections that stamp a flow.
  ghost predicate Monotone(t: Table, op: Op) {
    && (op.OpGetOrCreate? ==> t.clock <= op.now)
    && (op.OpObserve? ==> t.clock <= op.now)
  }

  // ---- The invariant over every run ----

  lemma ObserveKeepsInv(t: Table, key: string, o: Observed, now: Time)
    requires Inv(t) && t.clock <= now
    ensures Inv(ObservePacket(t, key, o, now))
  {
    if key in t.byKey {
      var r := t.byKey[key];
      assert Indexed(t, r);
      TouchKeepsInv(t, r, ObservedFlow(t.flows[r], o, now), now);
    }
  }

  lemma UpdateOneKeepsInv(t: Table, r: nat, f: Flow)
    requires Inv(t) && r < |t.flows|
    requires f.key == t.flows[r].key && f.authID == t.flows[r].authID && f.lastSeen == t.flows[r].lastSeen
    requires FlowOk(t.flows[r], Indexed(t, r)) ==> FlowOk(f, Indexed(t, r))
    ensures Inv(Update(t, r, f))
  {
    var t' := Update(t, r, f);
    SameIndexesKeep(t, t');
    UpdateKeepsStructure(t, t');
  }

  lemma ByIDIsIndexed(t: Table, authID: nat)
    requires Inv(t) && ByID(t, authID).Some?
    ensures Indexed(t, ByID(t, authID).value)
  {
    var r := ByID(t, authID).value;
    assert IndexedByID(t, r);
  }

  lemma CompleteKeepsInv(t: Table, authID: nat, token: string, err: Option<Error>)
    requires Inv(t)
    ensures Inv(CompleteAuth(t, authID, token, err))
  {
    if ByID(t, authID).Some? && !t.flows[ByID(t, authID).value].latched {
      var r := ByID(t, authID).value;
      ByIDIsIndexed(t, authID);
      assert FlowOk(t.flows[r], true);
      if err.None? {
        UpdateOneKeepsInv(t, r, Completed(t.flows[r], token, err));
      } else {
        RemoveAfterUpdate(t, r, Completed(t.flows[r], token, err), err.value);
      }
    }
  }

  // A flow may leave the table in a state that only an unindexed flow may have.
  lemma RemoveAfterUpdate(t: Table, r: nat, f: Flow, err: Error)
    requires Inv(t) && r < |t.flows|
    requires f.key == t.flows[r].key && f.authID == t.flows[r].authID && f.lastSeen == t.flows[r].lastSeen
    requires FlowOk(Dropped(f, err), false)
    ensures Inv(RemoveAll(Update(t, r, f), {r}, err))
  {
    hide IndexesAgree, IDsInOrder, Sorted, Without, FlowOk;
    var t1 := Update(t, r, f);
    SameIndexesKeep(t, t1);
    UpdateKeepsStructure(t, t1);
    RemoveKeepsStructure(t1, {r}, err);
    RemoveUnindexes(t1, {r}, err);
    hide Structured, Indexed, IndexedByID;
    var t' := RemoveAll(t1, {r}, err);
    forall x: nat | x < |t'.flows|
      ensures FlowOk(t'.flows[x], Indexed(t', x))
    {
      assert FlowOk(t.flows[x], Indexed(t, x));
    }
  }

  lemma CacheKeepsInv(t: Table, r: nat, meta: PacketMeta, packet: Packet)
    requires Inv(t)
    ensures Inv(CachePacket(t, r, meta, packet))
  {
    if r < |t.flows| && CacheOutcome(t, r) == Cached {
      UpdateOneKeepsInv(t, r, t.flows[r].(authMeta := meta, pending := t.flows[r].pending + [packet]));
    }
  }

  lemma StartKeepsInv(t: Table, chosen: seq<nat>)
    requires Inv(t)
    ensures Inv(StartAll(t, chosen))
  {
    hide IndexesAgree, IDsInOrder, Sorted;
    var t' := StartAll(t, chosen);
    SameIndexesKeep(t, t');
    forall r: nat | r < |t'.flows|
      ensures FlowOk(t'.flows[r], Indexed(t', r))
    {
      assert FlowOk(t.flows[r], Indexed(t, r));
    }
    UpdateKeepsStructure(t, t');
  }

  lemma ChargeKeepsStructure(t: Table, due: set<nat>, now: Time)
    requires Structured(t)
    ensures Structured(ChargeAll(t, due, now))
    ensures forall r: nat :: Indexed(ChargeAll(t, due, now), r) <==> Indexed(t, r)
  {
    SameIndexesKeep(t, ChargeAll(t, due, now));
    UpdateKeepsStructure(t, ChargeAll(t, due, now));
  }

  // What a timeout does to one flow.
  function ExpiredFlow(f: Flow, now: Time, err: Error): Flow {
    if f.authTimeouts + 1 >= MAX_AUTH_ATTEMPTS then Dropped(Charged(f, now), err) else Charged(f, now)
  }

  lemma ExpiredFlowOk(f: Flow, now: Time, err: Error)
    requires FlowOk(f, true)
    ensures FlowOk(ExpiredFlow(f, now, err), f.authTimeouts + 1 < MAX_AUTH_ATTEMPTS)
  {
  }

  lemma ExpireFlowByFlow(t: Table, due: set<nat>, now: Time, err: Error)
    ensures var t' := ExpireThese(t, due, now, err);
            && |t'.flows| == |t.flows|
            && (forall r: nat :: r < |t.flows| ==> t'.flows[r] == if r in due then ExpiredFlow(t.flows[r], now, err) else t.flows[r])
            && (forall r: nat :: Indexed(t', r) <==> Indexed(t, r) && r !in Exhausted(t, due))
  {
    hide Charged;
    RemoveUnindexes(ChargeAll(t, due, now), Exhausted(t, due), err);
    ChargeUnindexesNothing(t, due, now);
  }

  lemma ChargeUnindexesNothing(t: Table, due: set<nat>, now: Time)
    ensures forall r: nat :: Indexed(ChargeAll(t, due, now), r) <==> Indexed(t, r)
  {
    SameIndexesKeep(t, ChargeAll(t, due, now));
  }

  lemma ExpireKeepsFlowsOk(t: Table, due: set<nat>, now: Time, err: Error)
    requires FlowsOk(t) && forall r :: r in due ==> Indexed(t, r)
    ensures FlowsOk(ExpireThese(t, due, now, err))
  {
    hide ExpireThese, ExpiredFlow, FlowOk;
    var t' := ExpireThese(t, due, now, err);
    ExpireFlowByFlow(t, due, now, err);
    forall r: nat | r < |t'.flows|
      ensures FlowOk(t'.flows[r], Indexed(t', r))
    {
      assert FlowOk(t.flows[r], Indexed(t, r));
      if r in due {
        ExpiredFlowOk(t.flows[r], now, err);
      }
    }
  }

  lemma ExpireAuthKeepsInv(t: Table, now: Time, err: Error)
    requires Inv(t)
    ensures Inv(ExpireAuth(t, now, err))
  {
    var due := Due(t, now);
    assert forall r :: r in due ==> Indexed(t, r);
    hide IndexesAgree, IDsInOrder, Sorted, RemoveAll, ChargeAll, Due;
    ChargeKeepsStructure(t, due, now);
    RemoveKeepsStructure(ChargeAll(t, due, now), Exhausted(t, due), err);
    ExpireKeepsFlowsOk(t, due, now, err);
  }

  lemma CloseKeepsInv(t: Table)
    requires Inv(t)
    ensures Inv(CloseTable(t)) && CloseTable(t).byKey == map[] && CloseTable(t).lru == []
  {
    var all := set k | k in t.byKey :: t.byKey[k];
    RemoveKeepsInv(t, all, NetClosed);
    RemoveUnindexes(t, all, NetClosed);
    var t1 := RemoveAll(t, all, NetClosed);
    assert forall r: nat :: Indexed(t, r) ==> r in all;
    NothingLeft(t1);
    var t' := CloseTable(t);
    SameIndexesKeep(t1, t');
  }

  lemma EmptyOrInhabited(s: seq<nat>)
    ensures s == [] || exists r :: r in s
  {
    assert s == [] || s[0] in s;
  }

  lemma NothingLeft(t: Table)
    requires Structured(t) && forall r: nat :: !Indexed(t, r)
    ensures t.lru == [] && t.byKey == map[]
  {
    EmptyOrInhabited(t.lru);
    assert forall k :: k in t.byKey ==> Indexed(t, t.byKey[k]);
  }

  lemma MarkSentKeepsInv(t: Table, authID: nat, deadline: Time)
    requires Inv(t)
    ensures Inv(MarkAuthSent(t, authID, deadline))
  {
    if ByID(t, authID).Some? {
      var r := ByID(t, authID).value;
      UpdateOneKeepsInv(t, r, t.flows[r].(authDeadline := Some(deadline)));
    }
  }

  lemma RetryKeepsInv(t: Table, authID: nat, delay: Time, now: Time)
    requires Inv(t)
    ensures Inv(RetryAuth(t, authID, delay, now))
  {
    if ByID(t, authID).Some? {
      var r := ByID(t, authID).value;
      UpdateOneKeepsInv(t, r, t.flows[r].(authStarted := false, authDeadline := None, authRetryAt := Some(now + delay)));
    }
  }

  lemma ApplyKeepsInv(t: Table, op: Op)
    requires Inv(t) && Monotone(t, op)
    ensures Inv(Apply(t, op))
  {
    hide Inv, GetOrCreate, ObservePacket, CompleteAuth, CachePacket, StartAll, Chosen, MarkAuthSent, ExpireAuth;
    hide RetryAuth, RemoveAll, Expired, CloseTable;
    match op
    case OpGetOrCreate(key, appID, nodeGroupID, now) => GetOrCreateKeepsInv(t, key, appID, nodeGroupID, now);
    case OpObserve(key, observed, now) => ObserveKeepsInv(t, key, observed, now);
    case OpComplete(authID, token, err) => CompleteKeepsInv(t, authID, token, err);
    case OpCache(r, meta, packet) => CacheKeepsInv(t, r, meta, packet);
    case OpNextBatch(limit, reading) => StartKeepsInv(t, Chosen(t, limit, reading));
    case OpMarkSent(authID, deadline) => MarkSentKeepsInv(t, authID, deadline);
    case OpExpireAuth(now, err) => ExpireAuthKeepsInv(t, now, err);
    case OpRetry(authID, delay, now) => RetryKeepsInv(t, authID, delay, now);
    case OpRemove(key) =>
      if key in t.byKey {
        RemoveKeepsInv(t, {t.byKey[key]}, ConntrackEvicted);
      }
    case OpRemoveExpired(now) => RemoveKeepsInv(t, Expired(t, now), ConntrackEvicted);
    case OpClose => CloseKeepsInv(t);
  }
}
