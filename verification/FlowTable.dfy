// The flow table of one node group as a value, and one function per section
// that the program runs under the table's mutex. A flow is referred to by its
// position in `flows`, the order in which flows were created.
module FlowTable {
  import opened Prelude
  import TcpTracker

  const PENDING_LIMIT := 1024
  const MAX_AUTH_ATTEMPTS := 3

  // Times are in nanoseconds.
  type Time = int
  const SECOND: Time := 1_000_000_000
  const DEFAULT_TTL: Time := 60 * SECOND
  const UDP_TTL: Time := 120 * SECOND
  const ICMP_TTL: Time := 30 * SECOND
  type Packet = seq<byte>

  datatype Error = ConntrackEvicted | AuthTimeout | NetClosed | Failure(message: string)

  datatype PacketMeta = PacketMeta(atype: int, proto: int, srcIP: string, dstIP: string, srcPort: uint16,
                                   dstPort: uint16)

  // What observePacket learns from a packet's headers.
  datatype Observed =
    | Malformed
    | ShortTcp
    | Tcp(segment: TcpTracker.Segment)
    | Udp
    | Icmp
    | OtherProtocol(number: nat)

  datatype Flow = Flow(
    key: string,
    authID: nat,
    appID: string,
    nodeGroupID: string,
    latched: bool,              // authCh is closed
    authErr: Option<Error>,
    connectToken: string,
    authStarted: bool,
    authTimeouts: nat,
    authMeta: PacketMeta,
    authDeadline: Option<Time>,
    authRetryAt: Option<Time>,
    pending: seq<Packet>,
    lastSeen: Time,
    expiresAt: Time,
    tcp: TcpTracker.Tracker)

  const NO_META := PacketMeta(0, 0, "", "", 0, 0)

  datatype Table = Table(
    flows: seq<Flow>,
    byKey: map<string, nat>,
    byID: map<nat, nat>,
    lru: seq<nat>,              // least recently seen first
    ttl: Time,
    maxEntries: nat,
    closed: bool,
    clock: Time)                // latest time written into a lastSeen

  const EMPTY := Table([], map[], map[], [], 0, 16384, false, 0)

  ghost predicate Indexed(t: Table, r: nat) {
    r < |t.flows| && t.flows[r].key in t.byKey && t.byKey[t.flows[r].key] == r
  }

  ghost predicate IndexedByID(t: Table, r: nat) {
    r < |t.flows| && t.flows[r].authID in t.byID && t.byID[t.flows[r].authID] == r
  }

  // ---- The table invariant ----

  ghost predicate FlowOk(f: Flow, indexed: bool) {
    && (!indexed ==> f.latched)
    && (f.latched ==> f.pending == [])
    && (!f.latched ==> f.authErr == None && f.connectToken == "")
    && |f.pending| <= PENDING_LIMIT
    && f.authTimeouts <= MAX_AUTH_ATTEMPTS
    && (indexed ==> f.authTimeouts < MAX_AUTH_ATTEMPTS && !(f.latched && f.authErr.Some?))
  }

  // Both maps and the list hold exactly the same flows, once each, under their own keys.
  ghost predicate IndexesAgree(t: Table) {
    && (forall k :: k in t.byKey ==> t.byKey[k] < |t.flows| && t.flows[t.byKey[k]].key == k)
    && (forall a :: a in t.byID ==> t.byID[a] < |t.flows| && t.flows[t.byID[a]].authID == a)
    && NoDuplicates(t.lru)
    && (forall r :: r in t.lru <==> Indexed(t, r))
    && (forall r :: r in t.lru <==> IndexedByID(t, r))
  }

  ghost predicate IDsInOrder(t: Table) {
    forall r :: 0 <= r < |t.flows| ==> t.flows[r].authID == r + 1
  }

  // The flows named by s, each seen no later than every one after it.
  ghost predicate SeenInOrder(flows: seq<Flow>, s: seq<nat>) {
    s != [] ==>
      && s[0] < |flows|
      && (forall x :: x in s[1..] ==> x < |flows| && flows[s[0]].lastSeen <= flows[x].lastSeen)
      && SeenInOrder(flows, s[1..])
  }

  ghost predicate Sorted(t: Table) {
    && SeenInOrder(t.flows, t.lru)
    && (forall r :: r in t.lru ==> r < |t.flows| && t.flows[r].lastSeen <= t.clock)
  }

  ghost predicate FlowsOk(t: Table) {
    forall r: nat :: r < |t.flows| ==> FlowOk(t.flows[r], Indexed(t, r))
  }

  ghost predicate Structured(t: Table) {
    && IDsInOrder(t)
    && IndexesAgree(t)
    && |t.lru| <= Max(1, t.maxEntries)
    && (t.closed ==> t.lru == [])
    && Sorted(t)
  }

  ghost predicate Inv(t: Table) {
    Structured(t) && FlowsOk(t)
  }

  // ---- Sequences without some elements ----

  function Without(s: seq<nat>, gone: set<nat>): (r: seq<nat>)
    ensures forall x :: x in r <==> x in s && x !in gone
    ensures |r| <= |s|
  {
    if s == [] then [] else
    var rest := Without(s[1..], gone);
    if s[0] in gone then rest else [s[0]] + rest
  }

  lemma {:induction false} WithoutNothing(s: seq<nat>, gone: set<nat>)
    requires forall x :: x in s ==> x !in gone
    ensures Without(s, gone) == s
  {
    if s != [] {
      WithoutNothing(s[1..], gone);
    }
  }

  lemma {:induction false} WithoutTwice(s: seq<nat>, a: set<nat>, b: set<nat>)
    ensures Without(Without(s, a), b) == Without(s, a + b)
  {
    if s != [] {
      WithoutTwice(s[1..], a, b);
      if s[0] !in a {
        assert Without(s, a)[1..] == Without(s[1..], a);
      }
    }
  }

  lemma {:induction false} WithoutKeepsOrder(flows: seq<Flow>, s: seq<nat>, gone: set<nat>)
    requires NoDuplicates(s)
    ensures NoDuplicates(Without(s, gone))
    ensures SeenInOrder(flows, s) ==> SeenInOrder(flows, Without(s, gone))
  {
    if s != [] {
      var rest := s[1..];
      WithoutKeepsOrder(flows, rest, gone);
    }
  }

  lemma {:induction false} WithoutOne(s: seq<nat>, x: nat)
    requires NoDuplicates(s) && x in s
    ensures |Without(s, {x})| == |s| - 1
  {
    if s[0] == x {
      WithoutNothing(s[1..], {x});
    } else {
      WithoutOne(s[1..], x);
    }
  }

  // ---- Removal ----

  function Dropped(f: Flow, err: Error): Flow {
    if f.latched then f.(pending := []) else f.(pending := [], latched := true, authErr := Some(err))
  }

  // The table after removeLocked(ct, err) for every flow in `gone`.
  function RemoveAll(t: Table, gone: set<nat>, err: Error): Table {
    t.(flows := seq(|t.flows|, i requires 0 <= i < |t.flows| => if i in gone then Dropped(t.flows[i], err) else t.flows[i]),
       byKey := map k | k in t.byKey && t.byKey[k] !in gone :: t.byKey[k],
       byID := map a | a in t.byID && t.byID[a] !in gone :: t.byID[a],
       lru := Without(t.lru, gone))
  }

  lemma DroppedTwice(f: Flow, first: Error, second: Error)
    ensures Dropped(Dropped(f, first), second) == Dropped(f, first)
  {
  }

  lemma FilteredTwice<K>(m: map<K, nat>, a: set<nat>, b: set<nat>)
    ensures var one := map k | k in m && m[k] !in a :: m[k];
            (map k | k in one && one[k] !in b :: one[k]) == map k | k in m && m[k] !in a + b :: m[k]
  {
  }

  // Removing two sets of flows one after the other unlinks their union; a flow of both keeps the error of
  // the first removal.
  lemma RemoveTwice(t: Table, a: set<nat>, first: Error, b: set<nat>, second: Error)
    ensures var t' := RemoveAll(RemoveAll(t, a, first), b, second);
            && t' == RemoveAll(t, a + b, first).(flows := t'.flows)
            && |t'.flows| == |t.flows|
            && (forall r: nat :: r < |t.flows| ==>
                  t'.flows[r] == if r in a then Dropped(t.flows[r], first)
                                 else if r in b then Dropped(t.flows[r], second) else t.flows[r])
    ensures first == second ==> RemoveAll(RemoveAll(t, a, first), b, second) == RemoveAll(t, a + b, first)
  {
    var t' := RemoveAll(RemoveAll(t, a, first), b, second);
    WithoutTwice(t.lru, a, b);
    FilteredTwice(t.byKey, a, b);
    FilteredTwice(t.byID, a, b);
    assert t' == RemoveAll(t, a + b, first).(flows := t'.flows);
    forall r: nat | r < |t.flows|
      ensures t'.flows[r] == if r in a then Dropped(t.flows[r], first)
                             else if r in b then Dropped(t.flows[r], second) else t.flows[r]
    {
      DroppedTwice(t.flows[r], first, second);
    }
    if first == second {
      assert t'.flows == RemoveAll(t, a + b, first).flows;
    }
  }

  lemma RemoveNothing(t: Table, err: Error)
    ensures RemoveAll(t, {}, err) == t
  {
    WithoutNothing(t.lru, {});
    assert RemoveAll(t, {}, err).flows == t.flows;
  }

  lemma RemoveUnindexes(t: Table, gone: set<nat>, err: Error)
    ensures forall r: nat :: Indexed(RemoveAll(t, gone, err), r) <==> Indexed(t, r) && r !in gone
    ensures forall r: nat :: IndexedByID(RemoveAll(t, gone, err), r) <==> IndexedByID(t, r) && r !in gone
  {
  }

  lemma RemoveKeepsIndexes(t: Table, gone: set<nat>, err: Error)
    requires IndexesAgree(t)
    ensures IndexesAgree(RemoveAll(t, gone, err)) && NoDuplicates(t.lru)
  {
    hide Indexed, IndexedByID;
    RemoveUnindexes(t, gone, err);
    WithoutKeepsOrder(t.flows, t.lru, gone);
  }

  lemma RemoveKeepsFlowsOk(t: Table, gone: set<nat>, err: Error)
    requires FlowsOk(t)
    ensures FlowsOk(RemoveAll(t, gone, err))
  {
    var t' := RemoveAll(t, gone, err);
    RemoveUnindexes(t, gone, err);
    forall r: nat | r < |t'.flows|
      ensures FlowOk(t'.flows[r], Indexed(t', r))
    {
      assert FlowOk(t.flows[r], Indexed(t, r));
    }
  }

  lemma {:induction false} OrderUnaffected(a: seq<Flow>, b: seq<Flow>, s: seq<nat>)
    requires SeenInOrder(a, s) && |a| <= |b|
    requires forall x :: x in s && x < |a| ==> a[x].lastSeen == b[x].lastSeen
    ensures SeenInOrder(b, s)
  {
    if s != [] {
      OrderUnaffected(a, b, s[1..]);
    }
  }

  lemma RemoveKeepsSorted(t: Table, gone: set<nat>, err: Error)
    requires Sorted(t) && NoDuplicates(t.lru)
    ensures Sorted(RemoveAll(t, gone, err))
  {
    WithoutKeepsOrder(t.flows, t.lru, gone);
    OrderUnaffected(t.flows, RemoveAll(t, gone, err).flows, Without(t.lru, gone));
  }

  lemma RemoveKeepsStructure(t: Table, gone: set<nat>, err: Error)
    requires Structured(t)
    ensures Structured(RemoveAll(t, gone, err))
  {
    hide IndexesAgree, Sorted;
    RemoveKeepsIndexes(t, gone, err);
    assert IDsInOrder(RemoveAll(t, gone, err));
    RemoveKeepsSorted(t, gone, err);
  }

  lemma RemoveKeepsInv(t: Table, gone: set<nat>, err: Error)
    requires Inv(t)
    ensures Inv(RemoveAll(t, gone, err))
  {
    RemoveKeepsStructure(t, gone, err);
    RemoveKeepsFlowsOk(t, gone, err);
  }

  // ---- Updating flows in place ----

  // Changes that touch neither the indexes nor what the indexes are computed from.
  ghost predicate SameIndexes(t: Table, t': Table) {
    && t'.byKey == t.byKey && t'.byID == t.byID && t'.lru == t.lru
    && |t'.flows| == |t.flows|
    && (forall r: nat :: r < |t.flows| ==> t'.flows[r].key == t.flows[r].key && t'.flows[r].authID == t.flows[r].authID)
  }

  lemma SameIndexesKeep(t: Table, t': Table)
    requires SameIndexes(t, t')
    ensures forall r: nat :: Indexed(t', r) <==> Indexed(t, r)
    ensures forall r: nat :: IndexedByID(t', r) <==> IndexedByID(t, r)
    ensures IndexesAgree(t) ==> IndexesAgree(t')
    ensures IDsInOrder(t) ==> IDsInOrder(t')
  {
  }

  lemma UpdateKeepsStructure(t: Table, t': Table)
    requires Structured(t) && SameIndexes(t, t')
    requires t'.maxEntries == t.maxEntries && t'.closed == t.closed && t'.clock == t.clock
    requires forall r: nat :: r < |t.flows| ==> t'.flows[r].lastSeen == t.flows[r].lastSeen
    ensures Structured(t')
  {
    SameIndexesKeep(t, t');
    OrderUnaffected(t.flows, t'.flows, t.lru);
  }

  // ---- Expiry and creation ----

  function ExpiresAt(t: Table, f: Flow): Time {
    if t.ttl > 0 then f.lastSeen + t.ttl else f.expiresAt
  }

  function Expired(t: Table, now: Time): set<nat> {
    set r | r in t.lru && r < |t.flows| && now >= ExpiresAt(t, t.flows[r])
  }

  function RemoveExpired(t: Table, now: Time): Table {
    RemoveAll(t, Expired(t, now), ConntrackEvicted)
  }

  function Touched(t: Table, r: nat, f: Flow, now: Time): Table
    requires r < |t.flows|
  {
    t.(flows := t.flows[r := f.(lastSeen := now)], lru := Without(t.lru, {r}) + [r], clock := now)
  }

  function NewFlow(t: Table, key: string, appID: string, nodeGroupID: string, now: Time): Flow {
    Flow(key, |t.flows| + 1, appID, nodeGroupID, t.closed, if t.closed then Some(NetClosed) else None, "",
         false, 0, NO_META, None, None, [], now, now + DEFAULT_TTL, TcpTracker.FRESH)
  }

  function Oldest(t: Table): set<nat> {
    if t.lru == [] then {} else {t.lru[0]}
  }

  function MakeRoom(t: Table): Table {
    if |t.byKey| >= t.maxEntries then RemoveAll(t, Oldest(t), ConntrackEvicted) else t
  }

  function Added(t: Table, f: Flow): Table {
    var r := |t.flows|;
    t.(flows := t.flows + [f], byKey := t.byKey[f.key := r], byID := t.byID[f.authID := r],
       lru := t.lru + [r], clock := f.lastSeen)
  }

  function GetOrCreate(t0: Table, key: string, appID: string, nodeGroupID: string, now: Time): (Table, nat) {
    var t := RemoveExpired(t0, now);
    if key in t.byKey && t.byKey[key] < |t.flows| then
      (Touched(t, t.byKey[key], t.flows[t.byKey[key]], now), t.byKey[key])
    else
      var f := NewFlow(t, key, appID, nodeGroupID, now);
      if t.closed then (t.(flows := t.flows + [f]), |t.flows|)
      else (Added(MakeRoom(t), f), |t.flows|)
  }

  lemma {:induction false} AppendSeen(flows: seq<Flow>, s: seq<nat>, r: nat)
    requires SeenInOrder(flows, s) && r < |flows|
    requires forall x :: x in s && x < |flows| ==> flows[x].lastSeen <= flows[r].lastSeen
    ensures SeenInOrder(flows, s + [r])
  {
    if s != [] {
      AppendSeen(flows, s[1..], r);
      assert (s + [r])[1..] == s[1..] + [r];
    }
  }

  // Moving an indexed flow to the back of the list keeps every index.
  lemma MoveToBackKeepsIndexes(t: Table, r: nat)
    requires IndexesAgree(t) && r in t.lru
    ensures IndexesAgree(t.(lru := Without(t.lru, {r}) + [r]))
    ensures |Without(t.lru, {r}) + [r]| == |t.lru|
  {
    var t' := t.(lru := Without(t.lru, {r}) + [r]);
    WithoutKeepsOrder(t.flows, t.lru, {r});
    WithoutOne(t.lru, r);
    assert forall x: nat :: Indexed(t', x) <==> Indexed(t, x);
    assert forall x: nat :: IndexedByID(t', x) <==> IndexedByID(t, x);
    assert forall x :: x in t'.lru <==> x in t.lru;
  }

  lemma TouchKeepsOrder(t: Table, r: nat, f: Flow, now: Time)
    requires NoDuplicates(t.lru) && Sorted(t) && t.clock <= now && r in t.lru
    ensures Sorted(Touched(t, r, f, now))
  {
    var t' := Touched(t, r, f, now);
    var rest := Without(t.lru, {r});
    WithoutKeepsOrder(t.flows, t.lru, {r});
    OrderUnaffected(t.flows, t'.flows, rest);
    AppendSeen(t'.flows, rest, r);
  }

  lemma TouchKeepsStructure(t: Table, r: nat, f: Flow, now: Time)
    requires Structured(t) && t.clock <= now && Indexed(t, r)
    requires f.key == t.flows[r].key && f.authID == t.flows[r].authID
    ensures Structured(Touched(t, r, f, now))
  {
    var t1 := t.(flows := t.flows[r := f.(lastSeen := now)]);
    SameIndexesKeep(t, t1);
    MoveToBackKeepsIndexes(t1, r);
    TouchKeepsOrder(t, r, f, now);
    AgreementIgnoresClock(t1.(lru := Without(t1.lru, {r}) + [r]), Touched(t, r, f, now));
  }

  lemma TouchKeepsInv(t: Table, r: nat, f: Flow, now: Time)
    requires Inv(t) && t.clock <= now && Indexed(t, r)
    requires f.key == t.flows[r].key && f.authID == t.flows[r].authID && FlowOk(f, true)
    ensures Inv(Touched(t, r, f, now))
  {
    TouchKeepsStructure(t, r, f, now);
    TouchKeepsFlowsOk(t, r, f, now);
  }

  lemma TouchKeepsFlowsOk(t: Table, r: nat, f: Flow, now: Time)
    requires FlowsOk(t) && Indexed(t, r)
    requires f.key == t.flows[r].key && FlowOk(f, true)
    ensures FlowsOk(Touched(t, r, f, now))
  {
    var t' := Touched(t, r, f, now);
    forall x: nat | x < |t'.flows|
      ensures FlowOk(t'.flows[x], Indexed(t', x))
    {
      assert FlowOk(t.flows[x], Indexed(t, x));
    }
  }

  lemma AgreementIgnoresClock(t: Table, t': Table)
    requires t' == t.(clock := t'.clock) && IndexesAgree(t)
    ensures IndexesAgree(t')
  {
    SameIndexesKeep(t, t');
  }

  lemma AddKeepsIndexes(t: Table, f: Flow)
    requires IndexesAgree(t) && IDsInOrder(t)
    requires f.key !in t.byKey && f.authID == |t.flows| + 1
    ensures IndexesAgree(Added(t, f)) && IDsInOrder(Added(t, f))
    ensures forall x: nat :: Indexed(Added(t, f), x) <==> Indexed(t, x) || x == |t.flows|
  {
    var t' := Added(t, f);
    assert f.authID !in t.byID;
    assert !Indexed(t, |t.flows|);
    assert forall x: nat :: Indexed(t', x) <==> Indexed(t, x) || x == |t.flows|;
    assert forall x: nat :: IndexedByID(t', x) <==> IndexedByID(t, x) || x == |t.flows|;
  }

  lemma {:induction false} RoomMade(t: Table)
    requires Inv(t)
    ensures Inv(MakeRoom(t))
    ensures |MakeRoom(t).lru| < Max(1, t.maxEntries)
    ensures forall k :: k in MakeRoom(t).byKey ==> k in t.byKey
  {
    IndexesHaveOneSize(t);
    if |t.byKey| >= t.maxEntries {
      RemoveKeepsInv(t, Oldest(t), ConntrackEvicted);
      if t.lru != [] {
        WithoutOne(t.lru, t.lru[0]);
      }
    }
  }

  // The two maps and the list have the same number of entries.
  lemma IndexesHaveOneSize(t: Table)
    requires IndexesAgree(t)
    ensures |t.byKey| == |t.lru| == |t.byID|
  {
    var refs := Elements(t.lru);
    ElementsCounted(t.lru);
    var keys := map r | r in refs :: t.flows[r].key;
    Bijection(keys, t.byKey);
    var ids := map r | r in refs :: t.flows[r].authID;
    Bijection(ids, t.byID);
    assert keys.Keys == refs == ids.Keys;
    assert |keys| == |refs| == |ids|;
  }

  lemma {:induction false} ElementsCounted(s: seq<nat>)
    requires NoDuplicates(s)
    ensures |Elements(s)| == |s|
  {
    if s != [] {
      ElementsCounted(s[1..]);
      assert Elements(s) == Elements(s[1..]) + {s[0]};
    }
  }

  lemma {:induction false} Bijection<A, B>(m: map<A, B>, n: map<B, A>)
    requires forall a :: a in m ==> m[a] in n && n[m[a]] == a
    requires forall b :: b in n ==> n[b] in m && m[n[b]] == b
    ensures |m| == |n|
    decreases |m|
  {
    if m.Keys == {} {
      assert m == map[];
      assert n.Keys == {};
      assert n == map[];
    } else {
      var a :| a in m;
      Bijection(m - {a}, n - {m[a]});
      assert (m - {a}).Keys == m.Keys - {a};
      assert (n - {m[a]}).Keys == n.Keys - {m[a]};
      assert |m - {a}| == |m| - 1;
      assert |n - {m[a]}| == |n| - 1;
    }
  }

  lemma AddKeepsInv(t: Table, f: Flow)
    requires Inv(t) && !t.closed && f.key !in t.byKey && f.authID == |t.flows| + 1
    requires t.clock <= f.lastSeen && FlowOk(f, true) && |t.lru| < Max(1, t.maxEntries)
    ensures Inv(Added(t, f))
  {
    hide IndexesAgree, IDsInOrder;
    AddKeepsIndexes(t, f);
    var t' := Added(t, f);
    OrderUnaffected(t.flows, t'.flows, t.lru);
    AppendSeen(t'.flows, t.lru, |t.flows|);
    forall r: nat | r < |t'.flows|
      ensures FlowOk(t'.flows[r], Indexed(t', r))
    {
      assert r < |t.flows| ==> FlowOk(t.flows[r], Indexed(t, r));
    }
  }

  // A flow of a closed table is not indexed.
  lemma AddToClosedKeepsInv(t: Table, f: Flow)
    requires Inv(t) && t.closed && f.authID == |t.flows| + 1 && FlowOk(f, false)
    ensures Inv(t.(flows := t.flows + [f]))
  {
    var t' := t.(flows := t.flows + [f]);
    assert forall r: nat :: Indexed(t', r) <==> Indexed(t, r);
    assert forall r: nat :: IndexedByID(t', r) <==> IndexedByID(t, r);
    assert FlowsOk(t');
  }

  // The flow returned is the one of the key, in the table unless the table is closed.
  lemma GetOrCreateKeepsInv(t0: Table, key: string, appID: string, nodeGroupID: string, now: Time)
    requires Inv(t0) && t0.clock <= now
    ensures var (t', r) := GetOrCreate(t0, key, appID, nodeGroupID, now);
            && Inv(t') && t'.closed == t0.closed
            && r < |t'.flows| && t'.flows[r].key == key && (!t'.closed ==> Indexed(t', r))
  {
    RemoveKeepsInv(t0, Expired(t0, now), ConntrackEvicted);
    var t, f := RemoveExpired(t0, now), NewFlow(RemoveExpired(t0, now), key, appID, nodeGroupID, now);
    if key in t.byKey {
      KnownKey(t, key, now);
    } else if t.closed {
      AddToClosedKeepsInv(t, f);
    } else {
      RoomMade(t);
      AddKeepsInv(MakeRoom(t), f);
    }
    hide Inv, Expired, RemoveAll, Oldest;
  }

  lemma KnownKey(t: Table, key: string, now: Time)
    requires Inv(t) && t.clock <= now && key in t.byKey
    ensures t.byKey[key] < |t.flows| && t.flows[t.byKey[key]].key == key && !t.closed
    ensures Inv(Touched(t, t.byKey[key], t.flows[t.byKey[key]], now))
  {
    assert Indexed(t, t.byKey[key]);
    TouchKeepsInv(t, t.byKey[key], t.flows[t.byKey[key]], now);
  }
}
