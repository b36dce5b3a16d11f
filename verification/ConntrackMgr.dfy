// The flow table as the program keeps it: shared, mutable flow objects, two
// maps and a list, updated in place. Every method is one section under the
// table's mutex and is proved to perform the corresponding operation on the
// value of the table.
module ConntrackMgr {
  import opened Prelude
  import opened FlowTable
  import opened AuthQueue
  import T = TcpTracker

  type ID = x: nat | x > 0 witness 1

  class Conntrack {
    const key: string
    const authID: ID
    const appID: string
    const nodeGroupID: string
    var latched: bool
    var authErr: Option<Error>
    var connectToken: string
    var authStarted: bool
    var authTimeouts: nat
    var authMeta: PacketMeta
    var authDeadline: Option<Time>
    var authRetryAt: Option<Time>
    var pending: seq<Packet>
    var lastSeen: Time
    var expiresAt: Time
    var tcpState: T.State
    var tcpSeq: uint32
    var tcpTTL: nat

    constructor (key: string, authID: ID, appID: string, nodeGroupID: string, now: Time)
      ensures View() == Flow(key, authID, appID, nodeGroupID, false, None, "", false, 0, NO_META,
                             None, None, [], now, now + DEFAULT_TTL, T.FRESH)
      ensures this.key == key && this.authID == authID && lastSeen == now
    {
      this.key, this.authID, this.appID, this.nodeGroupID := key, authID, appID, nodeGroupID;
      latched, authErr, connectToken := false, None, "";
      authStarted, authTimeouts, authMeta := false, 0, NO_META;
      authDeadline, authRetryAt, pending := None, None, [];
      lastSeen, expiresAt := now, now + DEFAULT_TTL;
      tcpState, tcpSeq, tcpTTL := T.Reset, 0, 0;
    }

    ghost function Tracker(): T.Tracker
      reads this
    {
      T.Tracker(tcpState, tcpSeq, tcpTTL)
    }

    ghost function View(): Flow
      reads this
    {
      Flow(key, authID, appID, nodeGroupID, latched, authErr, connectToken, authStarted, authTimeouts,
           authMeta, authDeadline, authRetryAt, pending, lastSeen, expiresAt, Tracker())
    }

    method ObserveTCP(p: T.Segment)
      modifies this`tcpState, this`tcpSeq, this`tcpTTL
      ensures Tracker() == T.Observe(old(Tracker()), p)
    {
      if p.rst {
        tcpState, tcpTTL := T.Reset, T.RESET_TTL;
        return;
      }
      if tcpTTL == 0 {
        tcpTTL := T.DEFAULT_TTL;
      }
      var acknowledged := p.ack && p.acknowledgment == (tcpSeq + 1) % 0x1_0000_0000;
      match tcpState {
        case Reset =>
          if p.syn {
            tcpSeq := p.sequence;
            if p.incoming {
              tcpState, tcpTTL := T.InboundSyn, T.INBOUND_SYN_TTL;
            } else {
              tcpState, tcpTTL := T.OutboundSyn, T.OUTBOUND_SYN_TTL;
            }
          }
        case InboundSyn =>
          if !p.incoming && p.syn {
            if acknowledged {
              tcpState, tcpTTL := T.Established, T.ESTABLISHED_TTL;
            } else {
              tcpState, tcpSeq, tcpTTL := T.SynAck, p.sequence, T.SYN_ACK_TTL;
            }
          }
        case OutboundSyn =>
          if p.incoming && p.syn && acknowledged {
            tcpState, tcpSeq, tcpTTL := T.SynAck, p.sequence, T.SYN_ACK_TTL;
          }
        case SynAck =>
          if !p.incoming && acknowledged {
            tcpState, tcpTTL := T.Established, T.ESTABLISHED_TTL;
          } else {
            ObserveTCPFin(p);
          }
        case Established =>
          ObserveTCPFin(p);
        case InboundFin =>
          if !p.incoming && p.fin {
            tcpState, tcpTTL := T.InboundFirstClosed, T.INBOUND_FIRST_CLOSED_TTL;
          }
        case OutboundFin =>
          if p.incoming && p.fin {
            tcpState, tcpTTL := T.OutboundFirstClosed, T.OUTBOUND_FIRST_CLOSED_TTL;
          }
        case _ =>
      }
    }

    // Forgets the queued packets and, unless a result is already there, latches the error.
    method Drop(err: Error)
      modifies this`pending, this`authErr, this`latched
      ensures View() == Dropped(old(View()), err)
    {
      pending := [];
      if !latched {
        authErr := Some(err);
        latched := true;
      }
    }

    method Observe(o: Observed, now: Time)
      modifies this
      ensures View() == ObservedFlow(old(View()), o, now).(lastSeen := now)
    {
      hide T.Observe;
      lastSeen := now;
      match o {
        case Malformed =>
          expiresAt := now + DEFAULT_TTL;
        case ShortTcp =>
          authMeta := authMeta.(proto := 6);
          expiresAt := now + DEFAULT_TTL;
        case Tcp(segment) =>
          authMeta := authMeta.(proto := 6);
          ObserveTCP(segment);
          expiresAt := now + tcpTTL * SECOND;
        case Udp =>
          authMeta := authMeta.(proto := 17);
          expiresAt := now + UDP_TTL;
        case Icmp =>
          authMeta := authMeta.(proto := 1);
          expiresAt := now + ICMP_TTL;
        case OtherProtocol(number) =>
          authMeta := authMeta.(proto := number);
          expiresAt := now + DEFAULT_TTL;
      }
    }

    method Complete(token: string, err: Option<Error>) returns (packets: seq<Packet>)
      modifies this`pending, this`connectToken, this`authErr, this`latched
      ensures View() == Completed(old(View()), token, err) && packets == old(pending)
    {
      packets := pending;
      pending := [];
      if token != "" {
        connectToken := token;
      }
      authErr := err;
      latched := true;
    }

    method Queue(meta: PacketMeta, packet: Packet)
      modifies this`authMeta, this`pending
      ensures View() == old(View()).(authMeta := meta, pending := old(pending) + [packet])
    {
      authMeta := meta;
      pending := pending + [packet];
    }

    method Charge(now: Time) returns (exhausted: bool)
      modifies this`authTimeouts, this`authStarted, this`authDeadline, this`authRetryAt
      ensures View() == Charged(old(View()), now)
      ensures exhausted <==> old(authTimeouts) + 1 >= MAX_AUTH_ATTEMPTS
    {
      authTimeouts := authTimeouts + 1;
      exhausted := authTimeouts >= MAX_AUTH_ATTEMPTS;
      if !exhausted {
        Reschedule(now);
      }
    }

    method Reschedule(at: Time)
      modifies this`authStarted, this`authDeadline, this`authRetryAt
      ensures View() == old(View()).(authStarted := false, authDeadline := None, authRetryAt := Some(at))
    {
      authStarted, authDeadline, authRetryAt := false, None, Some(at);
    }

    method ObserveTCPFin(p: T.Segment)
      modifies this`tcpState
      ensures Tracker() == T.ObserveFin(old(Tracker()), p)
    {
      if !p.fin {
        return;
      }
      tcpState := if p.incoming then T.InboundFin else T.OutboundFin;
    }
  }

  // ---- The fields as a picture of the table's value ----

  // The list without one flow.
  function WithoutFlow(s: seq<Conntrack>, c: Conntrack): seq<Conntrack> {
    if s == [] then [] else
    if s[0] == c then WithoutFlow(s[1..], c) else [s[0]] + WithoutFlow(s[1..], c)
  }

  ghost predicate Numbered(all: seq<Conntrack>) {
    forall i :: 0 <= i < |all| ==> all[i].authID == i + 1
  }

  ghost predicate Named(all: seq<Conntrack>, s: seq<Conntrack>, refs: seq<nat>) {
    |s| == |refs| && forall i :: 0 <= i < |s| ==> refs[i] < |all| && s[i] == all[refs[i]]
  }

  ghost predicate KeysLinked(all: seq<Conntrack>, byKey: map<string, Conntrack>, refs: map<string, nat>) {
    && (forall k :: k in byKey <==> k in refs)
    && (forall k :: k in byKey ==> refs[k] < |all| && byKey[k] == all[refs[k]] && byKey[k].key == k)
  }

  ghost predicate IDsLinked(all: seq<Conntrack>, byID: map<nat, Conntrack>, refs: map<nat, nat>) {
    && (forall a :: a in byID <==> a in refs)
    && (forall a :: a in byID ==> refs[a] < |all| && byID[a] == all[refs[a]] && byID[a].authID == a)
  }

  function WithoutKey(byKey: map<string, Conntrack>, c: Conntrack): map<string, Conntrack> {
    if c.key in byKey && byKey[c.key] == c then byKey - {c.key} else byKey
  }

  function WithoutID(byID: map<nat, Conntrack>, c: Conntrack): map<nat, Conntrack> {
    if c.authID in byID && byID[c.authID] == c then byID - {c.authID} else byID
  }

  lemma RemoveAllShape(t: Table, gone: set<nat>, err: Error)
    ensures var t' := RemoveAll(t, gone, err);
            && t'.lru == Without(t.lru, gone) && |t'.flows| == |t.flows|
            && t'.ttl == t.ttl && t'.maxEntries == t.maxEntries && t'.closed == t.closed
  {
  }

  lemma UnlinkKey(all: seq<Conntrack>, byKey: map<string, Conntrack>, t: Table, r: nat, err: Error)
    requires Numbered(all) && KeysLinked(all, byKey, t.byKey) && r < |all|
    ensures KeysLinked(all, WithoutKey(byKey, all[r]), RemoveAll(t, {r}, err).byKey)
  {
    assert forall i :: 0 <= i < |all| && all[i] == all[r] ==> i == all[r].authID - 1;
  }

  lemma UnlinkID(all: seq<Conntrack>, byID: map<nat, Conntrack>, t: Table, r: nat, err: Error)
    requires Numbered(all) && IDsLinked(all, byID, t.byID) && r < |all|
    ensures IDsLinked(all, WithoutID(byID, all[r]), RemoveAll(t, {r}, err).byID)
  {
    assert forall i :: 0 <= i < |all| && all[i] == all[r] ==> i == all[r].authID - 1;
  }

  lemma {:induction false} WithoutFlowNames(all: seq<Conntrack>, s: seq<Conntrack>, refs: seq<nat>, r: nat)
    requires Named(all, s, refs) && r < |all| && Numbered(all)
    ensures Named(all, WithoutFlow(s, all[r]), Without(refs, {r}))
  {
    if s != [] {
      WithoutFlowNames(all, s[1..], refs[1..], r);
    }
  }

  class Mgr {
    ghost var all: seq<Conntrack>      // every flow ever created, in order
    ghost var view: Table              // the value of the table
    var nextAuthID: nat
    var byKey: map<string, Conntrack>
    var byID: map<nat, Conntrack>
    var lru: seq<Conntrack>
    const ttl: Time
    const maxEntries: nat
    var closed: bool

    ghost predicate Linked()
      reads this
    {
      && Numbered(all)
      && nextAuthID == |all| == |view.flows|
      && KeysLinked(all, byKey, view.byKey)
      && IDsLinked(all, byID, view.byID)
      && Named(all, lru, view.lru)
      && ttl == view.ttl && maxEntries == view.maxEntries && closed == view.closed
    }

    // The flow objects hold exactly the flows of `view`.
    ghost predicate Stored()
      reads this, all
    {
      |all| == |view.flows| && forall i :: 0 <= i < |all| ==> all[i].View() == view.flows[i]
    }

    ghost predicate Valid()
      reads this, all
    {
      Linked() && Stored()
    }

    constructor (ttl: Time, maxEntries: nat)
      ensures Valid() && all == []
      ensures view == Table([], map[], map[], [], ttl, maxEntries, false, 0)
    {
      all, nextAuthID, closed := [], 0, false;
      byKey, byID, lru := map[], map[], [];
      this.ttl, this.maxEntries := ttl, maxEntries;
      view := Table([], map[], map[], [], ttl, maxEntries, false, 0);
    }

    method RemoveLocked(ct: Conntrack, err: Error)
      requires Linked() && Stored() && ct in all
      modifies this`byKey, this`byID, this`lru, this`view, ct`pending, ct`latched, ct`authErr
      ensures Linked() && Stored()
      ensures view == RemoveAll(old(view), {ct.authID - 1}, err)
    {
      ghost var r: nat := ct.authID - 1;
      assert ct == all[r];
      RemoveIndexesLocked(ct, err);
      ct.Drop(err);
      view := RemoveAll(old(view), {r}, err);
      forall i | 0 <= i < |all|
        ensures all[i].View() == view.flows[i]
      {
        assert old(all[i].View()) == old(view).flows[i];
        assert i != r ==> all[i] != ct;
      }
    }

    method RemoveIndexesLocked(ct: Conntrack, ghost err: Error)
      requires Linked() && ct in all
      modifies this`byKey, this`byID, this`lru, this`view
      ensures Linked()
      ensures view == RemoveAll(old(view), {ct.authID - 1}, err).(flows := old(view).flows)
    {
      hide Named, KeysLinked, IDsLinked, RemoveAll, WithoutFlow;
      ghost var r: nat := ct.authID - 1;
      assert ct == all[r];
      hide Numbered;
      WithoutFlowNames(all, lru, view.lru, r);
      RemoveAllShape(view, {r}, err);
      UnlinkKey(all, byKey, view, r, err);
      UnlinkID(all, byID, view, r, err);
      if ct.key in byKey && byKey[ct.key] == ct {
        byKey := byKey - {ct.key};
      }
      if ct.authID in byID && byID[ct.authID] == ct {
        byID := byID - {ct.authID};
      }
      lru := WithoutFlow(lru, ct);
      view := RemoveAll(view, {r}, err).(flows := view.flows);
    }

    // Replacing the value of one flow, once its object holds the new value.
    ghost method Record(ct: Conntrack, f: Flow)
      requires Linked() && ct in all && ct.View() == f
      requires |all| == |view.flows|
      requires forall i :: 0 <= i < |all| && all[i] != ct ==> all[i].View() == view.flows[i]
      modifies this`view
      ensures Linked() && Stored()
      ensures ct.authID - 1 < |old(view).flows| && view == Update(old(view), ct.authID - 1, f)
    {
      assert ct == all[ct.authID - 1];
      view := Update(view, ct.authID - 1, f);
    }

    lemma At(ct: Conntrack)
      requires Linked() && Stored() && ct in all
      ensures ct.authID - 1 < |view.flows| && all[ct.authID - 1] == ct && view.flows[ct.authID - 1] == ct.View()
    {
    }

    method GetByID(authID: nat) returns (ct: Conntrack?)
      requires Linked() && Stored()
      ensures ct == null <==> ByID(view, authID).None?
      ensures ct != null ==> ct in all && ByID(view, authID) == Some(ct.authID - 1)
      ensures ct != null ==> ct.authID - 1 < |view.flows| && view.flows[ct.authID - 1] == ct.View()
    {
      ct := if authID in byID then byID[authID] else null;
      if ct != null {
        At(ct);
      }
    }

    method Finish(ct: Conntrack, token: string, err: Option<Error>) returns (packets: seq<Packet>)
      requires Linked() && Stored() && ct in all && !ct.latched && ct.authID - 1 < |view.flows|
      modifies this`byKey, this`byID, this`lru, this`view, ct
      ensures Linked() && Stored()
      ensures var done := Update(old(view), ct.authID - 1, Completed(old(view).flows[ct.authID - 1], token, err));
              view == if err.Some? then RemoveAll(done, {ct.authID - 1}, err.value) else done
      ensures packets == if err.Some? then [] else old(ct.pending)
    {
      At(ct);
      packets := ct.Complete(token, err);
      Record(ct, Completed(view.flows[ct.authID - 1], token, err));
      if err.Some? {
        packets := [];
        RemoveLocked(ct, err.value);
      }
    }

    method CompleteAuth(authID: nat, token: string, err: Option<Error>) returns (ct: Conntrack?, packets: seq<Packet>)
      requires Valid()
      modifies this, all
      ensures Valid() && all == old(all)
      ensures view == AuthQueue.CompleteAuth(old(view), authID, token, err)
      ensures packets == Released(old(view), authID, err)
    {
      hide Linked, Stored, RemoveAll;
      ct := GetByID(authID);
      packets := [];
      if ct != null {
        if ct.latched {
          ct := null;
        } else {
          packets := Finish(ct, token, err);
        }
      }
    }

    method RemoveExpired(now: Time)
      requires Valid() && NoDuplicates(view.lru)
      modifies this`byKey, this`byID, this`lru, this`view, all
      ensures Valid() && all == old(all)
      ensures view == FlowTable.RemoveExpired(old(view), now)
    {
      hide Linked, Stored, RemoveAll;
      var elements := lru;
      ghost var before := view;
      var i := 0;
      ListNamed();
      ExpiryWalk(before, now);
      while i < |elements|
        invariant 0 <= i <= |elements| == |before.lru|
        invariant Valid() && all == old(all)
        invariant Named(all, elements, before.lru) && |before.flows| == |all|
        invariant view == RemoveAll(before, ExpiredAmong(before, now, i), ConntrackEvicted)
      {
        ExpiryWalkStep(before, now, i);
        RemoveIfExpired(elements[i], before.lru[i], now);
        i := i + 1;
      }
    }

    // One element of removeExpired's walk.
    method RemoveIfExpired(ct: Conntrack, ghost r: nat, now: Time)
      requires Valid() && r < |all| && ct == all[r]
      modifies this`byKey, this`byID, this`lru, this`view, ct
      ensures Valid()
      ensures r < |old(view).flows|
      ensures view == if now >= ExpiresAt(old(view), old(view).flows[r])
                      then RemoveAll(old(view), {r}, ConntrackEvicted) else old(view)
    {
      At(ct);
      var expiresAt := if ttl > 0 then ct.lastSeen + ttl else ct.expiresAt;
      if now >= expiresAt {
        RemoveLocked(ct, ConntrackEvicted);
      }
    }

    lemma ListNamed()
      requires Valid()
      ensures Named(all, lru, view.lru) && |view.flows| == |all|
    {
    }

    method ExpireAuth(now: Time, err: Error) returns (expired: nat)
      requires Valid() && NoDuplicates(view.lru)
      modifies this`byKey, this`byID, this`lru, this`view, all
      ensures Valid() && all == old(all)
      ensures view == AuthQueue.ExpireAuth(old(view), now, err)
      ensures expired == |Exhausted(old(view), Due(old(view), now))|
    {
      hide Linked, Stored, RemoveAll, ChargeAll, Exhausted;
      var elements := lru;
      ghost var before := view;
      var i := 0;
      expired := 0;
      ListNamed();
      AuthWalk(before, now, err);
      while i < |elements|
        invariant 0 <= i <= |elements| == |before.lru|
        invariant Valid() && all == old(all)
        invariant Named(all, elements, before.lru) && |before.flows| == |all|
        invariant view == ExpireThese(before, DueAmong(before, now, i), now, err)
        invariant expired == |Exhausted(before, DueAmong(before, now, i))|
      {
        AuthWalkStep(before, now, err, i);
        var removed := ExpireElement(elements[i], before.lru[i], now, err);
        expired := if removed then expired + 1 else expired;
        i := i + 1;
      }
    }

    // One element of expireAuth's walk.
    method ExpireElement(ct: Conntrack, ghost r: nat, now: Time, err: Error) returns (removed: bool)
      requires Valid() && r < |all| && ct == all[r]
      modifies this`byKey, this`byID, this`lru, this`view, ct
      ensures Valid()
      ensures r < |old(view).flows|
      ensures view == ExpiredOne(old(view), r, now, err)
      ensures removed <==> IsDue(old(view).flows[r], now) && old(view).flows[r].authTimeouts + 1 >= MAX_AUTH_ATTEMPTS
    {
      At(ct);
      removed := false;
      if ct.authDeadline.Some? && now >= ct.authDeadline.value {
        removed := ct.Charge(now);
        Record(ct, Charged(view.flows[ct.authID - 1], now));
        if removed {
          RemoveLocked(ct, err);
        }
      }
    }

    method NextAuthBatch(limit: nat, clock: nat -> Time) returns (jobs: seq<(Conntrack, PacketMeta)>, more: bool)
      requires Valid() && NoDuplicates(view.lru)
      modifies this`view, all
      ensures Valid() && all == old(all)
      ensures view == AuthQueue.NextAuthBatch(old(view), limit, clock)
      ensures JobsFor(all, jobs, old(view), Chosen(old(view), limit, clock))
      ensures more == MoreEligible(old(view), limit, clock)
    {
      hide *;
      ghost var before := view;
      var i := 0;
      jobs, more := [], false;
      ListNamed();
      BatchStart(before, clock, all);
      while i < |lru|
        invariant 0 <= i <= |lru| == |before.lru|
        invariant Valid() && all == old(all) && lru == old(lru)
        invariant Named(all, lru, before.lru) && |before.flows| == |all|
        invariant |EligibleRefs(before, clock, i)| <= limit
        invariant view == StartAll(before, EligibleRefs(before, clock, i))
        invariant JobsFor(all, jobs, before, EligibleRefs(before, clock, i))
      {
        BatchStep(before, clock, i);
        ElementAt(before, i, clock(i));
        JobsGrow(all, jobs, before, EligibleRefs(before, clock, i), before.lru[i]);
        var ct := lru[i];
        if CanStart(ct, clock(i)) {
          if |jobs| >= limit {
            more := true;
            break;
          }
          jobs := jobs + [(ct, ct.authMeta)];
          Start(ct);
        }
        i := i + 1;
      }
      BatchEnd(before, limit, clock, i);
    }

    method GetOrCreate(key: string, appID: string, nodeGroupID: string, now: Time) returns (ct: Conntrack)
      requires Valid() && NoDuplicates(view.lru)
      modifies this, all
      ensures Valid() && old(all) <= all && ct in all
      ensures forall c :: c in all && c !in old(all) ==> fresh(c)
      ensures (view, ct.authID - 1) == FlowTable.GetOrCreate(old(view), key, appID, nodeGroupID, now)
    {
      hide Linked, Stored, RemoveAll, FlowTable.RemoveExpired, FlowTable.MakeRoom, Added, NewFlow, Touched;
      RemoveExpired(now);
      KeyAt(key);
      if key in byKey {
        ct := byKey[key];
        Touch(ct, now);
        return;
      }
      ct := Create(key, appID, nodeGroupID, now);
    }

    // The part of GetOrCreate for a key without a flow.
    method Create(key: string, appID: string, nodeGroupID: string, now: Time) returns (ct: Conntrack)
      requires Valid() && key !in byKey
      modifies this, all
      ensures Valid() && old(all) <= all && ct in all
      ensures forall c :: c in all && c !in old(all) ==> fresh(c)
      ensures ct.authID == |old(view).flows| + 1
      ensures var f := NewFlow(old(view), key, appID, nodeGroupID, now);
              view == if old(view).closed then old(view).(flows := old(view).flows + [f])
                      else Added(FlowTable.MakeRoom(old(view)), f)
    {
      hide Linked, Stored, RemoveAll, Oldest;
      KeyAt(key);
      RemoveAllShape(view, Oldest(view), ConntrackEvicted);
      ct := new Conntrack(key, nextAuthID + 1, appID, nodeGroupID, now);
      if closed {
        ct.authErr := Some(NetClosed);
        ct.latched := true;
        Append(ct);
        return;
      }
      if |byKey| >= maxEntries {
        RemoveOldest();
      }
      Append(ct);
      Index(ct);
    }

    lemma KeyAt(key: string)
      requires Valid()
      ensures key in byKey <==> key in view.byKey
      ensures |byKey| == |view.byKey| && nextAuthID == |view.flows| == |all|
      ensures closed == view.closed && maxEntries == view.maxEntries
      ensures key in byKey ==>
        && byKey[key] in all && view.byKey[key] == byKey[key].authID - 1
        && view.byKey[key] < |view.flows| && view.flows[view.byKey[key]] == byKey[key].View()
    {
      assert byKey.Keys == view.byKey.Keys;
      assert |byKey| == |byKey.Keys| && |view.byKey| == |view.byKey.Keys|;
    }

    // lastSeen := now; MoveToBack.
    method Touch(ct: Conntrack, now: Time)
      requires Valid() && ct in all
      modifies this`lru, this`view, ct`lastSeen
      ensures Valid() && ct.authID - 1 < |old(view).flows|
      ensures view == Touched(old(view), ct.authID - 1, old(view).flows[ct.authID - 1], now)
    {
      At(ct);
      ct.lastSeen := now;
      Record(ct, view.flows[ct.authID - 1].(lastSeen := now));
      MoveToBack(ct, now);
    }

    method MoveToBack(ct: Conntrack, ghost now: Time)
      requires Valid() && ct in all
      modifies this`lru, this`view
      ensures Valid()
      ensures view == old(view).(lru := Without(old(view).lru, {ct.authID - 1}) + [ct.authID - 1], clock := now)
    {
      At(ct);
      WithoutFlowNames(all, lru, view.lru, ct.authID - 1);
      lru := WithoutFlow(lru, ct) + [ct];
      view := view.(lru := Without(view.lru, {ct.authID - 1}) + [ct.authID - 1], clock := now);
    }

    method RemoveOldest()
      requires Valid()
      modifies this`byKey, this`byID, this`lru, this`view, all
      ensures Valid() && all == old(all)
      ensures view == RemoveAll(old(view), Oldest(old(view)), ConntrackEvicted)
    {
      if |lru| > 0 {
        At(lru[0]);
        RemoveLocked(lru[0], ConntrackEvicted);
      } else {
        RemoveNothing(view, ConntrackEvicted);
      }
    }

    method ObservePacket(key: string, o: Observed, now: Time) returns (found: bool)
      requires Valid()
      modifies this`lru, this`view, all
      ensures Valid() && all == old(all)
      ensures view == AuthQueue.ObservePacket(old(view), key, o, now)
      ensures found <==> key in old(byKey)
    {
      hide Linked, Stored, ObservedFlow, Touched;
      KeyAt(key);
      found := key in byKey;
      if found {
        var ct := byKey[key];
        Refresh(ct, o, now);
      }
    }

    method Refresh(ct: Conntrack, o: Observed, now: Time)
      requires Valid() && ct in all
      modifies this`lru, this`view, ct
      ensures Valid() && ct.authID - 1 < |old(view).flows|
      ensures view == Touched(old(view), ct.authID - 1, ObservedFlow(old(view).flows[ct.authID - 1], o, now), now)
    {
      hide ObservedFlow;
      At(ct);
      ghost var f := view.flows[ct.authID - 1];
      ct.Observe(o, now);
      Record(ct, ObservedFlow(f, o, now).(lastSeen := now));
      MoveToBack(ct, now);
    }

    method CachePacket(ct: Conntrack, meta: PacketMeta, packet: Packet) returns (result: CacheResult)
      requires Valid() && ct in all
      modifies this`view, ct`authMeta, ct`pending
      ensures Valid() && ct.authID - 1 < |old(view).flows|
      ensures view == AuthQueue.CachePacket(old(view), ct.authID - 1, meta, packet)
      ensures result == CacheOutcome(old(view), ct.authID - 1)
      ensures var r: nat := ct.authID - 1;
              var f := old(view).flows[r];
              var listed := f.key in old(view).byKey && old(view).byKey[f.key] == r;
              if !listed then result == Refused(if f.latched then f.authErr else Some(ConntrackEvicted)) && view == old(view)
              else if f.latched then result == Refused(f.authErr) && view == old(view)
              else if |f.pending| >= 1024 then result == Full && view == old(view)
              else result == Cached
                   && view == old(view).(flows := old(view).flows[r := f.(authMeta := meta, pending := f.pending + [packet])])
    {
      At(ct);
      KeyAt(ct.key);
      SameFlow(ct);
      if !(ct.key in byKey && byKey[ct.key] == ct) {
        result := Refused(if ct.latched then ct.authErr else Some(ConntrackEvicted));
      } else if ct.latched {
        result := Refused(ct.authErr);
      } else if |ct.pending| >= PENDING_LIMIT {
        result := Full;
      } else {
        result := Cached;
        Enqueue(ct, meta, packet);
      }
    }

    lemma SameFlow(ct: Conntrack)
      requires Valid() && ct in all
      ensures ct.key in byKey ==> (byKey[ct.key] == ct <==> view.byKey[ct.key] == ct.authID - 1)
    {
      At(ct);
    }

    method Enqueue(ct: Conntrack, meta: PacketMeta, packet: Packet)
      requires Valid() && ct in all
      modifies this`view, ct`authMeta, ct`pending
      ensures Valid() && ct.authID - 1 < |old(view).flows|
      ensures var f := old(view).flows[ct.authID - 1];
              view == Update(old(view), ct.authID - 1, f.(authMeta := meta, pending := f.pending + [packet]))
    {
      At(ct);
      ghost var f := view.flows[ct.authID - 1];
      ct.Queue(meta, packet);
      Record(ct, f.(authMeta := meta, pending := f.pending + [packet]));
    }

    method AuthResult(ct: Conntrack) returns (token: string, err: Option<Error>, authenticated: bool)
      requires Valid() && ct in all
      ensures ct.authID - 1 < |view.flows|
      ensures var f := view.flows[ct.authID - 1];
              (token, err, authenticated) == if f.latched then (f.connectToken, f.authErr, true) else ("", None, false)
    {
      At(ct);
      if ct.latched {
        return ct.connectToken, ct.authErr, true;
      }
      return "", None, false;
    }

    method MarkAuthSent(authID: nat, deadline: Time)
      requires Valid()
      modifies this`view, all
      ensures Valid() && all == old(all)
      ensures view == AuthQueue.MarkAuthSent(old(view), authID, deadline)
    {
      var ct := GetByID(authID);
      if ct != null && !ct.latched {
        ct.authDeadline := Some(deadline);
        Record(ct, view.flows[ct.authID - 1].(authDeadline := Some(deadline)));
      }
    }

    method RetryAuth(authID: nat, delay: Time, now: Time) returns (scheduled: bool)
      requires Valid()
      modifies this`view, all
      ensures Valid() && all == old(all)
      ensures view == AuthQueue.RetryAuth(old(view), authID, delay, now)
      ensures scheduled <==> ByID(old(view), authID).Some? && !old(view).flows[ByID(old(view), authID).value].latched
    {
      hide Linked;
      var ct := GetByID(authID);
      scheduled := ct != null && !ct.latched;
      if scheduled {
        ghost var f := view.flows[ct.authID - 1];
        ct.Reschedule(now + delay);
        Record(ct, f.(authStarted := false, authDeadline := None, authRetryAt := Some(now + delay)));
      }
    }

    method Remove(key: string)
      requires Valid()
      modifies this`byKey, this`byID, this`lru, this`view, all
      ensures Valid() && all == old(all)
      ensures view == RemoveKey(old(view), key)
    {
      hide Linked, Stored, RemoveAll;
      KeyAt(key);
      if key in byKey {
        var ct := byKey[key];
        RemoveLocked(ct, ConntrackEvicted);
      }
    }

    // Visits the keys in no particular order, as ranging over a map does.
    method Close()
      requires Valid()
      modifies this`byKey, this`byID, this`lru, this`view, this`closed, all
      ensures Valid() && all == old(all)
      ensures view == CloseTable(old(view))
    {
      hide Linked, Stored, RemoveAll;
      SetClosed();
      ghost var before := view;
      var keys := byKey.Keys;
      ghost var gone: set<nat> := {};
      CloseStart(before);
      while keys != {}
        invariant Valid() && all == old(all)
        invariant keys <= before.byKey.Keys
        invariant gone == RefsOf(before, before.byKey.Keys - keys)
        invariant view == RemoveAll(before, gone, NetClosed)
        decreases |keys|
      {
        var k :| k in keys;
        CloseStep(before, keys, k);
        KeyAt(k);
        if k in byKey {
          RemoveLocked(byKey[k], NetClosed);
        }
        gone := gone + {before.byKey[k]};
        keys := keys - {k};
      }
      assert before.byKey.Keys - {} == before.byKey.Keys;
    }

    method SetClosed()
      requires Valid()
      modifies this`closed, this`view
      ensures Valid() && view == old(view).(closed := true)
      ensures byKey.Keys == view.byKey.Keys
    {
      closed := true;
      view := view.(closed := true);
    }

    // A new flow takes the next authID; it is not indexed yet.
    method Append(ct: Conntrack)
      requires Valid() && ct !in all && ct.authID == nextAuthID + 1
      modifies this`all, this`nextAuthID, this`view
      ensures Valid() && all == old(all) + [ct] && closed == old(closed) == view.closed
      ensures view == old(view).(flows := old(view).flows + [ct.View()])
    {
      nextAuthID := nextAuthID + 1;
      all := all + [ct];
      view := view.(flows := view.flows + [ct.View()]);
    }

    method Index(ct: Conntrack)
      requires Valid() && |all| > 0 && ct == all[|all| - 1]
      modifies this`byKey, this`byID, this`lru, this`view
      ensures Valid()
      ensures view == old(view).(byKey := old(view).byKey[ct.key := ct.authID - 1],
                                 byID := old(view).byID[ct.authID := ct.authID - 1],
                                 lru := old(view).lru + [ct.authID - 1], clock := ct.lastSeen)
    {
      lru := lru + [ct];
      byKey := byKey[ct.key := ct];
      byID := byID[ct.authID := ct];
      view := view.(byKey := view.byKey[ct.key := ct.authID - 1], byID := view.byID[ct.authID := ct.authID - 1],
                    lru := view.lru + [ct.authID - 1], clock := ct.lastSeen);
    }

    predicate CanStart(ct: Conntrack, now: Time)
      reads ct
    {
      !ct.authStarted && ct.pending != [] && (ct.authRetryAt.Some? ==> now >= ct.authRetryAt.value)
    }

    lemma ElementAt(before: Table, i: nat, now: Time)
      requires Valid() && i < |lru| && Named(all, lru, before.lru) && |before.flows| == |all| && i < |before.lru|
      ensures lru[i] in all && before.lru[i] < |all| && before.lru[i] < |view.flows| && lru[i] == all[before.lru[i]]
      ensures lru[i].authID - 1 == before.lru[i] && lru[i].authMeta == view.flows[before.lru[i]].authMeta
      ensures CanStart(lru[i], now) == Eligible(view.flows[before.lru[i]], now)
    {
      At(lru[i]);
    }

    method Start(ct: Conntrack)
      requires Valid() && ct in all
      modifies this`view, ct`authStarted
      ensures Valid() && ct.authID - 1 < |old(view).flows|
      ensures view == Update(old(view), ct.authID - 1, old(view).flows[ct.authID - 1].(authStarted := true))
    {
      At(ct);
      ct.authStarted := true;
      Record(ct, view.flows[ct.authID - 1].(authStarted := true));
    }
  }

  // A job names a chosen flow and carries the metadata the flow had when it was chosen.
  ghost predicate JobsFor(all: seq<Conntrack>, jobs: seq<(Conntrack, PacketMeta)>, t: Table, chosen: seq<nat>) {
    && |jobs| == |chosen|
    && forall j :: 0 <= j < |jobs| ==>
         && chosen[j] < |all| && chosen[j] < |t.flows|
         && jobs[j] == (all[chosen[j]], t.flows[chosen[j]].authMeta)
  }

  lemma JobsGrow(all: seq<Conntrack>, jobs: seq<(Conntrack, PacketMeta)>, t: Table, chosen: seq<nat>, r: nat)
    requires JobsFor(all, jobs, t, chosen) && r < |all| && r < |t.flows|
    ensures |jobs| == |chosen|
    ensures JobsFor(all, jobs + [(all[r], t.flows[r].authMeta)], t, chosen + [r])
  {
  }

  lemma BatchStart(t: Table, clock: nat -> Time, all: seq<Conntrack>)
    ensures EligibleRefs(t, clock, 0) == [] && StartAll(t, []) == t && JobsFor(all, [], t, [])
  {
    StartNone(t);
  }

  lemma BatchEnd(t: Table, limit: nat, clock: nat -> Time, i: nat)
    requires i <= |t.lru| && |EligibleRefs(t, clock, i)| <= limit
    requires i < |t.lru| ==> |EligibleRefs(t, clock, i + 1)| > limit
    ensures EligibleRefs(t, clock, i) == Chosen(t, limit, clock)
    ensures MoreEligible(t, limit, clock) <==> i < |t.lru|
    ensures AuthQueue.NextAuthBatch(t, limit, clock) == StartAll(t, Chosen(t, limit, clock))
  {
    EligiblePrefix(t, clock, i, |t.lru|);
    if i < |t.lru| {
      EligiblePrefix(t, clock, i + 1, |t.lru|);
    }
  }

  lemma StartNone(t: Table)
    ensures StartAll(t, []) == t
  {
    assert StartAll(t, []).flows == t.flows;
  }

  lemma BatchStep(t: Table, clock: nat -> Time, i: nat)
    requires i < |t.lru| && NoDuplicates(t.lru) && t.lru[i] < |t.flows|
    ensures var chosen, r := EligibleRefs(t, clock, i), t.lru[i];
            var mid := StartAll(t, chosen);
            && |mid.flows| == |t.flows| && mid.flows[r] == t.flows[r]
            && EligibleRefs(t, clock, i + 1) == (if Eligible(t.flows[r], clock(i)) then chosen + [r] else chosen)
            && StartAll(t, EligibleRefs(t, clock, i + 1)) ==
               if Eligible(t.flows[r], clock(i)) then Update(mid, r, t.flows[r].(authStarted := true)) else mid
  {
    NotChosenYet(t, clock, i);
    StartOneMore(t, EligibleRefs(t, clock, i), t.lru[i]);
  }

  lemma ExpiryWalk(t: Table, now: Time)
    ensures RemoveAll(t, ExpiredAmong(t, now, 0), ConntrackEvicted) == t
    ensures RemoveAll(t, ExpiredAmong(t, now, |t.lru|), ConntrackEvicted) == FlowTable.RemoveExpired(t, now)
  {
    RemoveNothing(t, ConntrackEvicted);
    assert ExpiredAmong(t, now, 0) == {};
    assert t.lru[..|t.lru|] == t.lru;
    assert ExpiredAmong(t, now, |t.lru|) == Expired(t, now);
  }

  lemma ExpiryWalkStep(t: Table, now: Time, i: nat)
    requires i < |t.lru| && NoDuplicates(t.lru) && t.lru[i] < |t.flows|
    ensures var mid, r := RemoveAll(t, ExpiredAmong(t, now, i), ConntrackEvicted), t.lru[i];
            && |mid.flows| == |t.flows|
            && RemoveAll(t, ExpiredAmong(t, now, i + 1), ConntrackEvicted) ==
               if now >= ExpiresAt(mid, mid.flows[r]) then RemoveAll(mid, {r}, ConntrackEvicted) else mid
  {
    var gone, r := ExpiredAmong(t, now, i), t.lru[i];
    OneMoreExpired(t, now, i);
    RemoveTwice(t, gone, ConntrackEvicted, {r}, ConntrackEvicted);
    assert gone + {} == gone;
  }

  ghost function RefsOf(t: Table, keys: set<string>): set<nat> {
    set k | k in keys && k in t.byKey :: t.byKey[k]
  }

  lemma CloseStart(t: Table)
    ensures RefsOf(t, t.byKey.Keys - t.byKey.Keys) == {}
    ensures RemoveAll(t, {}, NetClosed) == t
    ensures RemoveAll(t, RefsOf(t, t.byKey.Keys), NetClosed) ==
            RemoveAll(t, set k | k in t.byKey :: t.byKey[k], NetClosed)
  {
    RemoveNothing(t, NetClosed);
    assert RefsOf(t, t.byKey.Keys) == set k | k in t.byKey :: t.byKey[k];
  }

  // Whether or not k is still indexed, afterwards the flow it named is gone.
  lemma CloseStep(t: Table, keys: set<string>, k: string)
    requires keys <= t.byKey.Keys && k in keys
    ensures var gone := RefsOf(t, t.byKey.Keys - keys);
            var mid := RemoveAll(t, gone, NetClosed);
            && RefsOf(t, t.byKey.Keys - (keys - {k})) == gone + {t.byKey[k]}
            && (k in mid.byKey ==> mid.byKey[k] == t.byKey[k])
            && RemoveAll(t, gone + {t.byKey[k]}, NetClosed) ==
               if k in mid.byKey then RemoveAll(mid, {t.byKey[k]}, NetClosed) else mid
  {
    var gone := RefsOf(t, t.byKey.Keys - keys);
    RemoveTwice(t, gone, NetClosed, {t.byKey[k]}, NetClosed);
    assert t.byKey.Keys - (keys - {k}) == (t.byKey.Keys - keys) + {k};
    if t.byKey[k] in gone {
      assert gone + {t.byKey[k]} == gone;
    }
  }

  lemma ExpireNone(t: Table, now: Time, err: Error)
    ensures ExpireThese(t, {}, now, err) == t
  {
    RemoveNothing(t, err);
    assert ChargeAll(t, {}, now).flows == t.flows;
    assert Exhausted(t, {}) == {};
  }

  predicate IsDue(f: Flow, now: Time) {
    f.authDeadline.Some? && now >= f.authDeadline.value
  }

  function ExpiredOne(t: Table, r: nat, now: Time, err: Error): Table
    requires r < |t.flows|
  {
    var f := t.flows[r];
    var charged := Update(t, r, Charged(f, now));
    if !IsDue(f, now) then t
    else if f.authTimeouts + 1 < MAX_AUTH_ATTEMPTS then charged
    else RemoveAll(charged, {r}, err)
  }

  lemma AuthWalk(t: Table, now: Time, err: Error)
    ensures ExpireThese(t, DueAmong(t, now, 0), now, err) == t && Exhausted(t, DueAmong(t, now, 0)) == {}
    ensures DueAmong(t, now, |t.lru|) == Due(t, now)
    ensures ExpireThese(t, DueAmong(t, now, |t.lru|), now, err) == AuthQueue.ExpireAuth(t, now, err)
  {
    assert DueAmong(t, now, 0) == {};
    ExpireNone(t, now, err);
    assert t.lru[..|t.lru|] == t.lru;
  }

  lemma StepLeavesOthers(t: Table, due: set<nat>, r: nat, now: Time, err: Error)
    requires r !in due && r < |t.flows|
    ensures |ExpireThese(t, due, now, err).flows| == |t.flows|
    ensures ExpireThese(t, due, now, err).flows[r] == t.flows[r]
  {
  }

  lemma ExhaustedCount(t: Table, due: set<nat>, r: nat)
    requires r !in due && r < |t.flows|
    ensures |Exhausted(t, due + {r})| == |Exhausted(t, due)| + if t.flows[r].authTimeouts + 1 >= MAX_AUTH_ATTEMPTS then 1 else 0
  {
    if t.flows[r].authTimeouts + 1 >= MAX_AUTH_ATTEMPTS {
      assert Exhausted(t, due + {r}) == Exhausted(t, due) + {r};
    } else {
      assert Exhausted(t, due + {r}) == Exhausted(t, due);
    }
  }

  lemma ExpireOneMore(t: Table, due: set<nat>, r: nat, now: Time, err: Error)
    requires r !in due && r < |t.flows| && IsDue(t.flows[r], now)
    ensures var mid := ExpireThese(t, due, now, err);
            && |mid.flows| == |t.flows| && mid.flows[r] == t.flows[r]
            && ExpireThese(t, due + {r}, now, err) == ExpiredOne(mid, r, now, err)
  {
    hide ExpireThese, RemoveAll, ChargeAll, Exhausted;
    StepLeavesOthers(t, due, r, now, err);
    if t.flows[r].authTimeouts + 1 >= MAX_AUTH_ATTEMPTS {
      ExhaustOneMore(t, due, r, now, err);
    } else {
      ChargeOneMore(t, due, r, now, err);
    }
  }

  lemma AuthWalkStep(t: Table, now: Time, err: Error, i: nat)
    requires i < |t.lru| && NoDuplicates(t.lru) && t.lru[i] < |t.flows|
    ensures var mid, r := ExpireThese(t, DueAmong(t, now, i), now, err), t.lru[i];
            && |mid.flows| == |t.flows|
            && ExpireThese(t, DueAmong(t, now, i + 1), now, err) == ExpiredOne(mid, r, now, err)
            && |Exhausted(t, DueAmong(t, now, i + 1))| == |Exhausted(t, DueAmong(t, now, i))| +
               if IsDue(mid.flows[r], now) && mid.flows[r].authTimeouts + 1 >= MAX_AUTH_ATTEMPTS then 1 else 0
  {
    hide ExpireThese, Exhausted, Charged;
    var due, r := DueAmong(t, now, i), t.lru[i];
    OneMoreDue(t, now, i);
    StepLeavesOthers(t, due, r, now, err);
    if IsDue(t.flows[r], now) {
      ExpireOneMore(t, due, r, now, err);
      ExhaustedCount(t, due, r);
    } else {
      assert due + {} == due;
    }
  }

  lemma NotChosenYet(t: Table, clock: nat -> Time, i: nat)
    requires i < |t.lru| && NoDuplicates(t.lru)
    ensures t.lru[i] !in EligibleRefs(t, clock, i)
  {
    EligiblePrefix(t, clock, i, i);
  }

  lemma StartOneMore(t: Table, chosen: seq<nat>, r: nat)
    requires r < |t.flows| && r !in chosen
    ensures StartAll(t, chosen).flows[r] == t.flows[r]
    ensures StartAll(t, chosen + [r]) == Update(StartAll(t, chosen), r, t.flows[r].(authStarted := true))
  {
    assert StartAll(t, chosen + [r]).flows == Update(StartAll(t, chosen), r, t.flows[r].(authStarted := true)).flows;
  }
}
