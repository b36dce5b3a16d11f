// WritePacket and completeAuthentication, step by step, in every interleaving
// with each other and with every other section of the flow table. A flow's
// send lock has an explicit owner; the wire is a log of frames per flow.
module FlowProtocol {
  import opened Prelude
  import opened FlowTable
  import opened AuthQueue
  import opened FlowRuns

  const MAX_TOKEN := 255

  // What became of one packet handed to WritePacket.
  datatype Fate =
    | InFlight                 // the call still holds the send lock
    | Written                  // returned nil after writing the frame
    | Queued                   // returned nil after queueing
    | DroppedFull              // returned nil because the queue was full
    | Failed                   // returned an error
    | Silent                   // returned nil after neither

  datatype Frame = Frame(pos: nat, payload: Packet, token: string)

  // One flow's send lock and the history of its packets. `given` lists the
  // packets of WritePacket calls in the order the calls took the send lock;
  // every other field refers to packets by their position in it.
  datatype Channel = Channel(
    owner: Option<nat>,
    given: seq<Packet>,
    fates: seq<Fate>,
    queued: seq<nat>,
    wire: seq<Frame>,
    flushFailed: bool)

  const NEW_CHANNEL := Channel(None, [], [], [], [], false)

  datatype Thread =
    | Idle
    | WriteWaiting(r: nat, meta: PacketMeta, packet: Packet)
    | WriteChecking(r: nat, meta: PacketMeta)
    | WriteSending(r: nat, token: string)
    | WriteCaching(r: nat, meta: PacketMeta)
    | CompleteWaiting(r: nat, token: string, err: Option<Error>)
    | Completing(r: nat, token: string, err: Option<Error>)
    | Flushing(r: nat, token: string, rest: seq<nat>)

  datatype State = State(table: Table, channels: seq<Channel>, threads: map<nat, Thread>)

  datatype Step =
    | Background(op: Op)
    | BeginWrite(tid: nat, key: string, appID: string, nodeGroupID: string, now: Time, meta: PacketMeta, packet: Packet)
    | WriteLock(tid: nat)
    | WriteCheck(tid: nat)
    | WriteSend(tid: nat, ok: bool)
    | WriteCache(tid: nat)
    | BeginComplete(tid: nat, authID: nat, token: string, err: Option<Error>)
    | CompleteLock(tid: nat)
    | CompleteLatch(tid: nat)
    | FlushOne(tid: nat, ok: bool)
    | FlushEnd(tid: nat)

  function ThreadOf(s: State, tid: nat): Thread {
    if tid in s.threads then s.threads[tid] else Idle
  }

  // The flow whose send lock a thread holds.
  function Holds(th: Thread): Option<nat> {
    if th.WriteChecking? || th.WriteSending? || th.WriteCaching? || th.Completing? || th.Flushing? then Some(th.r) else None
  }

  // ---- Steps ----

  // A flow that lost its queue has nothing queued.
  function Synced(c: Channel, f: Flow): Channel {
    if f.pending == [] then c.(queued := []) else c
  }

  // A new flow has a new channel.
  function Sync(channels: seq<Channel>, t: Table): seq<Channel> {
    seq(|t.flows|, r requires 0 <= r < |t.flows| =>
      if r >= |channels| then NEW_CHANNEL else Synced(channels[r], t.flows[r]))
  }

  function WithTable(s: State, t: Table): State {
    s.(table := t, channels := Sync(s.channels, t))
  }

  function Goto(s: State, tid: nat, th: Thread): State {
    s.(threads := s.threads[tid := th])
  }

  function SetChannel(s: State, r: nat, c: Channel): State
    requires r < |s.channels|
  {
    s.(channels := s.channels[r := c])
  }

  // The last position, that of the packet whose call holds the lock, gets its fate.
  function Settled(c: Channel, fate: Fate): Channel {
    if c.fates == [] then c else c.(owner := None, fates := c.fates[|c.fates| - 1 := fate])
  }

  // After a writer's send.
  function AfterSend(c: Channel, token: string, ok: bool): Channel {
    if ok then Settled(c, Written).(wire := c.wire + [FrameAt(c, Last(c), token)]) else Settled(c, Failed)
  }

  // Sections that other parts of the program run: everything except queueing a
  // packet and completing an authentication successfully, which need the send lock.
  predicate InBackground(op: Op) {
    !op.OpCache? && (op.OpComplete? ==> op.completeErr.Some?)
  }

  ghost predicate Enabled(s: State, step: Step) {
    match step
    case Background(op) => InBackground(op) && Monotone(s.table, op)
    case BeginWrite(tid, key, appID, nodeGroupID, now, meta, packet) => ThreadOf(s, tid).Idle? && s.table.clock <= now
    case WriteLock(tid) =>
      var th := ThreadOf(s, tid);
      th.WriteWaiting? && th.r < |s.channels| && s.channels[th.r].owner == None
    case WriteCheck(tid) => ThreadOf(s, tid).WriteChecking?
    case WriteSend(tid, ok) => ThreadOf(s, tid).WriteSending? && (ok ==> |ThreadOf(s, tid).token| <= MAX_TOKEN)
    case WriteCache(tid) => ThreadOf(s, tid).WriteCaching?
    case BeginComplete(tid, authID, token, err) => ThreadOf(s, tid).Idle? && ByID(s.table, authID).Some?
    case CompleteLock(tid) =>
      var th := ThreadOf(s, tid);
      th.CompleteWaiting? && th.r < |s.channels| && s.channels[th.r].owner == None
    case CompleteLatch(tid) => ThreadOf(s, tid).Completing?
    case FlushOne(tid, ok) =>
      var th := ThreadOf(s, tid);
      th.Flushing? && th.rest != [] && (ok ==> |th.token| <= MAX_TOKEN)
    case FlushEnd(tid) => ThreadOf(s, tid).Flushing? && ThreadOf(s, tid).rest == []
  }

  // What authResult tells a writer that holds the lock.
  function Checked(s: State, tid: nat, r: nat, meta: PacketMeta): State {
    if r >= |s.channels| || r >= |s.table.flows| then s else
    var f := s.table.flows[r];
    if !f.latched then Goto(s, tid, WriteCaching(r, meta))
    else if f.authErr.Some? then Goto(SetChannel(s, r, Settled(s.channels[r], Failed)), tid, Idle)
    else Goto(s, tid, WriteSending(r, f.connectToken))
  }

  function Last(c: Channel): nat {
    if c.given == [] then 0 else |c.given| - 1
  }

  function FrameAt(c: Channel, pos: nat, token: string): Frame {
    Frame(pos, if pos < |c.given| then c.given[pos] else [], token)
  }

  function Cache(s: State, tid: nat, r: nat, meta: PacketMeta): State {
    if r >= |s.channels| || r >= |s.table.flows| then s else
    var c := s.channels[r];
    var packet := FrameAt(c, Last(c), "").payload;
    match CacheOutcome(s.table, r)
    case Cached =>
      var s' := s.(table := CachePacket(s.table, r, meta, packet));
      Goto(SetChannel(s', r, Settled(c, Queued).(queued := c.queued + [Last(c)])), tid, Idle)
    case Full => Goto(SetChannel(s, r, Settled(c, DroppedFull)), tid, Idle)
    case Refused(err) =>
      Goto(SetChannel(s, r, Settled(c, if err.Some? then Failed else Silent)), tid, Idle)
  }

  // completeAuth under the send lock, and what its caller then has to flush.
  function Latch(s: State, tid: nat, th: Thread): State
    requires th.Completing?
  {
    if th.r >= |s.channels| then s else
    var c := s.channels[th.r];
    var t := CompleteAuth(s.table, th.r + 1, th.token, th.err);
    var s' := WithTable(s, t);
    if th.r >= |s'.channels| then s
    else if th.err.Some? then Goto(SetChannel(s', th.r, s'.channels[th.r].(owner := None)), tid, Idle)
    else Goto(s', tid, Flushing(th.r, th.token, if Released(s.table, th.r + 1, None) == [] then [] else c.queued))
  }

  function Flush(s: State, tid: nat, th: Thread, ok: bool): State
    requires th.Flushing? && th.rest != []
  {
    if th.r >= |s.channels| then s else
    var c := s.channels[th.r];
    if ok then
      Goto(SetChannel(s, th.r, c.(wire := c.wire + [FrameAt(c, th.rest[0], th.token)])), tid, th.(rest := th.rest[1..]))
    else
      Goto(SetChannel(s, th.r, c.(owner := None, flushFailed := true)), tid, Idle)
  }

  function Do(s: State, step: Step): State
    requires Enabled(s, step)
  {
    match step
    case Background(op) => WithTable(s, Apply(s.table, op))
    case BeginWrite(tid, key, appID, nodeGroupID, now, meta, packet) =>
      var (t, r) := GetOrCreate(s.table, key, appID, nodeGroupID, now);
      Goto(WithTable(s, t), tid, WriteWaiting(r, meta, packet))
    case WriteLock(tid) =>
      var th := ThreadOf(s, tid);
      var c := s.channels[th.r];
      Goto(SetChannel(s, th.r, c.(owner := Some(tid), given := c.given + [th.packet], fates := c.fates + [InFlight])),
           tid, WriteChecking(th.r, th.meta))
    case WriteCheck(tid) => Checked(s, tid, ThreadOf(s, tid).r, ThreadOf(s, tid).meta)
    case WriteSend(tid, ok) =>
      var th := ThreadOf(s, tid);
      if th.r >= |s.channels| then s else
      Goto(SetChannel(s, th.r, AfterSend(s.channels[th.r], th.token, ok)), tid, Idle)
    case WriteCache(tid) => Cache(s, tid, ThreadOf(s, tid).r, ThreadOf(s, tid).meta)
    case BeginComplete(tid, authID, token, err) =>
      Goto(s, tid, CompleteWaiting(ByID(s.table, authID).value, token, err))
    case CompleteLock(tid) =>
      var th := ThreadOf(s, tid);
      Goto(SetChannel(s, th.r, s.channels[th.r].(owner := Some(tid))), tid, Completing(th.r, th.token, th.err))
    case CompleteLatch(tid) => Latch(s, tid, ThreadOf(s, tid))
    case FlushOne(tid, ok) => Flush(s, tid, ThreadOf(s, tid), ok)
    case FlushEnd(tid) =>
      var th := ThreadOf(s, tid);
      if th.r >= |s.channels| then s else
      Goto(SetChannel(s, th.r, s.channels[th.r].(owner := None)), tid, Idle)
  }

  // ---- The invariant of one flow, given the thread that holds its lock ----

  ghost predicate Increasing(s: seq<nat>) {
    forall i, j :: 0 <= i < j < |s| ==> s[i] < s[j]
  }

  function Positions(wire: seq<Frame>): seq<nat> {
    seq(|wire|, i requires 0 <= i < |wire| => wire[i].pos)
  }

  // Positions that a flush has still to write.
  function Unflushed(holder: Thread): seq<nat> {
    if holder.Flushing? then holder.rest else []
  }

  // Everything sent or still to be sent, in the order it will be on the wire.
  function Outgoing(c: Channel, holder: Thread): seq<nat> {
    Positions(c.wire) + Unflushed(holder) + c.queued
  }

  ghost predicate Writing(th: Thread) {
    th.WriteChecking? || th.WriteSending? || th.WriteCaching?
  }

  ghost predicate Succeeded(f: Flow) {
    f.latched && f.authErr == None
  }

  ghost predicate FramesFaithful(f: Flow, c: Channel) {
    && (forall fr :: fr in c.wire ==> fr.pos < |c.given| && fr.payload == c.given[fr.pos] && fr.token == f.connectToken)
    && (c.wire != [] ==> Succeeded(f))
  }

  ghost predicate QueueFaithful(f: Flow, c: Channel) {
    && |c.queued| == |f.pending|
    && forall i :: 0 <= i < |c.queued| ==> c.queued[i] < |c.given| && f.pending[i] == c.given[c.queued[i]]
  }

  ghost predicate FatesKept(f: Flow, c: Channel, holder: Thread) {
    && |c.fates| == |c.given|
    && (forall p :: 0 <= p < |c.fates| && c.fates[p] == InFlight ==> Writing(holder) && p == |c.fates| - 1)
    && (forall p :: 0 <= p < |c.fates| ==> c.fates[p] != Silent)
    && (forall p :: 0 <= p < |c.fates| && c.fates[p] == Written ==> p in Positions(c.wire))
    && (forall p :: 0 <= p < |c.fates| && c.fates[p] == Queued ==>
          p in Outgoing(c, holder) || (f.latched && f.authErr.Some?) || c.flushFailed)
    && (forall p :: p in Outgoing(c, holder) ==> p < |c.fates| && c.fates[p] in {Written, Queued})
  }

  ghost predicate HolderFits(f: Flow, c: Channel, holder: Thread) {
    && (Writing(holder) ==> c.fates != [] && c.fates[|c.fates| - 1] == InFlight)
    && (holder.WriteSending? ==> Succeeded(f) && holder.token == f.connectToken)
    && (holder.WriteCaching? ==> !Succeeded(f))
    && (holder.Flushing? && holder.rest != [] ==> Succeeded(f) && holder.token == f.connectToken)
  }

  ghost predicate FlowInv(f: Flow, c: Channel, holder: Thread) {
    && Increasing(Outgoing(c, holder))
    && FramesFaithful(f, c)
    && QueueFaithful(f, c)
    && FatesKept(f, c, holder)
    && HolderFits(f, c, holder)
  }

  function Holder(s: State, c: Channel): Thread {
    if c.owner.Some? then ThreadOf(s, c.owner.value) else Idle
  }

  ghost predicate LocksAgree(s: State) {
    && (forall tid :: tid in s.threads && Holds(s.threads[tid]).Some? ==>
          Holds(s.threads[tid]).value < |s.channels| && s.channels[Holds(s.threads[tid]).value].owner == Some(tid))
    && (forall r :: 0 <= r < |s.channels| && s.channels[r].owner.Some? ==>
          Holds(ThreadOf(s, s.channels[r].owner.value)) == Some(r))
    && (forall tid :: tid in s.threads && (s.threads[tid].WriteWaiting? || s.threads[tid].CompleteWaiting?) ==>
          s.threads[tid].r < |s.channels|)
  }

  ghost predicate ProtocolInv(s: State) {
    && Inv(s.table)
    && |s.channels| == |s.table.flows|
    && LocksAgree(s)
    && (forall r :: 0 <= r < |s.channels| ==> FlowInv(s.table.flows[r], s.channels[r], Holder(s, s.channels[r])))
  }

  // ---- One flow through one step ----

  lemma SyncedSame(f: Flow, c: Channel)
    requires QueueFaithful(f, c)
    ensures Synced(c, f) == c
  {
  }

  // Whatever other sections do to a flow, its history stays explained.
  lemma UntouchedKeepsFlow(f: Flow, f': Flow, c: Channel, holder: Thread)
    requires FlowInv(f, c, holder) && Untouched(f, f') && Evolved(f, f')
    ensures FlowInv(f', Synced(c, f'), holder)
  {
    if f'.pending == f.pending {
      SyncedSame(f, c);
    } else {
      var c' := Synced(c, f');
      assert Outgoing(c, holder) == Outgoing(c', holder) + c.queued;
    }
  }

  lemma NewFlowOk(f: Flow)
    requires f.pending == []
    ensures FlowInv(f, NEW_CHANNEL, Idle)
  {
  }

  // Taking the lock records the packet as the last one given.
  lemma LockKeepsFlow(f: Flow, c: Channel, th: Thread, tid: nat)
    requires FlowInv(f, c, Idle) && th.WriteWaiting?
    ensures FlowInv(f, c.(owner := Some(tid), given := c.given + [th.packet], fates := c.fates + [InFlight]),
                    WriteChecking(th.r, th.meta))
  {
    var c' := c.(owner := Some(tid), given := c.given + [th.packet], fates := c.fates + [InFlight]);
    assert Outgoing(c', WriteChecking(th.r, th.meta)) == Outgoing(c, Idle);
  }

  // Ending a call without an effect on the queue or the wire.
  lemma SettleKeepsFlow(f: Flow, c: Channel, holder: Thread, fate: Fate)
    requires FlowInv(f, c, holder) && Writing(holder) && fate in {Failed, DroppedFull}
    ensures FlowInv(f, Settled(c, fate), Idle)
  {
    assert Outgoing(Settled(c, fate), Idle) == Outgoing(c, holder);
  }

  lemma HandOver(f: Flow, c: Channel, holder: Thread, next: Thread)
    requires FlowInv(f, c, holder) && Writing(holder) && Writing(next)
    requires HolderFits(f, c, next)
    ensures FlowInv(f, c, next)
  {
    assert Outgoing(c, next) == Outgoing(c, holder);
  }

  lemma InFlightIsNew(f: Flow, c: Channel, holder: Thread)
    requires FlowInv(f, c, holder) && Writing(holder)
    ensures forall p :: p in Outgoing(c, holder) ==> p < Last(c)
  {
    assert c.fates[Last(c)] == InFlight;
  }

  lemma SendKeepsFlow(f: Flow, c: Channel, holder: Thread)
    requires FlowInv(f, c, holder) && holder.WriteSending? && f.pending == []
    ensures FlowInv(f, Settled(c, Written).(wire := c.wire + [FrameAt(c, Last(c), holder.token)]), Idle)
  {
    var fr := FrameAt(c, Last(c), holder.token);
    var c' := Settled(c, Written).(wire := c.wire + [fr]);
    InFlightIsNew(f, c, holder);
    assert c.queued == [];
    assert Positions(c'.wire) == Positions(c.wire) + [Last(c)];
    assert Outgoing(c', Idle) == Outgoing(c, holder) + [Last(c)];
  }

  lemma CacheKeepsFlow(f: Flow, c: Channel, holder: Thread, meta: PacketMeta)
    requires FlowInv(f, c, holder) && holder.WriteCaching?
    ensures var packet := FrameAt(c, Last(c), "").payload;
            FlowInv(f.(authMeta := meta, pending := f.pending + [packet]),
                    Settled(c, Queued).(queued := c.queued + [Last(c)]), Idle)
    ensures Settled(c, Queued).owner == None
  {
    hide FatesKept, Increasing, Outgoing, QueueFaithful, FramesFaithful, FrameAt;
    InFlightIsNew(f, c, holder);
    QueueIsOutgoing(c, holder);
    IncreasingWith(Outgoing(c, holder), Last(c));
    QueueKeepsFates(f, f.(authMeta := meta, pending := f.pending + [FrameAt(c, Last(c), "").payload]), c, holder);
    QueueKeepsContents(f, c, holder, meta);
  }

  lemma QueueIsOutgoing(c: Channel, holder: Thread)
    requires !holder.Flushing?
    ensures Outgoing(Settled(c, Queued).(queued := c.queued + [Last(c)]), Idle) == Outgoing(c, holder) + [Last(c)]
  {
    var c' := Settled(c, Queued).(queued := c.queued + [Last(c)]);
    assert Outgoing(c', Idle) == Outgoing(c, holder) + [Last(c)];
  }

  lemma QueueKeepsContents(f: Flow, c: Channel, holder: Thread, meta: PacketMeta)
    requires FlowInv(f, c, holder) && holder.WriteCaching?
    ensures var f' := f.(authMeta := meta, pending := f.pending + [FrameAt(c, Last(c), "").payload]);
            var c' := Settled(c, Queued).(queued := c.queued + [Last(c)]);
            QueueFaithful(f', c') && FramesFaithful(f', c')
  {
    hide Increasing, Outgoing, FatesKept;
    assert |c.fates| == |c.given| by {
      GivenAndFates(f, c, holder);
    }
  }

  lemma GivenAndFates(f: Flow, c: Channel, holder: Thread)
    requires FatesKept(f, c, holder)
    ensures |c.fates| == |c.given|
  {
  }

  lemma IncreasingWith(s: seq<nat>, last: nat)
    requires Increasing(s) && forall p :: p in s ==> p < last
    ensures Increasing(s + [last])
  {
    assert forall i :: 0 <= i < |s| ==> s[i] in s;
  }

  lemma QueueKeepsFates(f: Flow, f': Flow, c: Channel, holder: Thread)
    requires FlowInv(f, c, holder) && holder.WriteCaching? && f'.latched == f.latched && f'.authErr == f.authErr
    ensures FatesKept(f', Settled(c, Queued).(queued := c.queued + [Last(c)]), Idle)
  {
    var c' := Settled(c, Queued).(queued := c.queued + [Last(c)]);
    QueueIsOutgoing(c, holder);
    hide Positions, Outgoing, Increasing, FramesFaithful, QueueFaithful;
  }

  lemma LatchKeepsFlow(f: Flow, c: Channel, holder: Thread, token: string)
    requires FlowInv(f, c, holder) && holder.Completing? && !f.latched && f.connectToken == ""
    ensures FlowInv(Completed(f, token, None), c.(queued := []),
                    Flushing(holder.r, token, if f.pending == [] then [] else c.queued))
  {
    var rest := if f.pending == [] then [] else c.queued;
    assert rest == c.queued;
    assert Outgoing(c.(queued := []), Flushing(holder.r, token, rest)) == Outgoing(c, holder);
  }

  lemma FlushKeepsFlow(f: Flow, c: Channel, holder: Thread)
    requires FlowInv(f, c, holder) && holder.Flushing? && holder.rest != []
    ensures FlowInv(f, c.(wire := c.wire + [FrameAt(c, holder.rest[0], holder.token)]), holder.(rest := holder.rest[1..]))
    ensures FlowInv(f, c.(owner := None, flushFailed := true), Idle)
  {
    var fr := FrameAt(c, holder.rest[0], holder.token);
    var c' := c.(wire := c.wire + [fr]);
    var holder' := holder.(rest := holder.rest[1..]);
    assert holder.rest[0] in Outgoing(c, holder);
    assert Positions(c'.wire) == Positions(c.wire) + [holder.rest[0]];
    assert holder.rest == [holder.rest[0]] + holder.rest[1..];
    assert Outgoing(c', holder') == Outgoing(c, holder);
    FlushFailureKeepsFlow(f, c, holder);
  }

  lemma IncreasingCut(a: seq<nat>, b: seq<nat>, c: seq<nat>)
    requires Increasing(a + b + c)
    ensures Increasing(a + [] + c)
  {
    var whole, cut := a + b + c, a + [] + c;
    forall i, j | 0 <= i < j < |cut|
      ensures cut[i] < cut[j]
    {
      var i', j' := if i < |a| then i else i + |b|, if j < |a| then j else j + |b|;
      assert cut[i] == whole[i'] && cut[j] == whole[j'];
    }
  }

  lemma FlushFailureKeepsFlow(f: Flow, c: Channel, holder: Thread)
    requires FlowInv(f, c, holder) && holder.Flushing?
    ensures FlowInv(f, c.(owner := None, flushFailed := true), Idle)
  {
    var c' := c.(owner := None, flushFailed := true);
    IncreasingCut(Positions(c.wire), holder.rest, c.queued);
    hide Increasing;
    assert forall p :: p in Outgoing(c', Idle) ==> p in Outgoing(c, holder);
  }

  lemma ReleaseKeepsFlow(f: Flow, c: Channel, holder: Thread)
    requires FlowInv(f, c, holder) && (holder.Completing? || (holder.Flushing? && holder.rest == []))
    ensures FlowInv(f, c.(owner := None), Idle)
  {
    assert Outgoing(c.(owner := None), Idle) == Outgoing(c, holder);
  }

  // ---- Every step ----

  // All flows but r moved on without the send lock; r and its lock moved as the step says.
  ghost predicate OthersFollow(s: State, s': State, r: nat) {
    && |s.table.flows| == |s.channels| <= |s'.channels| == |s'.table.flows|
    && (forall x: nat :: x < |s.channels| && x != r ==>
          && Untouched(s.table.flows[x], s'.table.flows[x]) && Evolved(s.table.flows[x], s'.table.flows[x])
          && s'.channels[x] == Synced(s.channels[x], s'.table.flows[x]))
    && (forall x: nat :: |s.channels| <= x < |s'.channels| ==>
          s'.channels[x] == NEW_CHANNEL && s'.table.flows[x].pending == [])
  }

  ghost predicate LockMoves(s: State, s': State, r: nat, tid: nat, next: Thread) {
    && r < |s.channels| <= |s'.channels|
    && s'.threads == s.threads[tid := next]
    && s.channels[r].owner in {None, Some(tid)} && s'.channels[r].owner in {None, Some(tid)}
    && Holds(ThreadOf(s, tid)) == (if s.channels[r].owner.Some? then Some(r) else None)
    && Holds(next) == (if s'.channels[r].owner.Some? then Some(r) else None)
    && !next.WriteWaiting? && !next.CompleteWaiting?
  }

  lemma OtherOwners(s: State, s': State, r: nat, tid: nat, next: Thread)
    requires LocksAgree(s) && OthersFollow(s, s', r) && LockMoves(s, s', r, tid, next)
    ensures forall x: nat :: x < |s.channels| && x != r ==>
      s'.channels[x].owner == s.channels[x].owner != Some(tid)
    ensures forall x: nat :: |s.channels| <= x < |s'.channels| ==> s'.channels[x].owner == None
    ensures forall other :: other != tid ==> ThreadOf(s', other) == ThreadOf(s, other)
    ensures ThreadOf(s', tid) == next
  {
    forall x: nat | x < |s.channels| && x != r
      ensures s'.channels[x].owner == s.channels[x].owner != Some(tid)
    {
      assert s'.channels[x] == Synced(s.channels[x], s'.table.flows[x]);
    }
  }

  lemma LocksFollow(s: State, s': State, r: nat, tid: nat, next: Thread)
    requires LocksAgree(s) && OthersFollow(s, s', r) && LockMoves(s, s', r, tid, next)
    ensures LocksAgree(s')
    ensures forall x: nat :: x < |s.channels| && x != r ==> Holder(s', s'.channels[x]) == Holder(s, s.channels[x])
    ensures Holder(s', s'.channels[r]) == if s'.channels[r].owner.Some? then next else Idle
  {
    OtherOwners(s, s', r, tid, next);
    hide OthersFollow;
    assert |s.channels| <= |s'.channels|;
    forall other | other in s'.threads && Holds(s'.threads[other]).Some?
      ensures Holds(s'.threads[other]).value < |s'.channels|
      ensures s'.channels[Holds(s'.threads[other]).value].owner == Some(other)
    {
      if other != tid {
        assert s'.threads[other] == s.threads[other];
      }
    }
  }

  lemma OneFlowSteps(s: State, s': State, r: nat, tid: nat, next: Thread)
    requires ProtocolInv(s) && Inv(s'.table) && OthersFollow(s, s', r) && LockMoves(s, s', r, tid, next)
    requires FlowInv(s'.table.flows[r], s'.channels[r], if s'.channels[r].owner.Some? then next else Idle)
    ensures ProtocolInv(s')
  {
    LocksFollow(s, s', r, tid, next);
    hide Inv, FlowInv, LocksAgree, Untouched, Evolved, Synced, LockMoves;
    forall x: nat | x < |s'.channels|
      ensures FlowInv(s'.table.flows[x], s'.channels[x], Holder(s', s'.channels[x]))
    {
      if x >= |s.channels| {
        NewFlowOk(s'.table.flows[x]);
      } else if x != r {
        UntouchedKeepsFlow(s.table.flows[x], s'.table.flows[x], s.channels[x], Holder(s, s.channels[x]));
      }
    }
  }

  // Steps that leave the table alone.
  lemma SameTableFollows(s: State, s': State, r: nat)
    requires ProtocolInv(s) && s'.table == s.table && r < |s.channels|
    requires |s'.channels| == |s.channels|
    requires forall x: nat :: x < |s.channels| && x != r ==> s'.channels[x] == s.channels[x]
    ensures OthersFollow(s, s', r)
  {
    forall x: nat | x < |s.channels| && x != r
      ensures Untouched(s.table.flows[x], s'.table.flows[x]) && Evolved(s.table.flows[x], s'.table.flows[x])
      ensures s'.channels[x] == Synced(s.channels[x], s'.table.flows[x])
    {
      SyncedSame(s.table.flows[x], s.channels[x]);
    }
  }

  lemma NewFlowsQueueNothing(t: Table, op: Op, r: nat)
    requires |t.flows| <= r < |Apply(t, op).flows|
    ensures Apply(t, op).flows[r].pending == []
  {
    hide Without, Chosen;
  }

  // A section that needs no send lock.
  lemma TableMoves(s: State, op: Op)
    requires ProtocolInv(s) && InBackground(op) && Monotone(s.table, op)
    ensures ProtocolInv(WithTable(s, Apply(s.table, op)))
  {
    hide Inv, FlowInv, Untouched, Evolved, Monotone, Apply, Indexed, Increasing;
    var t' := Apply(s.table, op);
    var s' := WithTable(s, t');
    ApplyKeepsInv(s.table, op);
    EveryOpEvolves(s.table, op);
    assert forall r: nat :: !Delivers(s.table, op, r);
    forall x: nat | x < |s'.channels|
      ensures FlowInv(t'.flows[x], s'.channels[x], Holder(s', s'.channels[x]))
    {
      if x >= |s.channels| {
        NewFlowsQueueNothing(s.table, op, x);
        NewFlowOk(t'.flows[x]);
      } else {
        UntouchedKeepsFlow(s.table.flows[x], t'.flows[x], s.channels[x], Holder(s, s.channels[x]));
      }
    }
    SyncKeepsLocks(s, t');
  }

  lemma SyncKeepsLocks(s: State, t: Table)
    requires LocksAgree(s) && |s.channels| <= |t.flows|
    ensures LocksAgree(WithTable(s, t))
  {
    var s' := WithTable(s, t);
    forall r | 0 <= r < |s'.channels|
      ensures r < |s.channels| ==> s'.channels[r].owner == s.channels[r].owner
      ensures r >= |s.channels| ==> s'.channels[r].owner == None
    {
    }
  }

  // An idle thread that starts waiting for a lock.
  lemma StartWaiting(s: State, tid: nat, th: Thread)
    requires ProtocolInv(s) && ThreadOf(s, tid).Idle? && (th.WriteWaiting? || th.CompleteWaiting?) && th.r < |s.channels|
    ensures ProtocolInv(Goto(s, tid, th))
  {
    hide Inv, FlowInv;
    var s' := Goto(s, tid, th);
    assert forall r :: 0 <= r < |s.channels| ==> s.channels[r].owner != Some(tid);
    assert forall r :: 0 <= r < |s.channels| ==> Holder(s', s.channels[r]) == Holder(s, s.channels[r]);
  }

  lemma BeginWriteSteps(s: State, step: Step)
    requires ProtocolInv(s) && Enabled(s, step) && step.BeginWrite?
    ensures ProtocolInv(Do(s, step))
  {
    var op := OpGetOrCreate(step.key, step.appID, step.nodeGroupID, step.now);
    TableMoves(s, op);
    CreatedInRange(s.table, step.key, step.appID, step.nodeGroupID, step.now);
    var (t, r) := GetOrCreate(s.table, step.key, step.appID, step.nodeGroupID, step.now);
    var s1 := WithTable(s, t);
    hide ProtocolInv, GetOrCreate;
    StartWaiting(s1, step.tid, WriteWaiting(r, step.meta, step.packet));
  }

  lemma CreatedInRange(t: Table, key: string, appID: string, nodeGroupID: string, now: Time)
    ensures GetOrCreate(t, key, appID, nodeGroupID, now).1 < |GetOrCreate(t, key, appID, nodeGroupID, now).0.flows|
  {
  }

  // The flow a lock holder works on, and what the invariant says about it.
  lemma HolderKnows(s: State, tid: nat)
    requires ProtocolInv(s) && Holds(ThreadOf(s, tid)).Some?
    ensures var r := Holds(ThreadOf(s, tid)).value;
            && r < |s.channels| == |s.table.flows| && s.channels[r].owner == Some(tid)
            && FlowInv(s.table.flows[r], s.channels[r], ThreadOf(s, tid))
    ensures Inv(s.table)
  {
  }

  lemma WaitingKnows(s: State, tid: nat)
    requires ProtocolInv(s) && (ThreadOf(s, tid).WriteWaiting? || ThreadOf(s, tid).CompleteWaiting?)
    ensures var r := ThreadOf(s, tid).r;
            && r < |s.channels| == |s.table.flows|
            && (s.channels[r].owner == None ==> FlowInv(s.table.flows[r], s.channels[r], Idle))
    ensures Inv(s.table)
  {
  }

  lemma LockSteps(s: State, step: Step)
    requires ProtocolInv(s) && Enabled(s, step) && (step.WriteLock? || step.CompleteLock?)
    ensures ProtocolInv(Do(s, step))
  {
    hide ProtocolInv, FlowInv, OthersFollow, Inv;
    var th := ThreadOf(s, step.tid);
    var s' := Do(s, step);
    WaitingKnows(s, step.tid);
    SameTableFollows(s, s', th.r);
    var c := s.channels[th.r];
    if step.WriteLock? {
      LockKeepsFlow(s.table.flows[th.r], c, th, step.tid);
      OneFlowSteps(s, s', th.r, step.tid, WriteChecking(th.r, th.meta));
    } else {
      CompleteLockKeepsFlow(s.table.flows[th.r], c, step.tid, Completing(th.r, th.token, th.err));
      OneFlowSteps(s, s', th.r, step.tid, Completing(th.r, th.token, th.err));
    }
  }

  lemma CompleteLockKeepsFlow(f: Flow, c: Channel, tid: nat, next: Thread)
    requires FlowInv(f, c, Idle) && next.Completing?
    ensures FlowInv(f, c.(owner := Some(tid)), next)
  {
    assert Outgoing(c.(owner := Some(tid)), next) == Outgoing(c, Idle);
  }

  lemma FlowKnown(s: State, r: nat)
    requires ProtocolInv(s) && r < |s.table.flows|
    ensures FlowOk(s.table.flows[r], Indexed(s.table, r))
    ensures Inv(s.table)
  {
  }

  // A lock holder moves on without touching the table.
  lemma HolderMoves(s: State, tid: nat, next: Thread, c': Channel)
    requires ProtocolInv(s) && Holds(ThreadOf(s, tid)).Some?
    requires Holds(ThreadOf(s, tid)).value < |s.channels| == |s.table.flows|
    requires c'.owner in {None, Some(tid)} && !next.WriteWaiting? && !next.CompleteWaiting?
    requires Holds(next) == if c'.owner.Some? then Holds(ThreadOf(s, tid)) else None
    requires FlowInv(s.table.flows[Holds(ThreadOf(s, tid)).value], c', if c'.owner.Some? then next else Idle)
    ensures ProtocolInv(Goto(SetChannel(s, Holds(ThreadOf(s, tid)).value, c'), tid, next))
  {
    var r := Holds(ThreadOf(s, tid)).value;
    var s' := Goto(SetChannel(s, r, c'), tid, next);
    HolderKnows(s, tid);
    SameTableFollows(s, s', r);
    TableOk(s);
    hide ProtocolInv, OthersFollow, Inv, FlowInv;
    OneFlowSteps(s, s', r, tid, next);
  }

  lemma TableOk(s: State)
    requires ProtocolInv(s)
    ensures Inv(s.table)
  {
  }

  // What a writer may do next, by what authResult told it.
  lemma CheckedFlow(f: Flow, c: Channel, th: Thread)
    requires FlowInv(f, c, th) && th.WriteChecking?
    ensures !f.latched ==> FlowInv(f, c, WriteCaching(th.r, th.meta))
    ensures f.latched && f.authErr.Some? ==> FlowInv(f, Settled(c, Failed), Idle)
    ensures f.latched && f.authErr.None? ==> FlowInv(f, c, WriteSending(th.r, f.connectToken))
    ensures Settled(c, Failed).owner == None
  {
    hide Increasing, QueueFaithful, FramesFaithful, FatesKept;
    if !f.latched {
      HandOver(f, c, th, WriteCaching(th.r, th.meta));
    } else if f.authErr.Some? {
      SettleKeepsFlow(f, c, th, Failed);
    } else {
      HandOver(f, c, th, WriteSending(th.r, f.connectToken));
    }
    SettledFrees(f, c, th);
  }

  lemma SettledFrees(f: Flow, c: Channel, th: Thread)
    requires FlowInv(f, c, th) && Writing(th)
    ensures forall fate :: Settled(c, fate).owner == None
  {
  }

  lemma CheckSteps(s: State, tid: nat)
    requires ProtocolInv(s) && ThreadOf(s, tid).WriteChecking?
    ensures ProtocolInv(Do(s, WriteCheck(tid)))
  {
    hide ProtocolInv, Inv, FlowInv, Settled;
    var th := ThreadOf(s, tid);
    HolderKnows(s, tid);
    var f, c := s.table.flows[th.r], s.channels[th.r];
    CheckedFlow(f, c, th);
    assert SetChannel(s, th.r, c) == s;
    if !f.latched {
      HolderMoves(s, tid, WriteCaching(th.r, th.meta), c);
    } else if f.authErr.Some? {
      HolderMoves(s, tid, Idle, Settled(c, Failed));
    } else {
      HolderMoves(s, tid, WriteSending(th.r, f.connectToken), c);
    }
  }

  lemma SendSteps(s: State, tid: nat, ok: bool)
    requires ProtocolInv(s) && Enabled(s, WriteSend(tid, ok))
    ensures ProtocolInv(Do(s, WriteSend(tid, ok)))
  {
    hide ProtocolInv, Inv, FlowInv, AfterSend;
    var th := ThreadOf(s, tid);
    HolderKnows(s, tid);
    FlowKnown(s, th.r);
    var f, c := s.table.flows[th.r], s.channels[th.r];
    AfterSendKeepsFlow(f, c, th, ok);
    HolderMoves(s, tid, Idle, AfterSend(c, th.token, ok));
  }

  lemma AfterSendKeepsFlow(f: Flow, c: Channel, th: Thread, ok: bool)
    requires FlowInv(f, c, th) && th.WriteSending? && (f.latched ==> f.pending == [])
    ensures FlowInv(f, AfterSend(c, th.token, ok), Idle) && AfterSend(c, th.token, ok).owner == None
  {
    hide Increasing, QueueFaithful, FramesFaithful, FatesKept;
    if ok {
      SendKeepsFlow(f, c, th);
    } else {
      SettleKeepsFlow(f, c, th, Failed);
    }
  }

  // A writer that found no result is told either of a full queue or of an error, never nothing.
  lemma RefusedFlow(s: State, r: nat, th: Thread)
    requires Inv(s.table) && r < |s.table.flows| && r < |s.channels|
    requires FlowInv(s.table.flows[r], s.channels[r], th) && th.WriteCaching?
    ensures var outcome := CacheOutcome(s.table, r);
            var fate := if outcome.Full? then DroppedFull else Failed;
            && (outcome.Refused? ==> outcome.err.Some?)
            && FlowInv(s.table.flows[r], Settled(s.channels[r], fate), Idle)
            && Settled(s.channels[r], fate).owner == None
  {
    var f, c, outcome := s.table.flows[r], s.channels[r], CacheOutcome(s.table, r);
    EvictionFallbackUnreachable(s.table, r);
    SettledFrees(f, c, th);
    hide Inv, Increasing, QueueFaithful, FramesFaithful, FatesKept, CacheOutcome;
    SettleKeepsFlow(f, c, th, if outcome.Full? then DroppedFull else Failed);
  }

  lemma CacheSteps(s: State, tid: nat)
    requires ProtocolInv(s) && ThreadOf(s, tid).WriteCaching?
    ensures ProtocolInv(Do(s, WriteCache(tid)))
  {
    hide ProtocolInv, Inv, FlowInv, CacheOutcome, Settled;
    var th := ThreadOf(s, tid);
    HolderKnows(s, tid);
    TableOk(s);
    var c, outcome := s.channels[th.r], CacheOutcome(s.table, th.r);
    if outcome == Cached {
      CachedSteps(s, Do(s, WriteCache(tid)), tid, th);
    } else {
      RefusedFlow(s, th.r, th);
      HolderMoves(s, tid, Idle, Settled(c, if outcome.Full? then DroppedFull else Failed));
    }
  }

  lemma CachedSteps(s: State, s': State, tid: nat, th: Thread)
    requires ProtocolInv(s) && ThreadOf(s, tid) == th && th.WriteCaching? && th.r < |s.table.flows|
    requires CacheOutcome(s.table, th.r) == Cached && s' == Cache(s, tid, th.r, th.meta)
    ensures ProtocolInv(s')
  {
    hide ProtocolInv, OthersFollow, Inv, FlowInv, FlowOk;
    HolderKnows(s, tid);
    var c := s.channels[th.r];
    var packet := FrameAt(c, Last(c), "").payload;
    FlowKnown(s, th.r);
    CacheKeepsInv(s.table, th.r, th.meta, packet);
    CacheKeepsFlow(s.table.flows[th.r], c, th, th.meta);
    CachedFollows(s, s', th.r);
    OneFlowSteps(s, s', th.r, tid, Idle);
  }

  lemma CachedFollows(s: State, s': State, r: nat)
    requires ProtocolInv(s) && r < |s.channels| && |s'.channels| == |s.channels| == |s'.table.flows|
    requires forall x: nat :: x < |s.channels| && x != r ==>
      s'.channels[x] == s.channels[x] && s'.table.flows[x] == s.table.flows[x]
    ensures OthersFollow(s, s', r)
  {
    forall x: nat | x < |s.channels| && x != r
      ensures Untouched(s.table.flows[x], s'.table.flows[x]) && Evolved(s.table.flows[x], s'.table.flows[x])
      ensures s'.channels[x] == Synced(s.channels[x], s'.table.flows[x])
    {
      SyncedSame(s.table.flows[x], s.channels[x]);
    }
  }

  lemma LatchSteps(s: State, tid: nat)
    requires ProtocolInv(s) && ThreadOf(s, tid).Completing?
    ensures ProtocolInv(Do(s, CompleteLatch(tid)))
  {
    hide ProtocolInv, OthersFollow, Inv, CompleteAuth, Released, FlowInv, Synced, Completion, Untouched, Evolved;
    var th := ThreadOf(s, tid);
    HolderKnows(s, tid);
    TableOk(s);
    CompletionMoves(s.table, th.r, th.token, th.err);
    var s' := Do(s, CompleteLatch(tid));
    var t' := CompleteAuth(s.table, th.r + 1, th.token, th.err);
    var rest := if Released(s.table, th.r + 1, None) == [] then [] else s.channels[th.r].queued;
    LatchedFlow(s.table.flows[th.r], t'.flows[th.r], s.channels[th.r], th, Released(s.table, th.r + 1, None));
    SyncFollows(s, s', t', th.r);
    SyncedOwner(s.channels[th.r], t'.flows[th.r]);
    OneFlowSteps(s, s', th.r, tid, if th.err.Some? then Idle else Flushing(th.r, th.token, rest));
  }

  lemma SyncedOwner(c: Channel, f: Flow)
    ensures Synced(c, f).owner == c.owner
  {
  }

  // completeAuth under the send lock, seen from the table.
  lemma CompletionMoves(t: Table, r: nat, token: string, err: Option<Error>)
    requires Inv(t) && r < |t.flows|
    ensures var t' := CompleteAuth(t, r + 1, token, err);
            && Inv(t') && |t'.flows| == |t.flows|
            && Completion(t.flows[r], t'.flows[r], token, err, Released(t, r + 1, None))
            && forall x: nat :: x < |t.flows| && x != r ==>
                 Untouched(t.flows[x], t'.flows[x]) && Evolved(t.flows[x], t'.flows[x])
  {
    hide Inv, CompleteAuth, Completion, Untouched, Evolved;
    CompleteKeepsInv(t, r + 1, token, err);
    CompleteFollows(t, r, token, err);
    CompletionOutcome(t, r, token, err);
  }

  // And seen from the flow: the lock is given up after an error, kept to flush otherwise.
  lemma LatchedFlow(f: Flow, f': Flow, c: Channel, th: Thread, released: seq<Packet>)
    requires FlowInv(f, c, th) && th.Completing? && Completion(f, f', th.token, th.err, released)
    ensures th.err.Some? ==> FlowInv(f', Synced(c, f').(owner := None), Idle)
    ensures th.err.None? ==> FlowInv(f', Synced(c, f'), Flushing(th.r, th.token, if released == [] then [] else c.queued))
  {
    hide Increasing, FramesFaithful, FatesKept;
    if th.err.Some? {
      UntouchedKeepsFlow(f, f', c, th);
      ReleaseKeepsFlow(f', Synced(c, f'), th);
    } else if f' == f && released == [] {
      SyncedSame(f, c);
      FlushNothing(f, c, th, Flushing(th.r, th.token, []));
    } else {
      LatchKeepsFlow(f, c, th, th.token);
    }
  }

  // What completeAuth does to the flow it is called for.
  ghost predicate Completion(f: Flow, f': Flow, token: string, err: Option<Error>, released: seq<Packet>) {
    && (err.Some? ==> Untouched(f, f') && Evolved(f, f'))
    && (err.None? ==>
          || (f' == f && released == [])
          || (!f.latched && f.connectToken == "" && f' == Completed(f, token, None) && released == f.pending))
  }

  lemma FlushNothing(f: Flow, c: Channel, holder: Thread, next: Thread)
    requires FlowInv(f, c, holder) && holder.Completing? && next.Flushing? && next.rest == []
    ensures FlowInv(f, c, next)
  {
    assert Outgoing(c, next) == Outgoing(c, holder);
  }

  lemma CompletionOutcome(t: Table, r: nat, token: string, err: Option<Error>)
    requires Inv(t) && r < |t.flows|
    ensures Completion(t.flows[r], CompleteAuth(t, r + 1, token, err).flows[r], token, err, Released(t, r + 1, None))
  {
    assert FlowOk(t.flows[r], Indexed(t, r));
    assert t.flows[r].authID == r + 1;
    hide Inv, Without;
  }

  lemma CompleteFollows(t: Table, r: nat, token: string, err: Option<Error>)
    requires Inv(t) && r < |t.flows|
    ensures var t' := CompleteAuth(t, r + 1, token, err);
            && |t'.flows| == |t.flows|
            && forall x: nat :: x < |t.flows| && x != r ==>
                 Untouched(t.flows[x], t'.flows[x]) && Evolved(t.flows[x], t'.flows[x])
  {
    hide Inv, ByID, CompleteAuth, Untouched, Evolved;
    ByIDFinds(t, r);
    CompleteTouchesOne(t, r + 1, token, err);
    var t' := CompleteAuth(t, r + 1, token, err);
    forall x: nat | x < |t.flows| && x != r
      ensures Untouched(t.flows[x], t'.flows[x]) && Evolved(t.flows[x], t'.flows[x])
    {
      SameFlowFollows(t.flows[x]);
    }
  }

  lemma SameFlowFollows(f: Flow)
    ensures Untouched(f, f) && Evolved(f, f)
  {
  }

  lemma ByIDFinds(t: Table, r: nat)
    requires Inv(t)
    ensures ByID(t, r + 1).Some? ==> ByID(t, r + 1).value == r
  {
  }

  lemma SyncFollows(s: State, s': State, t': Table, r: nat)
    requires ProtocolInv(s) && r < |s.channels| && |t'.flows| == |s.table.flows| && s'.table == t'
    requires |s'.channels| == |s.channels|
    requires forall x: nat :: x < |s.channels| && x != r ==> s'.channels[x] == Synced(s.channels[x], t'.flows[x])
    requires forall x: nat :: x < |s.table.flows| && x != r ==>
      Untouched(s.table.flows[x], t'.flows[x]) && Evolved(s.table.flows[x], t'.flows[x])
    ensures OthersFollow(s, s', r)
  {
  }

  lemma FlushSteps(s: State, step: Step)
    requires ProtocolInv(s) && Enabled(s, step) && (step.FlushOne? || step.FlushEnd?)
    ensures ProtocolInv(Do(s, step))
  {
    hide ProtocolInv, Inv, FlowInv;
    var th := ThreadOf(s, step.tid);
    HolderKnows(s, step.tid);
    var f, c := s.table.flows[th.r], s.channels[th.r];
    if step.FlushEnd? {
      ReleaseKeepsFlow(f, c, th);
      HolderMoves(s, step.tid, Idle, c.(owner := None));
    } else {
      FlushKeepsFlow(f, c, th);
      if step.ok {
        HolderMoves(s, step.tid, th.(rest := th.rest[1..]), c.(wire := c.wire + [FrameAt(c, th.rest[0], th.token)]));
      } else {
        HolderMoves(s, step.tid, Idle, c.(owner := None, flushFailed := true));
      }
    }
  }

  lemma EveryStepKeepsInv(s: State, step: Step)
    requires ProtocolInv(s) && Enabled(s, step)
    ensures ProtocolInv(Do(s, step))
  {
    match step
    case Background(op) => TableMoves(s, op);
    case BeginWrite(_, _, _, _, _, _, _) => BeginWriteSteps(s, step);
    case WriteLock(_) => LockSteps(s, step);
    case WriteCheck(tid) => CheckSteps(s, tid);
    case WriteSend(tid, ok) => SendSteps(s, tid, ok);
    case WriteCache(tid) => CacheSteps(s, tid);
    case BeginComplete(tid, authID, token, err) =>
      StartWaiting(s, tid, CompleteWaiting(ByID(s.table, authID).value, token, err));
    case CompleteLock(_) => LockSteps(s, step);
    case CompleteLatch(tid) => LatchSteps(s, tid);
    case FlushOne(_, _) => FlushSteps(s, step);
    case FlushEnd(_) => FlushSteps(s, step);
  }

  // ---- Whole runs ----

  function Start(ttl: Time, maxEntries: nat): State {
    State(EMPTY.(ttl := ttl, maxEntries := maxEntries), [], map[])
  }

  // A run: every step is enabled where it is taken.
  ghost predicate IsRun(ttl: Time, maxEntries: nat, states: seq<State>, steps: seq<Step>) {
    && |states| == |steps| + 1
    && states[0] == Start(ttl, maxEntries)
    && forall i :: 0 <= i < |steps| ==> Enabled(states[i], steps[i]) && states[i + 1] == Do(states[i], steps[i])
  }

  lemma {:induction false} EveryRunKeepsProtocol(ttl: Time, maxEntries: nat, states: seq<State>, steps: seq<Step>,
                                                 n: nat)
    requires IsRun(ttl, maxEntries, states, steps) && n < |states|
    ensures ProtocolInv(states[n])
  {
    if n == 0 {
      EmptyTableOk(ttl, maxEntries);
    } else {
      hide ProtocolInv, Enabled, Do;
      EveryRunKeepsProtocol(ttl, maxEntries, states, steps, n - 1);
      EveryStepKeepsInv(states[n - 1], steps[n - 1]);
    }
  }

  // In every interleaving, the frames of one flow are an in-order subsequence, without repeats, of
  // the packets given to WritePacket for it; each carries the token of the flow's one successful
  // authentication, and there is none without it.
  lemma WireIsOrderedAndAuthenticated(ttl: Time, maxEntries: nat, states: seq<State>, steps: seq<Step>, n: nat, r: nat)
    requires IsRun(ttl, maxEntries, states, steps) && n < |states| && r < |states[n].channels|
    ensures r < |states[n].table.flows|
    ensures Increasing(Positions(states[n].channels[r].wire))
    ensures FramesFaithful(states[n].table.flows[r], states[n].channels[r])
  {
    EveryRunKeepsProtocol(ttl, maxEntries, states, steps, n);
    var s := states[n];
    var c := s.channels[r];
    var all := Outgoing(c, Holder(s, c));
    assert forall i :: 0 <= i < |c.wire| ==> Positions(c.wire)[i] == all[i];
  }

  // WritePacket never returns success without having written the packet, queued it, or dropped it
  // because the queue was full; and once a flow is authenticated, its lock is free and no flush of
  // it failed, the packets on the wire are exactly the packets it accepted.
  lemma NoSilentLoss(ttl: Time, maxEntries: nat, states: seq<State>, steps: seq<Step>, n: nat, r: nat, p: nat)
    requires IsRun(ttl, maxEntries, states, steps) && n < |states|
    requires r < |states[n].channels| && p < |states[n].channels[r].given|
    ensures r < |states[n].table.flows|
    ensures var f, c := states[n].table.flows[r], states[n].channels[r];
            && p < |c.fates| && c.fates[p] != Silent
            && (Succeeded(f) && c.owner == None && !c.flushFailed ==>
                  (c.fates[p] in {Written, Queued} <==> p in Positions(c.wire)))
  {
    EveryRunKeepsProtocol(ttl, maxEntries, states, steps, n);
    var s := states[n];
    var f, c := s.table.flows[r], s.channels[r];
    FlowKnown(s, r);
    if Succeeded(f) && c.owner == None {
      assert c.queued == [];
      assert Outgoing(c, Idle) == Positions(c.wire);
    }
  }

  // What waits for authentication never exceeds the limit.
  lemma QueueBounded(ttl: Time, maxEntries: nat, states: seq<State>, steps: seq<Step>, n: nat, r: nat)
    requires IsRun(ttl, maxEntries, states, steps) && n < |states| && r < |states[n].channels|
    ensures |states[n].channels[r].queued| <= PENDING_LIMIT
  {
    EveryRunKeepsProtocol(ttl, maxEntries, states, steps, n);
    FlowKnown(states[n], r);
  }

  // ---- How each fate comes about ----

  // A writer that holds the lock of a flow, and the packet of its call.
  ghost predicate WriterOf(s: State, tid: nat, r: nat) {
    && Holds(ThreadOf(s, tid)) == Some(r) && r < |s.channels| == |s.table.flows|
    && |s.channels[r].fates| == |s.channels[r].given| > 0
    && s.channels[r].fates[|s.channels[r].given| - 1] == InFlight
  }

  lemma WriterKnows(s: State, tid: nat)
    requires ProtocolInv(s) && Writing(ThreadOf(s, tid))
    ensures WriterOf(s, tid, ThreadOf(s, tid).r)
    ensures var th := ThreadOf(s, tid);
            var f := s.table.flows[th.r];
            && (th.WriteSending? ==> f.latched && f.authErr == None && th.token == f.connectToken)
            && (th.WriteCaching? && f.latched ==> f.authErr.Some?)
            && |f.pending| <= 1024 && (!f.latched ==> f.key in s.table.byKey && s.table.byKey[f.key] == th.r)
  {
    hide Increasing, FramesFaithful, QueueFaithful, LocksAgree;
    HolderKnows(s, tid);
    FlowKnown(s, ThreadOf(s, tid).r);
  }

  // The writer's call ends, and its packet, the last one given, has this fate.
  function Ended(s: State, tid: nat, r: nat, fate: Fate): State {
    if r >= |s.channels| || |s.channels[r].fates| != |s.channels[r].given| || s.channels[r].given == [] then s else
    var c := s.channels[r];
    s.(channels := s.channels[r := c.(owner := None, fates := c.fates[|c.given| - 1 := fate])],
       threads := s.threads[tid := Idle])
  }

  // A writer that found no result: with fewer than 1024 packets waiting its packet is queued, with 1024 it is
  // dropped; if the flow failed meanwhile, the call fails.
  ghost predicate CachingOutcome(s: State, s': State, tid: nat, r: nat, meta: PacketMeta) {
    WriterOf(s, tid, r) &&
    var f, c := s.table.flows[r], s.channels[r];
    if f.latched then f.authErr.Some? && s' == Ended(s, tid, r, Failed)
    else if |f.pending| >= 1024 then s' == Ended(s, tid, r, DroppedFull)
    else
      var last := |c.given| - 1;
      var f' := f.(authMeta := meta, pending := f.pending + [c.given[last]]);
      s' == Ended(s.(table := s.table.(flows := s.table.flows[r := f']),
                     channels := s.channels[r := c.(queued := c.queued + [last])]), tid, r, Queued)
  }

  lemma CachingEnds(s: State, tid: nat)
    requires ProtocolInv(s) && ThreadOf(s, tid).WriteCaching?
    ensures CachingOutcome(s, Do(s, WriteCache(tid)), tid, ThreadOf(s, tid).r, ThreadOf(s, tid).meta)
  {
    hide ProtocolInv, Do, Cache, CachingOutcome, WriterOf;
    WriterKnows(s, tid);
    WriterDoes(s, tid);
    CacheEnds(s, tid, ThreadOf(s, tid).r, ThreadOf(s, tid).meta);
  }

  lemma WriterDoes(s: State, tid: nat)
    ensures ThreadOf(s, tid).WriteCaching? ==>
              Do(s, WriteCache(tid)) == Cache(s, tid, ThreadOf(s, tid).r, ThreadOf(s, tid).meta)
    ensures ThreadOf(s, tid).WriteChecking? ==>
              Do(s, WriteCheck(tid)) == Checked(s, tid, ThreadOf(s, tid).r, ThreadOf(s, tid).meta)
  {
    hide Cache, Checked;
  }

  lemma CacheEnds(s: State, tid: nat, r: nat, meta: PacketMeta)
    requires WriterOf(s, tid, r)
    requires var f := s.table.flows[r];
             && (f.latched ==> f.authErr.Some?) && |f.pending| <= 1024
             && (!f.latched ==> f.key in s.table.byKey && s.table.byKey[f.key] == r)
    ensures CachingOutcome(s, Cache(s, tid, r, meta), tid, r, meta)
  {
  }

  // A writer that looks at the result: it goes on to queue when there is none, fails with the flow's error,
  // or goes on to send with the flow's token.
  ghost predicate CheckingOutcome(s: State, s': State, tid: nat, r: nat, meta: PacketMeta) {
    WriterOf(s, tid, r) &&
    var f := s.table.flows[r];
    s' == if !f.latched then s.(threads := s.threads[tid := WriteCaching(r, meta)])
          else if f.authErr.Some? then Ended(s, tid, r, Failed)
          else s.(threads := s.threads[tid := WriteSending(r, f.connectToken)])
  }

  lemma CheckingDecides(s: State, tid: nat)
    requires ProtocolInv(s) && ThreadOf(s, tid).WriteChecking?
    ensures CheckingOutcome(s, Do(s, WriteCheck(tid)), tid, ThreadOf(s, tid).r, ThreadOf(s, tid).meta)
  {
    hide ProtocolInv, Do;
    WriterKnows(s, tid);
    WriterDoes(s, tid);
  }

  // A writer that sends: its frame is on the wire, with its packet and the flow's token, or the call fails.
  ghost predicate SendingOutcome(s: State, s': State, tid: nat, r: nat, ok: bool) {
    WriterOf(s, tid, r) &&
    var f, c := s.table.flows[r], s.channels[r];
    && f.latched && f.authErr == None
    && s' == if !ok then Ended(s, tid, r, Failed)
             else
               var frame := Frame(|c.given| - 1, c.given[|c.given| - 1], f.connectToken);
               Ended(s.(channels := s.channels[r := c.(wire := c.wire + [frame])]), tid, r, Written)
  }

  lemma SendingEnds(s: State, tid: nat, ok: bool)
    requires ProtocolInv(s) && Enabled(s, WriteSend(tid, ok))
    ensures SendingOutcome(s, Do(s, WriteSend(tid, ok)), tid, ThreadOf(s, tid).r, ok)
  {
    hide ProtocolInv, Do;
    WriterKnows(s, tid);
    WriterSends(s, tid, ok);
  }

  lemma WriterSends(s: State, tid: nat, ok: bool)
    requires Enabled(s, WriteSend(tid, ok)) && ThreadOf(s, tid).r < |s.channels|
    ensures var th := ThreadOf(s, tid);
            Do(s, WriteSend(tid, ok)) == Goto(SetChannel(s, th.r, AfterSend(s.channels[th.r], th.token, ok)), tid, Idle)
  {
    hide AfterSend;
  }

  // What has happened when a step gives the packet at position p of flow r its fate.
  ghost predicate Earned(s: State, s': State, step: Step, r: nat, p: nat, fate: Fate)
    requires r < |s.channels| && r < |s'.channels| && r < |s.table.flows| && r < |s'.table.flows|
    requires p < |s.channels[r].given|
  {
    var f, f', c, c' := s.table.flows[r], s'.table.flows[r], s.channels[r], s'.channels[r];
    match fate
    case Queued => step.WriteCache? && !f.latched && |f.pending| < 1024 && f'.pending == f.pending + [c.given[p]]
    case DroppedFull => step.WriteCache? && !f.latched && |f.pending| == 1024 && f' == f
    case Written =>
      && step.WriteSend? && step.ok && f.latched && f.authErr == None
      && c'.wire == c.wire + [Frame(p, c.given[p], f.connectToken)]
    case Failed =>
      || (step.WriteSend? && !step.ok)
      || ((step.WriteCheck? || step.WriteCache?) && f.latched && f.authErr.Some?)
    case InFlight => false
    case Silent => false
  }

  ghost predicate FateEarned(s: State, s': State, step: Step, r: nat, p: nat) {
    && r < |s.channels| && r < |s'.channels| && r < |s.table.flows| && r < |s'.table.flows|
    && p < |s.channels[r].given| && p < |s.channels[r].fates| && p < |s'.channels[r].fates|
    && (s'.channels[r].fates[p] != s.channels[r].fates[p] ==>
          s.channels[r].fates[p] == InFlight && Earned(s, s', step, r, p, s'.channels[r].fates[p]))
  }

  // Over any run, a packet's fate is settled once, by its own call: it is queued only when fewer than 1024
  // packets wait, dropped only when 1024 do, written only under the flow's own token, and failed only by a
  // refused write or by the flow's error.
  lemma FatesAreEarned(ttl: Time, maxEntries: nat, states: seq<State>, steps: seq<Step>, k: nat, r: nat, p: nat)
    requires IsRun(ttl, maxEntries, states, steps) && k < |steps|
    requires r < |states[k].channels| && p < |states[k].channels[r].fates|
    ensures FateEarned(states[k], states[k + 1], steps[k], r, p)
  {
    EveryRunKeepsProtocol(ttl, maxEntries, states, steps, k);
    hide ProtocolInv, Enabled, Do, FateEarned;
    StepEarns(states[k], steps[k], r, p);
  }

  lemma StepEarns(s: State, step: Step, r: nat, p: nat)
    requires ProtocolInv(s) && Enabled(s, step) && r < |s.channels| && p < |s.channels[r].fates|
    ensures FateEarned(s, Do(s, step), step, r, p)
  {
    hide Do, ProtocolInv, Enabled, Earned;
    Sizes(s, r);
    if step.WriteCache? {
      WriterIn(s, step);
      CachingEnds(s, step.tid);
      CachingEarns(s, Do(s, step), step, r, p);
    } else if step.WriteCheck? {
      WriterIn(s, step);
      CheckingDecides(s, step.tid);
      CheckingEarns(s, Do(s, step), step, r, p);
    } else if step.WriteSend? {
      WriterIn(s, step);
      SendingEnds(s, step.tid, step.ok);
      SendingEarns(s, Do(s, step), step, r, p);
    } else {
      FatesUntouched(s, step, r);
    }
  }

  lemma WriterIn(s: State, step: Step)
    requires ProtocolInv(s) && Enabled(s, step)
    ensures step.WriteCache? ==> ThreadOf(s, step.tid).WriteCaching? && |s.table.flows| > ThreadOf(s, step.tid).r
                                 && |s.table.flows[ThreadOf(s, step.tid).r].pending| <= 1024
    ensures step.WriteCheck? ==> ThreadOf(s, step.tid).WriteChecking?
    ensures step.WriteSend? ==> ThreadOf(s, step.tid).WriteSending?
  {
    if step.WriteCache? {
      WriterKnows(s, step.tid);
    }
    hide ProtocolInv;
  }

  lemma CachingEarns(s: State, s': State, step: Step, r: nat, p: nat)
    requires step.WriteCache? && ThreadOf(s, step.tid).WriteCaching?
    requires CachingOutcome(s, s', step.tid, ThreadOf(s, step.tid).r, ThreadOf(s, step.tid).meta)
    requires |s.table.flows[ThreadOf(s, step.tid).r].pending| <= 1024
    requires r < |s.channels| && p < |s.channels[r].fates| == |s.channels[r].given|
    ensures FateEarned(s, s', step, r, p)
  {
  }

  lemma CheckingEarns(s: State, s': State, step: Step, r: nat, p: nat)
    requires step.WriteCheck? && ThreadOf(s, step.tid).WriteChecking?
    requires CheckingOutcome(s, s', step.tid, ThreadOf(s, step.tid).r, ThreadOf(s, step.tid).meta)
    requires r < |s.channels| && p < |s.channels[r].fates| == |s.channels[r].given|
    ensures FateEarned(s, s', step, r, p)
  {
  }

  lemma SendingEarns(s: State, s': State, step: Step, r: nat, p: nat)
    requires step.WriteSend? && ThreadOf(s, step.tid).WriteSending?
    requires SendingOutcome(s, s', step.tid, ThreadOf(s, step.tid).r, step.ok)
    requires r < |s.channels| && p < |s.channels[r].fates| == |s.channels[r].given|
    ensures FateEarned(s, s', step, r, p)
  {
  }

  lemma Sizes(s: State, r: nat)
    requires ProtocolInv(s) && r < |s.channels|
    ensures |s.channels| == |s.table.flows| && |s.channels[r].fates| == |s.channels[r].given|
  {
  }

  lemma TableGrows(s: State, t: Table, r: nat)
    requires r < |s.channels| == |s.table.flows| <= |t.flows|
    ensures var s' := WithTable(s, t);
            r < |s'.channels| == |s'.table.flows| && s'.channels[r].fates == s.channels[r].fates
  {
  }

  lemma FatesUntouched(s: State, step: Step, r: nat)
    requires ProtocolInv(s) && Enabled(s, step) && !step.WriteCheck? && !step.WriteSend? && !step.WriteCache?
    requires r < |s.channels|
    ensures var s' := Do(s, step);
            && r < |s'.channels| && r < |s.table.flows| && r < |s'.table.flows|
            && s.channels[r].fates <= s'.channels[r].fates
  {
    hide ProtocolInv, Inv, Apply, GetOrCreate, CompleteAuth, Released, WithTable;
    Sizes(s, r);
    TableOk(s);
    if step.Background? {
      EveryOpEvolves(s.table, step.op);
      TableGrows(s, Apply(s.table, step.op), r);
    } else if step.BeginWrite? {
      WriteBegins(s, step, r);
    } else if step.CompleteLatch? {
      LatchKeepsFates(s, step.tid, ThreadOf(s, step.tid), r);
      assert Do(s, step) == Latch(s, step.tid, ThreadOf(s, step.tid));
      hide Do;
    }
  }

  lemma WriteBegins(s: State, step: Step, r: nat)
    requires Inv(s.table) && step.BeginWrite? && Enabled(s, step) && r < |s.channels| == |s.table.flows|
    ensures var s' := Do(s, step);
            r < |s'.channels| == |s'.table.flows| && s'.channels[r].fates == s.channels[r].fates
  {
    var op := OpGetOrCreate(step.key, step.appID, step.nodeGroupID, step.now);
    EveryOpEvolves(s.table, op);
    assert Apply(s.table, op) == GetOrCreate(s.table, step.key, step.appID, step.nodeGroupID, step.now).0;
    hide Apply, GetOrCreate, WithTable;
    TableGrows(s, GetOrCreate(s.table, step.key, step.appID, step.nodeGroupID, step.now).0, r);
  }

  lemma LatchKeepsFates(s: State, tid: nat, th: Thread, r: nat)
    requires th.Completing? && r < |s.channels| == |s.table.flows|
    ensures var s' := Latch(s, tid, th);
            r < |s'.channels| && r < |s'.table.flows| && s'.channels[r].fates == s.channels[r].fates
  {
    hide CompleteAuth, Released, WithTable;
    CompleteTouchesOne(s.table, th.r + 1, th.token, th.err);
    TableGrows(s, CompleteAuth(s.table, th.r + 1, th.token, th.err), r);
  }

  // A call waits on the flow of its key with its own packet, and that packet is the last one given to the
  // flow once the call has the lock.
  lemma CallsGiveTheirPacket(s: State, step: Step)
    requires ProtocolInv(s) && Enabled(s, step) && (step.BeginWrite? || step.WriteLock?)
    ensures var th, s' := ThreadOf(s, step.tid), Do(s, step);
            var th' := ThreadOf(s', step.tid);
            && (step.BeginWrite? ==>
                  && th'.WriteWaiting? && th'.meta == step.meta && th'.packet == step.packet
                  && th'.r < |s'.table.flows| && s'.table.flows[th'.r].key == step.key)
            && (step.WriteLock? ==>
                  && th.WriteWaiting? && th' == WriteChecking(th.r, th.meta) && s'.table == s.table
                  && th.r < |s.channels| && th.r < |s'.channels|
                  && s'.channels[th.r].given == s.channels[th.r].given + [th.packet])
  {
    TableOk(s);
    hide ProtocolInv;
    if step.BeginWrite? {
      GetOrCreateKeepsInv(s.table, step.key, step.appID, step.nodeGroupID, step.now);
    }
    hide Inv, GetOrCreate, Indexed;
  }
}
