// The byte budget of the UDP forwarder: every datagram from the socket to its
// release, with handlers, connection workers and closes interleaving freely.
module UdpBudget {
  import opened Prelude

  const BUFFER_SIZE := 40960
  const QUEUE_SIZE := 64

  // Where a datagram is. Whoever is named by its place is the only one to touch it.
  datatype Place =
    | Offered                 // its handler is about to read the counter
    | Loaded(used: int)       // its handler has read the counter, and will compare and swap
    | Reserved
    | Enqueuing(conn: nat)
    | Queued(conn: nat)
    | AtWorker(conn: nat)     // taken by the connection's worker, to be written or dropped
    | Rejected                // its handler is about to release it
    | Gone

  datatype Datagram = Datagram(length: nat, buffer: Option<nat>, accounted: int, place: Place, releases: nat)

  datatype Worker = Running | Writing(d: nat) | Leaving | Draining | Dropping(d: nat) | Finished

  datatype Conn = Conn(queue: seq<nat>, closed: bool, worker: Worker)

  // Buffers are numbered; those in the pool are counted, so that one put back twice would show.
  datatype State = State(
    max: int, used: int, datagrams: seq<Datagram>, conns: seq<Conn>, pool: multiset<nat>, buffers: nat)

  function Initial(max: int): State {
    State(max, 0, [], [], multiset{}, 0)
  }

  datatype Step =
    | Offer(length: nat, buffer: Option<nat>)
    | Load(d: nat)
    | Swap(d: nat)
    | Find(d: nat, conn: nat)            // an existing connection, or a new one
    | Enqueue(d: nat)
    | Reject(d: nat)
    | CloseConn(conn: nat)               // eviction, the janitor, Close or the worker itself
    | Take(conn: nat)
    | Written(conn: nat, ok: bool)
    | Leave(conn: nat)
    | StartDraining(conn: nat)
    | Dropped(conn: nat)
    | Finish(conn: nat)

  // What a datagram takes from the budget.
  function Cost(d: Datagram): nat {
    if d.buffer.Some? then BUFFER_SIZE else d.length
  }

  predicate Enabled(s: State, step: Step) {
    match step
    case Offer(length, buffer) => buffer.Some? ==> buffer.value in s.pool || buffer.value == s.buffers
    case Load(d) => d < |s.datagrams| && s.datagrams[d].place.Offered?
    case Swap(d) => d < |s.datagrams| && s.datagrams[d].place.Loaded?
    case Find(d, conn) => d < |s.datagrams| && s.datagrams[d].place.Reserved? && conn <= |s.conns|
    case Enqueue(d) => d < |s.datagrams| && s.datagrams[d].place.Enqueuing? && s.datagrams[d].place.conn < |s.conns|
    case Reject(d) => d < |s.datagrams| && s.datagrams[d].place.Rejected?
    case CloseConn(c) => c < |s.conns|
    case Take(c) =>
      && c < |s.conns| && s.conns[c].queue != [] && s.conns[c].queue[0] < |s.datagrams|
      && (s.conns[c].worker.Running? || s.conns[c].worker.Draining?)
    case Written(c, ok) => c < |s.conns| && s.conns[c].worker.Writing? && s.conns[c].worker.d < |s.datagrams|
    case Leave(c) => c < |s.conns| && s.conns[c].worker.Running?
    case StartDraining(c) => c < |s.conns| && s.conns[c].worker.Leaving? && s.conns[c].closed
    case Dropped(c) => c < |s.conns| && s.conns[c].worker.Dropping? && s.conns[c].worker.d < |s.datagrams|
    case Finish(c) => c < |s.conns| && s.conns[c].worker.Draining? && s.conns[c].queue == []
  }

  function Put(s: State, d: nat, place: Place): State
    requires d < |s.datagrams|
  {
    s.(datagrams := s.datagrams[d := s.datagrams[d].(place := place)])
  }

  function SetConn(s: State, c: nat, conn: Conn): State
    requires c < |s.conns|
  {
    s.(conns := s.conns[c := conn])
  }

  // releaseDatagram: give the bytes back to the budget and the buffer to the pool.
  function Release(s: State, d: nat): State
    requires d < |s.datagrams|
  {
    var x := s.datagrams[d];
    s.(used := if x.accounted > 0 then s.used - x.accounted else s.used,
       pool := if x.buffer.Some? then s.pool + multiset{x.buffer.value} else s.pool,
       datagrams := s.datagrams[d := x.(place := Gone, releases := x.releases + 1)])
  }

  // One turn of the reservation loop.
  function Reserve(s: State, d: nat): State
    requires d < |s.datagrams| && s.datagrams[d].place.Loaded?
  {
    var x := s.datagrams[d];
    if Cost(x) > s.max - x.place.used then Put(s, d, Rejected)
    else if s.used == x.place.used then
      s.(used := s.used + Cost(x), datagrams := s.datagrams[d := x.(accounted := Cost(x), place := Reserved)])
    else Put(s, d, Offered)
  }

  function Do(s: State, step: Step): State
    requires Enabled(s, step)
  {
    match step
    case Offer(length, buffer) =>
      s.(datagrams := s.datagrams + [Datagram(length, buffer, 0, Offered, 0)],
         pool := if buffer.Some? then s.pool - multiset{buffer.value} else s.pool,
         buffers := if buffer == Some(s.buffers) then s.buffers + 1 else s.buffers)
    case Load(d) => if s.max <= 0 then Put(s, d, Reserved) else Put(s, d, Loaded(s.used))
    case Swap(d) => Reserve(s, d)
    case Find(d, c) =>
      Put(if c < |s.conns| then s else s.(conns := s.conns + [Conn([], false, Running)]), d, Enqueuing(c))
    case Enqueue(d) =>
      var c := s.datagrams[d].place.conn;
      if s.conns[c].closed || |s.conns[c].queue| >= QUEUE_SIZE then Put(s, d, Rejected)
      else Put(SetConn(s, c, s.conns[c].(queue := s.conns[c].queue + [d])), d, Queued(c))
    case Reject(d) => Release(s, d)
    case CloseConn(c) => SetConn(s, c, s.conns[c].(closed := true))
    case Take(c) =>
      var d := s.conns[c].queue[0];
      Put(SetConn(s, c, s.conns[c].(queue := s.conns[c].queue[1..],
                                    worker := if s.conns[c].worker.Running? then Writing(d) else Dropping(d))),
          d, AtWorker(c))
    case Written(c, ok) =>
      SetConn(Release(s, s.conns[c].worker.d), c, s.conns[c].(worker := if ok then Running else Leaving))
    case Leave(c) => SetConn(s, c, s.conns[c].(worker := Leaving))
    case StartDraining(c) => SetConn(s, c, s.conns[c].(worker := Draining))
    case Dropped(c) => SetConn(Release(s, s.conns[c].worker.d), c, s.conns[c].(worker := Draining))
    case Finish(c) => SetConn(s, c, s.conns[c].(worker := Finished))
  }

  // ---- The invariant ----

  // What a datagram holds of the budget.
  function Held(d: Datagram): int {
    if d.place.Gone? then 0 else d.accounted
  }

  function Total(datagrams: seq<Datagram>): int {
    if datagrams == [] then 0 else Total(datagrams[..|datagrams| - 1]) + Held(datagrams[|datagrams| - 1])
  }

  predicate DatagramOk(s: State, d: nat)
    requires d < |s.datagrams|
  {
    var x := s.datagrams[d];
    && x.releases == (if x.place.Gone? then 1 else 0)
    && x.accounted >= 0
    && (x.place.Offered? || x.place.Loaded? ==> x.accounted == 0)
    && (x.place.Enqueuing? ==> x.place.conn < |s.conns|)
    && (x.place.Queued? ==> x.place.conn < |s.conns| && d in s.conns[x.place.conn].queue)
    && (x.place.Loaded? ==> s.max > 0)
    && (x.place.AtWorker? ==> x.place.conn < |s.conns| && HasInHand(s.conns[x.place.conn].worker, d))
  }

  predicate HasInHand(worker: Worker, d: nat) {
    worker == Writing(d) || worker == Dropping(d)
  }

  predicate ConnOk(s: State, c: nat)
    requires c < |s.conns|
  {
    var x := s.conns[c];
    && |x.queue| <= QUEUE_SIZE
    && NoDuplicates(x.queue)
    && (forall d :: d in x.queue ==> d < |s.datagrams| && s.datagrams[d].place == Queued(c))
    && (x.worker.Writing? || x.worker.Dropping? ==>
          x.worker.d < |s.datagrams| && s.datagrams[x.worker.d].place == AtWorker(c))
    && (x.worker.Draining? || x.worker.Dropping? || x.worker.Finished? ==> x.closed)
    && (x.worker.Finished? ==> x.queue == [])
  }

  // A buffer is with one datagram or in the pool, never both and never twice.
  ghost predicate BuffersOk(s: State) {
    && (forall b :: b in s.pool ==> b < s.buffers && s.pool[b] == 1)
    && (forall d :: 0 <= d < |s.datagrams| && Owned(s.datagrams[d]).Some? ==>
          Owned(s.datagrams[d]).value < s.buffers && Owned(s.datagrams[d]).value !in s.pool)
    && (forall d, e :: 0 <= d < e < |s.datagrams| && Owned(s.datagrams[d]).Some? ==>
          Owned(s.datagrams[d]) != Owned(s.datagrams[e]))
  }

  // The buffer a datagram still owns.
  function Owned(d: Datagram): Option<nat> {
    if d.place.Gone? then None else d.buffer
  }

  predicate BudgetOk(s: State) {
    && s.used == Total(s.datagrams)
    && (if s.max > 0 then s.used <= s.max else forall d :: 0 <= d < |s.datagrams| ==> s.datagrams[d].accounted == 0)
  }

  ghost predicate Inv(s: State) {
    && (forall d :: 0 <= d < |s.datagrams| ==> DatagramOk(s, d))
    && (forall c :: 0 <= c < |s.conns| ==> ConnOk(s, c))
    && BuffersOk(s) && BudgetOk(s)
  }

  // ---- Every step keeps it ----

  lemma {:induction false} TotalChanges(datagrams: seq<Datagram>, d: nat, x: Datagram)
    requires d < |datagrams|
    ensures Total(datagrams[d := x]) == Total(datagrams) - Held(datagrams[d]) + Held(x)
  {
    var n := |datagrams| - 1;
    if d < n {
      TotalChanges(datagrams[..n], d, x);
      assert datagrams[d := x][..n] == datagrams[..n][d := x];
    } else {
      assert datagrams[d := x][..n] == datagrams[..n];
    }
  }

  lemma {:induction false} TotalIsPositive(datagrams: seq<Datagram>)
    requires forall d :: 0 <= d < |datagrams| ==> datagrams[d].accounted >= 0
    ensures Total(datagrams) >= 0
    ensures (forall d :: 0 <= d < |datagrams| ==> Held(datagrams[d]) == 0) ==> Total(datagrams) == 0
  {
    if datagrams != [] {
      TotalIsPositive(datagrams[..|datagrams| - 1]);
    }
  }

  // Every step but Offer gives at most one datagram a new place.
  function Touched(s: State, step: Step): Option<nat>
    requires Enabled(s, step)
  {
    match step
    case Load(d) => Some(d)
    case Swap(d) => Some(d)
    case Find(d, _) => Some(d)
    case Enqueue(d) => Some(d)
    case Reject(d) => Some(d)
    case Take(c) => Some(s.conns[c].queue[0])
    case Written(c, _) => Some(s.conns[c].worker.d)
    case Dropped(c) => Some(s.conns[c].worker.d)
    case _ => None
  }

  lemma StepKeepsBudget(s: State, step: Step)
    requires Inv(s) && Enabled(s, step)
    ensures BudgetOk(Do(s, step))
  {
    hide Total, BuffersOk, DatagramOk, ConnOk;
    if step.Offer? {
      OneMore(s.datagrams, Do(s, step).datagrams[|s.datagrams|]);
    } else if Touched(s, step).Some? {
      if step.Take? || step.Written? || step.Dropped? { assert ConnOk(s, step.conn); }
      var d := Touched(s, step).value;
      assert DatagramOk(s, d);
      hide Inv;
      MovesWithinBudget(s, step, d);
      hide BudgetOk, Do;
      OneDatagramMoves(s, Do(s, step), d);
    }
  }

  lemma MovesWithinBudget(s: State, step: Step, d: nat)
    requires BudgetOk(s) && Enabled(s, step) && Touched(s, step) == Some(d)
    requires d < |s.datagrams| && DatagramOk(s, d)
    requires step.Take? || step.Written? || step.Dropped? ==> ConnOk(s, step.conn)
    ensures var s' := Do(s, step);
            && |s'.datagrams| == |s.datagrams| && s'.max == s.max
            && s'.datagrams == s.datagrams[d := s'.datagrams[d]]
            && s'.used == s.used - Held(s.datagrams[d]) + Held(s'.datagrams[d])
            && if s.max > 0 then s'.used <= s.max else s'.datagrams[d].accounted == 0
  {
    hide Total;
  }

  lemma OneDatagramMoves(s: State, s': State, d: nat)
    requires BudgetOk(s) && d < |s.datagrams| && |s'.datagrams| == |s.datagrams| && s'.max == s.max
    requires s'.datagrams == s.datagrams[d := s'.datagrams[d]]
    requires s'.used == s.used - Held(s.datagrams[d]) + Held(s'.datagrams[d])
    requires if s.max > 0 then s'.used <= s.max else s'.datagrams[d].accounted == 0
    ensures BudgetOk(s')
  {
    TotalChanges(s.datagrams, d, s'.datagrams[d]);
  }

  lemma OneMore(datagrams: seq<Datagram>, x: Datagram)
    ensures Total(datagrams + [x]) == Total(datagrams) + Held(x)
  {
    assert (datagrams + [x])[..|datagrams|] == datagrams;
  }

  lemma OfferKeepsBuffers(s: State, length: nat, buffer: Option<nat>)
    requires BuffersOk(s) && Enabled(s, Offer(length, buffer))
    ensures BuffersOk(Do(s, Offer(length, buffer)))
  {
    var s' := Do(s, Offer(length, buffer));
    var n := |s.datagrams|;
    assert Owned(s'.datagrams[n]) == buffer;
    assert forall d :: 0 <= d < n ==> s'.datagrams[d] == s.datagrams[d];
    assert forall b :: b in s'.pool ==> b in s.pool && b < s.buffers && s'.pool[b] == 1;
    assert buffer.Some? ==> buffer.value !in s'.pool && buffer.value < s'.buffers;
    hide Do, Owned;
  }

  lemma ReleaseKeepsBuffers(s: State, d: nat)
    requires BuffersOk(s) && d < |s.datagrams| && !s.datagrams[d].place.Gone?
    ensures BuffersOk(Release(s, d))
  {
    assert Owned(s.datagrams[d]) == s.datagrams[d].buffer;
  }

  lemma BuffersUntouched(s: State, s': State)
    requires BuffersOk(s) && s'.pool == s.pool && s'.buffers == s.buffers && |s'.datagrams| == |s.datagrams|
    requires forall d :: 0 <= d < |s.datagrams| ==> Owned(s'.datagrams[d]) == Owned(s.datagrams[d])
    ensures BuffersOk(s')
  {
  }

  lemma StepKeepsBuffers(s: State, step: Step)
    requires Inv(s) && Enabled(s, step)
    ensures BuffersOk(Do(s, step))
  {
    if step.Offer? {
      OfferKeepsBuffers(s, step.length, step.buffer);
    } else if step.Reject? {
      ReleaseKeepsBuffers(s, step.d);
    } else if step.Written? || step.Dropped? {
      ReleaseAndSet(s, step.conn, step);
    } else {
      if step.Take? { assert ConnOk(s, step.conn); }
      hide Inv, BuffersOk;
      BuffersUntouched(s, Do(s, step));
    }
  }

  lemma ReleaseAndSet(s: State, c: nat, step: Step)
    requires Inv(s) && Enabled(s, step) && (step == Dropped(c) || (step.Written? && step.conn == c))
    ensures BuffersOk(Do(s, step))
  {
    assert ConnOk(s, c);
    hide Inv;
    ReleaseKeepsBuffers(s, s.conns[c].worker.d);
  }

  // Places and queues agree.
  ghost predicate PlacesOk(s: State) {
    && (forall d :: 0 <= d < |s.datagrams| ==> DatagramOk(s, d))
    && (forall c :: 0 <= c < |s.conns| ==> ConnOk(s, c))
  }

  // A datagram in its handler's hands changes hands or gets dropped.
  lemma HandlerMoves(s: State, s': State, d: nat)
    requires PlacesOk(s) && d < |s.datagrams| && s'.conns == s.conns && s'.max == s.max
    requires |s'.datagrams| == |s.datagrams| && s'.datagrams == s.datagrams[d := s'.datagrams[d]]
    requires !s.datagrams[d].place.Queued? && !s.datagrams[d].place.AtWorker?
    requires !s'.datagrams[d].place.Queued? && !s'.datagrams[d].place.AtWorker?
    requires DatagramOk(s', d)
    ensures PlacesOk(s')
  {
    forall e | 0 <= e < |s'.datagrams| ensures DatagramOk(s', e) {
      assert DatagramOk(s, e);
    }
    forall c | 0 <= c < |s'.conns| ensures ConnOk(s', c) {
      assert ConnOk(s, c);
    }
  }

  // New datagrams and new connections.
  lemma MoreOfThem(s: State, s': State)
    requires PlacesOk(s) && s'.max == s.max
    requires |s.datagrams| <= |s'.datagrams| && s'.datagrams[..|s.datagrams|] == s.datagrams
    requires |s.conns| <= |s'.conns| && s'.conns[..|s.conns|] == s.conns
    requires forall d :: |s.datagrams| <= d < |s'.datagrams| ==>
               s'.datagrams[d].place == Offered && s'.datagrams[d].releases == 0 && s'.datagrams[d].accounted == 0
    requires forall c :: |s.conns| <= c < |s'.conns| ==> s'.conns[c] == Conn([], false, Running)
    ensures PlacesOk(s')
  {
    forall e | 0 <= e < |s'.datagrams| ensures DatagramOk(s', e) {
      if e < |s.datagrams| {
        assert s'.datagrams[..|s.datagrams|][e] == s'.datagrams[e];
        assert DatagramOk(s, e);
        if s.datagrams[e].place.Queued? || s.datagrams[e].place.AtWorker? {
          assert s'.conns[..|s.conns|][s.datagrams[e].place.conn] == s'.conns[s.datagrams[e].place.conn];
        }
      }
    }
    forall c | 0 <= c < |s'.conns| ensures ConnOk(s', c) {
      if c < |s.conns| {
        assert s'.conns[..|s.conns|][c] == s'.conns[c];
        assert ConnOk(s, c);
        forall d: nat | d < |s.datagrams| ensures s'.datagrams[d] == s.datagrams[d] {
          assert s'.datagrams[..|s.datagrams|][d] == s'.datagrams[d];
        }
      }
    }
  }

  // A worker with nothing in hand goes on, or a connection is closed.
  lemma ConnMoves(s: State, c: nat, conn: Conn)
    requires PlacesOk(s) && c < |s.conns| && conn.queue == s.conns[c].queue && (s.conns[c].closed ==> conn.closed)
    requires conn.worker == s.conns[c].worker ||
             (!s.conns[c].worker.Writing? && !s.conns[c].worker.Dropping? && !conn.worker.Writing? && !conn.worker.Dropping?)
    requires (conn.worker.Draining? ==> conn.closed) && (conn.worker.Finished? ==> conn.closed && conn.queue == [])
    ensures PlacesOk(SetConn(s, c, conn))
  {
    var s' := SetConn(s, c, conn);
    forall e | 0 <= e < |s'.datagrams| ensures DatagramOk(s', e) {
      assert DatagramOk(s, e);
    }
    forall b | 0 <= b < |s'.conns| ensures ConnOk(s', b) {
      assert ConnOk(s, b);
    }
  }

  lemma EnqueueKeepsPlaces(s: State, d: nat)
    requires PlacesOk(s) && Enabled(s, Enqueue(d))
    requires !s.conns[s.datagrams[d].place.conn].closed && |s.conns[s.datagrams[d].place.conn].queue| < QUEUE_SIZE
    ensures PlacesOk(Do(s, Enqueue(d)))
  {
    var s' := Do(s, Enqueue(d));
    assert DatagramOk(s, d) && ConnOk(s, s.datagrams[d].place.conn);
    assert d !in s.conns[s.datagrams[d].place.conn].queue;
    forall e | 0 <= e < |s'.datagrams| ensures DatagramOk(s', e) {
      assert DatagramOk(s, e);
      if e == d {
        var q := s'.conns[s.datagrams[d].place.conn].queue;
        assert q[|q| - 1] == d;
      }
    }
    forall c | 0 <= c < |s'.conns| ensures ConnOk(s', c) {
      assert ConnOk(s, c);
      OneMoreInQueue(s.conns[c].queue, d);
    }
  }

  lemma OneMoreInQueue(queue: seq<nat>, d: nat)
    requires NoDuplicates(queue)
    ensures d !in queue ==> NoDuplicates(queue + [d])
  {
  }

  lemma HeadLeaves(queue: seq<nat>)
    requires NoDuplicates(queue) && queue != []
    ensures NoDuplicates(queue[1..])
    ensures forall d :: d in queue[1..] <==> d in queue && d != queue[0]
  {
    assert queue == [queue[0]] + queue[1..];
  }

  lemma TakeKeepsPlaces(s: State, c: nat)
    requires PlacesOk(s) && Enabled(s, Take(c))
    ensures PlacesOk(Do(s, Take(c)))
  {
    var s' := Do(s, Take(c));
    assert ConnOk(s, c);
    HeadLeaves(s.conns[c].queue);
    forall e | 0 <= e < |s'.datagrams| ensures DatagramOk(s', e) {
      assert DatagramOk(s, e);
    }
    forall b | 0 <= b < |s'.conns| ensures ConnOk(s', b) {
      assert ConnOk(s, b);
    }
  }

  lemma WorkerReleases(s: State, c: nat, worker: Worker)
    requires PlacesOk(s) && c < |s.conns| && (s.conns[c].worker.Writing? || s.conns[c].worker.Dropping?)
    requires worker.Running? || worker.Leaving? || (worker.Draining? && s.conns[c].worker.Dropping?)
    requires s.conns[c].worker.d < |s.datagrams|
    ensures PlacesOk(SetConn(Release(s, s.conns[c].worker.d), c, s.conns[c].(worker := worker)))
  {
    var d := s.conns[c].worker.d;
    var s' := SetConn(Release(s, d), c, s.conns[c].(worker := worker));
    assert ConnOk(s, c);
    forall e | 0 <= e < |s'.datagrams| ensures DatagramOk(s', e) {
      assert DatagramOk(s, e);
    }
    forall b | 0 <= b < |s'.conns| ensures ConnOk(s', b) {
      assert ConnOk(s, b);
    }
  }

  lemma StepKeepsPlaces(s: State, step: Step)
    requires PlacesOk(s) && Enabled(s, step)
    ensures PlacesOk(Do(s, step))
  {
    var s' := Do(s, step);
    if step.Offer? {
      MoreOfThem(s, s');
    } else if step.Find? {
      FindKeepsPlaces(s, step.d, step.conn);
    } else if step.Take? {
      TakeKeepsPlaces(s, step.conn);
    } else if step.Written? || step.Dropped? {
      WorkerReleases(s, step.conn, s'.conns[step.conn].worker);
    } else if step.Enqueue? && s'.datagrams[step.d].place.Queued? {
      EnqueueKeepsPlaces(s, step.d);
    } else if step.Load? || step.Swap? || step.Reject? || step.Enqueue? {
      assert DatagramOk(s, step.d);
      hide PlacesOk;
      HandlerMoves(s, s', step.d);
    } else {
      assert ConnOk(s, step.conn);
      hide PlacesOk;
      ConnMoves(s, step.conn, s'.conns[step.conn]);
    }
  }

  lemma FindKeepsPlaces(s: State, d: nat, c: nat)
    requires PlacesOk(s) && Enabled(s, Find(d, c))
    ensures PlacesOk(Do(s, Find(d, c)))
  {
    assert DatagramOk(s, d);
    var more := if c < |s.conns| then s else s.(conns := s.conns + [Conn([], false, Running)]);
    hide PlacesOk;
    MoreOfThem(s, more);
    HandlerMoves(more, Do(s, Find(d, c)), d);
  }

  lemma EveryStepKeepsInv(s: State, step: Step)
    requires Inv(s) && Enabled(s, step)
    ensures Inv(Do(s, step)) && Do(s, step).max == s.max
  {
    hide DatagramOk, ConnOk, BuffersOk, BudgetOk;
    StepKeepsBudget(s, step);
    StepKeepsBuffers(s, step);
    StepKeepsPlaces(s, step);
  }

  ghost predicate IsRun(max: int, states: seq<State>, steps: seq<Step>) {
    && |states| == |steps| + 1 && states[0] == Initial(max)
    && (forall k :: 0 <= k < |steps| ==> Enabled(states[k], steps[k]) && states[k + 1] == Do(states[k], steps[k]))
  }

  lemma {:induction false} EveryRunKeepsInv(max: int, states: seq<State>, steps: seq<Step>)
    requires IsRun(max, states, steps)
    ensures forall k :: 0 <= k < |states| ==> Inv(states[k]) && states[k].max == max
  {
    if steps != [] {
      hide Inv;
      var n := |steps| - 1;
      EveryRunKeepsInv(max, states[..n + 1], steps[..n]);
      assert Inv(states[..n + 1][n]);
      EveryStepKeepsInv(states[n], steps[n]);
      forall k | 0 <= k < |states|
        ensures Inv(states[k]) && states[k].max == max
      {
        if k <= n { assert states[..n + 1][k] == states[k]; }
      }
    }
  }

  // ---- What it means ----

  // The counter is the sum of what the unreleased datagrams hold, and stays within the budget.
  lemma BytesConserved(max: int, states: seq<State>, steps: seq<Step>, k: nat)
    requires IsRun(max, states, steps) && k < |states|
    ensures states[k].used == Total(states[k].datagrams)
    ensures 0 <= states[k].used <= Max(max, 0)
  {
    EveryRunKeepsInv(max, states, steps);
    var s := states[k];
    assert Inv(s);
    forall d: nat | d < |s.datagrams| ensures s.datagrams[d].accounted >= 0 {
      assert DatagramOk(s, d);
    }
    TotalIsPositive(s.datagrams);
  }

  // Nothing is released twice: not a datagram, not a buffer.
  lemma ReleasedOnce(max: int, states: seq<State>, steps: seq<Step>, k: nat)
    requires IsRun(max, states, steps) && k < |states|
    ensures forall d :: 0 <= d < |states[k].datagrams| ==>
              states[k].datagrams[d].releases == if states[k].datagrams[d].place.Gone? then 1 else 0
    ensures forall b :: b in states[k].pool ==> states[k].pool[b] == 1
    ensures forall d :: 0 <= d < |states[k].datagrams| && Owned(states[k].datagrams[d]).Some? ==>
              Owned(states[k].datagrams[d]).value !in states[k].pool
  {
    EveryRunKeepsInv(max, states, steps);
    assert Inv(states[k]);
    forall d: nat | d < |states[k].datagrams|
      ensures states[k].datagrams[d].releases == if states[k].datagrams[d].place.Gone? then 1 else 0
    {
      assert DatagramOk(states[k], d);
    }
  }

  // The queue of a finished worker is empty, and stays empty: nobody is left to read it.
  lemma FinishedStaysEmpty(max: int, states: seq<State>, steps: seq<Step>, j: nat, k: nat, c: nat)
    requires IsRun(max, states, steps) && j <= k < |states| && c < |states[j].conns|
    requires states[j].conns[c].worker.Finished?
    ensures c < |states[k].conns| && states[k].conns[c].worker.Finished? && states[k].conns[c].queue == []
    decreases k
  {
    EveryRunKeepsInv(max, states, steps);
    if j < k {
      FinishedStaysEmpty(max, states, steps, j, k - 1, c);
      FinishedStays(states[k - 1], steps[k - 1], c);
      assert states[k] == Do(states[k - 1], steps[k - 1]);
    }
    assert Inv(states[k]);
    assert ConnOk(states[k], c);
  }

  lemma FinishedStays(s: State, step: Step, c: nat)
    requires Enabled(s, step) && c < |s.conns| && s.conns[c].worker.Finished?
    ensures c < |Do(s, step).conns| && Do(s, step).conns[c].worker.Finished?
  {
  }

  // A datagram in a handler's hands.
  predicate InHand(d: Datagram) {
    d.place.Offered? || d.place.Loaded? || d.place.Reserved? || d.place.Enqueuing? || d.place.Rejected?
  }

  // With no worker and no handler in flight the budget is whole again, and every datagram was released.
  lemma WholeAtRest(max: int, states: seq<State>, steps: seq<Step>, k: nat)
    requires IsRun(max, states, steps) && k < |states|
    requires forall c :: 0 <= c < |states[k].conns| ==> states[k].conns[c].worker.Finished?
    requires forall d :: 0 <= d < |states[k].datagrams| ==> !InHand(states[k].datagrams[d])
    ensures states[k].used == 0
    ensures forall d :: 0 <= d < |states[k].datagrams| ==> states[k].datagrams[d].releases == 1
  {
    EveryRunKeepsInv(max, states, steps);
    var s := states[k];
    assert Inv(s);
    forall d: nat | d < |s.datagrams|
      ensures s.datagrams[d].place.Gone? && s.datagrams[d].accounted >= 0 && s.datagrams[d].releases == 1
    {
      assert DatagramOk(s, d) && !InHand(s.datagrams[d]);
      forall c: nat | c < |s.conns| ensures s.conns[c].queue == [] && !HasInHand(s.conns[c].worker, d) {
        assert ConnOk(s, c);
      }
    }
    TotalIsPositive(s.datagrams);
  }

  // ---- What is charged, and why a datagram is dropped ----

  // Accepted by the budget and not released yet.
  predicate InFlight(d: Datagram) {
    d.place.Reserved? || d.place.Enqueuing? || d.place.Queued? || d.place.AtWorker?
  }

  // A pooled buffer is charged whole, however little of it is used; other data by its length.
  predicate ChargedInFull(d: Datagram) {
    d.accounted == if d.buffer.Some? then 40960 else d.length
  }

  ghost predicate AllCharged(s: State) {
    s.max > 0 ==> forall d :: 0 <= d < |s.datagrams| && InFlight(s.datagrams[d]) ==> ChargedInFull(s.datagrams[d])
  }

  lemma StepKeepsCharges(s: State, step: Step)
    requires Inv(s) && Enabled(s, step) && AllCharged(s)
    ensures AllCharged(Do(s, step))
  {
    hide Total, BuffersOk, DatagramOk, ConnOk, BudgetOk, Do;
    if Touched(s, step).Some? {
      if step.Take? || step.Written? || step.Dropped? { assert ConnOk(s, step.conn); }
      var d := Touched(s, step).value;
      assert DatagramOk(s, d);
      hide Inv, Touched, InFlight, ChargedInFull;
      MovesWithinBudget(s, step, d);
      if s.max > 0 {
        ChargeOfMoved(s, step, d);
      }
    } else {
      ChargesUntouched(s, step);
    }
  }

  lemma ChargesUntouched(s: State, step: Step)
    requires Enabled(s, step) && Touched(s, step) == None && AllCharged(s)
    ensures AllCharged(Do(s, step))
  {
  }

  lemma ChargeOfMoved(s: State, step: Step, d: nat)
    requires Enabled(s, step) && Touched(s, step) == Some(d) && d < |s.datagrams| && s.max > 0
    requires DatagramOk(s, d) && (step.Take? ==> ConnOk(s, step.conn))
    requires InFlight(s.datagrams[d]) ==> ChargedInFull(s.datagrams[d])
    ensures d < |Do(s, step).datagrams|
    ensures InFlight(Do(s, step).datagrams[d]) ==> ChargedInFull(Do(s, step).datagrams[d])
  {
  }

  lemma {:induction false} EveryDatagramCharged(max: int, states: seq<State>, steps: seq<Step>, k: nat)
    requires IsRun(max, states, steps) && k < |states|
    ensures AllCharged(states[k]) && states[k].max == max
  {
    EveryRunKeepsInv(max, states, steps);
    if k > 0 {
      hide Inv, AllCharged, Do, Enabled;
      EveryDatagramCharged(max, states, steps, k - 1);
      StepKeepsCharges(states[k - 1], steps[k - 1]);
    }
  }

  function Pooled(datagrams: seq<Datagram>): set<nat> {
    set d | 0 <= d < |datagrams| && InFlight(datagrams[d]) && datagrams[d].buffer.Some?
  }

  lemma {:induction false} PooledHold(datagrams: seq<Datagram>)
    requires forall d :: 0 <= d < |datagrams| ==> datagrams[d].accounted >= 0
    requires forall d :: 0 <= d < |datagrams| && InFlight(datagrams[d]) ==> ChargedInFull(datagrams[d])
    ensures 40960 * |Pooled(datagrams)| <= Total(datagrams)
  {
    if datagrams == [] {
      assert Pooled(datagrams) == {};
    } else {
      var n := |datagrams| - 1;
      PooledHold(datagrams[..n]);
      var last := if InFlight(datagrams[n]) && datagrams[n].buffer.Some? then {n} else {};
      assert Pooled(datagrams) == Pooled(datagrams[..n]) + last;
    }
  }

  // Under a budget, the pooled buffers in flight, counted whole, never exceed it.
  lemma PooledWithinBudget(max: int, states: seq<State>, steps: seq<Step>, k: nat)
    requires IsRun(max, states, steps) && k < |states| && max > 0
    ensures 40960 * |Pooled(states[k].datagrams)| <= max
  {
    BytesConserved(max, states, steps, k);
    EveryDatagramCharged(max, states, steps, k);
    EveryRunKeepsInv(max, states, steps);
    var s := states[k];
    assert Inv(s);
    forall d: nat | d < |s.datagrams| ensures s.datagrams[d].accounted >= 0 {
      assert DatagramOk(s, d);
    }
    PooledHold(s.datagrams);
  }

  // Why a step of a run drops a datagram, and why not: with the counter it had read, its charge would
  // exceed the budget; or its connection was closed or had 64 datagrams waiting.
  lemma DroppedExactlyFor(max: int, states: seq<State>, steps: seq<Step>, k: nat, d: nat)
    requires IsRun(max, states, steps) && k < |steps| && d < |states[k].datagrams|
    ensures d < |states[k + 1].datagrams|
    ensures var s, x, x' := states[k], states[k].datagrams[d], states[k + 1].datagrams[d];
            var charge := if x.buffer.Some? then 40960 else x.length;
            && (steps[k] == Load(d) ==> x'.place == if max <= 0 then Reserved else Loaded(s.used))
            && (steps[k] == Swap(d) ==>
                  && (x'.place == Rejected <==> x.place.used + charge > max)
                  && (x'.place == Reserved <==> x.place.used + charge <= max && s.used == x.place.used)
                  && (x'.place == Reserved ==> states[k + 1].used == s.used + charge)
                  && (x'.place != Rejected && x'.place != Reserved ==> x'.place == Offered))
            && (steps[k] == Enqueue(d) ==>
                  var c := x.place.conn;
                  && (x'.place == Rejected <==> s.conns[c].closed || |s.conns[c].queue| == 64)
                  && (x'.place != Rejected ==> x'.place == Queued(c)))
            && (x'.place == Rejected && x.place != Rejected ==> steps[k] == Swap(d) || steps[k] == Enqueue(d))
  {
    EveryRunKeepsInv(max, states, steps);
    var s := states[k];
    assert Inv(s) && states[k + 1] == Do(s, steps[k]);
    assert DatagramOk(s, d);
    if steps[k] == Enqueue(d) {
      assert ConnOk(s, s.datagrams[d].place.conn);
    }
    hide Inv, Total;
  }

  // ---- First in, first out ----

  // The datagrams that entered a connection's queue in the first n steps.
  ghost function Entered(states: seq<State>, steps: seq<Step>, n: nat, c: nat): seq<nat>
    requires n <= |steps| < |states|
  {
    if n == 0 then [] else
    var step, before := steps[n - 1], Entered(states, steps, n - 1, c);
    if step.Enqueue? && step.d < |states[n].datagrams| && states[n].datagrams[step.d].place == Queued(c)
    then before + [step.d] else before
  }

  // The datagrams its worker took in hand, to write or to drop them.
  ghost function TakenInHand(states: seq<State>, steps: seq<Step>, n: nat, c: nat): seq<nat>
    requires n <= |steps| < |states|
  {
    if n == 0 then [] else
    var before := TakenInHand(states, steps, n - 1, c);
    if steps[n - 1] == Take(c) && c < |states[n].conns|
       && (states[n].conns[c].worker.Writing? || states[n].conns[c].worker.Dropping?)
    then before + [states[n].conns[c].worker.d] else before
  }

  lemma QueueStep(s: State, step: Step, c: nat)
    requires Inv(s) && Enabled(s, step) && c < |Do(s, step).conns|
    ensures var s' := Do(s, step);
            var queue := if c < |s.conns| then s.conns[c].queue else [];
            && (step.Enqueue? ==> step.d < |s'.datagrams|)
            && if step.Enqueue? && s'.datagrams[step.d].place == Queued(c) then s'.conns[c].queue == queue + [step.d]
               else if step == Take(c) then
                 && (s'.conns[c].worker.Writing? || s'.conns[c].worker.Dropping?)
                 && [s'.conns[c].worker.d] + s'.conns[c].queue == queue
               else s'.conns[c].queue == queue
  {
    if step.Enqueue? {
      assert DatagramOk(s, step.d);
    }
    hide Inv, Total;
  }

  // A connection's datagrams are taken in the order in which they entered: what was taken, followed by what
  // still waits, is what entered.
  lemma {:induction false} FirstInFirstOut(max: int, states: seq<State>, steps: seq<Step>, n: nat, c: nat)
    requires IsRun(max, states, steps) && n <= |steps|
    ensures Entered(states, steps, n, c) ==
            TakenInHand(states, steps, n, c) + (if c < |states[n].conns| then states[n].conns[c].queue else [])
  {
    hide Inv, Do, Enabled, Touched;
    EveryRunKeepsInv(max, states, steps);
    if n > 0 {
      FirstInFirstOut(max, states, steps, n - 1, c);
      ConnsStay(states[n - 1], steps[n - 1]);
      if c < |states[n].conns| {
        QueueStep(states[n - 1], steps[n - 1], c);
      } else {
        NoSuchQueue(states[n], c);
      }
    }
  }

  lemma ConnsStay(s: State, step: Step)
    requires Enabled(s, step)
    ensures |s.conns| <= |Do(s, step).conns|
  {
  }

  lemma NoSuchQueue(s: State, c: nat)
    requires Inv(s) && c >= |s.conns|
    ensures forall d :: 0 <= d < |s.datagrams| ==> s.datagrams[d].place != Queued(c)
  {
    forall d: nat | d < |s.datagrams|
      ensures s.datagrams[d].place != Queued(c)
    {
      assert DatagramOk(s, d);
    }
  }

  // What a step makes of a connection's worker.
  ghost predicate WorkerFollows(x: Conn, step: Step, c: nat, worker: Worker) {
    match x.worker
    case Running =>
      if step == Take(c) then x.queue != [] && worker == Writing(x.queue[0])
      else worker == if step == Leave(c) then Leaving else Running
    case Writing(d) =>
      worker == if step == Written(c, true) then Running else if step == Written(c, false) then Leaving else x.worker
    case Leaving => worker == if step == StartDraining(c) then Draining else Leaving
    case Draining =>
      if step == Take(c) then x.queue != [] && worker == Dropping(x.queue[0])
      else if step == Finish(c) then worker == Finished && x.queue == [] && x.closed
      else worker == Draining
    case Dropping(d) => worker == if step == Dropped(c) then Draining else x.worker
    case Finished => worker == Finished
  }

  // A worker writes what it takes, one datagram after the other, and goes on after each write that succeeds;
  // once it has left it writes nothing more, drops what still waits on its closed connection, and finishes
  // only when nothing waits.
  lemma WorkerLife(max: int, states: seq<State>, steps: seq<Step>, k: nat, c: nat)
    requires IsRun(max, states, steps) && k < |steps| && c < |states[k].conns|
    ensures c < |states[k + 1].conns|
    ensures WorkerFollows(states[k].conns[c], steps[k], c, states[k + 1].conns[c].worker)
  {
    hide Inv, Do, Enabled, WorkerFollows;
    EveryRunKeepsInv(max, states, steps);
    WorkerSteps(states[k], steps[k], c);
  }

  lemma WorkerSteps(s: State, step: Step, c: nat)
    requires Inv(s) && Enabled(s, step) && c < |s.conns|
    ensures c < |Do(s, step).conns| && WorkerFollows(s.conns[c], step, c, Do(s, step).conns[c].worker)
  {
    DrainingIsClosed(s, c);
    hide Inv;
    ConnsOfStep(s, step, c);
    if OfWorker(step, c) {
      OwnStep(s, step, c);
    }
    hide Do, Enabled;
  }

  lemma DrainingIsClosed(s: State, c: nat)
    requires Inv(s) && c < |s.conns|
    ensures s.conns[c].worker.Draining? ==> s.conns[c].closed
  {
    assert ConnOk(s, c);
  }

  predicate OfWorker(step: Step, c: nat) {
    (step.Take? || step.Leave? || step.Written? || step.StartDraining? || step.Dropped? || step.Finish?) && step.conn == c
  }

  lemma ConnsOfStep(s: State, step: Step, c: nat)
    requires Enabled(s, step) && c < |s.conns|
    ensures c < |Do(s, step).conns|
    ensures !OfWorker(step, c) ==> Do(s, step).conns[c].worker == s.conns[c].worker
  {
  }

  lemma OwnStep(s: State, step: Step, c: nat)
    requires Enabled(s, step) && c < |s.conns| && OfWorker(step, c) && c < |Do(s, step).conns|
    requires s.conns[c].worker.Draining? ==> s.conns[c].closed
    ensures WorkerFollows(s.conns[c], step, c, Do(s, step).conns[c].worker)
  {
  }
}
