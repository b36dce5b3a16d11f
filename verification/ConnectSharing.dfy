// One connection attempt shared per node group: the tunnel's tables, its
// connect workers, evictions and Close, interleaving freely.
module ConnectSharing {
  import opened Prelude

  // How far a connect worker has come.
  datatype Worker =
    | Sleeping                   // waiting for the retry timer or for the tunnel to close
    | Dialing                    // in connectConn, before it has a conntrack manager
    | HasManager(manager: nat)   // connecting with that manager
    | Opened(conn: nat)          // about to hand over a connection
    | GivingUp                   // about to report that the tunnel closed
    | Stopped

  // The objects, named by the order of their creation. A call's done channel is closed `closes` times.
  datatype Call = Call(group: string, worker: Worker, conn: Option<nat>, failed: bool, closes: nat)
  datatype Conn = Conn(group: string, addr: string, manager: nat, closed: bool)
  datatype Manager = Manager(group: string, closed: bool)

  // The tables under the tunnel's mutex, the objects ever created, and those that some thread
  // has taken out of a table and is about to close.
  datatype Tunnel = Tunnel(
    conns: map<string, nat>, connecting: map<string, nat>, managers: map<string, nat>,
    closing: bool, swept: bool,
    calls: seq<Call>, dialled: seq<Conn>, created: seq<Manager>,
    connsToClose: set<nat>, managersToClose: set<nat>)

  const EMPTY := Tunnel(map[], map[], map[], false, false, [], [], [], {}, {})

  // ---- The sections under the mutex ----

  function NewCall(t: Tunnel, group: string, worker: Worker): Tunnel {
    t.(connecting := t.connecting[group := |t.calls|], calls := t.calls + [Call(group, worker, None, false, 0)])
  }

  // The connection of a group or, failing that, the attempt to wait for.
  datatype Joined = Live(conn: nat) | Pending(call: nat)

  function Got(t: Tunnel, group: string): (Tunnel, Joined) {
    if group in t.conns then (t, Live(t.conns[group]))
    else if group in t.connecting then (t, Pending(t.connecting[group]))
    else (NewCall(t, group, Dialing), Pending(|t.calls|))
  }

  function Reconnecting(t: Tunnel, group: string): Tunnel {
    if group in t.conns || group in t.connecting then t else NewCall(t, group, Sleeping)
  }

  function ManagerOf(t: Tunnel, group: string): (Tunnel, Option<nat>) {
    if t.closing then (t, None)
    else if group in t.managers then (t, Some(t.managers[group]))
    else (t.(managers := t.managers[group := |t.created|], created := t.created + [Manager(group, false)]),
          Some(|t.created|))
  }

  function Evicted(t: Tunnel, group: string, conn: nat): Tunnel {
    if group in t.conns && t.conns[group] == conn
    then t.(conns := t.conns - {group}, connsToClose := t.connsToClose + {conn}) else t
  }

  // The node a group should be connected to; empty when none is known.
  function BestNode(best: map<string, string>, major: string, group: string): string {
    if group in best && best[group] != "" then best[group]
    else if major in best then best[major] else ""
  }

  predicate IsStale(t: Tunnel, best: map<string, string>, major: string, group: string) {
    && group in t.conns && t.conns[group] < |t.dialled|
    && BestNode(best, major, group) != "" && t.dialled[t.conns[group]].addr != BestNode(best, major, group)
  }

  function Stale(t: Tunnel, best: map<string, string>, major: string): set<string> {
    set g | g in t.conns && IsStale(t, best, major, g)
  }

  function ConnsOf(t: Tunnel, groups: set<string>): set<nat> {
    set g | g in groups && g in t.conns :: t.conns[g]
  }

  function StaleEvicted(t: Tunnel, best: map<string, string>, major: string): Tunnel {
    var groups := Stale(t, best, major);
    t.(conns := t.conns - groups, connsToClose := t.connsToClose + ConnsOf(t, groups))
  }

  // The worker of a call reports its connection, or that the tunnel closed.
  function Finished(t: Tunnel, c: nat): Tunnel
    requires c < |t.calls|
  {
    var call := t.calls[c];
    var conn := if call.worker.Opened? then Some(call.worker.conn) else None;
    if !(call.group in t.connecting && t.connecting[call.group] == c) then
      t.(calls := t.calls[c := call.(worker := Stopped)],
         connsToClose := if conn.Some? then t.connsToClose + {conn.value} else t.connsToClose)
    else
    var failed := conn.None? || t.closing;
    t.(connecting := t.connecting - {call.group},
       conns := if failed then t.conns else t.conns[call.group := conn.value],
       calls := t.calls[c := Call(call.group, Stopped, conn, failed, call.closes + 1)],
       connsToClose := if failed && conn.Some? then t.connsToClose + {conn.value} else t.connsToClose)
  }

  function Swept(t: Tunnel): Tunnel {
    t.(conns := map[], managers := map[], swept := true,
       connsToClose := t.connsToClose + t.conns.Values, managersToClose := t.managersToClose + t.managers.Values)
  }

  // Closing the connections in a set that a thread has taken out of the tables.
  function Shut(t: Tunnel, conns: set<nat>): Tunnel {
    t.(dialled := seq(|t.dialled|, c requires 0 <= c < |t.dialled| =>
         if c in conns then t.dialled[c].(closed := true) else t.dialled[c]),
       connsToClose := t.connsToClose - conns)
  }

  function ShutManagers(t: Tunnel, managers: set<nat>): Tunnel {
    t.(created := seq(|t.created|, m requires 0 <= m < |t.created| =>
         if m in managers then t.created[m].(closed := true) else t.created[m]),
       managersToClose := t.managersToClose - managers)
  }

  // ---- The protocol ----

  datatype Caller =
    | Waiting(group: string, call: nat)
    | Received(group: string, conn: nat, attempt: Option<nat>)   // the attempt it waited for, if any
    | Failed

  datatype State = State(tunnel: Tunnel, callers: map<nat, Caller>)

  const INITIAL := State(EMPTY, map[])

  // What a connect worker does next.
  datatype Action = Wake | Quit | TakeManager | DialFails | Open(addr: string) | Finish

  datatype Step =
    | GetConn(id: nat, group: string)
    | Receive(id: nat)
    | SeeClosed(id: nat)
    | Reconnect(group: string)             // whether or not its check of closeCh was long ago
    | Work(c: nat, action: Action)
    | ConnBreaks(conn: nat)
    | Evict(group: string, conn: nat)
    | EvictStale(best: map<string, string>, major: string)
    | Signal                               // Close closes closeCh
    | Sweep                                // Close's section
    | CloseConn(conn: nat)
    | CloseManager(manager: nat)

  predicate CanWork(t: Tunnel, worker: Worker, action: Action) {
    match action
    case Wake => worker.Sleeping?
    case Quit => worker.Sleeping? && t.closing
    case TakeManager => worker.Dialing?
    case DialFails => worker.Dialing? || worker.HasManager?
    case Open(_) => worker.HasManager?
    case Finish => worker.Opened? || worker.GivingUp?
  }

  predicate Enabled(s: State, step: Step) {
    var t := s.tunnel;
    match step
    case GetConn(id, group) => id !in s.callers
    case Receive(id) =>
      && id in s.callers && s.callers[id].Waiting? && s.callers[id].call < |t.calls|
      && t.calls[s.callers[id].call].closes > 0
    case SeeClosed(id) => id in s.callers && s.callers[id].Waiting? && t.closing
    case Work(c, action) => c < |t.calls| && CanWork(t, t.calls[c].worker, action)
    case Sweep => t.closing && !t.swept
    case CloseConn(conn) => conn in t.connsToClose
    case CloseManager(manager) => manager in t.managersToClose
    case _ => true
  }

  function Goto(t: Tunnel, c: nat, worker: Worker): Tunnel
    requires c < |t.calls|
  {
    t.(calls := t.calls[c := t.calls[c].(worker := worker)])
  }

  function Worked(t: Tunnel, c: nat, action: Action): Tunnel
    requires c < |t.calls|
  {
    match action
    case Wake => Goto(t, c, Dialing)
    case Quit => Goto(t, c, GivingUp)
    case TakeManager =>
      var (t', manager) := ManagerOf(t, t.calls[c].group);
      Goto(t', c, if manager.Some? then HasManager(manager.value) else Sleeping)
    case DialFails => Goto(t, c, Sleeping)
    case Open(addr) =>
      var manager := if t.calls[c].worker.HasManager? then t.calls[c].worker.manager else 0;
      Goto(t, c, Opened(|t.dialled|)).(dialled := t.dialled + [Conn(t.calls[c].group, addr, manager, false)])
    case Finish => Finished(t, c)
  }

  function DoTunnel(t: Tunnel, step: Step): Tunnel {
    match step
    case GetConn(_, group) => Got(t, group).0
    case Receive(_) => t
    case SeeClosed(_) => t
    case Reconnect(group) => Reconnecting(t, group)
    case Work(c, action) => if c < |t.calls| then Worked(t, c, action) else t
    case ConnBreaks(conn) => Shut(t, {conn}).(connsToClose := t.connsToClose)
    case Evict(group, conn) => Evicted(t, group, conn)
    case EvictStale(best, major) => StaleEvicted(t, best, major)
    case Signal => t.(closing := true)
    case Sweep => Swept(t)
    case CloseConn(conn) => Shut(t, {conn})
    case CloseManager(manager) => ShutManagers(t, {manager})
  }

  function DoCallers(s: State, step: Step): map<nat, Caller> {
    match step
    case GetConn(id, group) =>
      s.callers[id := match Got(s.tunnel, group).1
                      case Live(conn) => Received(group, conn, None)
                      case Pending(call) => Waiting(group, call)]
    case Receive(id) =>
      if id in s.callers && s.callers[id].Waiting? && s.callers[id].call < |s.tunnel.calls| then
        var caller := s.callers[id];
        var call := s.tunnel.calls[caller.call];
        s.callers[id := if !call.failed && call.conn.Some?
                        then Received(caller.group, call.conn.value, Some(caller.call)) else Failed]
      else s.callers
    case SeeClosed(id) => s.callers[id := Failed]
    case _ => s.callers
  }

  function Do(s: State, step: Step): State {
    State(DoTunnel(s.tunnel, step), DoCallers(s, step))
  }

  // ---- The invariant, in three parts ----

  predicate IsPending(t: Tunnel, c: nat) {
    c < |t.calls| && t.calls[c].group in t.connecting && t.connecting[t.calls[c].group] == c
  }

  // An attempt is pending as long as its worker has not reported; it closes its channel once, when it does.
  ghost predicate AttemptsOk(t: Tunnel) {
    && t.conns.Keys !! t.connecting.Keys
    && (forall g :: g in t.connecting ==> t.connecting[g] < |t.calls| && t.calls[t.connecting[g]].group == g)
    && (forall c: nat :: c < |t.calls| ==> (IsPending(t, c) <==> !t.calls[c].worker.Stopped?))
    && (forall c: nat :: c < |t.calls| ==> t.calls[c].closes == if t.calls[c].worker.Stopped? then 1 else 0)
  }

  predicate InTable(t: Tunnel, conn: nat) {
    conn < |t.dialled| && t.dialled[conn].group in t.conns && t.conns[t.dialled[conn].group] == conn
  }

  predicate HeldBy(t: Tunnel, conn: nat, c: nat) {
    c < |t.calls| && t.calls[c].worker == Opened(conn)
  }

  // Somebody answers for a connection: it is closed or about to be, in the table, or with its worker.
  ghost predicate Accounted(t: Tunnel, conn: nat)
    requires conn < |t.dialled|
  {
    t.dialled[conn].closed || conn in t.connsToClose || InTable(t, conn) || exists c: nat :: HeldBy(t, conn, c)
  }

  predicate CallConnOk(t: Tunnel, call: Call) {
    && (call.worker.Opened? ==> call.worker.conn < |t.dialled| && t.dialled[call.worker.conn].group == call.group)
    && (call.conn.Some? ==> call.conn.value < |t.dialled| && t.dialled[call.conn.value].group == call.group)
  }

  ghost predicate ConnsOk(t: Tunnel) {
    && (forall g :: g in t.conns ==> t.conns[g] < |t.dialled| && t.dialled[t.conns[g]].group == g)
    && (forall c: nat :: c < |t.calls| ==> CallConnOk(t, t.calls[c]))
    && (forall conn: nat :: conn < |t.dialled| ==> Accounted(t, conn))
    && (t.swept ==> t.closing && t.conns == map[])
  }

  predicate ManagerAt(t: Tunnel, m: nat) {
    m < |t.created| && t.created[m].group in t.managers && t.managers[t.created[m].group] == m
  }

  predicate Uses(t: Tunnel, group: string, m: nat) {
    m < |t.created| && t.created[m].group == group
  }

  ghost predicate ManagersOk(t: Tunnel) {
    && (forall g :: g in t.managers ==> Uses(t, g, t.managers[g]))
    && (forall m: nat :: m < |t.created| && !t.swept ==> ManagerAt(t, m))
    && (forall m: nat :: m < |t.created| && t.swept ==> t.created[m].closed || m in t.managersToClose)
    && (forall m, n :: 0 <= m < n < |t.created| ==> t.created[m].group != t.created[n].group)
    && (forall c :: 0 <= c < |t.calls| && t.calls[c].worker.HasManager? ==>
          Uses(t, t.calls[c].group, t.calls[c].worker.manager))
    && (forall conn :: 0 <= conn < |t.dialled| ==> Uses(t, t.dialled[conn].group, t.dialled[conn].manager))
    && (t.swept ==> t.closing && t.managers == map[])
  }

  ghost predicate CallerOk(t: Tunnel, caller: Caller) {
    match caller
    case Waiting(group, call) => call < |t.calls| && t.calls[call].group == group
    case Received(group, conn, attempt) =>
      && conn < |t.dialled| && t.dialled[conn].group == group
      && (attempt.Some? ==> attempt.value < |t.calls| && t.calls[attempt.value].group == group
                            && t.calls[attempt.value].worker.Stopped? && t.calls[attempt.value].conn == Some(conn))
    case Failed => true
  }

  ghost predicate CallersOk(s: State) {
    forall id :: id in s.callers ==> CallerOk(s.tunnel, s.callers[id])
  }

  ghost predicate Inv(s: State) {
    AttemptsOk(s.tunnel) && ConnsOk(s.tunnel) && ManagersOk(s.tunnel) && CallersOk(s)
  }

  // ---- Every step keeps it ----

  lemma NewCallKeepsAttempts(t: Tunnel, group: string, worker: Worker)
    requires AttemptsOk(t) && group !in t.conns && group !in t.connecting && !worker.Stopped?
    ensures AttemptsOk(NewCall(t, group, worker))
  {
    var t' := NewCall(t, group, worker);
    forall c: nat | c < |t'.calls|
      ensures IsPending(t', c) <==> !t'.calls[c].worker.Stopped?
    {
      if c < |t.calls| { assert IsPending(t, c) <==> !t.calls[c].worker.Stopped?; }
    }
  }

  lemma FinishKeepsAttempts(t: Tunnel, c: nat)
    requires AttemptsOk(t) && c < |t.calls| && !t.calls[c].worker.Stopped?
    ensures AttemptsOk(Finished(t, c))
  {
    assert IsPending(t, c);
    var t' := Finished(t, c);
    forall d: nat | d < |t'.calls|
      ensures IsPending(t', d) <==> !t'.calls[d].worker.Stopped?
    {
      assert IsPending(t, d) <==> !t.calls[d].worker.Stopped?;
    }
  }

  // Anything that leaves the attempts alone and adds no connection.
  lemma AttemptsUntouched(t: Tunnel, t': Tunnel)
    requires AttemptsOk(t) && t'.conns.Keys <= t.conns.Keys && t'.connecting == t.connecting && |t'.calls| == |t.calls|
    requires forall c :: 0 <= c < |t.calls| ==>
               t'.calls[c].group == t.calls[c].group && t'.calls[c].closes == t.calls[c].closes
               && (t'.calls[c].worker.Stopped? <==> t.calls[c].worker.Stopped?)
    ensures AttemptsOk(t')
  {
    forall c: nat | c < |t'.calls|
      ensures IsPending(t', c) <==> !t'.calls[c].worker.Stopped?
    {
      assert IsPending(t, c) <==> !t.calls[c].worker.Stopped?;
    }
  }

  lemma WorkKeepsAttempts(t: Tunnel, c: nat, action: Action)
    requires AttemptsOk(t) && c < |t.calls| && CanWork(t, t.calls[c].worker, action)
    ensures AttemptsOk(Worked(t, c, action))
  {
    hide AttemptsOk, Finished;
    if action.Finish? {
      FinishKeepsAttempts(t, c);
    } else {
      AttemptsUntouched(t, Worked(t, c, action));
    }
  }

  lemma StepKeepsAttempts(s: State, step: Step)
    requires AttemptsOk(s.tunnel) && Enabled(s, step)
    ensures AttemptsOk(DoTunnel(s.tunnel, step))
  {
    var t := s.tunnel;
    hide AttemptsOk, Worked, Stale, ConnsOf;
    if step.Work? {
      WorkKeepsAttempts(t, step.c, step.action);
    } else if (step.GetConn? || step.Reconnect?) && step.group !in t.conns && step.group !in t.connecting {
      NewCallKeepsAttempts(t, step.group, if step.GetConn? then Dialing else Sleeping);
    } else {
      AttemptsUntouched(t, DoTunnel(t, step));
    }
  }

  lemma NewManagerKeepsManagers(t: Tunnel, group: string)
    requires ManagersOk(t)
    ensures ManagersOk(ManagerOf(t, group).0)
    ensures ManagerOf(t, group).1.Some? ==> Uses(ManagerOf(t, group).0, group, ManagerOf(t, group).1.value)
  {
    var t' := ManagerOf(t, group).0;
    forall m: nat | m < |t.created|
      ensures !t'.swept ==> ManagerAt(t', m)
      ensures t' != t ==> t.created[m].group != group
    {
      assert !t.swept ==> ManagerAt(t, m);
    }
  }

  // Anything that leaves the managers alone; a new connection takes over its worker's manager.
  lemma ManagersUntouched(t: Tunnel, t': Tunnel)
    requires ManagersOk(t) && t'.managers == t.managers && t'.created == t.created && t'.swept == t.swept
    requires t.closing ==> t'.closing
    requires t'.managersToClose == t.managersToClose
    requires forall c :: 0 <= c < |t'.calls| && t'.calls[c].worker.HasManager? ==>
               Uses(t, t'.calls[c].group, t'.calls[c].worker.manager)
    requires forall conn :: 0 <= conn < |t'.dialled| ==> Uses(t, t'.dialled[conn].group, t'.dialled[conn].manager)
    ensures ManagersOk(t')
  {
    forall m: nat | m < |t'.created| && !t'.swept
      ensures ManagerAt(t', m)
    {
      assert ManagerAt(t, m);
    }
  }

  lemma SweepKeepsManagers(t: Tunnel)
    requires ManagersOk(t) && t.closing && !t.swept
    ensures ManagersOk(Swept(t))
  {
    forall m: nat | m < |t.created|
      ensures m in t.managers.Values
    {
      assert ManagerAt(t, m);
    }
  }

  lemma ShutKeepsManagers(t: Tunnel, m: nat)
    requires ManagersOk(t)
    ensures ManagersOk(ShutManagers(t, {m}))
  {
    var t' := ShutManagers(t, {m});
    forall n: nat | n < |t'.created|
      ensures !t'.swept ==> ManagerAt(t', n)
      ensures t'.swept ==> t'.created[n].closed || n in t'.managersToClose
    {
      assert !t.swept ==> ManagerAt(t, n);
    }
  }

  lemma ManagersInUse(t: Tunnel)
    requires ManagersOk(t)
    ensures forall c :: 0 <= c < |t.calls| && t.calls[c].worker.HasManager? ==>
              Uses(t, t.calls[c].group, t.calls[c].worker.manager)
    ensures forall conn :: 0 <= conn < |t.dialled| ==> Uses(t, t.dialled[conn].group, t.dialled[conn].manager)
  {
  }

  lemma WorkKeepsManagers(t: Tunnel, c: nat, action: Action)
    requires ManagersOk(t) && c < |t.calls| && CanWork(t, t.calls[c].worker, action)
    ensures ManagersOk(Worked(t, c, action))
  {
    hide ManagersOk, Uses;
    ManagersInUse(t);
    if action.TakeManager? {
      NewManagerKeepsManagers(t, t.calls[c].group);
      ManagersInUse(ManagerOf(t, t.calls[c].group).0);
      ManagersUntouched(ManagerOf(t, t.calls[c].group).0, Worked(t, c, action));
    } else {
      ManagersUntouched(t, Worked(t, c, action));
    }
  }

  lemma StepKeepsManagers(s: State, step: Step)
    requires ManagersOk(s.tunnel) && Enabled(s, step)
    ensures ManagersOk(DoTunnel(s.tunnel, step))
  {
    hide ManagersOk, Uses, Worked;
    var t := s.tunnel;
    ManagersInUse(t);
    if step.Sweep? {
      SweepKeepsManagers(t);
    } else if step.CloseManager? {
      ShutKeepsManagers(t, step.manager);
    } else if step.Work? {
      WorkKeepsManagers(t, step.c, step.action);
    } else {
      ManagersUntouched(t, DoTunnel(t, step));
    }
  }

  // A connection leaves the table, or the hands of its closer, only closed or for the hands of a closer.
  lemma ConnsKept(t: Tunnel, t': Tunnel)
    requires ConnsOk(t) && |t.dialled| == |t'.dialled| && |t.calls| <= |t'.calls|
    requires forall conn :: 0 <= conn < |t.dialled| ==>
               t'.dialled[conn].group == t.dialled[conn].group && (t.dialled[conn].closed ==> t'.dialled[conn].closed)
    requires forall conn: nat :: conn in t.connsToClose && conn !in t'.connsToClose && conn < |t.dialled| ==>
               t'.dialled[conn].closed
    requires forall g :: g in t'.conns ==> g in t.conns && t'.conns[g] == t.conns[g]
    requires forall g :: g in t.conns && g !in t'.conns ==> t.conns[g] in t'.connsToClose
    requires forall c: nat, conn: nat :: HeldBy(t, conn, c) ==> HeldBy(t', conn, c)
    requires forall c: nat :: c < |t'.calls| ==> CallConnOk(t, t'.calls[c])
    requires t'.swept ==> t'.closing && t'.conns == map[]
    ensures ConnsOk(t')
  {
    forall conn: nat | conn < |t'.dialled|
      ensures Accounted(t', conn)
    {
      assert Accounted(t, conn);
      if !InTable(t, conn) && (exists c: nat :: HeldBy(t, conn, c)) {
        var c: nat :| HeldBy(t, conn, c);
        assert HeldBy(t', conn, c);
      }
    }
    forall c: nat | c < |t'.calls|
      ensures CallConnOk(t', t'.calls[c])
    {
      assert CallConnOk(t, t'.calls[c]);
    }
  }

  lemma OpenKeepsConns(t: Tunnel, c: nat, addr: string)
    requires ConnsOk(t) && c < |t.calls| && t.calls[c].worker.HasManager?
    ensures ConnsOk(Worked(t, c, Open(addr)))
  {
    var t' := Worked(t, c, Open(addr));
    forall conn: nat | conn < |t'.dialled|
      ensures Accounted(t', conn)
    {
      if conn == |t.dialled| {
        assert HeldBy(t', conn, c);
      } else {
        assert Accounted(t, conn);
        if !t.dialled[conn].closed && conn !in t.connsToClose && !InTable(t, conn) {
          var d: nat :| HeldBy(t, conn, d);
          assert HeldBy(t', conn, d);
        }
      }
    }
    forall d: nat | d < |t'.calls|
      ensures CallConnOk(t', t'.calls[d])
    {
      assert CallConnOk(t, t.calls[d]);
    }
  }

  // The worker hands its connection to the table, or to itself to close.
  lemma FinishKeepsConns(t: Tunnel, c: nat)
    requires AttemptsOk(t) && ConnsOk(t) && c < |t.calls|
    requires t.calls[c].worker.Opened? || t.calls[c].worker.GivingUp?
    ensures ConnsOk(Finished(t, c))
  {
    var t' := Finished(t, c);
    assert IsPending(t, c);
    assert CallConnOk(t, t.calls[c]);
    forall conn: nat | conn < |t'.dialled|
      ensures Accounted(t', conn)
    {
      assert Accounted(t, conn);
      if !t.dialled[conn].closed && conn !in t.connsToClose && !InTable(t, conn) {
        var d: nat :| HeldBy(t, conn, d);
        if d != c { assert HeldBy(t', conn, d); }
      }
    }
    forall d: nat | d < |t'.calls|
      ensures CallConnOk(t', t'.calls[d])
    {
      assert CallConnOk(t, t.calls[d]);
    }
  }

  lemma WorkKeepsConns(t: Tunnel, c: nat, action: Action)
    requires AttemptsOk(t) && ConnsOk(t) && c < |t.calls| && CanWork(t, t.calls[c].worker, action)
    ensures ConnsOk(Worked(t, c, action))
  {
    if action.Finish? {
      FinishKeepsConns(t, c);
    } else if action.Open? {
      OpenKeepsConns(t, c, action.addr);
    } else {
      hide AttemptsOk, Accounted;
      CallsOfConns(t);
      var t' := Worked(t, c, action);
      forall d: nat | d < |t'.calls|
        ensures CallConnOk(t, t'.calls[d])
      {
        assert CallConnOk(t, t.calls[d]);
      }
      hide ConnsOk, CallConnOk;
      ConnsKept(t, t');
    }
  }

  lemma CallsOfConns(t: Tunnel)
    requires ConnsOk(t)
    ensures forall c: nat :: c < |t.calls| ==> CallConnOk(t, t.calls[c])
    ensures t.swept ==> t.closing && t.conns == map[]
  {
  }

  lemma StaleAreHeld(t: Tunnel, best: map<string, string>, major: string)
    ensures forall g :: g in t.conns && g !in StaleEvicted(t, best, major).conns ==>
              t.conns[g] in StaleEvicted(t, best, major).connsToClose
  {
    forall g | g in t.conns && g !in StaleEvicted(t, best, major).conns
      ensures t.conns[g] in StaleEvicted(t, best, major).connsToClose
    {
      assert g in Stale(t, best, major);
    }
  }

  lemma StepKeepsConns(s: State, step: Step)
    requires AttemptsOk(s.tunnel) && ConnsOk(s.tunnel) && Enabled(s, step)
    ensures ConnsOk(DoTunnel(s.tunnel, step))
  {
    var t := s.tunnel;
    hide AttemptsOk, ConnsOk, Worked;
    CallsOfConns(t);
    if step.Work? {
      WorkKeepsConns(t, step.c, step.action);
    } else {
      if step.EvictStale? { StaleAreHeld(t, step.best, step.major); }
      ConnsKept(t, DoTunnel(t, step));
    }
  }

  lemma StepKeepsCallers(s: State, step: Step)
    requires Inv(s) && Enabled(s, step)
    ensures CallersOk(Do(s, step))
  {
    var s' := Do(s, step);
    forall id | id in s'.callers
      ensures CallerOk(s'.tunnel, s'.callers[id])
    {
      CallerFollows(s, step, id);
    }
  }

  // Calls and connections are never forgotten and keep their group; results and closes are final.
  ghost predicate Stay(t: Tunnel, t': Tunnel) {
    && |t.calls| <= |t'.calls| && |t.dialled| <= |t'.dialled|
    && (forall c :: 0 <= c < |t.calls| ==>
          t'.calls[c].group == t.calls[c].group && (t.calls[c].worker.Stopped? ==> t'.calls[c] == t.calls[c]))
    && (forall c :: 0 <= c < |t.dialled| ==>
          t'.dialled[c].group == t.dialled[c].group && (t.dialled[c].closed ==> t'.dialled[c].closed))
  }

  lemma WorkerLeavesObjects(t: Tunnel, c: nat, action: Action)
    requires c < |t.calls| && CanWork(t, t.calls[c].worker, action)
    ensures Stay(t, Worked(t, c, action))
  {
  }

  lemma ObjectsStay(s: State, step: Step)
    requires Enabled(s, step)
    ensures Stay(s.tunnel, DoTunnel(s.tunnel, step))
  {
    var t := s.tunnel;
    if step.Work? {
      hide Worked, Stay;
      WorkerLeavesObjects(t, step.c, step.action);
    } else {
      hide Worked;
    }
  }

  lemma CallerFollows(s: State, step: Step, id: nat)
    requires Inv(s) && Enabled(s, step) && id in Do(s, step).callers
    ensures CallerOk(DoTunnel(s.tunnel, step), Do(s, step).callers[id])
  {
    var t := s.tunnel;
    ObjectsStay(s, step);
    hide ManagersOk;
    if id in s.callers { assert CallerOk(t, s.callers[id]); }
    if step.Receive? && id == step.id {
      assert CallConnOk(t, t.calls[s.callers[id].call]);
    }
  }

  lemma EveryStepKeepsInv(s: State, step: Step)
    requires Inv(s) && Enabled(s, step)
    ensures Inv(Do(s, step))
  {
    hide AttemptsOk, ConnsOk, ManagersOk, CallersOk, DoTunnel, DoCallers;
    StepKeepsAttempts(s, step);
    StepKeepsConns(s, step);
    StepKeepsManagers(s, step);
    StepKeepsCallers(s, step);
  }

  ghost predicate IsRun(states: seq<State>, steps: seq<Step>) {
    && |states| == |steps| + 1 && states[0] == INITIAL
    && (forall k :: 0 <= k < |steps| ==> Enabled(states[k], steps[k]) && states[k + 1] == Do(states[k], steps[k]))
  }

  lemma {:induction false} EveryRunKeepsInv(states: seq<State>, steps: seq<Step>)
    requires IsRun(states, steps)
    ensures forall k :: 0 <= k < |states| ==> Inv(states[k])
  {
    if steps == [] {
      assert AttemptsOk(EMPTY) && ConnsOk(EMPTY) && ManagersOk(EMPTY);
    } else {
      hide Inv;
      var n := |steps| - 1;
      EveryRunKeepsInv(states[..n + 1], steps[..n]);
      assert Inv(states[..n + 1][n]);
      EveryStepKeepsInv(states[n], steps[n]);
      forall k | 0 <= k < |states|
        ensures Inv(states[k])
      {
        if k <= n { assert states[..n + 1][k] == states[k]; }
      }
    }
  }

  // ---- What it means ----

  // In no reachable state does a group have both a connection and an attempt, or an attempt without
  // its worker; finishConnect always finds its own call pending.
  lemma OneAttemptPerGroup(states: seq<State>, steps: seq<Step>, k: nat)
    requires IsRun(states, steps) && k < |states|
    ensures states[k].tunnel.conns.Keys !! states[k].tunnel.connecting.Keys
    ensures forall c: nat :: c < |states[k].tunnel.calls| ==>
              (IsPending(states[k].tunnel, c) <==> !states[k].tunnel.calls[c].worker.Stopped?)
    ensures forall c: nat, d: nat ::
              (IsPending(states[k].tunnel, c) && IsPending(states[k].tunnel, d)
               && states[k].tunnel.calls[c].group == states[k].tunnel.calls[d].group) ==> c == d
    ensures forall c: nat :: c < |states[k].tunnel.calls| ==>
              states[k].tunnel.calls[c].closes == if IsPending(states[k].tunnel, c) then 0 else 1
  {
    EveryRunKeepsInv(states, steps);
    var t := states[k].tunnel;
    assert AttemptsOk(t) by { assert Inv(states[k]); }
    forall c: nat | c < |t.calls|
      ensures IsPending(t, c) <==> !t.calls[c].worker.Stopped?
    {
    }
  }

  // A group has one conntrack manager for the life of the tunnel, and all its connections use it.
  lemma OneManagerPerGroup(states: seq<State>, steps: seq<Step>, k: nat, c: nat, d: nat)
    requires IsRun(states, steps) && k < |states|
    requires c < |states[k].tunnel.dialled| && d < |states[k].tunnel.dialled|
    requires states[k].tunnel.dialled[c].group == states[k].tunnel.dialled[d].group
    ensures states[k].tunnel.dialled[c].manager == states[k].tunnel.dialled[d].manager
    ensures states[k].tunnel.dialled[c].manager < |states[k].tunnel.created|
    ensures states[k].tunnel.created[states[k].tunnel.dialled[c].manager].group == states[k].tunnel.dialled[c].group
  {
    EveryRunKeepsInv(states, steps);
    var t := states[k].tunnel;
    assert ManagersOk(t) by { assert Inv(states[k]); }
    assert Uses(t, t.dialled[c].group, t.dialled[c].manager) && Uses(t, t.dialled[d].group, t.dialled[d].manager);
  }

  // At any moment of any run, every connection ever dialled is closed, about to be closed, in the table
  // under its group, or with a worker of its group.
  lemma EveryConnectionAccounted(states: seq<State>, steps: seq<Step>, k: nat, conn: nat)
    requires IsRun(states, steps) && k < |states| && conn < |states[k].tunnel.dialled|
    ensures Accounted(states[k].tunnel, conn)
    ensures var t := states[k].tunnel;
            !t.dialled[conn].closed && conn !in t.connsToClose && !InTable(t, conn) ==>
              exists c: nat :: HeldBy(t, conn, c) && t.calls[c].group == t.dialled[conn].group
  {
    EveryRunKeepsInv(states, steps);
    var t := states[k].tunnel;
    assert Inv(states[k]) && Accounted(t, conn);
    if c: nat :| HeldBy(t, conn, c) {
      assert CallConnOk(t, t.calls[c]);
    }
  }

  // Once Close has swept the tables, every worker has reported and everything taken out of a table has
  // been closed, nothing that was ever opened is left open.
  lemma NothingLeftOpen(states: seq<State>, steps: seq<Step>, k: nat)
    requires IsRun(states, steps) && k < |states| && states[k].tunnel.swept
    requires forall c :: 0 <= c < |states[k].tunnel.calls| ==> states[k].tunnel.calls[c].worker.Stopped?
    requires states[k].tunnel.connsToClose == {} && states[k].tunnel.managersToClose == {}
    ensures forall c :: 0 <= c < |states[k].tunnel.dialled| ==> states[k].tunnel.dialled[c].closed
    ensures forall m :: 0 <= m < |states[k].tunnel.created| ==> states[k].tunnel.created[m].closed
    ensures states[k].tunnel.conns == map[] && states[k].tunnel.connecting == map[]
  {
    EveryRunKeepsInv(states, steps);
    var t := states[k].tunnel;
    assert Inv(states[k]);
    forall c: nat | c < |t.dialled|
      ensures t.dialled[c].closed
    {
      assert Accounted(t, c);
    }
    forall g | g in t.connecting
      ensures false
    {
      assert IsPending(t, t.connecting[g]);
    }
  }

  // At any moment of any run, those who waited for one attempt hold the same connection, that of the
  // attempt, and it belongs to the group they asked for.
  lemma SharersAgree(states: seq<State>, steps: seq<Step>, k: nat, id: nat, other: nat)
    requires IsRun(states, steps) && k < |states| && id in states[k].callers && other in states[k].callers
    requires states[k].callers[id].Received? && states[k].callers[other].Received?
    requires states[k].callers[id].attempt.Some? && states[k].callers[id].attempt == states[k].callers[other].attempt
    ensures states[k].callers[id] == states[k].callers[other]
    ensures states[k].callers[id].conn < |states[k].tunnel.dialled|
    ensures states[k].tunnel.dialled[states[k].callers[id].conn].group == states[k].callers[id].group
  {
    EveryRunKeepsInv(states, steps);
    assert Inv(states[k]);
    assert CallerOk(states[k].tunnel, states[k].callers[id]) && CallerOk(states[k].tunnel, states[k].callers[other]);
  }

  // ---- What an attempt brings ----

  // The report of a worker: its connection is in the table, and recorded as the result, exactly when the
  // worker brings one and the tunnel is not closing.
  lemma ReportMeans(s: State, c: nat)
    requires Inv(s) && Enabled(s, Work(c, Finish))
    ensures var t, t' := s.tunnel, Do(s, Work(c, Finish)).tunnel;
            var group, worker := t.calls[c].group, t.calls[c].worker;
            && c < |t'.calls| && t'.calls[c].worker.Stopped? && group !in t'.connecting
            && (if worker.Opened? && !t.closing
                then t'.conns == t.conns[group := worker.conn] && t'.connsToClose == t.connsToClose
                     && t'.calls[c].conn == Some(worker.conn) && !t'.calls[c].failed
                else t'.conns == t.conns && t'.calls[c].failed
                     && t'.connsToClose == t.connsToClose + if worker.Opened? then {worker.conn} else {})
  {
    assert IsPending(s.tunnel, c);
  }

  lemma {:induction false} ResultsStay(states: seq<State>, steps: seq<Step>, j: nat, k: nat, c: nat)
    requires IsRun(states, steps) && j <= k < |states| && c < |states[j].tunnel.calls|
    requires states[j].tunnel.calls[c].worker.Stopped?
    ensures c < |states[k].tunnel.calls| && states[k].tunnel.calls[c] == states[j].tunnel.calls[c]
    decreases k
  {
    hide DoTunnel, DoCallers, Enabled;
    if j < k {
      ResultsStay(states, steps, j, k - 1, c);
      ObjectsStay(states[k - 1], steps[k - 1]);
    }
  }

  // Everyone still waiting when the worker of an attempt has reported can receive at once, at any later
  // moment of the run: the connection the worker brought when the tunnel was not closing at the report, an
  // error exactly when it brought none or the tunnel was closing.
  lemma WaitersShareTheResult(states: seq<State>, steps: seq<Step>, k: nat, c: nat, n: nat, id: nat)
    requires IsRun(states, steps) && k < |steps| && k < n < |states| && steps[k] == Work(c, Finish)
    requires id in states[n].callers && states[n].callers[id].Waiting? && states[n].callers[id].call == c
    ensures c < |states[k].tunnel.calls| && Enabled(states[n], Receive(id))
    ensures var t := states[k].tunnel;
            id in Do(states[n], Receive(id)).callers &&
            Do(states[n], Receive(id)).callers[id] ==
            if t.calls[c].worker.Opened? && !t.closing
            then Received(t.calls[c].group, t.calls[c].worker.conn, Some(c)) else Failed
  {
    EveryRunKeepsInv(states, steps);
    assert Inv(states[k]) && Inv(states[n]) && Inv(states[k + 1]);
    assert Enabled(states[k], steps[k]) && states[k + 1] == Do(states[k], steps[k]);
    ReportMeans(states[k], c);
    ResultsStay(states, steps, k + 1, n, c);
    assert CallerOk(states[n].tunnel, states[n].callers[id]);
    hide AttemptsOk, ConnsOk, ManagersOk, DoTunnel;
  }

  // A caller that finds a connection gets it, one that finds an attempt waits for it, and only one that finds
  // neither starts an attempt.
  lemma CallersJoin(s: State, id: nat, group: string)
    requires Inv(s) && Enabled(s, GetConn(id, group))
    ensures var s' := Do(s, GetConn(id, group));
            var t := s.tunnel;
            && id in s'.callers
            && (group in t.conns ==> s'.callers[id] == Received(group, t.conns[group], None) && s'.tunnel == t)
            && (group in t.connecting ==> s'.callers[id] == Waiting(group, t.connecting[group]) && s'.tunnel == t)
            && (group !in t.conns && group !in t.connecting ==>
                  && s'.callers[id] == Waiting(group, |t.calls|) && |s'.tunnel.calls| == |t.calls| + 1
                  && s'.tunnel.calls[|t.calls|].worker == Dialing && IsPending(s'.tunnel, |t.calls|))
  {
  }

  // After a reconnect there is a connection or an attempt.
  lemma ReconnectStarts(s: State, group: string)
    ensures var t := Do(s, Reconnect(group)).tunnel;
            && (group in t.conns || group in t.connecting) && t.conns == s.tunnel.conns
            && (group in s.tunnel.conns || group in s.tunnel.connecting ==> t == s.tunnel)
  {
  }

  // An eviction takes this connection out of the table, to be closed, and leaves any other where it is.
  lemma EvictionIsExact(s: State, group: string, conn: nat)
    ensures var t, t' := s.tunnel, Do(s, Evict(group, conn)).tunnel;
            if group in t.conns && t.conns[group] == conn
            then t'.conns == t.conns - {group} && t'.connsToClose == t.connsToClose + {conn} else t' == t
  {
  }

  // When the best nodes change, a group keeps its connection exactly when it is to the group's own best node
  // or, if that has none, to the major group's, or when neither is known; it loses it to be closed.
  lemma StaleExactly(s: State, best: map<string, string>, major: string, group: string)
    requires Inv(s) && group in s.tunnel.conns
    ensures s.tunnel.conns[group] < |s.tunnel.dialled|
    ensures var t, t' := s.tunnel, Do(s, EvictStale(best, major)).tunnel;
            var addr := t.dialled[t.conns[group]].addr;
            var own := if group in best then best[group] else "";
            var fallback := if major in best then best[major] else "";
            && (group in t'.conns <==>
                  if own != "" then addr == own else fallback == "" || addr == fallback)
            && (group in t'.conns ==> t'.conns[group] == t.conns[group])
            && (group !in t'.conns ==> t.conns[group] in t'.connsToClose)
  {
    var t := s.tunnel;
    assert t.conns[group] in ConnsOf(t, Stale(t, best, major)) <== group in Stale(t, best, major);
  }

  // ---- Nobody is stuck ----

  function StepsToConnect(worker: Worker): nat {
    match worker
    case Opened(_) => 1
    case HasManager(_) => 2
    case Dialing => 3
    case Sleeping => 4
    case _ => 0
  }

  // While the tunnel is not closing, a worker can bring its connection into the table within four steps of
  // its own, whatever address it connects to.
  lemma {:induction false} WorkerCanConnect(s: State, c: nat, addr: string) returns (steps: seq<Step>)
    requires Inv(s) && !s.tunnel.closing && c < |s.tunnel.calls| && StepsToConnect(s.tunnel.calls[c].worker) > 0
    ensures CanRun(s, steps) && |steps| == StepsToConnect(s.tunnel.calls[c].worker) <= 4
    ensures forall k :: 0 <= k < |steps| ==> steps[k].Work? && steps[k].c == c
    ensures s.tunnel.calls[c].group in After(s, steps).tunnel.conns
    ensures c < |After(s, steps).tunnel.calls| && !After(s, steps).tunnel.calls[c].failed
    decreases StepsToConnect(s.tunnel.calls[c].worker)
  {
    hide Do, Enabled, Inv;
    var worker := s.tunnel.calls[c].worker;
    if worker.Opened? {
      var step := Work(c, Finish);
      Reporting(s, c);
      steps := [step];
      assert steps[0] == step && steps[1..] == [];
    } else {
      var step := Work(c, if worker.Sleeping? then Wake else if worker.Dialing? then TakeManager else Open(addr));
      OneStepOn(s, c, addr);
      EveryStepKeepsInv(s, step);
      var rest := WorkerCanConnect(Do(s, step), c, addr);
      steps := [step] + rest;
      assert steps[0] == step && steps[1..] == rest;
    }
  }

  lemma Reporting(s: State, c: nat)
    requires Inv(s) && !s.tunnel.closing && c < |s.tunnel.calls| && s.tunnel.calls[c].worker.Opened?
    ensures var s' := Do(s, Work(c, Finish));
            && Enabled(s, Work(c, Finish)) && s.tunnel.calls[c].group in s'.tunnel.conns
            && c < |s'.tunnel.calls| && !s'.tunnel.calls[c].failed
  {
    ReportMeans(s, c);
  }

  lemma OneStepOn(s: State, c: nat, addr: string)
    requires !s.tunnel.closing && c < |s.tunnel.calls|
    requires s.tunnel.calls[c].worker.Sleeping? || s.tunnel.calls[c].worker.Dialing? || s.tunnel.calls[c].worker.HasManager?
    ensures var worker := s.tunnel.calls[c].worker;
            var step := Work(c, if worker.Sleeping? then Wake else if worker.Dialing? then TakeManager else Open(addr));
            var t := Do(s, step).tunnel;
            && Enabled(s, step) && !t.closing && c < |t.calls| && t.calls[c].group == s.tunnel.calls[c].group
            && StepsToConnect(t.calls[c].worker) == StepsToConnect(worker) - 1
  {
  }

  function After(s: State, steps: seq<Step>): State
    decreases |steps|
  {
    if steps == [] then s else After(Do(s, steps[0]), steps[1..])
  }

  ghost predicate CanRun(s: State, steps: seq<Step>)
    decreases |steps|
  {
    steps != [] ==> Enabled(s, steps[0]) && CanRun(Do(s, steps[0]), steps[1..])
  }

  function StepsLeft(worker: Worker): nat {
    match worker
    case Stopped => 0
    case Opened(_) => 1
    case GivingUp => 1
    case Sleeping => 2
    case _ => 3
  }

  // Once the tunnel is closing every worker can stop within three steps of its own, wherever it is.
  lemma {:induction false} WorkersCanStop(s: State, c: nat) returns (steps: seq<Step>)
    requires s.tunnel.closing && c < |s.tunnel.calls|
    ensures CanRun(s, steps) && |steps| == StepsLeft(s.tunnel.calls[c].worker) <= 3
    ensures forall k :: 0 <= k < |steps| ==> steps[k].Work? && steps[k].c == c
    ensures c < |After(s, steps).tunnel.calls| && After(s, steps).tunnel.calls[c].worker.Stopped?
    decreases StepsLeft(s.tunnel.calls[c].worker)
  {
    hide Do, Enabled;
    if s.tunnel.calls[c].worker.Stopped? {
      steps := [];
    } else {
      var step := Work(c, WayOut(s.tunnel.calls[c].worker));
      OneStepOut(s, c);
      var rest := WorkersCanStop(Do(s, step), c);
      steps := [step] + rest;
      assert steps[0] == step && steps[1..] == rest;
    }
  }

  function WayOut(worker: Worker): Action {
    if worker.Sleeping? then Quit else if worker.Opened? || worker.GivingUp? then Finish else DialFails
  }

  lemma OneStepOut(s: State, c: nat)
    requires s.tunnel.closing && c < |s.tunnel.calls| && !s.tunnel.calls[c].worker.Stopped?
    ensures var step := Work(c, WayOut(s.tunnel.calls[c].worker));
            && Enabled(s, step) && Do(s, step).tunnel.closing && c < |Do(s, step).tunnel.calls|
            && StepsLeft(Do(s, step).tunnel.calls[c].worker) == StepsLeft(s.tunnel.calls[c].worker) - 1
  {
  }

  // ---- The tunnel object ----

  // Stale groups among those already looked at.
  function StaleSeen(t: Tunnel, best: map<string, string>, major: string, rest: set<string>): set<string> {
    Stale(t, best, major) - rest
  }

  lemma LookAt(t: Tunnel, best: map<string, string>, major: string, rest: set<string>, g: string)
    requires g in t.conns && g in rest && t.conns[g] < |t.dialled|
    ensures StaleSeen(t, best, major, rest - {g}) ==
            if IsStale(t, best, major, g) then StaleSeen(t, best, major, rest) + {g} else StaleSeen(t, best, major, rest)
    ensures ConnsOf(t, StaleSeen(t, best, major, rest) + {g}) ==
            ConnsOf(t, StaleSeen(t, best, major, rest)) + {t.conns[g]}
  {
  }

  lemma LookedAtAll(t: Tunnel, best: map<string, string>, major: string)
    ensures StaleSeen(t, best, major, {}) == Stale(t, best, major)
    ensures StaleSeen(t, best, major, t.conns.Keys) == {}
    ensures ConnsOf(t, {}) == {} && Elements<nat>([]) == {}
  {
  }

  function ClosedAt(dialled: seq<Conn>, conn: nat): seq<Conn> {
    if conn < |dialled| then dialled[conn := dialled[conn].(closed := true)] else dialled
  }

  lemma ShutOne(t: Tunnel, conn: nat)
    ensures Shut(t, {conn}).dialled == ClosedAt(t.dialled, conn)
    ensures Shut(t, {}).dialled == t.dialled
    ensures forall conns :: Shut(t, conns) == t.(dialled := Shut(t, conns).dialled, connsToClose := t.connsToClose - conns)
  {
  }

  lemma ShutOneMore(t: Tunnel, conns: seq<nat>, k: nat)
    requires k < |conns|
    ensures Shut(t, Elements(conns[..k + 1])).dialled == ClosedAt(Shut(t, Elements(conns[..k])).dialled, conns[k])
  {
    assert conns[..k + 1] == conns[..k] + [conns[k]];
    assert Elements(conns[..k + 1]) == Elements(conns[..k]) + {conns[k]};
  }

  lemma OneElementMore(s: seq<nat>, c: nat)
    ensures Elements(s + [c]) == Elements(s) + {c}
  {
  }

  lemma OneGroupMore(t: Tunnel, groups: set<string>, g: string)
    requires g in t.conns
    ensures ConnsOf(t, groups + {g}) == ConnsOf(t, groups) + {t.conns[g]}
  {
  }

  lemma AllConns(t: Tunnel)
    ensures ConnsOf(t, t.conns.Keys) == t.conns.Values
    ensures ConnsOf(t, {}) == {} && Elements<nat>([]) == {} && t.conns.Keys - t.conns.Keys == {}
  {
  }

  lemma FinishedHands(t: Tunnel, c: nat)
    requires c < |t.calls| && t.connsToClose == {}
    ensures var worker := t.calls[c].worker;
            Finished(t, c).connsToClose ==
            if worker.Opened? && (t.closing || !IsPending(t, c)) then {worker.conn} else {}
  {
  }

  // Each method runs one of the tunnel's methods from start to end; between its sections other threads
  // may run, which is what the steps above are for.
  class L3Tunnel {
    var conns: map<string, nat>
    var connecting: map<string, nat>
    var conntrackMgrs: map<string, nat>
    var closing: bool
    var calls: seq<Call>
    var dialled: seq<Conn>
    var created: seq<Manager>
    ghost var swept: bool

    ghost function View(): Tunnel
      reads this
    {
      Tunnel(conns, connecting, conntrackMgrs, closing, swept, calls, dialled, created, {}, {})
    }

    constructor ()
      ensures View() == EMPTY
    {
      conns, connecting, conntrackMgrs, closing, swept := map[], map[], map[], false, false;
      calls, dialled, created := [], [], [];
    }

    method GetConn(group: string) returns (joined: Joined)
      modifies this
      ensures (View(), joined) == Got(old(View()), group)
    {
      if group in conns {
        return Live(conns[group]);
      }
      if group in connecting {
        return Pending(connecting[group]);
      }
      joined := Pending(|calls|);
      connecting := connecting[group := |calls|];
      calls := calls + [Call(group, Dialing, None, false, 0)];
    }

    method StartReconnect(group: string)
      modifies this
      ensures View() == if old(closing) then old(View()) else Reconnecting(old(View()), group)
    {
      if closing || group in conns || group in connecting {
        return;
      }
      connecting := connecting[group := |calls|];
      calls := calls + [Call(group, Sleeping, None, false, 0)];
    }

    method GetConntrackMgr(group: string) returns (manager: Option<nat>)
      modifies this
      ensures (View(), manager) == ManagerOf(old(View()), group)
    {
      if closing {
        return None;
      }
      if group in conntrackMgrs {
        return Some(conntrackMgrs[group]);
      }
      manager := Some(|created|);
      conntrackMgrs := conntrackMgrs[group := |created|];
      created := created + [Manager(group, false)];
    }

    method CloseConn(conn: nat)
      modifies this`dialled
      ensures dialled == ClosedAt(old(dialled), conn)
    {
      if conn < |dialled| {
        dialled := dialled[conn := dialled[conn].(closed := true)];
      }
    }

    method EvictConn(group: string, conn: nat)
      modifies this
      ensures View() == if group in old(conns) && old(conns)[group] == conn
                        then Shut(Evicted(old(View()), group, conn), {conn}) else old(View())
    {
      var removed := false;
      if group in conns && conns[group] == conn {
        conns := conns - {group};
        removed := true;
      }
      if removed {
        ShutOne(Evicted(old(View()), group, conn), conn);
        CloseConn(conn);
      }
    }

    method CloseAll(toClose: seq<nat>)
      modifies this`dialled
      ensures dialled == Shut(old(View()), Elements(toClose)).dialled
    {
      ghost var before := View();
      assert dialled == Shut(before, Elements([])).dialled;
      for k := 0 to |toClose|
        invariant dialled == Shut(before, Elements(toClose[..k])).dialled
      {
        ShutOneMore(before, toClose, k);
        CloseConn(toClose[k]);
      }
      assert toClose[..|toClose|] == toClose;
    }

    // The section of EvictStaleConns.
    method TakeStale(bestNodes: map<string, string>, majorNodeGroup: string) returns (stale: seq<nat>)
      requires forall g :: g in conns ==> conns[g] < |dialled|
      modifies this`conns
      ensures conns == old(conns) - Stale(old(View()), bestNodes, majorNodeGroup)
      ensures Elements(stale) == ConnsOf(old(View()), Stale(old(View()), bestNodes, majorNodeGroup))
    {
      hide Elements, ConnsOf, StaleSeen, Stale, BestNode;
      ghost var before := View();
      var rest := conns.Keys;
      stale := [];
      LookedAtAll(before, bestNodes, majorNodeGroup);
      while rest != {}
        invariant rest <= before.conns.Keys
        invariant conns == before.conns - StaleSeen(before, bestNodes, majorNodeGroup, rest)
        invariant StaleSeen(before, bestNodes, majorNodeGroup, rest) !! rest
        invariant Elements(stale) == ConnsOf(before, StaleSeen(before, bestNodes, majorNodeGroup, rest))
        decreases |rest|
      {
        var group :| group in rest;
        LookAt(before, bestNodes, majorNodeGroup, rest, group);
        var addr := BestNode(bestNodes, majorNodeGroup, group);
        var conn := conns[group];
        rest := rest - {group};
        if addr != "" && dialled[conn].addr != addr {
          conns := conns - {group};
          OneElementMore(stale, conn);
          stale := stale + [conn];
        }
      }
    }

    method EvictStaleConns(bestNodes: map<string, string>, majorNodeGroup: string)
      requires forall g :: g in conns ==> conns[g] < |dialled|
      modifies this
      ensures View() == Shut(StaleEvicted(old(View()), bestNodes, majorNodeGroup),
                             ConnsOf(old(View()), Stale(old(View()), bestNodes, majorNodeGroup)))
    {
      hide Elements, ConnsOf, Stale;
      var stale := TakeStale(bestNodes, majorNodeGroup);
      CloseAll(stale);
    }

    // A worker reports; the connection it brings is its own until here.
    method FinishConnect(c: nat, conn: Option<nat>)
      requires c < |calls|
      requires conn == if calls[c].worker.Opened? then Some(calls[c].worker.conn) else None
      modifies this
      ensures View() == Shut(Finished(old(View()), c), Finished(old(View()), c).connsToClose)
    {
      hide Shut;
      ghost var after := Finished(View(), c);
      ShutOne(after, if conn.Some? then conn.value else 0);
      FinishedHands(View(), c);
      var call := calls[c];
      if !(call.group in connecting && connecting[call.group] == c) {
        calls := calls[c := call.(worker := Stopped)];
        if conn.Some? {
          CloseConn(conn.value);
        }
        return;
      }
      connecting := connecting - {call.group};
      var failed := conn.None?;
      if !failed {
        if closing {
          failed := true;
        } else {
          conns := conns[call.group := conn.value];
        }
      }
      calls := calls[c := Call(call.group, Stopped, conn, failed, call.closes + 1)];
      if failed && conn.Some? {
        CloseConn(conn.value);
      }
    }

    method CloseManagers(toClose: set<nat>)
      modifies this`created
      ensures created == ShutManagers(old(View()), toClose).created
    {
      ghost var before := View();
      var rest := toClose;
      while rest != {}
        invariant rest <= toClose
        invariant created == ShutManagers(before, toClose - rest).created
        decreases |rest|
      {
        var m :| m in rest;
        rest := rest - {m};
        if m < |created| {
          created := created[m := created[m].(closed := true)];
        }
        assert created == ShutManagers(before, toClose - rest).created;
      }
      assert toClose - rest == toClose;
    }

    // Closing the tunnel closes every connection and manager it holds.
    method Close()
      modifies this
      ensures var t := Swept(old(View()).(closing := true));
              View() == ShutManagers(Shut(t, t.connsToClose), t.managersToClose)
    {
      hide ConnsOf, Elements;
      closing := true;
      var toClose := Held();
      var managers := conntrackMgrs.Values;
      conns, conntrackMgrs, swept := map[], map[], true;
      CloseAll(toClose);
      CloseManagers(managers);
    }

    method Held() returns (held: seq<nat>)
      ensures Elements(held) == conns.Values
    {
      hide Elements, ConnsOf;
      held := [];
      var rest := conns.Keys;
      AllConns(View());
      while rest != {}
        invariant rest <= conns.Keys
        invariant Elements(held) == ConnsOf(View(), conns.Keys - rest)
        decreases |rest|
      {
        var group :| group in rest;
        OneElementMore(held, conns[group]);
        OneGroupMore(View(), conns.Keys - rest, group);
        assert conns.Keys - (rest - {group}) == conns.Keys - rest + {group};
        held := held + [conns[group]];
        rest := rest - {group};
      }
      assert conns.Keys - rest == conns.Keys;
    }
  }
}
