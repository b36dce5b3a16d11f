// One DNS lookup shared by every caller that asks for the same host, with the
// callers, the lookups and Close interleaving freely.
module SharedResolution {
  import opened Prelude

  type Answer = Result<seq<byte>, string>

  // How far the goroutine of one lookup has come.
  datatype Phase = Running | Returned | Unlinked | Cancelled | Counted | Finished

  // The shared object of one lookup. Its context is `cancelled`, its done channel closed `closes` times.
  datatype Call = Call(host: string, waiters: int, cancelled: bool, answer: Option<Answer>, phase: Phase, closes: nat)

  // What the resolver's mutex protects, and the call objects ever created. Calls are named by position.
  datatype Shared = Shared(resolutions: map<string, nat>, calls: seq<Call>, closed: bool, active: int)

  // Wherever the map points, it points to the call for that host.
  ghost predicate Points(s: Shared) {
    forall h :: h in s.resolutions ==> s.resolutions[h] < |s.calls| && s.calls[s.resolutions[h]].host == h
  }

  predicate Linked(s: Shared, c: nat) {
    c < |s.calls| && s.calls[c].host in s.resolutions && s.resolutions[s.calls[c].host] == c
  }

  function NewCall(host: string): Call {
    Call(host, 1, false, None, Running, 0)
  }

  function SetCall(s: Shared, c: nat, call: Call): Shared
    requires c < |s.calls|
  {
    s.(calls := s.calls[c := call])
  }

  // ---- The sections under the mutex ----

  // Join the call for a host, or start one; None once the resolver is closed.
  function Entered(s: Shared, host: string): (Shared, Option<nat>) {
    if s.closed then (s, None)
    else if host in s.resolutions && s.resolutions[host] < |s.calls| then
      var c := s.resolutions[host];
      (SetCall(s, c, s.calls[c].(waiters := s.calls[c].waiters + 1)), Some(c))
    else
      (s.(resolutions := s.resolutions[host := |s.calls|], calls := s.calls + [NewCall(host)], active := s.active + 1),
       Some(|s.calls|))
  }

  function Unlink(s: Shared, c: nat): Shared {
    if Linked(s, c) then s.(resolutions := s.resolutions - {s.calls[c].host}) else s
  }

  // One waiter leaves; the last one takes the call with it.
  function Released(s: Shared, c: nat): Shared {
    if !Linked(s, c) then s else
    var call := s.calls[c].(waiters := s.calls[c].waiters - 1);
    if call.waiters == 0 then SetCall(Unlink(s, c), c, call.(cancelled := true)) else SetCall(s, c, call)
  }

  // The calls once every linked one is cancelled, except those `left`.
  function Dropped(s: Shared, left: map<string, nat>): seq<Call> {
    seq(|s.calls|, c requires 0 <= c < |s.calls| =>
      if Linked(s, c) && s.calls[c].host !in left then s.calls[c].(cancelled := true) else s.calls[c])
  }

  function Closed(s: Shared): Shared {
    s.(closed := true, resolutions := map[], calls := Dropped(s, map[]))
  }

  lemma DropOne(s: Shared, left: map<string, nat>, host: string)
    requires Points(s) && host in left && host in s.resolutions
    ensures Dropped(s, left - {host}) ==
            Dropped(s, left)[s.resolutions[host] := s.calls[s.resolutions[host]].(cancelled := true)]
  {
  }

  lemma DropNone(s: Shared)
    ensures Dropped(s, s.resolutions) == s.calls
  {
  }

  // The resolver object. Each method is one section of the program under the mutex.
  class Resolver {
    var resolutions: map<string, nat>
    var calls: seq<Call>
    var resolutionClosed: bool
    var activeResolutions: int

    ghost function View(): Shared
      reads this
    {
      Shared(resolutions, calls, resolutionClosed, activeResolutions)
    }

    constructor ()
      ensures View() == Shared(map[], [], false, 0)
    {
      resolutions, calls, resolutionClosed, activeResolutions := map[], [], false, 0;
    }

    method Enter(host: string) returns (joined: Option<nat>)
      requires Points(View())
      modifies this
      ensures (View(), joined) == Entered(old(View()), host)
    {
      if resolutionClosed {
        return None;
      }
      var c;
      if host in resolutions {
        c := resolutions[host];
      } else {
        c := |calls|;
        calls := calls + [NewCall(host).(waiters := 0)];
        resolutions := resolutions[host := c];
        activeResolutions := activeResolutions + 1;
      }
      calls := calls[c := calls[c].(waiters := calls[c].waiters + 1)];
      joined := Some(c);
      assert c == |old(calls)| ==> calls == old(calls) + [NewCall(host)];
    }

    method Forget(host: string, c: nat)
      requires c < |calls| && calls[c].host == host
      modifies this`resolutions
      ensures View() == Unlink(old(View()), c)
    {
      if host in resolutions && resolutions[host] == c {
        resolutions := resolutions - {host};
      }
    }

    method ReleaseWaiter(host: string, c: nat)
      requires c < |calls| && calls[c].host == host
      modifies this
      ensures View() == Released(old(View()), c)
    {
      if host in resolutions && resolutions[host] == c {
        calls := calls[c := calls[c].(waiters := calls[c].waiters - 1)];
        if calls[c].waiters == 0 {
          resolutions := resolutions - {host};
          calls := calls[c := calls[c].(cancelled := true)];
        }
      }
    }

    method Close()
      requires Points(View())
      modifies this
      ensures View() == Closed(old(View()))
    {
      hide Dropped, Points;
      ghost var before := View();
      DropNone(before);
      resolutionClosed := true;
      while resolutions != map[]
        invariant resolutionClosed && activeResolutions == before.active
        invariant forall h :: h in resolutions ==> h in before.resolutions && before.resolutions[h] == resolutions[h]
        invariant calls == Dropped(before, resolutions)
        decreases |resolutions|
      {
        var host :| host in resolutions;
        var c := resolutions[host];
        Target(before, host);
        DropOne(before, resolutions, host);
        resolutions := resolutions - {host};
        calls := calls[c := calls[c].(cancelled := true)];
      }
    }
  }

  lemma Target(s: Shared, host: string)
    requires Points(s) && host in s.resolutions
    ensures s.resolutions[host] < |s.calls|
    ensures forall left :: |Dropped(s, left)| == |s.calls|
    ensures forall left :: Dropped(s, left)[s.resolutions[host]].(cancelled := true) ==
                           s.calls[s.resolutions[host]].(cancelled := true)
  {
  }

  // ---- The protocol ----

  // One call of resolveCoordinated, from its first section to its return.
  datatype Caller =
    | Waiting(host: string, call: nat)
    | Leaving(host: string, call: nat)                   // its context ended first
    | Answered(host: string, call: nat, answer: Answer)
    | GaveUp
    | Refused                                            // the resolver was closed

  datatype State = State(shared: Shared, callers: map<nat, Caller>)

  datatype Step =
    | Enter(id: nat, host: string)
    | ContextDone(id: nat)
    | Release(id: nat)
    | Receive(id: nat)
    | LookupReturns(c: nat, answer: Answer)
    | Advance(c: nat)
    | Close

  const INITIAL := State(Shared(map[], [], false, 0), map[])

  predicate Enabled(s: State, step: Step) {
    match step
    case Enter(id, host) => id !in s.callers
    case ContextDone(id) => id in s.callers && s.callers[id].Waiting?
    case Release(id) => id in s.callers && s.callers[id].Leaving?
    case Receive(id) =>
      && id in s.callers && s.callers[id].Waiting? && s.callers[id].call < |s.shared.calls|
      && s.shared.calls[s.callers[id].call].closes > 0
    case LookupReturns(c, answer) => c < |s.shared.calls| && s.shared.calls[c].phase.Running?
    case Advance(c) =>
      c < |s.shared.calls| && !s.shared.calls[c].phase.Running? && !s.shared.calls[c].phase.Finished?
    case Close => true
  }

  // The tail of runResolution: forget the call, cancel its context, count it out, close its channel.
  function Advanced(s: Shared, c: nat): Shared
    requires c < |s.calls|
  {
    var call := s.calls[c];
    match call.phase
    case Returned => SetCall(Unlink(s, c), c, call.(phase := Unlinked))
    case Unlinked => SetCall(s, c, call.(phase := Cancelled, cancelled := true))
    case Cancelled => SetCall(s, c, call.(phase := Counted)).(active := s.active - 1)
    case Counted => SetCall(s, c, call.(phase := Finished, closes := call.closes + 1))
    case _ => s
  }

  function Do(s: State, step: Step): State
    requires Enabled(s, step)
  {
    match step
    case Enter(id, host) =>
      var (shared, joined) := Entered(s.shared, host);
      State(shared, s.callers[id := if joined.Some? then Waiting(host, joined.value) else Refused])
    case ContextDone(id) => s.(callers := s.callers[id := Leaving(s.callers[id].host, s.callers[id].call)])
    case Release(id) => State(Released(s.shared, s.callers[id].call), s.callers[id := GaveUp])
    case Receive(id) =>
      var caller := s.callers[id];
      var answer := s.shared.calls[caller.call].answer;
      s.(callers := s.callers[id := if answer.Some? then Answered(caller.host, caller.call, answer.value) else GaveUp])
    case LookupReturns(c, answer) =>
      s.(shared := SetCall(s.shared, c, s.shared.calls[c].(phase := Returned, answer := Some(answer))))
    case Advance(c) => s.(shared := Advanced(s.shared, c))
    case Close => s.(shared := Closed(s.shared))
  }

  // ---- The invariant ----

  predicate AttachedTo(caller: Caller, c: nat) {
    (caller.Waiting? || caller.Leaving?) && caller.call == c
  }

  // The callers still waiting on a call.
  function Attached(callers: map<nat, Caller>, c: nat): set<nat> {
    set id | id in callers && AttachedTo(callers[id], c)
  }

  predicate Active(call: Call) {
    !call.phase.Counted? && !call.phase.Finished?
  }

  function ActiveCalls(calls: seq<Call>): set<nat> {
    set c | 0 <= c < |calls| && Active(calls[c])
  }

  predicate Unfinished(call: Call) {
    call.phase.Running? || call.phase.Returned?
  }

  // What one call looks like on its own.
  predicate CallOk(call: Call) {
    && call.closes == (if call.phase.Finished? then 1 else 0)
    && (call.phase.Running? <==> call.answer.None?)
    && (call.phase.Cancelled? || call.phase.Counted? || call.phase.Finished? ==> call.cancelled)
  }

  ghost predicate JoinableOk(s: State, c: nat)
    requires c < |s.shared.calls|
  {
    var call := s.shared.calls[c];
    && CallOk(call)
    && (Linked(s.shared, c) <==> Unfinished(call) && !call.cancelled)
    && (Linked(s.shared, c) ==> call.waiters == |Attached(s.callers, c)| && call.waiters >= 1)
    && (call.cancelled && (Unfinished(call) || call.phase.Unlinked?) ==>
          s.shared.closed || Attached(s.callers, c) == {})
  }

  predicate CallerOk(calls: seq<Call>, caller: Caller) {
    && (caller.Waiting? || caller.Leaving? || caller.Answered? ==>
          caller.call < |calls| && calls[caller.call].host == caller.host)
    && (caller.Answered? ==>
          calls[caller.call].closes == 1 && calls[caller.call].answer == Some(caller.answer))
  }

  ghost predicate Inv(s: State) {
    && Points(s.shared)
    && (forall c :: 0 <= c < |s.shared.calls| ==> JoinableOk(s, c))
    && (forall id :: id in s.callers ==> CallerOk(s.shared.calls, s.callers[id]))
    && (s.shared.closed ==> s.shared.resolutions == map[])
    && s.shared.active == |ActiveCalls(s.shared.calls)|
  }

  // ---- Every step keeps it ----

  lemma InActiveCalls(calls: seq<Call>, c: nat)
    ensures c in ActiveCalls(calls) <==> c < |calls| && Active(calls[c])
  {
  }

  lemma OneCallChanges(calls: seq<Call>, c: nat, call: Call)
    requires c < |calls|
    ensures |ActiveCalls(calls[c := call])| ==
            |ActiveCalls(calls)| + (if Active(call) then 1 else 0) - (if Active(calls[c]) then 1 else 0)
  {
    InActiveCalls(calls, c);
    assert ActiveCalls(calls[c := call]) ==
           if Active(call) then ActiveCalls(calls) + {c} else ActiveCalls(calls) - {c};
  }

  lemma OneCallMore(calls: seq<Call>, call: Call)
    requires Active(call)
    ensures |ActiveCalls(calls + [call])| == |ActiveCalls(calls)| + 1
  {
    InActiveCalls(calls, |calls|);
    assert ActiveCalls(calls + [call]) == ActiveCalls(calls) + {|calls|};
  }

  // A caller that moves changes the waiters of at most the call it leaves and the call it joins.
  lemma OneCallerMoves(callers: map<nat, Caller>, id: nat, caller: Caller, c: nat)
    ensures id in Attached(callers, c) <==> id in callers && AttachedTo(callers[id], c)
    ensures Attached(callers[id := caller], c) ==
            if AttachedTo(caller, c) then Attached(callers, c) + {id} else Attached(callers, c) - {id}
  {
  }

  lemma OneWaiterLess(callers: map<nat, Caller>, id: nat, c: nat)
    requires id in callers && AttachedTo(callers[id], c)
    ensures |Attached(callers[id := GaveUp], c)| == |Attached(callers, c)| - 1
    ensures |Attached(callers, c)| == 1 ==> Attached(callers[id := GaveUp], c) == {} && Attached(callers, c) == {id}
  {
    OneCallerMoves(callers, id, GaveUp, c);
    assert |Attached(callers, c) - {id}| == |Attached(callers, c)| - 1;
  }

  lemma NobodyAttached(s: State, c: nat)
    requires Inv(s) && c >= |s.shared.calls|
    ensures Attached(s.callers, c) == {}
  {
    forall id | id in s.callers
      ensures !AttachedTo(s.callers[id], c)
    {
      assert CallerOk(s.shared.calls, s.callers[id]);
    }
  }

  // Entering links no other call, and unlinks none.
  lemma EnterLinks(s: Shared, host: string, c: nat)
    requires Points(s) && c <= |s.calls|
    ensures var (s', joined) := Entered(s, host);
            && (Linked(s', c) <==> Linked(s, c) || (joined == Some(c) && c == |s.calls|))
            && (joined == Some(c) && c < |s.calls| ==> Linked(s, c))
    ensures var (s', joined) := Entered(s, host);
            |s'.calls| == (if joined == Some(|s.calls|) then |s.calls| + 1 else |s.calls|)
    ensures var (s', joined) := Entered(s, host);
            c < |s.calls| ==>
              s'.calls[c] == s.calls[c].(waiters := s.calls[c].waiters + if joined == Some(c) then 1 else 0)
    ensures var (s', joined) := Entered(s, host);
            s'.closed == s.closed && (joined == Some(|s.calls|) ==> s'.calls[|s.calls|] == NewCall(host))
  {
  }

  lemma EnterJoinable(s: State, id: nat, host: string, c: nat)
    requires Inv(s) && id !in s.callers && c < |Do(s, Enter(id, host)).shared.calls|
    ensures JoinableOk(Do(s, Enter(id, host)), c)
  {
    hide Points, Linked, Attached, ActiveCalls, Entered;
    OneCallerMoves(s.callers, id, Do(s, Enter(id, host)).callers[id], c);
    EnterLinks(s.shared, host, |s.shared.calls|);
    EnterLinks(s.shared, host, c);
    if c < |s.shared.calls| {
      assert JoinableOk(s, c);
    } else {
      NobodyAttached(s, c);
    }
    hide Inv;
  }

  lemma EnterCounts(s: State, host: string)
    requires Inv(s)
    ensures Entered(s.shared, host).0.active == |ActiveCalls(Entered(s.shared, host).0.calls)|
  {
    hide ActiveCalls;
    if !s.shared.closed {
      if host in s.shared.resolutions {
        var c := s.shared.resolutions[host];
        OneCallChanges(s.shared.calls, c, Entered(s.shared, host).0.calls[c]);
      } else {
        OneCallMore(s.shared.calls, NewCall(host));
      }
    }
  }

  lemma EnterKeepsInv(s: State, id: nat, host: string)
    requires Inv(s) && id !in s.callers
    ensures Inv(Do(s, Enter(id, host)))
  {
    hide JoinableOk, ActiveCalls;
    var s' := Do(s, Enter(id, host));
    forall c: nat | c < |s'.shared.calls| ensures JoinableOk(s', c) {
      EnterJoinable(s, id, host, c);
    }
    EnterCounts(s, host);
    forall x | x in s'.callers ensures CallerOk(s'.shared.calls, s'.callers[x]) {
      if x in s.callers { assert CallerOk(s.shared.calls, s.callers[x]); }
    }
  }

  // A section on behalf of one call moves no other call into or out of the map.
  lemma OneCallUnlinks(s: Shared, s': Shared, c: nat, d: nat)
    requires Points(s) && c < |s.calls| && |s'.calls| == |s.calls|
    requires s'.calls[c].host == s.calls[c].host && s'.calls == s.calls[c := s'.calls[c]]
    ensures s'.resolutions == s.resolutions ==> (Linked(s', d) <==> Linked(s, d))
    ensures s'.resolutions == Unlink(s, c).resolutions ==> (Linked(s', d) <==> Linked(s, d) && d != c)
    ensures Unlink(s, c) == s.(resolutions := Unlink(s, c).resolutions)
  {
  }

  lemma ReleaseJoinable(s: State, id: nat, c: nat)
    requires Inv(s) && Enabled(s, Release(id)) && c < |s.shared.calls|
    ensures |Do(s, Release(id)).shared.calls| == |s.shared.calls| && JoinableOk(Do(s, Release(id)), c)
  {
    hide Attached, ActiveCalls, Linked, Unlink;
    var left := s.callers[id].call;
    assert CallerOk(s.shared.calls, s.callers[id]);
    assert JoinableOk(s, c);
    OneCallUnlinks(s.shared, s.shared, left, c);
    OneCallUnlinks(s.shared, Released(s.shared, left), left, c);
    hide Inv, Points;
    if c == left {
      OneWaiterLess(s.callers, id, c);
      assert Attached(s.callers[id := GaveUp], c) <= Attached(s.callers, c) by { OneCallerMoves(s.callers, id, GaveUp, c); }
    } else {
      OneCallerMoves(s.callers, id, GaveUp, c);
      assert Attached(s.callers[id := GaveUp], c) == Attached(s.callers, c);
    }
  }

  lemma ReleaseKeepsInv(s: State, id: nat)
    requires Inv(s) && Enabled(s, Release(id))
    ensures Inv(Do(s, Release(id)))
  {
    hide JoinableOk, ActiveCalls;
    var s' := Do(s, Release(id));
    var c := s.callers[id].call;
    assert CallerOk(s.shared.calls, s.callers[id]);
    forall d: nat | d < |s'.shared.calls| ensures JoinableOk(s', d) {
      ReleaseJoinable(s, id, d);
    }
    if Linked(s.shared, c) {
      OneCallChanges(s.shared.calls, c, s'.shared.calls[c]);
    }
    forall x | x in s'.callers ensures CallerOk(s'.shared.calls, s'.callers[x]) {
      assert CallerOk(s.shared.calls, s.callers[x]);
    }
  }

  lemma CallerKeepsInv(s: State, step: Step)
    requires Inv(s) && Enabled(s, step) && (step.ContextDone? || step.Receive?)
    ensures Inv(Do(s, step))
  {
    hide Attached, ActiveCalls;
    var s' := Do(s, step);
    assert CallerOk(s.shared.calls, s.callers[step.id]);
    forall d: nat | d < |s'.shared.calls| ensures JoinableOk(s', d) {
      OneCallerMoves(s.callers, step.id, s'.callers[step.id], d);
      assert JoinableOk(s, d);
    }
    forall x | x in s'.callers ensures CallerOk(s'.shared.calls, s'.callers[x]) {
      assert CallerOk(s.shared.calls, s.callers[x]) && JoinableOk(s, s.callers[step.id].call);
    }
  }

  lemma WorkerJoinable(s: State, step: Step, c: nat)
    requires Inv(s) && Enabled(s, step) && (step.LookupReturns? || step.Advance?)
    requires c < |s.shared.calls|
    ensures |Do(s, step).shared.calls| == |s.shared.calls| && JoinableOk(Do(s, step), c)
  {
    hide Attached, ActiveCalls, Linked, Unlink;
    assert JoinableOk(s, c) && JoinableOk(s, step.c);
    OneCallUnlinks(s.shared, s.shared, step.c, c);
    OneCallUnlinks(s.shared, Do(s, step).shared, step.c, c);
  }

  lemma WorkerKeepsInv(s: State, step: Step)
    requires Inv(s) && Enabled(s, step) && (step.LookupReturns? || step.Advance?)
    ensures Inv(Do(s, step))
  {
    hide ActiveCalls, Attached;
    assert JoinableOk(s, step.c);
    hide JoinableOk;
    var s' := Do(s, step);
    forall c: nat | c < |s'.shared.calls| ensures JoinableOk(s', c) {
      WorkerJoinable(s, step, c);
    }
    OneCallChanges(s.shared.calls, step.c, s'.shared.calls[step.c]);
    forall x | x in s'.callers ensures CallerOk(s'.shared.calls, s'.callers[x]) {
      assert CallerOk(s.shared.calls, s.callers[x]);
    }
  }

  lemma CloseKeepsInv(s: State)
    requires Inv(s)
    ensures Inv(Do(s, Close))
  {
    hide Attached;
    var s' := Do(s, Close);
    assert ActiveCalls(s'.shared.calls) == ActiveCalls(s.shared.calls);
    forall c: nat | c < |s'.shared.calls| ensures JoinableOk(s', c) {
      assert JoinableOk(s, c);
    }
    forall x | x in s'.callers ensures CallerOk(s'.shared.calls, s'.callers[x]) {
      assert CallerOk(s.shared.calls, s.callers[x]);
    }
  }

  lemma EveryStepKeepsInv(s: State, step: Step)
    requires Inv(s) && Enabled(s, step)
    ensures Inv(Do(s, step))
  {
    hide Inv;
    match step
    case Enter(id, host) => EnterKeepsInv(s, id, host);
    case Release(id) => ReleaseKeepsInv(s, id);
    case Close => CloseKeepsInv(s);
    case _ => if step.ContextDone? || step.Receive? { CallerKeepsInv(s, step); } else { WorkerKeepsInv(s, step); }
  }

  ghost predicate IsRun(states: seq<State>, steps: seq<Step>) {
    && |states| == |steps| + 1 && states[0] == INITIAL
    && (forall k :: 0 <= k < |steps| ==> Enabled(states[k], steps[k]) && states[k + 1] == Do(states[k], steps[k]))
  }

  lemma {:induction false} EveryRunKeepsInv(states: seq<State>, steps: seq<Step>)
    requires IsRun(states, steps)
    ensures forall k :: 0 <= k < |states| ==> Inv(states[k])
  {
    if steps == [] {
      assert ActiveCalls([]) == {};
    } else {
      var n := |steps| - 1;
      EveryRunKeepsInv(states[..n + 1], steps[..n]);
      assert Inv(states[..n + 1][n]);
      EveryStepKeepsInv(states[n], steps[n]);
      forall k | 0 <= k < |states|
        ensures Inv(states[k])
      {
        if k <= n { assert states[..n + 1][k] == states[k]; }
      }
    }
  }

  // ---- What it means for the callers ----

  // At any moment of any run a host has at most one lookup that is neither cancelled nor over; it is
  // the one new callers join, and its waiters are exactly the callers still waiting on it.
  lemma OneLiveLookup(states: seq<State>, steps: seq<Step>, k: nat, c: nat)
    requires IsRun(states, steps) && k < |states| && c < |states[k].shared.calls|
    requires Unfinished(states[k].shared.calls[c]) && !states[k].shared.calls[c].cancelled
    ensures !states[k].shared.closed
    ensures Linked(states[k].shared, c)
    ensures states[k].shared.calls[c].waiters == |Attached(states[k].callers, c)| >= 1
    ensures forall d :: 0 <= d < |states[k].shared.calls| && d != c
                        && states[k].shared.calls[d].host == states[k].shared.calls[c].host ==>
              states[k].shared.calls[d].cancelled || !Unfinished(states[k].shared.calls[d])
  {
    EveryRunKeepsInv(states, steps);
    var s := states[k];
    assert JoinableOk(s, c);
    forall d: nat | d < |s.shared.calls| && d != c && s.shared.calls[d].host == s.shared.calls[c].host
      ensures s.shared.calls[d].cancelled || !Unfinished(s.shared.calls[d])
    {
      assert JoinableOk(s, d);
    }
  }

  // A lookup that is still going is cancelled only by Close, or by the last caller that waited on it.
  lemma CancelledOnlyWhenAbandoned(states: seq<State>, steps: seq<Step>, k: nat, c: nat)
    requires IsRun(states, steps) && k < |steps| && c < |states[k].shared.calls| <= |states[k + 1].shared.calls|
    requires !states[k].shared.calls[c].cancelled && states[k + 1].shared.calls[c].cancelled
    requires Unfinished(states[k].shared.calls[c])
    ensures steps[k].Close? || (steps[k].Release? && Attached(states[k].callers, c) == {steps[k].id})
  {
    EveryRunKeepsInv(states, steps);
    if steps[k].Release? {
      LastWaiterCancels(states[k], steps[k].id, c);
    }
  }

  lemma LastWaiterCancels(s: State, id: nat, c: nat)
    requires Inv(s) && Enabled(s, Release(id)) && c < |s.shared.calls|
    requires !s.shared.calls[c].cancelled && Released(s.shared, s.callers[id].call).calls[c].cancelled
    ensures Attached(s.callers, c) == {id}
  {
    hide Attached;
    assert JoinableOk(s, c);
    OneWaiterLess(s.callers, id, c);
  }

  // Every caller that is answered got the one answer of a lookup for its own host; those that shared
  // a lookup got the same one. The channel that told them so was closed exactly once.
  lemma SharersAgree(states: seq<State>, steps: seq<Step>, k: nat, id: nat, other: nat)
    requires IsRun(states, steps) && k < |states| && id in states[k].callers && other in states[k].callers
    requires states[k].callers[id].Answered? && states[k].callers[other].Answered?
    requires states[k].callers[id].call == states[k].callers[other].call
    ensures states[k].callers[id] == states[k].callers[other]
    ensures states[k].callers[id].call < |states[k].shared.calls|
    ensures var call := states[k].shared.calls[states[k].callers[id].call];
            && call.host == states[k].callers[id].host && call.answer == Some(states[k].callers[id].answer)
            && call.closes == 1
  {
    EveryRunKeepsInv(states, steps);
    assert CallerOk(states[k].shared.calls, states[k].callers[id]);
    assert CallerOk(states[k].shared.calls, states[k].callers[other]);
  }

  // A caller is refused exactly when the resolver is closed. It joins the lookup of its host when one is in the
  // map, and waits with the others; it starts one only when there is none.
  lemma CallersJoin(s: State, id: nat, host: string)
    requires Inv(s) && Enabled(s, Enter(id, host))
    ensures var s' := Do(s, Enter(id, host));
            && id in s'.callers
            && (if s.shared.closed then s'.callers[id] == Refused && s'.shared == s.shared
                else if host in s.shared.resolutions then
                  && s'.callers[id] == Waiting(host, s.shared.resolutions[host])
                  && |s'.shared.calls| == |s.shared.calls| && s'.shared.active == s.shared.active
                else
                  && s'.callers[id] == Waiting(host, |s.shared.calls|) && |s'.shared.calls| == |s.shared.calls| + 1
                  && s'.shared.calls[|s.shared.calls|].phase.Running? && Linked(s'.shared, |s.shared.calls|)
                  && s'.shared.active == s.shared.active + 1)
  {
  }

  // Once a lookup has returned its answer is final.
  lemma AnswerStays(s: State, step: Step, c: nat)
    requires Enabled(s, step) && c < |s.shared.calls| && s.shared.calls[c].answer.Some? && !s.shared.calls[c].phase.Running?
    ensures c < |Do(s, step).shared.calls| && Do(s, step).shared.calls[c].answer == s.shared.calls[c].answer
    ensures !Do(s, step).shared.calls[c].phase.Running?
  {
  }

  lemma {:induction false} AnswersStay(states: seq<State>, steps: seq<Step>, j: nat, k: nat, c: nat)
    requires IsRun(states, steps) && j <= k < |states| && c < |states[j].shared.calls|
    requires states[j].shared.calls[c].answer.Some? && !states[j].shared.calls[c].phase.Running?
    ensures c < |states[k].shared.calls| && states[k].shared.calls[c].answer == states[j].shared.calls[c].answer
    ensures !states[k].shared.calls[c].phase.Running?
    decreases k
  {
    hide Do, Enabled;
    if j < k {
      AnswersStay(states, steps, j, k - 1, c);
      AnswerStays(states[k - 1], steps[k - 1], c);
    }
  }

  // Whoever still waits on a lookup that has returned, and receives, gets the answer it returned.
  lemma WaitersGetTheAnswer(states: seq<State>, steps: seq<Step>, k: nat, n: nat, id: nat)
    requires IsRun(states, steps) && k < n < |states| && steps[k].LookupReturns?
    requires id in states[n].callers && states[n].callers[id].Waiting? && states[n].callers[id].call == steps[k].c
    requires Enabled(states[n], Receive(id))
    ensures var host := states[n].callers[id].host;
            && id in Do(states[n], Receive(id)).callers
            && Do(states[n], Receive(id)).callers[id] == Answered(host, steps[k].c, steps[k].answer)
            && steps[k].c < |states[k].shared.calls| && states[k].shared.calls[steps[k].c].host == host
  {
    var c := steps[k].c;
    EveryRunKeepsInv(states, steps);
    assert Enabled(states[k], steps[k]) && states[k + 1] == Do(states[k], steps[k]);
    AnswersStay(states, steps, k + 1, n, c);
    HostsStay(states, steps, k, n, c);
    assert Inv(states[n]);
    assert CallerOk(states[n].shared.calls, states[n].callers[id]);
    hide Inv;
  }

  lemma {:induction false} HostsStay(states: seq<State>, steps: seq<Step>, j: nat, k: nat, c: nat)
    requires IsRun(states, steps) && j <= k < |states| && c < |states[j].shared.calls|
    ensures c < |states[k].shared.calls| && states[k].shared.calls[c].host == states[j].shared.calls[c].host
    decreases k
  {
    hide Do, Enabled;
    if j < k {
      HostsStay(states, steps, j, k - 1, c);
      HostStays(states[k - 1], steps[k - 1], c);
    }
  }

  lemma HostStays(s: State, step: Step, c: nat)
    requires Enabled(s, step) && c < |s.shared.calls|
    ensures c < |Do(s, step).shared.calls| && Do(s, step).shared.calls[c].host == s.shared.calls[c].host
  {
  }

  // Nobody receives anything but an answer.
  lemma ReceivingAnswers(states: seq<State>, steps: seq<Step>, k: nat, id: nat)
    requires IsRun(states, steps) && k < |states| && Enabled(states[k], Receive(id))
    ensures id in Do(states[k], Receive(id)).callers && Do(states[k], Receive(id)).callers[id].Answered?
  {
    EveryRunKeepsInv(states, steps);
    assert Inv(states[k]) && JoinableOk(states[k], states[k].callers[id].call);
    hide Inv;
  }

  // After Close nothing can be joined, now or later, and once every lookup has ended the counter is zero.
  lemma ClosedForGood(states: seq<State>, steps: seq<Step>, j: nat, k: nat)
    requires IsRun(states, steps) && j <= k < |states| && states[j].shared.closed
    ensures states[k].shared.closed && states[k].shared.resolutions == map[]
    ensures states[k].shared.active == |ActiveCalls(states[k].shared.calls)|
    ensures (forall c :: 0 <= c < |states[k].shared.calls| ==> states[k].shared.calls[c].phase.Finished?) ==>
              states[k].shared.active == 0
    decreases k
  {
    EveryRunKeepsInv(states, steps);
    if j < k {
      ClosedForGood(states, steps, j, k - 1);
      assert states[k] == Do(states[k - 1], steps[k - 1]);
    }
    if forall c :: 0 <= c < |states[k].shared.calls| ==> states[k].shared.calls[c].phase.Finished? {
      assert ActiveCalls(states[k].shared.calls) == {};
    }
  }

  // ---- Nobody is stuck ----

  function After(s: State, steps: seq<Step>): State
    requires CanRun(s, steps)
    decreases |steps|
  {
    if steps == [] then s else After(Do(s, steps[0]), steps[1..])
  }

  predicate CanRun(s: State, steps: seq<Step>)
    decreases |steps|
  {
    steps != [] ==> Enabled(s, steps[0]) && CanRun(Do(s, steps[0]), steps[1..])
  }

  function StepsLeft(phase: Phase): nat {
    match phase
    case Running => 5
    case Returned => 4
    case Unlinked => 3
    case Cancelled => 2
    case Counted => 1
    case Finished => 0
  }

  // A lookup that returns releases everyone who still waits on it: five steps of its own goroutine,
  // always possible, close the channel, and no one needs to have cancelled it.
  lemma {:induction false} WaitersAreReleased(s: State, c: nat, answer: Answer) returns (steps: seq<Step>)
    requires Inv(s) && c < |s.shared.calls|
    ensures |steps| == StepsLeft(s.shared.calls[c].phase)
    ensures forall k :: 0 <= k < |steps| ==> steps[k] in {LookupReturns(c, answer), Advance(c)}
    ensures CanRun(s, steps)
    ensures forall id :: id in s.callers && s.callers[id].Waiting? && s.callers[id].call == c ==>
              Enabled(After(s, steps), Receive(id))
    decreases StepsLeft(s.shared.calls[c].phase)
  {
    if s.shared.calls[c].phase.Finished? {
      assert JoinableOk(s, c);
      steps := [];
    } else {
      var step := if s.shared.calls[c].phase.Running? then LookupReturns(c, answer) else Advance(c);
      EveryStepKeepsInv(s, step);
      StepAdvances(s, step, c);
      var rest := WaitersAreReleased(Do(s, step), c, answer);
      steps := [step] + rest;
      assert steps[0] == step && steps[1..] == rest;
    }
  }

  lemma StepAdvances(s: State, step: Step, c: nat)
    requires Enabled(s, step) && (step == Advance(c) || (step.LookupReturns? && step.c == c))
    ensures c < |Do(s, step).shared.calls| && Do(s, step).callers == s.callers
    ensures StepsLeft(Do(s, step).shared.calls[c].phase) == StepsLeft(s.shared.calls[c].phase) - 1
  {
  }
}
