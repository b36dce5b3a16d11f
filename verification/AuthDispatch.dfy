// The connection's side of authentication: sending requests in batches,
// acting on responses, and the two methods that write packets, each run from
// start to end.
module AuthDispatch {
  import opened Prelude
  import opened FlowTable
  import opened AuthQueue
  import opened ConntrackMgr
  import FlowRuns
  import FlowDeadlines

  const BATCH_SIZE: nat := 64
  const IMMEDIATE_RETRY_STATUS := 0x84
  const RETRY_STATUS_MIN := 0x85
  const RETRY_STATUS_MAX := 0x87
  const RETRY_WAIT: Time := 10 * SECOND
  const MAX_TOKEN := 255

  // ---- Batches of requests ----

  // The flows named have been started, and their requests sent with these deadlines.
  function Requested(t: Table, refs: seq<nat>, deadline: nat -> Time): Table {
    t.(flows := seq(|t.flows|, i requires 0 <= i < |t.flows| =>
      if i in refs then t.flows[i].(authStarted := true, authDeadline := Some(deadline(i))) else t.flows[i]))
  }

  function IDs(refs: seq<nat>): seq<nat> {
    seq(|refs|, i requires 0 <= i < |refs| => refs[i] + 1)
  }

  function Unstarted(t: Table): set<nat> {
    set r | 0 <= r < |t.flows| && !t.flows[r].authStarted
  }

  lemma RequestedTwice(t: Table, a: seq<nat>, b: seq<nat>, deadline: nat -> Time)
    ensures Requested(Requested(t, a, deadline), b, deadline) == Requested(t, a + b, deadline)
    ensures Requested(StartAll(t, b), b, deadline) == Requested(t, b, deadline)
    ensures Requested(t, [], deadline) == t
  {
    assert Requested(Requested(t, a, deadline), b, deadline).flows == Requested(t, a + b, deadline).flows;
    assert Requested(StartAll(t, b), b, deadline).flows == Requested(t, b, deadline).flows;
    assert Requested(t, [], deadline).flows == t.flows;
  }

  lemma IDsAppend(a: seq<nat>, b: seq<nat>)
    ensures IDs(a + b) == IDs(a) + IDs(b)
  {
  }

  // Marking the next request of a batch as sent.
  lemma MarkNext(t: Table, chosen: seq<nat>, n: nat, limit: nat, clock: nat -> Time, deadline: nat -> Time)
    requires Inv(t) && chosen == Chosen(t, limit, clock) && n < |chosen| && chosen[n] !in chosen[..n]
    ensures var mid := Requested(StartAll(t, chosen), chosen[..n], deadline);
            && chosen[n] < |t.flows| && t.flows[chosen[n]].authID == chosen[n] + 1
            && ByID(mid, chosen[n] + 1) == Some(chosen[n]) && !mid.flows[chosen[n]].latched
            && MarkAuthSent(mid, chosen[n] + 1, deadline(chosen[n])) ==
               Requested(StartAll(t, chosen), chosen[..n + 1], deadline)
  {
    hide Chosen;
    var r := chosen[n];
    FlowRuns.ChosenAreWaiting(t, limit, clock, r);
    assert IndexedByID(t, r);
    assert ByID(t, r + 1) == Some(r);
    hide Inv, Indexed, IndexedByID;
    var mid := Requested(StartAll(t, chosen), chosen[..n], deadline);
    assert chosen[..n + 1] == chosen[..n] + [r];
    assert MarkAuthSent(mid, r + 1, deadline(r)).flows == Requested(StartAll(t, chosen), chosen[..n + 1], deadline).flows;
  }

  lemma {:induction false} EligibleOnce(t: Table, clock: nat -> Time, n: nat)
    requires NoDuplicates(t.lru) && n <= |t.lru|
    ensures NoDuplicates(EligibleRefs(t, clock, n))
  {
    if n > 0 {
      EligibleOnce(t, clock, n - 1);
      FlowRuns.NotAmongEarlier(t, clock, n - 1);
    }
  }

  // A batch names flows that wait, each once; with more to come it is not empty.
  lemma BatchIsFresh(t: Table, limit: nat, clock: nat -> Time)
    requires Inv(t)
    ensures NoDuplicates(Chosen(t, limit, clock))
    ensures forall r :: r in Chosen(t, limit, clock) ==> r in Unstarted(t) && !t.flows[r].latched
    ensures MoreEligible(t, limit, clock) && limit > 0 ==> Chosen(t, limit, clock) != []
  {
    EligibleOnce(t, clock, |t.lru|);
    forall r | r in Chosen(t, limit, clock)
      ensures r in Unstarted(t) && !t.flows[r].latched
    {
      FlowRuns.ChosenAreWaiting(t, limit, clock, r);
    }
  }

  lemma FewerUnstarted(t: Table, refs: seq<nat>, deadline: nat -> Time)
    requires refs != [] && refs[0] in Unstarted(t)
    ensures |Unstarted(Requested(t, refs, deadline))| < |Unstarted(t)|
  {
    var after := Unstarted(Requested(t, refs, deadline));
    assert refs[0] in refs;
    assert after <= Unstarted(t) - {refs[0]};
    Subset(after, Unstarted(t) - {refs[0]});
  }

  lemma {:induction false} Subset(a: set<nat>, b: set<nat>)
    requires a <= b
    ensures |a| <= |b|
  {
    if a != {} {
      var x :| x in a;
      Subset(a - {x}, b - {x});
    }
  }

  // When nothing more is eligible, the batch leaves nothing eligible behind.
  lemma NoneLeft(t: Table, limit: nat, clock: nat -> Time, deadline: nat -> Time, i: nat)
    requires Inv(t) && !MoreEligible(t, limit, clock) && i < |t.lru|
    ensures t.lru[i] < |t.flows|
    ensures !Eligible(Requested(t, Chosen(t, limit, clock), deadline).flows[t.lru[i]], clock(i))
  {
    assert Indexed(t, t.lru[i]) && NoDuplicates(t.lru);
    hide Inv, NoDuplicates, Indexed, Eligible, Requested, Chosen;
    RequestedFlow(t, Chosen(t, limit, clock), deadline, t.lru[i], clock(i));
    EligiblePrefix(t, clock, i + 1, |t.lru|);
    FlowRuns.BatchIsFirstEligible(t, limit, clock, i);
    if Eligible(t.flows[t.lru[i]], clock(i)) {
      assert |EligibleRefs(t, clock, i)| < |EligibleRefs(t, clock, i + 1)|;
    }
  }

  lemma RequestedFlow(t: Table, refs: seq<nat>, deadline: nat -> Time, r: nat, now: Time)
    requires r < |t.flows|
    ensures Eligible(Requested(t, refs, deadline).flows[r], now) <==> Eligible(t.flows[r], now) && r !in refs
  {
  }

  lemma RequestedKeepsInv(t: Table, refs: seq<nat>, deadline: nat -> Time)
    requires Inv(t)
    ensures Inv(Requested(t, refs, deadline))
  {
    hide IndexesAgree, IDsInOrder, Sorted;
    var t' := Requested(t, refs, deadline);
    SameIndexesKeep(t, t');
    forall r: nat | r < |t'.flows|
      ensures FlowOk(t'.flows[r], Indexed(t', r))
    {
      assert FlowOk(t.flows[r], Indexed(t, r));
    }
    UpdateKeepsStructure(t, t');
  }

  // The table after a batch whose request number `sent` could not be sent.
  function FailedBatch(t: Table, chosen: seq<nat>, sent: nat, deadline: nat -> Time, failure: Error): Table
    requires sent < |chosen|
  {
    CompleteAuth(Requested(StartAll(t, chosen), chosen[..sent], deadline), chosen[sent] + 1, "", Some(failure))
  }

  // What the failure leaves: the flows before it are started and have their deadlines, its flow is lost
  // with the error, the flows after it are started and keep the deadline they had.
  lemma AfterFailure(t: Table, limit: nat, clock: nat -> Time, sent: nat, deadline: nat -> Time, failure: Error, r: nat)
    requires Inv(t) && sent < |Chosen(t, limit, clock)| && r < |t.flows|
    ensures var chosen := Chosen(t, limit, clock);
            var t' := FailedBatch(t, chosen, sent, deadline, failure);
            && |t'.flows| == |t.flows|
            && (r in chosen[..sent] ==>
                  t'.flows[r] == t.flows[r].(authStarted := true, authDeadline := Some(deadline(r))))
            && (r == chosen[sent] ==> t'.flows[r].latched && t'.flows[r].authErr == Some(failure) && !Indexed(t', r))
            && (r in chosen[sent + 1..] ==> t'.flows[r] == t.flows[r].(authStarted := true) && Indexed(t', r))
            && (r !in chosen ==> t'.flows[r] == t.flows[r])
  {
    hide Inv, Chosen, CompleteAuth, NoDuplicates, Requested, StartAll, ByID, Indexed;
    var chosen := Chosen(t, limit, clock);
    BatchIsFresh(t, limit, clock);
    SplitAt(chosen, sent, r);
    SplitAt(chosen, sent, chosen[sent]);
    MarkNext(t, chosen, sent, limit, clock, deadline);
    if r in chosen {
      FlowRuns.ChosenAreWaiting(t, limit, clock, r);
    }
    InMidBatch(t, chosen, sent, deadline, r);
    FailureOf(Requested(StartAll(t, chosen), chosen[..sent], deadline), chosen[sent] + 1, "", chosen[sent], failure, r);
  }

  lemma InMidBatch(t: Table, chosen: seq<nat>, sent: nat, deadline: nat -> Time, r: nat)
    requires sent < |chosen| && r < |t.flows|
    requires r in chosen[..sent] ==> r in chosen
    ensures var mid := Requested(StartAll(t, chosen), chosen[..sent], deadline);
            && |mid.flows| == |t.flows| && (Indexed(mid, r) <==> Indexed(t, r))
            && mid.flows[r] == if r in chosen[..sent] then t.flows[r].(authStarted := true, authDeadline := Some(deadline(r)))
                               else if r in chosen then t.flows[r].(authStarted := true) else t.flows[r]
  {
  }

  lemma SplitAt(s: seq<nat>, n: nat, r: nat)
    requires NoDuplicates(s) && n < |s|
    ensures r in s <==> r in s[..n] || r == s[n] || r in s[n + 1..]
    ensures r == s[n] || r in s[n + 1..] ==> r !in s[..n]
    ensures r in s[n + 1..] ==> r != s[n]
  {
    assert s == s[..n] + [s[n]] + s[n + 1..];
  }

  // A result that is an error costs its own flow, and no other.
  lemma FailureOf(t: Table, authID: nat, token: string, named: nat, failure: Error, r: nat)
    requires ByID(t, authID) == Some(named) && named < |t.flows| && !t.flows[named].latched && r < |t.flows|
    ensures var t' := CompleteAuth(t, authID, token, Some(failure));
            && |t'.flows| == |t.flows|
            && (r != named ==> t'.flows[r] == t.flows[r] && (Indexed(t', r) <==> Indexed(t, r)))
            && (r == named ==> t'.flows[r].latched && t'.flows[r].authErr == Some(failure)
                               && t'.flows[r].pending == [] && !Indexed(t', r))
  {
    hide Without;
  }

  // Where no flow had a deadline before its start, the rest of a failed batch is stranded.
  lemma RestIsStranded(before: Table, started: seq<nat>, limit: nat, clock: nat -> Time, sent: nat,
                       deadline: nat -> Time, failure: Error, r: nat)
    requires Inv(before) && FlowDeadlines.NoStrayDeadline(before)
    requires var t := Requested(before, started, deadline);
             sent < |Chosen(t, limit, clock)| && r in Chosen(t, limit, clock)[sent + 1..]
    ensures var t := Requested(before, started, deadline);
            FlowDeadlines.Stranded(FailedBatch(t, Chosen(t, limit, clock), sent, deadline, failure), r)
  {
    var t := Requested(before, started, deadline);
    RequestedKeepsInv(before, started, deadline);
    assert r in Chosen(t, limit, clock);
    FlowRuns.ChosenAreWaiting(t, limit, clock, r);
    assert !before.flows[r].authStarted && t.flows[r] == before.flows[r];
    AfterFailure(t, limit, clock, sent, deadline, failure, r);
    hide Inv, Chosen, FailedBatch;
  }

  // ---- Responses ----

  // A decoded authentication response; `byAddress` is the flow its addresses lead to.
  datatype Response = Response(code: int, sessionEnded: bool, hash: nat, byAddress: Option<nat>, message: string,
                               token: string)

  datatype Verdict =
    | Ignore
    | Finish(authID: nat, token: string, err: Option<Error>)
    | Retry(authID: nat, delay: Time)

  predicate EndsSession(resp: Response) {
    (resp.code == 10000004 || resp.code == 75500002) && resp.sessionEnded
  }

  // With no flow to complete, a response is charged to the flow its hash names, if it names one.
  function Blame(resp: Response, err: Error): Verdict {
    if resp.hash != 0 then Finish(resp.hash, "", Some(err)) else Ignore
  }

  function VerdictOn(t: Table, status: byte, resp: Response): Verdict {
    if EndsSession(resp) then
      Blame(resp, Failure("session"))
    else
    var found := if ByID(t, resp.hash).Some? then ByID(t, resp.hash) else resp.byAddress;
    if found.None? || found.value >= |t.flows| then Blame(resp, Failure("missing conntrack hash"))
    else
    VerdictFor(t.flows[found.value].authID, status, resp)
  }

  function VerdictFor(authID: nat, status: byte, resp: Response): Verdict {
    if status == 0 then Finish(authID, resp.token, None)
    else if status == IMMEDIATE_RETRY_STATUS then Retry(authID, 0)
    else if RETRY_STATUS_MIN <= status <= RETRY_STATUS_MAX then Retry(authID, RETRY_WAIT)
    else Finish(authID, "", Some(Failure(resp.message)))
  }

  function Judged(t: Table, verdict: Verdict, now: Time): Table {
    match verdict
    case Ignore => t
    case Finish(authID, token, err) => CompleteAuth(t, authID, token, err)
    case Retry(authID, delay) => RetryAuth(t, authID, delay, now)
  }

  // The flow a response is about: the one its hash names, else, in a session that goes on, the one its
  // addresses lead to.
  function About(t: Table, resp: Response): Option<nat> {
    var ended := (resp.code == 10000004 || resp.code == 75500002) && resp.sessionEnded;
    if ended && resp.hash == 0 then None
    else if ByID(t, resp.hash).Some? || ended then ByID(t, resp.hash)
    else resp.byAddress
  }

  ghost predicate Waits(t: Table, r: nat) {
    Indexed(t, r) && !t.flows[r].latched
  }

  // What a response does to a flow: nothing, unless the response is about it and it waits. Then the
  // statuses 0x84 to 0x87 schedule its next request and charge it nothing, status 0 gives it the token,
  // and any other status, or the end of the session, removes it with an error.
  ghost predicate SettledBy(t: Table, t': Table, status: byte, resp: Response, now: Time, r: nat)
    requires r < |t.flows| == |t'.flows|
  {
    var f, f' := t.flows[r], t'.flows[r];
    var ended := (resp.code == 10000004 || resp.code == 75500002) && resp.sessionEnded;
    if About(t, resp) != Some(r) || !Waits(t, r) then
      f' == f && (Indexed(t', r) <==> Indexed(t, r))
    else if !ended && 0x84 <= status <= 0x87 then
      && f' == f.(authStarted := false, authDeadline := None,
                  authRetryAt := Some(now + if status == 0x84 then 0 else RETRY_WAIT))
      && Indexed(t', r)
    else if !ended && status == 0 then
      f' == f.(latched := true, connectToken := resp.token, pending := []) && Indexed(t', r)
    else
      f'.latched && f'.authErr.Some? && f'.pending == [] && !Indexed(t', r)
  }

  lemma ResponsesSettle(t: Table, status: byte, resp: Response, now: Time, r: nat)
    requires Inv(t) && r < |t.flows|
    ensures |Judged(t, VerdictOn(t, status, resp), now).flows| == |t.flows|
    ensures SettledBy(t, Judged(t, VerdictOn(t, status, resp), now), status, resp, now, r)
  {
    VerdictIsAbout(t, status, resp);
    hide Inv, VerdictOn, About, CompleteAuth, RetryAuth, Indexed, SettledBy, VerdictFits;
    match VerdictOn(t, status, resp)
    case Ignore => IgnoringSettles(t, status, resp, now, r);
    case Finish(authID, token, err) => FinishIsSettled(t, status, resp, now, authID, token, err, r);
    case Retry(authID, delay) => RetryIsSettled(t, status, resp, now, authID, delay, r);
  }

  lemma IgnoringSettles(t: Table, status: byte, resp: Response, now: Time, r: nat)
    requires r < |t.flows| && VerdictFits(t, status, resp, Ignore)
    ensures SettledBy(t, t, status, resp, now, r)
  {
  }

  lemma FinishIsSettled(t: Table, status: byte, resp: Response, now: Time, authID: nat, token: string,
                        err: Option<Error>, r: nat)
    requires Inv(t) && r < |t.flows| && VerdictFits(t, status, resp, Finish(authID, token, err))
    ensures |CompleteAuth(t, authID, token, err).flows| == |t.flows|
    ensures SettledBy(t, CompleteAuth(t, authID, token, err), status, resp, now, r)
  {
    FinishSettles(t, authID, token, err, r);
    NamedBy(t, authID, r);
    hide Inv, CompleteAuth, About, Indexed;
  }

  lemma RetryIsSettled(t: Table, status: byte, resp: Response, now: Time, authID: nat, delay: Time, r: nat)
    requires Inv(t) && r < |t.flows| && VerdictFits(t, status, resp, Retry(authID, delay))
    ensures |RetryAuth(t, authID, delay, now).flows| == |t.flows|
    ensures SettledBy(t, RetryAuth(t, authID, delay, now), status, resp, now, r)
  {
    RetrySettles(t, authID, delay, now, r);
    hide Inv, RetryAuth, About, Indexed;
  }

  // A verdict names the flow the response is about, or nothing that is in the table.
  ghost predicate VerdictFits(t: Table, status: byte, resp: Response, verdict: Verdict) {
    var known := About(t, resp).Some? && About(t, resp).value < |t.flows|;
    var goesOn := known && !EndsSession(resp);
    match verdict
    case Ignore => !known
    case Finish(authID, token, err) =>
      && (if known then authID == About(t, resp).value + 1 else ByID(t, authID) == None)
      && (err.None? <==> goesOn && status == 0) && (err.None? ==> token == resp.token)
      && !(goesOn && 0x84 <= status <= 0x87)
    case Retry(authID, delay) =>
      && goesOn && authID == About(t, resp).value + 1
      && 0x84 <= status <= 0x87 && delay == if status == 0x84 then 0 else RETRY_WAIT
  }

  lemma VerdictIsAbout(t: Table, status: byte, resp: Response)
    requires Inv(t)
    ensures VerdictFits(t, status, resp, VerdictOn(t, status, resp))
  {
    if ByID(t, resp.hash).Some? {
      IDOf(t, ByID(t, resp.hash));
      NamedBy(t, resp.hash, ByID(t, resp.hash).value);
    }
    if resp.byAddress.Some? && resp.byAddress.value < |t.flows| {
      IDOf(t, resp.byAddress);
    }
    hide Inv, ByID;
  }

  lemma NamedBy(t: Table, authID: nat, r: nat)
    requires Inv(t) && r < |t.flows|
    ensures ByID(t, authID) == Some(r) <==> Indexed(t, r) && authID == r + 1
  {
    assert r in t.lru <==> Indexed(t, r);
  }

  lemma FinishSettles(t: Table, authID: nat, token: string, err: Option<Error>, r: nat)
    requires Inv(t) && r < |t.flows|
    ensures var t' := CompleteAuth(t, authID, token, err);
            && |t'.flows| == |t.flows|
            && if authID != r + 1 || !Waits(t, r) then
                 t'.flows[r] == t.flows[r] && (Indexed(t', r) <==> Indexed(t, r))
               else if err.None? then
                 t'.flows[r] == t.flows[r].(latched := true, connectToken := token, pending := []) && Indexed(t', r)
               else
                 t'.flows[r].latched && t'.flows[r].authErr.Some? && t'.flows[r].pending == [] && !Indexed(t', r)
  {
    NamedBy(t, authID, r);
    assert FlowOk(t.flows[r], Indexed(t, r));
    hide Inv;
    if ByID(t, authID).Some? && !t.flows[ByID(t, authID).value].latched {
      if err.Some? {
        FailureOf(t, authID, token, ByID(t, authID).value, err.value, r);
      } else {
        SuccessOf(t, authID, token, ByID(t, authID).value, r);
      }
    }
  }

  lemma SuccessOf(t: Table, authID: nat, token: string, named: nat, r: nat)
    requires ByID(t, authID) == Some(named) && named < |t.flows| && !t.flows[named].latched && r < |t.flows|
    ensures var t' := CompleteAuth(t, authID, token, None);
            && |t'.flows| == |t.flows| && (Indexed(t', r) <==> Indexed(t, r))
            && t'.flows[r] == if r == named then Completed(t.flows[r], token, None) else t.flows[r]
  {
  }

  lemma RetrySettles(t: Table, authID: nat, delay: Time, now: Time, r: nat)
    requires Inv(t) && r < |t.flows|
    ensures var t' := RetryAuth(t, authID, delay, now);
            && |t'.flows| == |t.flows| && (Indexed(t', r) <==> Indexed(t, r))
            && t'.flows[r] == if authID != r + 1 || !Waits(t, r) then t.flows[r]
                              else t.flows[r].(authStarted := false, authDeadline := None, authRetryAt := Some(now + delay))
  {
    NamedBy(t, authID, r);
    hide Inv;
  }

  // ---- The connection ----

  lemma JobCount(jobs: seq<(Conntrack, PacketMeta)>, t: Table, chosen: seq<nat>, all: seq<Conntrack>)
    requires JobsFor(all, jobs, t, chosen)
    ensures |jobs| == |chosen|
  {
  }

  lemma BatchBounds(t: Table, chosen: seq<nat>, deadline: nat -> Time)
    ensures Requested(StartAll(t, chosen), chosen[..0], deadline) == StartAll(t, chosen)
    ensures Requested(StartAll(t, chosen), chosen, deadline) == Requested(t, chosen, deadline)
    ensures IDs(chosen[..0]) == []
  {
    RequestedTwice(StartAll(t, chosen), [], [], deadline);
    RequestedTwice(t, [], chosen, deadline);
  }

  lemma NextSent(t: Table, chosen: seq<nat>, n: nat, limit: nat, clock: nat -> Time, deadline: nat -> Time,
                 before: seq<nat>)
    requires Inv(t) && chosen == Chosen(t, limit, clock) && n < |chosen|
    ensures MarkAuthSent(Requested(StartAll(t, chosen), chosen[..n], deadline), chosen[n] + 1, deadline(chosen[n])) ==
            Requested(StartAll(t, chosen), chosen[..n + 1], deadline)
    ensures before + IDs(chosen[..n + 1]) == before + IDs(chosen[..n]) + [chosen[n] + 1]
  {
    hide Inv, Chosen, MarkAuthSent, Requested, StartAll;
    BatchIsFresh(t, limit, clock);
    assert chosen[n] !in chosen[..n];
    MarkNext(t, chosen, n, limit, clock, deadline);
    assert IDs(chosen[..n + 1]) == IDs(chosen[..n]) + [chosen[n] + 1];
  }

  class L3TunnelConn {
    const mgr: Mgr
    var requests: seq<nat>               // the flows whose requests were sent, by authID, in order
    var wire: seq<(string, Packet)>      // data frames: token and packet
    var closed: bool

    constructor (mgr: Mgr)
      ensures this.mgr == mgr && requests == [] && wire == [] && !closed
    {
      this.mgr, requests, wire, closed := mgr, [], [], false;
    }

    // Send the requests of one batch, one after the other; `accepts` tells which writes succeed. When one
    // fails its flow is failed and the connection closed, and the rest of the batch stays started.
    method SendBatch(jobs: seq<(Conntrack, PacketMeta)>, ghost t: Table, limit: nat, ghost clock: nat -> Time,
                     deadline: nat -> Time, accepts: nat -> bool, failure: Error) returns (ok: bool, ghost sent: nat)
      requires mgr.Valid() && Inv(t) && mgr.view == StartAll(t, Chosen(t, limit, clock))
      requires JobsFor(mgr.all, jobs, t, Chosen(t, limit, clock))
      modifies this, mgr, mgr.all
      ensures mgr.Valid() && mgr.all == old(mgr.all) && wire == old(wire)
      ensures SentUntil(sent, Chosen(t, limit, clock), accepts)
      ensures ok <==> sent == |Chosen(t, limit, clock)|
      ensures requests == old(requests) + IDs(Chosen(t, limit, clock)[..sent])
      ensures closed <==> old(closed) || !ok
      ensures mgr.view == if ok then Requested(t, Chosen(t, limit, clock), deadline)
                          else FailedBatch(t, Chosen(t, limit, clock), sent, deadline, failure)
    {
      hide *;
      ghost var chosen := Chosen(t, limit, clock);
      sent := 0;
      var n := 0;
      JobCount(jobs, t, chosen, mgr.all);
      BatchBounds(t, chosen, deadline);
      SentMeans(0, chosen, accepts);
      while n < |jobs|
        invariant n <= |jobs| == |chosen| && sent == n && closed == old(closed) && wire == old(wire)
        invariant mgr.Valid() && mgr.all == old(mgr.all)
        invariant mgr.view == Requested(StartAll(t, chosen), chosen[..n], deadline)
        invariant requests == old(requests) + IDs(chosen[..n])
        invariant JobsFor(mgr.all, jobs, t, chosen)
        invariant forall j :: 0 <= j < n ==> accepts(chosen[j] + 1)
      {
        JobIs(jobs, t, chosen, n);
        NextSent(t, chosen, n, limit, clock, deadline, old(requests));
        SentMeans(n, chosen, accepts);
        FailureMeans(t, chosen, n, deadline, failure);
        var authID: nat := jobs[n].0.authID;
        if !accepts(authID) {
          var ct, packets := mgr.CompleteAuth(authID, "", Some(failure));
          closed := true;
          return false, sent;
        }
        requests := requests + [authID];
        mgr.MarkAuthSent(authID, deadline(authID - 1));
        n := n + 1;
        sent := n;
      }
      ok := true;
      SentMeans(n, chosen, accepts);
      assert chosen[..n] == chosen;
    }

    lemma JobIs(jobs: seq<(Conntrack, PacketMeta)>, t: Table, chosen: seq<nat>, n: nat)
      requires mgr.Valid() && JobsFor(mgr.all, jobs, t, chosen) && n < |jobs|
      ensures n < |chosen| && jobs[n].0.authID == chosen[n] + 1
    {
    }

    // Batch after batch, until no more flows are eligible or a write fails. Each round starts at least one
    // flow, so the rounds are bounded by the flows not started yet. `started` are the flows of the whole
    // rounds; on failure, `sent` is the number of requests sent in the last round.
    method DispatchPendingAuth(clocks: nat -> (nat -> Time), deadline: nat -> Time, accepts: nat -> bool, failure: Error)
      returns (ok: bool, ghost started: seq<nat>, ghost rounds: nat, ghost sent: nat)
      requires mgr.Valid() && Inv(mgr.view)
      modifies this, mgr, mgr.all
      ensures mgr.Valid() && mgr.all == old(mgr.all) && Inv(mgr.view) && wire == old(wire)
      ensures closed <==> old(closed) || !ok
      ensures FreshIn(started, old(mgr.view)) && AllAccepted(started, accepts)
      ensures ok ==> mgr.view == Requested(old(mgr.view), started, deadline)
                     && requests == old(requests) + IDs(started)
                     && NothingEligible(mgr.view, clocks(rounds))
      ensures !ok ==> var t := Requested(old(mgr.view), started, deadline);
                      var chosen := Chosen(t, BATCH_SIZE, clocks(rounds));
                      && sent < |chosen| && SentUntil(sent, chosen, accepts)
                      && mgr.view == FailedBatch(t, chosen, sent, deadline, failure)
                      && requests == old(requests) + IDs(started) + IDs(chosen[..sent])
      ensures (forall authID :: accepts(authID)) ==> ok
    {
      hide *;
      ghost var before := mgr.view;
      started, rounds, sent := [], 0, 0;
      StartsAtNothing(before, deadline, requests, accepts);
      var round := 0;
      while true
        invariant mgr.Valid() && mgr.all == old(mgr.all) && Inv(mgr.view) && wire == old(wire)
        invariant closed == old(closed) && rounds == round
        invariant mgr.view == Requested(before, started, deadline)
        invariant requests == old(requests) + IDs(started)
        invariant FreshIn(started, before) && AllAccepted(started, accepts)
        decreases |Unstarted(mgr.view)|
      {
        ghost var t := mgr.view;
        ghost var clock := clocks(round);
        NoDuplicateFlows(t);
        var jobs, more := mgr.NextAuthBatch(BATCH_SIZE, clocks(round));
        BatchDefinition(t, clock);
        ghost var chosen := Chosen(t, BATCH_SIZE, clock);
        var sentAll;
        sentAll, sent := SendBatch(jobs, t, BATCH_SIZE, clock, deadline, accepts, failure);
        SentMeans(sent, chosen, accepts);
        AfterBatch(before, t, started, chosen, clock, deadline, old(requests), sent, failure);
        if !sentAll {
          ok := false;
          return;
        }
        AcceptedTogether(started, chosen, accepts);
        started := started + chosen;
        if !more {
          ok := true;
          return;
        }
        round := round + 1;
        rounds := round;
      }
    }

    lemma FlowCount()
      requires mgr.Valid()
      ensures mgr.nextAuthID == |mgr.view.flows|
    {
    }

    // The result of an authentication, under the flow's send lock: the packets that waited for it are
    // written with its token, in order, until a write fails.
    method CompleteAuthentication(authID: nat, token: string, err: Option<Error>, accepts: nat -> bool)
      returns (ghost flushed: nat)
      requires mgr.Valid()
      modifies this`wire, this`closed, mgr, mgr.all
      ensures mgr.Valid() && mgr.all == old(mgr.all)
      ensures mgr.view == CompleteAuth(old(mgr.view), authID, token, err)
      ensures FlushedTo(flushed, token, Released(old(mgr.view), authID, err), accepts)
      ensures wire == old(wire) + Framed(token, Released(old(mgr.view), authID, err)[..flushed])
      ensures closed <==> old(closed) || flushed < |Released(old(mgr.view), authID, err)|
      ensures err.Some? ==> wire == old(wire) && closed == old(closed)
    {
      hide CompleteAuth, Inv, Mgr.Linked, Mgr.Stored, ByID;
      flushed := 0;
      ghost var released := Released(mgr.view, authID, err);
      assert released[..0] == [] && wire + Framed(token, []) == wire;
      var ct := mgr.GetByID(authID);
      if ct == null {
        NothingToComplete(mgr.view, authID, token, err);
        return;
      }
      var found, packets := mgr.CompleteAuth(authID, token, err);
      assert packets == released;
      if err.Some? {
        NoneReleased(old(mgr.view), authID, err);
        return;
      }
      var k := 0;
      while k < |packets|
        modifies this`wire, this`closed
        invariant k <= |packets| && flushed == k && closed == old(closed)
        invariant AllFit(k, token, accepts)
        invariant wire == old(wire) + Framed(token, released[..k])
      {
        if |token| > MAX_TOKEN || !accepts(k) {
          closed := true;
          return;
        }
        wire := wire + [(token, packets[k])];
        k := k + 1;
        flushed := k;
        assert Framed(token, released[..k]) == Framed(token, released[..k - 1]) + [(token, packets[k - 1])];
      }
    }

    // Write a packet of a flow, or queue it until the flow is authenticated. While a flow waits, its packet
    // is queued if fewer than 1024 are, and only dropped when they are not.
    method WritePacket(key: string, appID: string, nodeGroupID: string, meta: PacketMeta, packet: Packet,
                       observed: Observed,
                       now: Time, later: Time, accepts: bool) returns (err: Option<Error>)
      requires mgr.Valid() && Inv(mgr.view) && mgr.view.clock <= now
      modifies this`wire, mgr, mgr.all
      ensures mgr.Valid() && old(mgr.all) <= mgr.all
      ensures var (created, r) := GetOrCreate(old(mgr.view), key, appID, nodeGroupID, now);
              var t := ObservePacket(created, key, observed, later);
              r < |t.flows| &&
              if t.flows[r].latched then
                && mgr.view == t
                && (t.flows[r].authErr.Some? ==> err == t.flows[r].authErr && wire == old(wire))
                && (t.flows[r].authErr.None? ==>
                      if accepts && |t.flows[r].connectToken| <= MAX_TOKEN
                      then err == None && wire == old(wire) + [(t.flows[r].connectToken, packet)]
                      else err.Some? && wire == old(wire))
              else
                var f := t.flows[r];
                && err == None && wire == old(wire)
                && mgr.view == if |f.pending| >= 1024 then t
                               else t.(flows := t.flows[r := f.(authMeta := meta, pending := f.pending + [packet])])
    {
      hide Inv, GetOrCreate, ObservePacket, CachePacket, CacheOutcome, Mgr.Linked, Mgr.Stored;
      NoDuplicateFlows(mgr.view);
      WaitingIsListed(mgr.view, key, appID, nodeGroupID, now, observed, later);
      var ct := mgr.GetOrCreate(key, appID, nodeGroupID, now);
      assert forall i :: 0 <= i < |mgr.all| ==> mgr.all[i] in mgr.all && (mgr.all[i] in old(mgr.all) || fresh(mgr.all[i]));
      var found := mgr.ObservePacket(key, observed, later);
      var token, authErr, authenticated := mgr.AuthResult(ct);
      if authenticated {
        if authErr.Some? {
          return authErr;
        }
        if |token| > MAX_TOKEN || !accepts {
          return Some(Failure("write"));
        }
        wire := wire + [(token, packet)];
        return None;
      }
      var result := mgr.CachePacket(ct, meta, packet);
      match result {
        case Refused(e) => return e;
        case _ => return None;
      }
    }

    method MarkAuthError(resp: Response, err: Error, accepts: nat -> bool)
      requires mgr.Valid()
      modifies this`wire, this`closed, mgr, mgr.all
      ensures mgr.Valid() && mgr.all == old(mgr.all)
      ensures mgr.view == Judged(old(mgr.view), Blame(resp, err), 0)
      ensures wire == old(wire) && closed == old(closed)
    {
      if resp.hash != 0 {
        ghost var none := CompleteAuthentication(resp.hash, "", Some(err), accepts);
      }
    }

    // Act on a decoded response. Only a success releases packets; they are written up to the first write
    // that fails, which closes the connection.
    method HandleAuthResp(status: byte, resp: Response, now: Time, accepts: nat -> bool) returns (ghost flushed: nat)
      requires mgr.Valid() && Inv(mgr.view)
      modifies this, mgr, mgr.all
      ensures mgr.Valid() && mgr.all == old(mgr.all)
      ensures mgr.view == Judged(old(mgr.view), VerdictOn(old(mgr.view), status, resp), now)
      ensures requests == old(requests)
      ensures var packets := ReleasedBy(old(mgr.view), VerdictOn(old(mgr.view), status, resp));
              && FlushedTo(flushed, resp.token, packets, accepts)
              && wire == old(wire) + Framed(resp.token, packets[..flushed])
              && (closed <==> old(closed) || flushed < |packets|)
    {
      hide CompleteAuth, RetryAuth, Inv, Mgr.Linked, Mgr.Stored, ByID, Framed, Released, FlushedTo;
      hide VerdictFor;
      flushed := 0;
      NothingFramed(wire, resp.token, accepts);
      FlowCount();
      if EndsSession(resp) {
        MarkAuthError(resp, Failure("session"), accepts);
        return;
      }
      var ct := mgr.GetByID(resp.hash);
      var authID: nat;
      if ct != null {
        IDOf(mgr.view, ByID(mgr.view, resp.hash));
        authID := ct.authID;
      } else if resp.byAddress.Some? && resp.byAddress.value < mgr.nextAuthID {
        IDOf(mgr.view, resp.byAddress);
        authID := resp.byAddress.value + 1;
      } else {
        MarkAuthError(resp, Failure("missing conntrack hash"), accepts);
        return;
      }
      flushed := Settle(authID, status, resp, now, accepts);
    }

    // The answer to one flow's request.
    method Settle(authID: nat, status: byte, resp: Response, now: Time, accepts: nat -> bool) returns (ghost flushed: nat)
      requires mgr.Valid()
      modifies this, mgr, mgr.all
      ensures mgr.Valid() && mgr.all == old(mgr.all)
      ensures mgr.view == Judged(old(mgr.view), VerdictFor(authID, status, resp), now)
      ensures requests == old(requests)
      ensures var packets := ReleasedBy(old(mgr.view), VerdictFor(authID, status, resp));
              && FlushedTo(flushed, resp.token, packets, accepts)
              && wire == old(wire) + Framed(resp.token, packets[..flushed])
              && (closed <==> old(closed) || flushed < |packets|)
    {
      hide CompleteAuth, RetryAuth, Inv, Mgr.Linked, Mgr.Stored, ByID, Framed, Released, FlushedTo;
      flushed := 0;
      NothingFramed(wire, resp.token, accepts);
      if status == 0 {
        flushed := CompleteAuthentication(authID, resp.token, None, accepts);
      } else if status == IMMEDIATE_RETRY_STATUS {
        var scheduled := mgr.RetryAuth(authID, 0, now);
      } else if RETRY_STATUS_MIN <= status && status <= RETRY_STATUS_MAX {
        var scheduled := mgr.RetryAuth(authID, RETRY_WAIT, now);
      } else {
        ghost var none := CompleteAuthentication(authID, "", Some(Failure(resp.message)), accepts);
      }
    }
  }

  // A flow that a writer finds waiting is in the table.
  lemma WaitingIsListed(t0: Table, key: string, appID: string, nodeGroupID: string, now: Time, observed: Observed,
                        later: Time)
    requires Inv(t0) && t0.clock <= now
    ensures var (created, r) := GetOrCreate(t0, key, appID, nodeGroupID, now);
            var t := ObservePacket(created, key, observed, later);
            r < |t.flows| && (!t.flows[r].latched ==> t.flows[r].key in t.byKey && t.byKey[t.flows[r].key] == r)
  {
    hide GetOrCreate;
    GetOrCreateKeepsInv(t0, key, appID, nodeGroupID, now);
    var (created, r) := GetOrCreate(t0, key, appID, nodeGroupID, now);
    assert FlowOk(created.flows[r], Indexed(created, r));
  }

  function Framed(token: string, packets: seq<Packet>): seq<(string, Packet)> {
    seq(|packets|, i requires 0 <= i < |packets| => (token, packets[i]))
  }

  lemma FramesAre(token: string, packets: seq<Packet>, k: nat)
    requires k < |packets|
    ensures |Framed(token, packets)| == |packets| && Framed(token, packets)[k] == (token, packets[k])
  {
  }

  ghost predicate AllFit(n: nat, token: string, accepts: nat -> bool) {
    forall k :: 0 <= k < n ==> |token| <= MAX_TOKEN && accepts(k)
  }

  // Of these packets, the first n are written: all of them, or those before the first that fails.
  ghost predicate FlushedTo(n: nat, token: string, packets: seq<Packet>, accepts: nat -> bool) {
    && n <= |packets|
    && AllFit(n, token, accepts)
    && (n < |packets| ==> |token| > MAX_TOKEN || !accepts(n))
  }

  // The packets a verdict releases to be written.
  function ReleasedBy(t: Table, verdict: Verdict): seq<Packet> {
    if verdict.Finish? && verdict.err.None? then Released(t, verdict.authID, None) else []
  }

  lemma NothingFramed(wire: seq<(string, Packet)>, token: string, accepts: nat -> bool)
    ensures wire + Framed(token, [][..0]) == wire && FlushedTo(0, token, [], accepts)
  {
  }

  lemma NothingToComplete(t: Table, authID: nat, token: string, err: Option<Error>)
    requires ByID(t, authID) == None
    ensures CompleteAuth(t, authID, token, err) == t && Released(t, authID, err) == []
  {
  }

  lemma NoneReleased(t: Table, authID: nat, err: Option<Error>)
    requires err.Some?
    ensures Released(t, authID, err) == []
  {
  }

  lemma IDOf(t: Table, found: Option<nat>)
    requires Inv(t) && found.Some? && found.value < |t.flows|
    ensures t.flows[found.value].authID == found.value + 1
  {
  }

  ghost predicate NothingEligible(t: Table, clock: nat -> Time) {
    forall i :: 0 <= i < |t.lru| && t.lru[i] < |t.flows| ==> !Eligible(t.flows[t.lru[i]], clock(i))
  }

  // Each of them once, and none of them started before.
  ghost predicate FreshIn(started: seq<nat>, t: Table) {
    NoDuplicates(started) && forall r :: r in started ==> r in Unstarted(t)
  }

  // Requests are sent in order up to the first that is not accepted.
  ghost predicate SentUntil(sent: nat, chosen: seq<nat>, accepts: nat -> bool) {
    && sent <= |chosen| && AllAccepted(chosen[..sent], accepts)
    && (sent < |chosen| ==> !accepts(chosen[sent] + 1))
  }

  ghost predicate AllAccepted(refs: seq<nat>, accepts: nat -> bool) {
    forall j :: 0 <= j < |refs| ==> accepts(refs[j] + 1)
  }

  lemma SentMeans(n: nat, chosen: seq<nat>, accepts: nat -> bool)
    ensures SentUntil(n, chosen, accepts) <==>
            && n <= |chosen| && (forall j :: 0 <= j < n ==> accepts(chosen[j] + 1))
            && (n < |chosen| ==> !accepts(chosen[n] + 1))
    ensures SentUntil(|chosen|, chosen, accepts) <==> AllAccepted(chosen, accepts)
  {
    assert chosen[..|chosen|] == chosen;
  }

  lemma AcceptedTogether(a: seq<nat>, b: seq<nat>, accepts: nat -> bool)
    requires AllAccepted(a, accepts) && AllAccepted(b, accepts)
    ensures AllAccepted(a + b, accepts)
  {
  }

  lemma FailureMeans(t: Table, chosen: seq<nat>, sent: nat, deadline: nat -> Time, failure: Error)
    requires sent < |chosen|
    ensures FailedBatch(t, chosen, sent, deadline, failure) ==
            CompleteAuth(Requested(StartAll(t, chosen), chosen[..sent], deadline), chosen[sent] + 1, "", Some(failure))
  {
  }

  lemma NoDuplicateFlows(t: Table)
    requires Inv(t)
    ensures NoDuplicates(t.lru)
  {
  }

  lemma BatchDefinition(t: Table, clock: nat -> Time)
    ensures AuthQueue.NextAuthBatch(t, BATCH_SIZE, clock) == StartAll(t, Chosen(t, BATCH_SIZE, clock))
  {
  }

  lemma StartsAtNothing(t: Table, deadline: nat -> Time, requests: seq<nat>, accepts: nat -> bool)
    ensures Requested(t, [], deadline) == t && requests + IDs([]) == requests && FreshIn([], t)
    ensures AllAccepted([], accepts)
  {
    RequestedTwice(t, [], [], deadline);
  }

  // One round: what was started before and what is started now add up.
  lemma AfterBatch(before: Table, t: Table, started: seq<nat>, chosen: seq<nat>, clock: nat -> Time,
                   deadline: nat -> Time, requests: seq<nat>, sent: nat, failure: Error)
    requires Inv(t) && t == Requested(before, started, deadline) && FreshIn(started, before)
    requires chosen == Chosen(t, BATCH_SIZE, clock) && sent <= |chosen|
    ensures Requested(t, chosen, deadline) == Requested(before, started + chosen, deadline)
    ensures FreshIn(started + chosen, before) && Inv(Requested(t, chosen, deadline))
    ensures requests + IDs(started) + IDs(chosen) == requests + IDs(started + chosen) && chosen[..|chosen|] == chosen
    ensures MoreEligible(t, BATCH_SIZE, clock) ==> |Unstarted(Requested(t, chosen, deadline))| < |Unstarted(t)|
    ensures !MoreEligible(t, BATCH_SIZE, clock) ==> NothingEligible(Requested(t, chosen, deadline), clock)
    ensures sent < |chosen| ==> Inv(FailedBatch(t, chosen, sent, deadline, failure))
  {
    hide Inv, Chosen, MoreEligible, CompleteAuth, StartAll;
    RequestedTwice(before, started, chosen, deadline);
    RequestedKeepsInv(t, chosen, deadline);
    BatchIsFresh(t, BATCH_SIZE, clock);
    FreshTogether(before, started, chosen, deadline);
    IDsAppend(started, chosen);
    assert requests + IDs(started) + IDs(chosen) == requests + (IDs(started) + IDs(chosen));
    if MoreEligible(t, BATCH_SIZE, clock) {
      FewerUnstarted(t, chosen, deadline);
    } else {
      forall i: nat | i < |t.lru|
        ensures t.lru[i] < |t.flows| && !Eligible(Requested(t, chosen, deadline).flows[t.lru[i]], clock(i))
      {
        NoneLeft(t, BATCH_SIZE, clock, deadline, i);
      }
    }
    if sent < |chosen| {
      StartKeepsInv(t, chosen);
      RequestedKeepsInv(StartAll(t, chosen), chosen[..sent], deadline);
      CompleteKeepsInv(Requested(StartAll(t, chosen), chosen[..sent], deadline), chosen[sent] + 1, "", Some(failure));
    }
  }

  lemma FreshTogether(before: Table, started: seq<nat>, chosen: seq<nat>, deadline: nat -> Time)
    requires FreshIn(started, before) && FreshIn(chosen, Requested(before, started, deadline))
    ensures FreshIn(started + chosen, before)
  {
    forall r | r in chosen
      ensures r !in started && r in Unstarted(before)
    {
      assert r in Unstarted(Requested(before, started, deadline));
    }
    hide Requested, Unstarted;
    var all := started + chosen;
    forall i, j | 0 <= i < j < |all|
      ensures all[i] != all[j]
    {
      if i < |started| <= j {
        assert all[i] in started && all[j] in chosen;
      }
    }
    assert forall r :: r in all ==> r in started || r in chosen;
  }
}