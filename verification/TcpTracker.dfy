// The TCP part of a tracked flow: how each observed segment moves the flow's
// state and its lifetime, and what a state or a lifetime says about the whole
// trace of segments that led to it.
module TcpTracker {
  import opened Prelude

  const DEFAULT_TTL := 60
  const INBOUND_SYN_TTL := 120
  const OUTBOUND_SYN_TTL := 60
  const SYN_ACK_TTL := 60
  const RESET_TTL := 90
  const INBOUND_FIRST_CLOSED_TTL := 120
  const OUTBOUND_FIRST_CLOSED_TTL := 30
  const ESTABLISHED_TTL := 6 * 3600

  datatype State =
    | Reset
    | InboundSyn
    | OutboundSyn
    | SynAck
    | Established
    | InboundFin
    | InboundFirstClosed
    | OutboundFin
    | OutboundFirstClosed

  // A segment reduced to what the tracker reads: four flags, two numbers and a direction.
  datatype Segment = Segment(
    syn: bool, ack: bool, fin: bool, rst: bool,
    sequence: uint32, acknowledgment: uint32, incoming: bool)

  // Lifetimes are in seconds; 0 means that no segment has been observed yet.
  datatype Tracker = Tracker(state: State, seqNo: uint32, ttl: nat)

  const FRESH := Tracker(Reset, 0, 0)

  function Successor(x: uint32): uint32 {
    (x + 1) % 0x1_0000_0000
  }

  function Acknowledges(p: Segment, t: Tracker): bool {
    p.ack && p.acknowledgment == Successor(t.seqNo)
  }

  function ObserveFin(t: Tracker, p: Segment): Tracker {
    if !p.fin then t else t.(state := if p.incoming then InboundFin else OutboundFin)
  }

  function Observe(t0: Tracker, p: Segment): Tracker {
    if p.rst then t0.(state := Reset, ttl := RESET_TTL) else
    var t := if t0.ttl == 0 then t0.(ttl := DEFAULT_TTL) else t0;
    match t.state
    case Reset =>
      if !p.syn then t
      else if p.incoming then Tracker(InboundSyn, p.sequence, INBOUND_SYN_TTL)
      else Tracker(OutboundSyn, p.sequence, OUTBOUND_SYN_TTL)
    case InboundSyn =>
      if p.incoming || !p.syn then t
      else if Acknowledges(p, t) then t.(state := Established, ttl := ESTABLISHED_TTL)
      else Tracker(SynAck, p.sequence, SYN_ACK_TTL)
    case OutboundSyn =>
      if p.incoming && p.syn && Acknowledges(p, t) then Tracker(SynAck, p.sequence, SYN_ACK_TTL) else t
    case SynAck =>
      if !p.incoming && Acknowledges(p, t) then t.(state := Established, ttl := ESTABLISHED_TTL)
      else ObserveFin(t, p)
    case Established => ObserveFin(t, p)
    case InboundFin =>
      if !p.incoming && p.fin then t.(state := InboundFirstClosed, ttl := INBOUND_FIRST_CLOSED_TTL) else t
    case OutboundFin =>
      if p.incoming && p.fin then t.(state := OutboundFirstClosed, ttl := OUTBOUND_FIRST_CLOSED_TTL) else t
    case InboundFirstClosed => t
    case OutboundFirstClosed => t
  }

  // The tracker after a whole trace, oldest segment first.
  function Run(trace: seq<Segment>): Tracker {
    if trace == [] then FRESH
    else Observe(Run(trace[..|trace| - 1]), trace[|trace| - 1])
  }

  // ---- What a trace contains since its last reset ----

  ghost predicate NoResetSince(trace: seq<Segment>, i: nat) {
    forall k :: i <= k < |trace| ==> !trace[k].rst
  }

  // Segment i is a SYN that carries sequence number q, and no reset came after it.
  ghost predicate SynAt(trace: seq<Segment>, i: nat, q: uint32) {
    i < |trace| && NoResetSince(trace, i) && trace[i].syn && trace[i].sequence == q
  }

  // Segment j is outgoing and acknowledges the SYN at i, modulo 2^32.
  ghost predicate AcknowledgedSyn(trace: seq<Segment>, i: nat, j: nat) {
    && i < j < |trace|
    && SynAt(trace, i, trace[i].sequence)
    && !trace[j].incoming && trace[j].ack
    && trace[j].acknowledgment == Successor(trace[i].sequence)
  }

  ghost predicate FinAt(trace: seq<Segment>, i: nat, incoming: bool) {
    i < |trace| && NoResetSince(trace, i) && trace[i].fin && trace[i].incoming == incoming
  }

  ghost predicate FinsInOrder(trace: seq<Segment>, i: nat, j: nat, incomingFirst: bool) {
    i < j && FinAt(trace, i, incomingFirst) && FinAt(trace, j, !incomingFirst)
  }

  // What every reachable tracker says about the trace that produced it.
  ghost predicate Explained(trace: seq<Segment>, t: Tracker) {
    && (t.state in {InboundSyn, OutboundSyn, SynAck} ==> exists i :: SynAt(trace, i, t.seqNo))
    && (t.ttl == ESTABLISHED_TTL ==> exists i, j :: AcknowledgedSyn(trace, i, j))
    && (t.state == Established ==> t.ttl == ESTABLISHED_TTL)
    && (t.state in {InboundFin, InboundFirstClosed} ==> exists i :: FinAt(trace, i, true))
    && (t.state in {OutboundFin, OutboundFirstClosed} ==> exists i :: FinAt(trace, i, false))
    && (t.state == InboundFirstClosed ==> exists i, j :: FinsInOrder(trace, i, j, true))
    && (t.state == OutboundFirstClosed ==> exists i, j :: FinsInOrder(trace, i, j, false))
  }

  // Extending a trace by a segment that is not a reset keeps every earlier explanation.
  lemma ExplanationsPersist(trace: seq<Segment>, p: Segment)
    requires !p.rst
    ensures forall i, q :: SynAt(trace, i, q) ==> SynAt(trace + [p], i, q)
    ensures forall i, j :: AcknowledgedSyn(trace, i, j) ==> AcknowledgedSyn(trace + [p], i, j)
    ensures forall i, d :: FinAt(trace, i, d) ==> FinAt(trace + [p], i, d)
    ensures forall i, j, d :: FinsInOrder(trace, i, j, d) ==> FinsInOrder(trace + [p], i, j, d)
  {
    var longer := trace + [p];
    forall i | NoResetSince(trace, i)
      ensures NoResetSince(longer, i)
    {
    }
  }

  lemma ExplainStep(trace: seq<Segment>, t: Tracker, p: Segment)
    requires Explained(trace, t)
    ensures Explained(trace + [p], Observe(t, p))
  {
    if !p.rst {
      var longer := trace + [p];
      var n := |trace|;
      ExplanationsPersist(trace, p);
      var next := Observe(t, p);
      if p.syn {
        assert SynAt(longer, n, p.sequence);
      }
      if p.fin {
        assert FinAt(longer, n, p.incoming);
      }
      if next.ttl == ESTABLISHED_TTL && t.ttl != ESTABLISHED_TTL {
        var i :| SynAt(trace, i, t.seqNo);
        assert AcknowledgedSyn(longer, i, n);
      }
      if next.state == InboundFirstClosed && t.state == InboundFin {
        var i :| FinAt(trace, i, true);
        assert FinsInOrder(longer, i, n, true);
      }
      if next.state == OutboundFirstClosed && t.state == OutboundFin {
        var i :| FinAt(trace, i, false);
        assert FinsInOrder(longer, i, n, false);
      }
    }
  }

  // The lifetime follows from the state: an untracked flow lives on its default or on what the last reset
  // left it, and a FIN keeps the lifetime it finds.
  ghost predicate LifetimeFits(trace: seq<Segment>, t: Tracker) {
    match t.state
    case Reset => t.ttl == if trace == [] then 0 else if NoResetSince(trace, 0) then DEFAULT_TTL else RESET_TTL
    case InboundSyn => t.ttl == INBOUND_SYN_TTL
    case OutboundSyn => t.ttl == OUTBOUND_SYN_TTL
    case SynAck => t.ttl == SYN_ACK_TTL
    case Established => t.ttl == ESTABLISHED_TTL
    case InboundFin => t.ttl == SYN_ACK_TTL || t.ttl == ESTABLISHED_TTL
    case OutboundFin => t.ttl == SYN_ACK_TTL || t.ttl == ESTABLISHED_TTL
    case InboundFirstClosed => t.ttl == INBOUND_FIRST_CLOSED_TTL
    case OutboundFirstClosed => t.ttl == OUTBOUND_FIRST_CLOSED_TTL
  }

  lemma LifetimeStep(trace: seq<Segment>, t: Tracker, p: Segment)
    requires LifetimeFits(trace, t)
    ensures LifetimeFits(trace + [p], Observe(t, p))
  {
    var longer := trace + [p];
    assert longer[|trace|] == p;
    assert NoResetSince(longer, 0) <==> NoResetSince(trace, 0) && !p.rst by {
      assert forall k :: 0 <= k < |trace| ==> longer[k] == trace[k];
    }
    hide NoResetSince;
  }

  lemma {:induction false} EveryTraceExplained(trace: seq<Segment>)
    ensures Explained(trace, Run(trace)) && LifetimeFits(trace, Run(trace))
  {
    if trace != [] {
      hide Explained, LifetimeFits, Observe;
      var before := trace[..|trace| - 1];
      EveryTraceExplained(before);
      ExplainStep(before, Run(before), trace[|trace| - 1]);
      LifetimeStep(before, Run(before), trace[|trace| - 1]);
      assert before + [trace[|trace| - 1]] == trace;
    }
  }

  // The six-hour lifetime is never granted on anything less than an acknowledged SYN.
  lemma LongLifetimeNeedsHandshake(trace: seq<Segment>)
    requires Run(trace).ttl == ESTABLISHED_TTL
    ensures exists i, j :: AcknowledgedSyn(trace, i, j)
  {
    EveryTraceExplained(trace);
  }

  // Each first-closed state has seen both FINs, in the order its name says.
  lemma FirstClosedNeedsBothFins(trace: seq<Segment>)
    ensures Run(trace).state == InboundFirstClosed ==> exists i, j :: FinsInOrder(trace, i, j, true)
    ensures Run(trace).state == OutboundFirstClosed ==> exists i, j :: FinsInOrder(trace, i, j, false)
  {
    EveryTraceExplained(trace);
  }

  // A first-closed tracker is frozen until a reset arrives.
  lemma {:induction false} OnlyResetLeavesFirstClosed(trace: seq<Segment>, more: seq<Segment>)
    requires Run(trace).state in {InboundFirstClosed, OutboundFirstClosed}
    requires NoResetSince(more, 0)
    ensures Run(trace + more) == Run(trace)
  {
    LifetimeIsPositive(trace);
    if more == [] {
      assert trace + more == trace;
    } else {
      var init := more[..|more| - 1];
      OnlyResetLeavesFirstClosed(trace, init);
      assert (trace + more)[..|trace + more| - 1] == trace + init;
    }
  }

  lemma {:induction false} LifetimeIsPositive(trace: seq<Segment>)
    requires trace != []
    ensures Run(trace).ttl > 0
  {
    if |trace| > 1 {
      LifetimeIsPositive(trace[..|trace| - 1]);
    }
  }

  // Two trackers that differ at most in a sequence number that state Reset never reads.
  ghost predicate Alike(a: Tracker, b: Tracker) {
    a.state == b.state && a.ttl == b.ttl && (a.state != Reset ==> a.seqNo == b.seqNo)
  }

  // Whatever happened before a reset, only the segments after it decide state and lifetime.
  lemma {:induction false} ResetForgets(before: seq<Segment>, other: seq<Segment>, r: Segment, after: seq<Segment>)
    requires r.rst
    ensures Alike(Run(before + [r] + after), Run(other + [r] + after))
  {
    if after == [] {
      assert (before + [r] + after)[..|before|] == before;
      assert (other + [r] + after)[..|other|] == other;
    } else {
      var init := after[..|after| - 1];
      ResetForgets(before, other, r, init);
      assert (before + [r] + after)[..|before| + |after|] == before + [r] + init;
      assert (other + [r] + after)[..|other| + |after|] == other + [r] + init;
    }
  }

  // Both three-way handshakes do reach the long lifetime after any trace that ends untracked.
  lemma HandshakesEstablish(trace: seq<Segment>, syn: Segment, synAck: Segment, last: Segment)
    requires Run(trace).state == Reset
    requires syn.syn && !syn.rst && synAck.syn && !synAck.rst && !last.rst
    requires synAck.ack && synAck.acknowledgment == Successor(syn.sequence)
    requires last.ack && last.acknowledgment == Successor(synAck.sequence)
    requires syn.incoming != synAck.incoming && !last.incoming
    ensures syn.incoming ==> Run(trace + [syn] + [synAck]).ttl == ESTABLISHED_TTL
    ensures !syn.incoming ==> Run(trace + [syn] + [synAck] + [last]).ttl == ESTABLISHED_TTL
  {
    var n := |trace|;
    assert (trace + [syn])[..n] == trace;
    assert (trace + [syn] + [synAck])[..n + 1] == trace + [syn];
    assert (trace + [syn] + [synAck] + [last])[..n + 2] == trace + [syn] + [synAck];
    assert Run(trace + [syn]) == Observe(Run(trace), syn);
    assert Run(trace + [syn] + [synAck]) == Observe(Run(trace + [syn]), synAck);
  }

  // ---- The state by the landmarks of the trace ----

  // What a segment may show, independently of any state.
  datatype Sign =
    | Syn
    | SynFrom(incoming: bool)
    | Answer(to: uint32)           // an incoming SYN that acknowledges `to`
    | Confirmation(to: uint32)     // an outgoing segment that acknowledges `to`
    | Fin
    | FinFrom(incoming: bool)

  predicate AcksNumber(p: Segment, number: uint32) {
    p.ack && p.acknowledgment == Successor(number)
  }

  predicate Shows(p: Segment, sign: Sign) {
    match sign
    case Syn => p.syn
    case SynFrom(incoming) => p.syn && p.incoming == incoming
    case Answer(to) => p.syn && p.incoming && AcksNumber(p, to)
    case Confirmation(to) => !p.incoming && AcksNumber(p, to)
    case Fin => p.fin
    case FinFrom(incoming) => p.fin && p.incoming == incoming
  }

  // The first segment at or after `from` that shows one sign or the other; the length of the trace if none does.
  function First(trace: seq<Segment>, from: nat, sign: Sign, other: Sign): (at: nat)
    requires from <= |trace|
    ensures from <= at <= |trace|
    ensures at < |trace| ==> Shows(trace[at], sign) || Shows(trace[at], other)
    ensures forall k :: from <= k < at ==> !Shows(trace[k], sign) && !Shows(trace[k], other)
    decreases |trace| - from
  {
    if from == |trace| || Shows(trace[from], sign) || Shows(trace[from], other) then from
    else First(trace, from + 1, sign, other)
  }

  lemma {:induction false} FirstGrows(trace: seq<Segment>, p: Segment, from: nat, sign: Sign, other: Sign)
    requires from <= |trace|
    ensures var at, at' := First(trace, from, sign, other), First(trace + [p], from, sign, other);
            at' == if at < |trace| || Shows(p, sign) || Shows(p, other) then at else |trace| + 1
    decreases |trace| - from
  {
    hide Shows;
    var longer := trace + [p];
    if from < |trace| {
      assert longer[from] == trace[from];
      FirstGrows(trace, p, from + 1, sign, other);
    } else {
      assert longer[from] == p && First(longer, from + 1, sign, other) == from + 1;
    }
  }

  // A FIN at m; `ttl` is the lifetime it found.
  function AfterFin(trace: seq<Segment>, m: nat, seqNo: uint32, ttl: nat): Tracker
    requires m < |trace|
  {
    var answered := First(trace, m + 1, FinFrom(!trace[m].incoming), FinFrom(!trace[m].incoming)) < |trace|;
    if trace[m].incoming then
      if answered then Tracker(InboundFirstClosed, seqNo, 120) else Tracker(InboundFin, seqNo, ttl)
    else
      if answered then Tracker(OutboundFirstClosed, seqNo, 30) else Tracker(OutboundFin, seqNo, ttl)
  }

  // Established by the segment before k.
  function AfterHandshake(trace: seq<Segment>, k: nat, seqNo: uint32): Tracker
    requires k <= |trace|
  {
    var m := First(trace, k, Fin, Fin);
    if m < |trace| then AfterFin(trace, m, seqNo, 6 * 3600) else Tracker(Established, seqNo, 6 * 3600)
  }

  // A SYN at j that still waits for its confirmation.
  function AfterSynAck(trace: seq<Segment>, j: nat): Tracker
    requires j < |trace|
  {
    var number := trace[j].sequence;
    var k := First(trace, j + 1, Confirmation(number), Fin);
    if k == |trace| then Tracker(SynAck, number, 60)
    else if Shows(trace[k], Confirmation(number)) then AfterHandshake(trace, k + 1, number)
    else AfterFin(trace, k, number, 60)
  }

  // The first SYN at i.
  function AfterSyn(trace: seq<Segment>, i: nat): Tracker
    requires i < |trace|
  {
    var number := trace[i].sequence;
    if trace[i].incoming then
      var j := First(trace, i + 1, SynFrom(false), SynFrom(false));
      if j == |trace| then Tracker(InboundSyn, number, 120)
      else if AcksNumber(trace[j], number) then AfterHandshake(trace, j + 1, number)
      else AfterSynAck(trace, j)
    else
      var j := First(trace, i + 1, Answer(number), Answer(number));
      if j == |trace| then Tracker(OutboundSyn, number, 60) else AfterSynAck(trace, j)
  }

  // The whole story of a trace without resets; `idle` is the lifetime before the first SYN.
  function Story(trace: seq<Segment>, idle: nat): Tracker {
    var i := First(trace, 0, Syn, Syn);
    if i == |trace| then Tracker(Reset, 0, idle) else AfterSyn(trace, i)
  }

  // The segments after the last reset.
  function SinceReset(trace: seq<Segment>): seq<Segment> {
    if trace == [] || trace[|trace| - 1].rst then [] else SinceReset(trace[..|trace| - 1]) + [trace[|trace| - 1]]
  }

  function IdleLifetime(trace: seq<Segment>): nat {
    if trace == [] then 0 else if NoReset(trace) then 60 else 90
  }

  predicate NoReset(trace: seq<Segment>) {
    forall k :: 0 <= k < |trace| ==> !trace[k].rst
  }

  // A landmark that the trace has just reached.
  lemma JustReached(trace: seq<Segment>, seqNo: uint32, ttl: nat)
    requires trace != []
    ensures var n := |trace| - 1;
            && AfterFin(trace, n, seqNo, ttl) == Tracker(if trace[n].incoming then InboundFin else OutboundFin, seqNo, ttl)
            && AfterHandshake(trace, n + 1, seqNo) == Tracker(Established, seqNo, 6 * 3600)
            && AfterSynAck(trace, n) == Tracker(SynAck, trace[n].sequence, 60)
  {
  }

  lemma FinStep(trace: seq<Segment>, p: Segment, m: nat, seqNo: uint32, ttl: nat)
    requires m < |trace| && !p.rst && ttl > 0
    ensures AfterFin(trace + [p], m, seqNo, ttl) == Observe(AfterFin(trace, m, seqNo, ttl), p)
  {
    FirstGrows(trace, p, m + 1, FinFrom(!trace[m].incoming), FinFrom(!trace[m].incoming));
  }

  lemma HandshakeStep(trace: seq<Segment>, p: Segment, k: nat, seqNo: uint32)
    requires k <= |trace| && !p.rst
    ensures AfterHandshake(trace + [p], k, seqNo) == Observe(AfterHandshake(trace, k, seqNo), p)
  {
    FirstGrows(trace, p, k, Fin, Fin);
    if First(trace, k, Fin, Fin) < |trace| {
      FinStep(trace, p, First(trace, k, Fin, Fin), seqNo, 6 * 3600);
    }
  }

  lemma SynAckStep(trace: seq<Segment>, p: Segment, j: nat)
    requires j < |trace| && !p.rst
    ensures AfterSynAck(trace + [p], j) == Observe(AfterSynAck(trace, j), p)
  {
    hide First, AfterHandshake, AfterFin;
    var number := trace[j].sequence;
    var k := First(trace, j + 1, Confirmation(number), Fin);
    FirstGrows(trace, p, j + 1, Confirmation(number), Fin);
    JustReached(trace + [p], number, 60);
    if k < |trace| {
      if Shows(trace[k], Confirmation(number)) {
        HandshakeStep(trace, p, k + 1, number);
      } else {
        FinStep(trace, p, k, number, 60);
      }
    }
  }

  lemma SynStep(trace: seq<Segment>, p: Segment, i: nat)
    requires i < |trace| && !p.rst
    ensures AfterSyn(trace + [p], i) == Observe(AfterSyn(trace, i), p)
  {
    hide First, AfterHandshake, AfterFin, AfterSynAck;
    var number := trace[i].sequence;
    var sign := if trace[i].incoming then SynFrom(false) else Answer(number);
    var j := First(trace, i + 1, sign, sign);
    FirstGrows(trace, p, i + 1, sign, sign);
    JustReached(trace + [p], number, 60);
    if j < |trace| {
      if trace[i].incoming && AcksNumber(trace[j], number) {
        HandshakeStep(trace, p, j + 1, number);
      } else {
        SynAckStep(trace, p, j);
      }
    }
  }

  lemma StoryStep(trace: seq<Segment>, idle: nat, p: Segment, idle': nat)
    requires !p.rst && idle' == if idle == 0 then 60 else idle
    ensures Story(trace + [p], idle') == Observe(Story(trace, idle), p)
  {
    FirstGrows(trace, p, 0, Syn, Syn);
    var i := First(trace, 0, Syn, Syn);
    if i < |trace| {
      SynStep(trace, p, i);
    }
  }

  lemma AlikeStep(a: Tracker, b: Tracker, p: Segment)
    requires Alike(a, b)
    ensures Alike(Observe(a, p), Observe(b, p))
  {
  }

  // The state machine and the landmarks agree on every trace: state, sequence number and lifetime after a
  // trace are what the places of its SYNs, acknowledgments and FINs since the last reset say.
  lemma {:induction false} LandmarksDecide(trace: seq<Segment>)
    ensures Alike(Run(trace), Story(SinceReset(trace), IdleLifetime(trace)))
  {
    if trace != [] {
      hide Observe, Story, Alike, NoReset;
      var before, p := trace[..|trace| - 1], trace[|trace| - 1];
      LandmarksDecide(before);
      NoResetByStep(trace);
      if p.rst {
        ResetAlone(Run(before), p);
      } else {
        AlikeStep(Run(before), Story(SinceReset(before), IdleLifetime(before)), p);
        StoryStep(SinceReset(before), IdleLifetime(before), p, IdleLifetime(trace));
      }
    }
  }

  lemma NoResetByStep(trace: seq<Segment>)
    requires trace != []
    ensures NoReset(trace) <==> NoReset(trace[..|trace| - 1]) && !trace[|trace| - 1].rst
    ensures NoReset([])
  {
  }

  lemma ResetAlone(t: Tracker, p: Segment)
    requires p.rst
    ensures Alike(Observe(t, p), Story([], 90))
  {
  }

  // Established, or waiting for a confirmation that the FIN is not: FINs in both directions, whatever else
  // comes between, close the flow in the order in which they came.
  lemma {:induction false} BothFinsClose(trace: seq<Segment>, fin: Segment, between: seq<Segment>, last: Segment)
    requires Run(trace).state == Established
             || (Run(trace).state == SynAck && !(!fin.incoming && AcksNumber(fin, Run(trace).seqNo)))
    requires fin.fin && !fin.rst && last.fin && !last.rst && last.incoming != fin.incoming
    requires forall k :: 0 <= k < |between| ==> !between[k].rst && !(between[k].fin && between[k].incoming != fin.incoming)
    ensures var closed := Run(trace + [fin] + between + [last]);
            if fin.incoming then closed.state == InboundFirstClosed && closed.ttl == 120
            else closed.state == OutboundFirstClosed && closed.ttl == 30
  {
    FinStays(trace, fin, between);
    var all := trace + [fin] + between;
    assert (all + [last])[..|all|] == all;
  }

  lemma {:induction false} FinStays(trace: seq<Segment>, fin: Segment, between: seq<Segment>)
    requires Run(trace).state == Established
             || (Run(trace).state == SynAck && !(!fin.incoming && AcksNumber(fin, Run(trace).seqNo)))
    requires fin.fin && !fin.rst
    requires forall k :: 0 <= k < |between| ==> !between[k].rst && !(between[k].fin && between[k].incoming != fin.incoming)
    ensures Run(trace + [fin] + between).state == if fin.incoming then InboundFin else OutboundFin
  {
    if between == [] {
      assert (trace + [fin])[..|trace|] == trace && trace + [fin] + between == trace + [fin];
    } else {
      var earlier := between[..|between| - 1];
      FinStays(trace, fin, earlier);
      var all := trace + [fin] + between;
      assert all[..|all| - 1] == trace + [fin] + earlier;
    }
  }
}
