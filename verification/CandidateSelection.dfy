// The candidate stage of a name resolution: answers, failures, the preference
// timer and the context's end in whatever order they come.
module CandidateSelection {
  import opened Prelude

  // Addresses as the resolver holds them: IPv4 in either of its two forms, IPv6, or none at all.
  datatype IP = Nil | V4(v4: uint32) | Mapped(v4: uint32) | V6(bytes: seq<byte>)

  predicate Equal(a: IP, b: IP) {
    a == b || (!a.Nil? && !b.Nil? && !a.V6? && !b.V6? && a.v4 == b.v4)
  }

  datatype Event =
    | Answer(source: string, ips: seq<IP>, failed: bool)
    | Timer
    | ContextDone

  datatype Outcome = Selected(ip: IP) | ContextError | AllFailed

  type Preference = Option<IP -> bool>

  predicate Prefers(preferred: Preference, ip: IP) {
    preferred.Some? && preferred.value(ip)
  }

  // ---- What has been learned from a list of events ----

  function Answers(events: seq<Event>): seq<IP> {
    if events == [] then [] else
    var e := events[|events| - 1];
    Answers(events[..|events| - 1]) + (if e.Answer? && !e.failed then e.ips else [])
  }

  function Count(events: seq<Event>): nat {
    if events == [] then 0 else Count(events[..|events| - 1]) + (if events[|events| - 1].Answer? then 1 else 0)
  }

  function Timers(events: seq<Event>): nat {
    if events == [] then 0 else Timers(events[..|events| - 1]) + (if events[|events| - 1].Timer? then 1 else 0)
  }

  predicate Heard(events: seq<Event>, source: string) {
    exists e :: e in events && e.Answer? && e.source == source
  }

  predicate AnyPreferred(preferred: Preference, ips: seq<IP>) {
    exists ip :: ip in ips && Prefers(preferred, ip)
  }

  predicate AnyAddress(ips: seq<IP>) {
    exists ip :: ip in ips && !ip.Nil?
  }

  // The first preferred address of a list if there is one, else its first address.
  function Best(preferred: Preference, ips: seq<IP>): Option<IP> {
    if AnyPreferred(preferred, ips) then FirstPreferred(preferred, ips) else FirstAddress(ips)
  }

  function FirstPreferred(preferred: Preference, ips: seq<IP>): Option<IP> {
    if ips == [] then None else if Prefers(preferred, ips[0]) then Some(ips[0]) else FirstPreferred(preferred, ips[1..])
  }

  function FirstAddress(ips: seq<IP>): Option<IP> {
    if ips == [] then None else if !ips[0].Nil? then Some(ips[0]) else FirstAddress(ips[1..])
  }

  lemma {:induction false} FirstPreferredAt(preferred: Preference, before: seq<IP>, ip: IP, after: seq<IP>)
    requires !AnyPreferred(preferred, before) && Prefers(preferred, ip)
    ensures FirstPreferred(preferred, before + [ip] + after) == Some(ip)
    ensures AnyPreferred(preferred, before + [ip] + after)
  {
    assert ip in before + [ip] + after;
    if before != [] {
      assert before[0] in before;
      assert (before + [ip] + after)[1..] == before[1..] + [ip] + after;
      forall x | x in before[1..] ensures !Prefers(preferred, x) { assert x in before; }
      FirstPreferredAt(preferred, before[1..], ip, after);
    }
  }

  // ---- The candidates ----

  function AppendUnique(candidates: seq<IP>, ip: IP): seq<IP> {
    if ip.Nil? || (exists c :: c in candidates && Equal(c, ip)) then candidates else candidates + [ip]
  }

  function Unique(ips: seq<IP>): seq<IP> {
    if ips == [] then [] else AppendUnique(Unique(ips[..|ips| - 1]), ips[|ips| - 1])
  }

  // The candidates are addresses of the list, led by its first; there are none only if it has none.
  lemma {:induction false} UniqueKeepsFirst(ips: seq<IP>)
    ensures forall c :: c in Unique(ips) ==> c in ips && !c.Nil?
    ensures Unique(ips) == [] ==> FirstAddress(ips) == None && !AnyAddress(ips)
    ensures Unique(ips) != [] ==> FirstAddress(ips) == Some(Unique(ips)[0]) && AnyAddress(ips)
  {
    if ips != [] {
      var n := |ips| - 1;
      UniqueKeepsFirst(ips[..n]);
      assert ips == ips[..n] + [ips[n]];
      FirstAddressAppends(ips[..n], ips[n]);
    }
  }

  lemma {:induction false} FirstAddressAppends(ips: seq<IP>, ip: IP)
    ensures FirstAddress(ips + [ip]) ==
            if FirstAddress(ips).Some? then FirstAddress(ips) else if ip.Nil? then None else Some(ip)
  {
    if ips == [] {
      assert ips + [ip] == [ip];
    } else {
      assert (ips + [ip])[1..] == ips[1..] + [ip];
      FirstAddressAppends(ips[1..], ip);
    }
  }

  method AppendUniqueIPs(values: seq<IP>, candidate: IP) returns (r: seq<IP>)
    ensures r == AppendUnique(values, candidate)
  {
    if candidate.Nil? {
      return values;
    }
    for k := 0 to |values|
      invariant forall c :: c in values[..k] ==> !Equal(c, candidate)
    {
      if Equal(values[k], candidate) {
        return values;
      }
    }
    assert values[..|values|] == values;
    return values + [candidate];
  }

  // ---- The event loop ----

  // What the stage starts with: the history, the lookups under way, and which of them it waits for.
  datatype Setup = Setup(history: seq<IP>, pending: nat, waitSystem: bool, waitPolicy: bool, preferred: Preference)

  function Learned(setup: Setup, events: seq<Event>): seq<IP> {
    setup.history + Answers(events)
  }

  predicate Ready(setup: Setup, events: seq<Event>) {
    && (setup.waitSystem ==> Heard(events, "system"))
    && (setup.waitPolicy ==> Heard(events, "policy-secondary"))
  }

  // The stage ends with the last of these events: everything is in, a preferred address turned up, or
  // there is some address and either the window closed or the answers it waits for are in.
  predicate Ends(setup: Setup, events: seq<Event>)
    requires events != []
  {
    var e := events[|events| - 1];
    || e.ContextDone?
    || Count(events) == setup.pending
    || AnyPreferred(setup.preferred, Learned(setup, events))
    || (AnyAddress(Learned(setup, events)) && (e.Timer? || Ready(setup, events)))
  }

  // The lookups answer once each, the timer fires at most once.
  ghost predicate Plausible(setup: Setup, events: seq<Event>) {
    && Timers(events) <= 1
    && (Count(events) == setup.pending || (events != [] && events[|events| - 1].ContextDone?))
  }

  lemma {:induction false} CountsGrow(events: seq<Event>, k: nat)
    requires k <= |events|
    ensures Count(events[..k]) <= Count(events) && Timers(events[..k]) <= Timers(events)
    ensures Count(events[..k]) + Timers(events[..k]) <= k
    ensures (forall j :: 0 <= j < k ==> !events[j].ContextDone?) ==> Count(events[..k]) + Timers(events[..k]) == k
  {
    if k < |events| {
      CountsGrow(events[..|events| - 1], k);
      assert events[..|events| - 1][..k] == events[..k];
    } else {
      assert events[..k] == events;
      if k > 0 {
        CountsGrow(events[..k - 1], k - 1);
        assert events[..k - 1][..k - 1] == events[..k - 1];
      }
    }
  }

  lemma OneAddressMore(preferred: Preference, ips: seq<IP>, ip: IP)
    ensures Unique(ips + [ip]) == AppendUnique(Unique(ips), ip)
    ensures AnyPreferred(preferred, ips + [ip]) <==> AnyPreferred(preferred, ips) || Prefers(preferred, ip)
  {
    assert (ips + [ip])[..|ips|] == ips;
    assert ip in ips + [ip];
    assert forall x :: x in ips + [ip] <==> x in ips || x == ip;
  }

  lemma BestIsPreferred(preferred: Preference, ips: seq<IP>)
    requires AnyPreferred(preferred, ips)
    ensures Best(preferred, ips) == FirstPreferred(preferred, ips)
  {
  }

  // The answer of one event, address by address; stops at a preferred one.
  method Learn(setup: Setup, ghost before: seq<IP>, candidates: seq<IP>, ips: seq<IP>)
    returns (grown: seq<IP>, found: Option<IP>)
    requires candidates == Unique(before) && !AnyPreferred(setup.preferred, before)
    ensures found.None? ==> grown == Unique(before + ips) && !AnyPreferred(setup.preferred, before + ips)
    ensures found.Some? ==> Best(setup.preferred, before + ips) == found && AnyPreferred(setup.preferred, before + ips)
  {
    hide Unique, AnyPreferred, AppendUnique, Best;
    grown := candidates;
    assert before + ips[..0] == before;
    for k := 0 to |ips|
      invariant grown == Unique(before + ips[..k]) && !AnyPreferred(setup.preferred, before + ips[..k])
    {
      assert before + ips[..k + 1] == before + ips[..k] + [ips[k]];
      OneAddressMore(setup.preferred, before + ips[..k], ips[k]);
      grown := AppendUniqueIPs(grown, ips[k]);
      if Prefers(setup.preferred, ips[k]) {
        FirstPreferredAt(setup.preferred, before + ips[..k], ips[k], ips[k + 1..]);
        assert before + ips[..k] + [ips[k]] + ips[k + 1..] == before + ips;
        BestIsPreferred(setup.preferred, before + ips);
        return grown, Some(ips[k]);
      }
    }
    assert ips[..|ips|] == ips;
    found := None;
  }

  // The stage has not ended with any of the first k events.
  ghost predicate Going(setup: Setup, events: seq<Event>, k: nat)
    requires k <= |events|
  {
    forall j :: 0 < j <= k ==> !Ends(setup, events[..j])
  }

  // One more event.
  lemma OneMore(events: seq<Event>, k: nat)
    requires k < |events|
    ensures events[..k + 1] != [] && events[..k + 1][|events[..k + 1]| - 1] == events[k]
    ensures Answers(events[..k + 1]) ==
            Answers(events[..k]) + (if events[k].Answer? && !events[k].failed then events[k].ips else [])
    ensures Count(events[..k + 1]) == Count(events[..k]) + (if events[k].Answer? then 1 else 0)
    ensures forall source :: Heard(events[..k + 1], source) <==>
              Heard(events[..k], source) || (events[k].Answer? && events[k].source == source)
  {
    var before, after := events[..k], events[..k + 1];
    assert after[..k] == before;
    assert after == before + [events[k]];
    assert forall e :: e in after <==> e in before || e == events[k];
    forall source: string
      ensures Heard(after, source) <==> Heard(before, source) || (events[k].Answer? && events[k].source == source)
    {
      assert events[k] in after;
    }
  }

  // The first preferred address of a list, if any.
  method FirstPreferredOf(preferred: Preference, ips: seq<IP>) returns (found: Option<IP>)
    ensures found.None? <==> !AnyPreferred(preferred, ips)
    ensures found.Some? ==> found == FirstPreferred(preferred, ips)
  {
    for k := 0 to |ips|
      invariant !AnyPreferred(preferred, ips[..k])
    {
      assert ips[..k + 1] == ips[..k] + [ips[k]];
      if Prefers(preferred, ips[k]) {
        FirstPreferredAt(preferred, ips[..k], ips[k], ips[k + 1..]);
        assert ips == ips[..k] + [ips[k]] + ips[k + 1..];
        return Some(ips[k]);
      }
    }
    assert ips[..|ips|] == ips;
    found := None;
  }

  method FinalScan(preferred: Preference, candidates: seq<IP>) returns (selected: IP)
    requires candidates != []
    ensures if AnyPreferred(preferred, candidates) then Some(selected) == FirstPreferred(preferred, candidates)
            else selected == candidates[0]
  {
    selected := candidates[0];
    var found := FirstPreferredOf(preferred, candidates);
    if found.Some? {
      selected := found.value;
    }
  }

  method HistoryCandidates(setup: Setup) returns (candidates: seq<IP>)
    ensures candidates == Unique(setup.history)
  {
    candidates := [];
    for k := 0 to |setup.history|
      invariant candidates == Unique(setup.history[..k])
    {
      assert setup.history[..k + 1][..k] == setup.history[..k];
      candidates := AppendUniqueIPs(candidates, setup.history[k]);
    }
    assert setup.history[..|setup.history|] == setup.history;
  }

  // The scan at the end never changes the choice: everything preferred was returned on sight.
  lemma FinalScanIsIdle(preferred: Preference, ips: seq<IP>)
    requires !AnyPreferred(preferred, ips)
    ensures !AnyPreferred(preferred, Unique(ips))
    ensures Unique(ips) != [] ==> Best(preferred, ips) == Some(Unique(ips)[0])
    ensures Unique(ips) == [] <==> !AnyAddress(ips)
  {
    UniqueKeepsFirst(ips);
  }

  // What the loop knows after k events.
  ghost predicate Knows(setup: Setup, events: seq<Event>, k: nat, candidates: seq<IP>, systemDone: bool,
                        policyDone: bool)
    requires k <= |events|
  {
    && candidates == Unique(Learned(setup, events[..k]))
    && !AnyPreferred(setup.preferred, Learned(setup, events[..k]))
    && (systemDone <==> (setup.waitSystem ==> Heard(events[..k], "system")))
    && (policyDone <==> (setup.waitPolicy ==> Heard(events[..k], "policy-secondary")))
  }

  // One answer.
  method HandleAnswer(setup: Setup, ghost events: seq<Event>, ghost k: nat, e: Event, candidates: seq<IP>,
                      systemDone: bool, policyDone: bool)
    returns (grown: seq<IP>, system: bool, policy: bool, enough: bool, found: Option<IP>)
    requires k < |events| && e == events[k] && e.Answer? && Knows(setup, events, k, candidates, systemDone, policyDone)
    ensures found.Some? ==> Best(setup.preferred, Learned(setup, events[..k + 1])) == found && Ends(setup, events[..k + 1])
    ensures found.None? ==> Knows(setup, events, k + 1, grown, system, policy)
    ensures found.None? ==> (Ends(setup, events[..k + 1]) <==> enough || Count(events[..k + 1]) == setup.pending)
    ensures enough && found.None? ==> grown != []
  {
    OneMore(events, k);
    var before, after := Learned(setup, events[..k]), Learned(setup, events[..k + 1]);
    system := systemDone || e.source == "system";
    policy := policyDone || e.source == "policy-secondary";
    grown, found := candidates, None;
    if !e.failed {
      assert after == before + e.ips;
      grown, found := Learn(setup, before, candidates, e.ips);
      if found.Some? {
        enough := true;
        return;
      }
    } else {
      assert after == before + [];
      assert after == before;
    }
    FinalScanIsIdle(setup.preferred, after);
    enough := |grown| > 0 && system && policy;
  }

  lemma AtOther(setup: Setup, events: seq<Event>, k: nat, candidates: seq<IP>, systemDone: bool, policyDone: bool)
    requires k < |events| && !events[k].Answer? && Knows(setup, events, k, candidates, systemDone, policyDone)
    ensures Knows(setup, events, k + 1, candidates, systemDone, policyDone)
    ensures Count(events[..k + 1]) == Count(events[..k])
    ensures events[k].ContextDone? ==> Ends(setup, events[..k + 1])
    ensures events[k].Timer? && Count(events[..k]) != setup.pending ==> (Ends(setup, events[..k + 1]) <==> candidates != [])
  {
    OneMore(events, k);
    assert Learned(setup, events[..k + 1]) == Learned(setup, events[..k]) + [];
    assert Learned(setup, events[..k + 1]) == Learned(setup, events[..k]);
    FinalScanIsIdle(setup.preferred, Learned(setup, events[..k]));
  }

  lemma AtStart(setup: Setup, events: seq<Event>)
    requires !AnyPreferred(setup.preferred, setup.history)
    ensures Knows(setup, events, 0, Unique(setup.history), !setup.waitSystem, !setup.waitPolicy)
    ensures Learned(setup, events[..0]) == setup.history && Count(events[..0]) == 0 && Going(setup, events, 0)
  {
    assert events[..0] == [];
    assert setup.history + [] == setup.history;
  }

  // A successful stage selects the first preferred address it has processed, if there is one, and else
  // the first address of the history followed by the answers in the order they came. It ends with the
  // first event that ends it, after at most one more event than there are lookups.
  method Select(setup: Setup, events: seq<Event>, contextEnded: bool) returns (outcome: Outcome, consumed: nat)
    requires Plausible(setup, events)
    ensures consumed <= |events| && consumed <= setup.pending + 1
    ensures outcome.Selected? ==> Best(setup.preferred, Learned(setup, events[..consumed])) == Some(outcome.ip)
    ensures !outcome.Selected? ==>
              (consumed > 0 && events[consumed - 1].ContextDone? && outcome.ContextError?)
              || (!AnyAddress(Learned(setup, events[..consumed])) && Count(events[..consumed]) == setup.pending
                  && outcome == if contextEnded then ContextError else AllFailed)
    ensures consumed > 0 ==> Ends(setup, events[..consumed]) && Going(setup, events, consumed - 1)
    ensures consumed == 0 ==> setup.pending == 0 || AnyPreferred(setup.preferred, setup.history)
  {
    hide Ends, Knows, Count, Timers, Unique, AnyPreferred, AnyAddress, Best, Learned, Answers;
    consumed := 0;
    var candidates := HistoryCandidates(setup);
    var found := FirstPreferredOf(setup.preferred, setup.history);
    if found.Some? {
      OnlyHistory(setup, events, found.value);
      return Selected(found.value), 0;
    }
    AtStart(setup, events);
    var systemDone, policyDone := !setup.waitSystem, !setup.waitPolicy;
    var completed, k: nat := 0, 0;
    while completed < setup.pending
      invariant k <= |events| && completed <= setup.pending
      invariant Knows(setup, events, k, candidates, systemDone, policyDone)
      invariant forall j :: 0 <= j < k ==> !events[j].ContextDone?
      invariant completed < setup.pending ==> completed == Count(events[..k]) && Going(setup, events, k)
      invariant completed == setup.pending && k > 0 ==> Ends(setup, events[..k]) && Going(setup, events, k - 1)
      invariant completed == setup.pending ==> Count(events[..k]) == setup.pending || candidates != []
      invariant Count(events[..k]) <= setup.pending && (k == 0 ==> completed == 0)
      decreases |events| - k
    {
      NotOutOfEvents(setup, events, k);
      var e := events[k];
      if e.Answer? {
        var enough;
        OneMore(events, k);
        candidates, systemDone, policyDone, enough, found := HandleAnswer(setup, events, k, e, candidates, systemDone, policyDone);
        k, completed := k + 1, completed + 1;
        if found.Some? {
          consumed := k;
          AtMost(setup, events, k);
          return Selected(found.value), consumed;
        }
        if enough {
          completed := setup.pending;
        }
      } else {
        AtOther(setup, events, k, candidates, systemDone, policyDone);
        k := k + 1;
        if e.ContextDone? {
          consumed := k;
          AtMost(setup, events, k);
          return ContextError, consumed;
        }
        if |candidates| > 0 {
          completed := setup.pending;
        }
      }
    }
    consumed := k;
    AtMost(setup, events, k);
    KnowsCandidates(setup, events, k, candidates, systemDone, policyDone);
    if |candidates| == 0 {
      return if contextEnded then ContextError else AllFailed, consumed;
    }
    var selected := FinalScan(setup.preferred, candidates);
    return Selected(selected), consumed;
  }

  lemma OnlyHistory(setup: Setup, events: seq<Event>, ip: IP)
    requires AnyPreferred(setup.preferred, setup.history) && FirstPreferred(setup.preferred, setup.history) == Some(ip)
    ensures Best(setup.preferred, Learned(setup, events[..0])) == Some(ip)
  {
    assert events[..0] == [];
    assert setup.history + [] == setup.history;
  }

  lemma NotOutOfEvents(setup: Setup, events: seq<Event>, k: nat)
    requires Plausible(setup, events) && k <= |events| && Count(events[..k]) < setup.pending
    requires forall j :: 0 <= j < k ==> !events[j].ContextDone?
    ensures k < |events|
  {
    assert events[..|events|] == events;
  }

  lemma AtMost(setup: Setup, events: seq<Event>, k: nat)
    requires Plausible(setup, events) && k <= |events| && Count(events[..k]) <= setup.pending
    requires forall j :: 0 <= j < k - 1 ==> !events[j].ContextDone?
    requires k > 0 && events[k - 1].ContextDone? ==> Count(events[..k]) < setup.pending
    ensures k <= setup.pending + 1
  {
    CountsGrow(events, k);
    if k > 0 {
      OneMore(events, k - 1);
      CountsGrow(events, k - 1);
    }
  }

  lemma KnowsCandidates(setup: Setup, events: seq<Event>, k: nat, candidates: seq<IP>, systemDone: bool,
                        policyDone: bool)
    requires k <= |events| && Knows(setup, events, k, candidates, systemDone, policyDone)
    ensures !AnyPreferred(setup.preferred, candidates)
    ensures candidates == [] ==> !AnyAddress(Learned(setup, events[..k]))
    ensures candidates != [] ==> Best(setup.preferred, Learned(setup, events[..k])) == Some(candidates[0])
  {
    FinalScanIsIdle(setup.preferred, Learned(setup, events[..k]));
  }

  // ---- The choice on the events ----

  // An address that the history or a successful answer gave.
  ghost predicate Given(setup: Setup, events: seq<Event>, ip: IP) {
    ip in setup.history || exists e :: e in events && e.Answer? && !e.failed && ip in e.ips
  }

  // The sources that the stage waits for have answered.
  ghost predicate AllWaitedFor(setup: Setup, events: seq<Event>) {
    && (setup.waitSystem ==> exists e :: e in events && e.Answer? && e.source == "system")
    && (setup.waitPolicy ==> exists e :: e in events && e.Answer? && e.source == "policy-secondary")
  }

  lemma {:induction false} LearnedIsGiven(setup: Setup, events: seq<Event>, ip: IP)
    ensures ip in Learned(setup, events) <==> Given(setup, events, ip)
  {
    if events != [] {
      var n := |events| - 1;
      LearnedIsGiven(setup, events[..n], ip);
      assert events == events[..n] + [events[n]];
      assert ip in Answers(events) <==>
             ip in Answers(events[..n]) || (events[n].Answer? && !events[n].failed && ip in events[n].ips);
    }
  }

  // The stage ends with an event exactly when the context ended, every lookup has answered, a preferred address
  // was given, or some address was given and the window is over or the sources it waits for have answered.
  lemma EndsOnEvents(setup: Setup, events: seq<Event>)
    requires events != []
    ensures Ends(setup, events) <==>
            || events[|events| - 1].ContextDone?
            || Count(events) == setup.pending
            || (setup.preferred.Some? && exists ip :: Given(setup, events, ip) && setup.preferred.value(ip))
            || ((exists ip :: Given(setup, events, ip) && !ip.Nil?)
                && (events[|events| - 1].Timer? || AllWaitedFor(setup, events)))
  {
    forall ip: IP
      ensures ip in Learned(setup, events) <==> Given(setup, events, ip)
    {
      LearnedIsGiven(setup, events, ip);
    }
    hide Learned, Given, Count;
  }

  // Both are IPv4, in whatever form, and the same address; or they are the same.
  predicate SameAddress(a: IP, b: IP) {
    a == b || ((a.V4? || a.Mapped?) && (b.V4? || b.Mapped?) && a.v4 == b.v4)
  }

  ghost predicate OfDifferentAddresses(ips: seq<IP>) {
    forall i, j :: 0 <= i < j < |ips| ==> !SameAddress(ips[i], ips[j])
  }

  ghost predicate Among(candidates: seq<IP>, ip: IP) {
    exists c :: c in candidates && SameAddress(c, ip)
  }

  lemma SameOrDifferent(candidates: seq<IP>, ip: IP)
    requires OfDifferentAddresses(candidates) && forall c :: c in candidates ==> !c.Nil?
    ensures OfDifferentAddresses(AppendUnique(candidates, ip))
    ensures !ip.Nil? ==> Among(AppendUnique(candidates, ip), ip)
    ensures candidates <= AppendUnique(candidates, ip)
  {
    assert forall c :: c in candidates ==> (Equal(c, ip) <==> SameAddress(c, ip)) || ip.Nil?;
    if AppendUnique(candidates, ip) != candidates {
      var longer := candidates + [ip];
      assert longer[|candidates|] == ip && SameAddress(ip, ip);
      assert forall i :: 0 <= i < |candidates| ==> candidates[i] in candidates;
    }
  }

  lemma StillAmong(candidates: seq<IP>, longer: seq<IP>, ip: IP)
    requires candidates <= longer && Among(candidates, ip)
    ensures Among(longer, ip)
  {
    var c :| c in candidates && SameAddress(c, ip);
    var i :| 0 <= i < |candidates| && candidates[i] == c;
    assert longer[i] == c;
  }

  // The candidates are the addresses given, each once, whatever its form.
  lemma {:induction false} CandidatesOnce(ips: seq<IP>, ip: IP)
    ensures OfDifferentAddresses(Unique(ips))
    ensures ip in ips && !ip.Nil? ==> Among(Unique(ips), ip)
  {
    hide OfDifferentAddresses, Among, AppendUnique;
    if ips != [] {
      var n := |ips| - 1;
      CandidatesOnce(ips[..n], ip);
      UniqueKeepsFirst(ips[..n]);
      assert ips == ips[..n] + [ips[n]];
      SameOrDifferent(Unique(ips[..n]), ips[n]);
      if ip in ips[..n] && !ip.Nil? {
        StillAmong(Unique(ips[..n]), Unique(ips), ip);
      }
    } else {
      NothingDifferent();
    }
  }

  lemma NothingDifferent()
    ensures OfDifferentAddresses([])
  {
  }

  // The choice is a preferred address if one was given, and then the first; else the first address given.
  lemma {:induction false} BestIsFirst(preferred: Preference, ips: seq<IP>, k: nat)
    requires k < |ips|
    requires if AnyPreferred(preferred, ips) then
               Prefers(preferred, ips[k]) && forall j :: 0 <= j < k ==> !Prefers(preferred, ips[j])
             else !ips[k].Nil? && forall j :: 0 <= j < k ==> ips[j].Nil?
    ensures Best(preferred, ips) == Some(ips[k])
  {
    if AnyPreferred(preferred, ips) {
      assert ips == ips[..k] + [ips[k]] + ips[k + 1..];
      FirstPreferredAt(preferred, ips[..k], ips[k], ips[k + 1..]);
    } else {
      FirstAddressAt(ips, k);
    }
  }

  lemma {:induction false} FirstAddressAt(ips: seq<IP>, k: nat)
    requires k < |ips| && !ips[k].Nil? && forall j :: 0 <= j < k ==> ips[j].Nil?
    ensures FirstAddress(ips) == Some(ips[k])
  {
    if k > 0 {
      FirstAddressAt(ips[1..], k - 1);
    }
  }
}
