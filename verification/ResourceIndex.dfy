// The IP resource index: an interval tree over a resource list, and the plain
// scan of the list that it has to agree with.
module ResourceIndex {
  import opened Prelude

  // An address as the index sees it: IPv4, in either of its two forms, or anything else.
  datatype Address = V4(value: uint32) | Other

  datatype IPResource = IPResource(
    ipMin: Address, ipMax: Address, portMin: int, portMax: int,
    protocol: string, appID: string, nodeGroupID: string, enableTCPPrefL3: bool)

  datatype Query = Query(ip: uint32, protocol: string, port: int)

  // ---- What a resource list means ----

  predicate ValidRange(r: IPResource) {
    r.ipMin.V4? && r.ipMax.V4? && r.ipMin.value <= r.ipMax.value
  }

  predicate Covers(r: IPResource, q: Query) {
    && ValidRange(r)
    && r.ipMin.value <= q.ip <= r.ipMax.value
    && (r.protocol == q.protocol || r.protocol == "all")
    && (q.protocol == "icmp" || r.portMin <= q.port <= r.portMax)
  }

  predicate Matches(r: IPResource, q: Query, accept: IPResource -> bool) {
    Covers(r, q) && accept(r)
  }

  // The filter of the searches that take none.
  predicate Anything(r: IPResource) {
    true
  }

  function FirstMatch(resources: seq<IPResource>, q: Query, accept: IPResource -> bool): Option<IPResource> {
    if resources == [] then None
    else if Matches(resources[0], q, accept) then Some(resources[0])
    else FirstMatch(resources[1..], q, accept)
  }

  function LastMatch(resources: seq<IPResource>, q: Query, accept: IPResource -> bool): Option<IPResource> {
    if resources == [] then None
    else if Matches(resources[|resources| - 1], q, accept) then Some(resources[|resources| - 1])
    else LastMatch(resources[..|resources| - 1], q, accept)
  }

  // ---- The tree ----

  datatype Entry = Entry(resource: IPResource, start: uint32, end: uint32, order: nat)

  datatype Node = Nil | Node(entry: Entry, maxEnd: uint32, left: Node, right: Node)

  datatype Index = Index(root: Node)

  function Build(entries: seq<Entry>): Node {
    if entries == [] then Nil else
    var middle := |entries| / 2;
    var entry := entries[middle];
    var left := Build(entries[..middle]);
    var right := Build(entries[middle + 1..]);
    var end := if left.Node? && left.maxEnd > entry.end then left.maxEnd else entry.end;
    Node(entry, if right.Node? && right.maxEnd > end then right.maxEnd else end, left, right)
  }

  function Inorder(n: Node): seq<Entry> {
    if n.Nil? then [] else Inorder(n.left) + [n.entry] + Inorder(n.right)
  }

  function Height(n: Node): nat {
    if n.Nil? then 0 else 1 + Max(Height(n.left), Height(n.right))
  }

  function Log2(n: nat): nat
    requires n > 0
  {
    if n == 1 then 0 else 1 + Log2(n / 2)
  }

  lemma {:induction false} Log2Grows(m: nat, n: nat)
    requires 0 < m <= n
    ensures Log2(m) <= Log2(n)
  {
    if m > 1 {
      Log2Grows(m / 2, n / 2);
    }
  }

  // The tree is as flat as a binary tree of its size can be.
  lemma {:induction false} BuildIsBalanced(entries: seq<Entry>)
    ensures Height(Build(entries)) == if entries == [] then 0 else Log2(|entries|) + 1
  {
    if entries != [] {
      var middle := |entries| / 2;
      BuildIsBalanced(entries[..middle]);
      BuildIsBalanced(entries[middle + 1..]);
      if 0 < |entries| - middle - 1 {
        Log2Grows(|entries| - middle - 1, middle);
      }
    }
  }

  lemma {:induction false} BuildKeepsEntries(entries: seq<Entry>)
    ensures Inorder(Build(entries)) == entries
  {
    if entries != [] {
      var middle := |entries| / 2;
      BuildKeepsEntries(entries[..middle]);
      BuildKeepsEntries(entries[middle + 1..]);
      assert entries == entries[..middle] + [entries[middle]] + entries[middle + 1..];
    }
  }

  // ---- Search ----

  ghost predicate ByStart(entries: seq<Entry>) {
    forall i, j :: 0 <= i < j < |entries| ==> entries[i].start <= entries[j].start
  }

  ghost predicate EndsBelow(n: Node, bound: uint32) {
    forall e :: e in Inorder(n) ==> e.end <= bound
  }

  // Every subtree knows an upper bound of the range ends below it.
  ghost predicate Bounded(n: Node) {
    n.Node? ==> EndsBelow(n, n.maxEnd) && Bounded(n.left) && Bounded(n.right)
  }

  lemma {:induction false} BuildIsBounded(entries: seq<Entry>)
    ensures Bounded(Build(entries))
  {
    if entries != [] {
      var middle := |entries| / 2;
      BuildIsBounded(entries[..middle]);
      BuildIsBounded(entries[middle + 1..]);
    }
  }

  predicate EntryMatches(e: Entry, q: Query, accept: IPResource -> bool) {
    && e.start <= q.ip <= e.end
    && (e.resource.protocol == q.protocol || e.resource.protocol == "all")
    && (q.protocol == "icmp" || e.resource.portMin <= q.port <= e.resource.portMax)
    && accept(e.resource)
  }

  predicate Better(e: Entry, best: Option<Entry>, preferLast: bool) {
    best.None? || (!preferLast && e.order < best.value.order) || (preferLast && e.order > best.value.order)
  }

  // The scan of entries that the tree walk prunes.
  function Scan(entries: seq<Entry>, q: Query, preferLast: bool, accept: IPResource -> bool,
                best: Option<Entry>): Option<Entry> {
    if entries == [] then best else
    var e := entries[0];
    Scan(entries[1..], q, preferLast, accept, if EntryMatches(e, q, accept) && Better(e, best, preferLast) then Some(e) else best)
  }

  lemma {:induction false} ScanAppend(a: seq<Entry>, b: seq<Entry>, q: Query, preferLast: bool,
                                      accept: IPResource -> bool, best: Option<Entry>)
    ensures Scan(a + b, q, preferLast, accept, best) ==
            Scan(b, q, preferLast, accept, Scan(a, q, preferLast, accept, best))
  {
    if a == [] {
      assert a + b == b;
    } else {
      assert (a + b)[1..] == a[1..] + b;
      var e := a[0];
      ScanAppend(a[1..], b, q, preferLast, accept,
                 if EntryMatches(e, q, accept) && Better(e, best, preferLast) then Some(e) else best);
    }
  }

  lemma {:induction false} ScanNothing(entries: seq<Entry>, q: Query, preferLast: bool, accept: IPResource -> bool,
                                       best: Option<Entry>)
    requires forall e :: e in entries ==> q.ip < e.start || e.end < q.ip
    ensures Scan(entries, q, preferLast, accept, best) == best
  {
    if entries != [] {
      ScanNothing(entries[1..], q, preferLast, accept, best);
    }
  }

  lemma ByStartSplits(n: Node)
    requires n.Node? && ByStart(Inorder(n))
    ensures ByStart(Inorder(n.left)) && ByStart(Inorder(n.right))
    ensures forall e :: e in Inorder(n.right) ==> n.entry.start <= e.start
  {
    var all, k := Inorder(n), |Inorder(n.left)|;
    assert forall i :: 0 <= i < k ==> all[i] == Inorder(n.left)[i];
    assert all[k] == n.entry;
    assert forall i :: 0 <= i < |Inorder(n.right)| ==> all[k + 1 + i] == Inorder(n.right)[i];
  }

  // The pruned walk of the tree finds what scanning all its entries would find.
  method MatchNode(n: Node, q: Query, preferLast: bool, accept: IPResource -> bool, best: Option<Entry>)
    returns (found: Option<Entry>)
    requires n.Node? && Bounded(n) && ByStart(Inorder(n))
    ensures found == Scan(Inorder(n), q, preferLast, accept, best)
    decreases n
  {
    ByStartSplits(n);
    var left, right := n.left, n.right;
    ScanAppend(Inorder(left) + [n.entry], Inorder(right), q, preferLast, accept, best);
    ScanAppend(Inorder(left), [n.entry], q, preferLast, accept, best);
    found := best;
    if n.maxEnd < q.ip {
      ScanNothing(Inorder(n), q, preferLast, accept, best);
      return;
    }
    if left.Node? && left.maxEnd >= q.ip {
      found := MatchNode(left, q, preferLast, accept, found);
    } else {
      ScanNothing(Inorder(left), q, preferLast, accept, best);
    }
    if EntryMatches(n.entry, q, accept) && Better(n.entry, found, preferLast) {
      found := Some(n.entry);
    }
    if n.entry.start <= q.ip && right.Node? && right.maxEnd >= q.ip {
      found := MatchNode(right, q, preferLast, accept, found);
    } else {
      ScanNothing(Inorder(right), q, preferLast, accept, found);
    }
  }

  // ---- From scanning sorted entries to scanning the list ----

  ghost predicate DistinctOrders(entries: seq<Entry>) {
    forall i, j :: 0 <= i < j < |entries| ==> entries[i].order != entries[j].order
  }

  // e is the matching entry of least (or greatest) order.
  ghost predicate IsBest(found: Option<Entry>, entries: seq<Entry>, q: Query, preferLast: bool,
                         accept: IPResource -> bool) {
    match found
    case None => forall e :: e in entries ==> !EntryMatches(e, q, accept)
    case Some(b) =>
      && b in entries && EntryMatches(b, q, accept)
      && forall e :: e in entries && EntryMatches(e, q, accept) ==> if preferLast then e.order <= b.order else b.order <= e.order
  }

  lemma {:induction false} ScanFindsBest(entries: seq<Entry>, q: Query, preferLast: bool, accept: IPResource -> bool)
    ensures IsBest(Scan(entries, q, preferLast, accept, None), entries, q, preferLast, accept)
  {
    if entries != [] {
      var init, last := entries[..|entries| - 1], entries[|entries| - 1];
      assert entries == init + [last];
      ScanFindsBest(init, q, preferLast, accept);
      ScanAppend(init, [last], q, preferLast, accept, None);
    }
  }

  // The entries that New makes of a list, numbered from `order`.
  function Entries(resources: seq<IPResource>, order: nat): seq<Entry> {
    if resources == [] then [] else
    var rest := Entries(resources[1..], order + 1);
    var r := resources[0];
    if ValidRange(r) then [Entry(r, r.ipMin.value, r.ipMax.value, order)] + rest else rest
  }

  lemma {:induction false} EntriesAppend(a: seq<IPResource>, r: IPResource, order: nat)
    ensures Entries(a + [r], order) == Entries(a, order) + Entries([r], order + |a|)
  {
    if a != [] {
      assert (a + [r])[1..] == a[1..] + [r];
      EntriesAppend(a[1..], r, order + 1);
    } else {
      assert a + [r] == [r];
    }
  }

  lemma {:induction false} EntriesInOrder(resources: seq<IPResource>, order: nat)
    ensures forall e :: e in Entries(resources, order) ==>
      && order <= e.order < order + |resources|
      && e.resource == resources[e.order - order] && ValidRange(e.resource)
      && e.start == e.resource.ipMin.value && e.end == e.resource.ipMax.value
    ensures DistinctOrders(Entries(resources, order))
  {
    if resources != [] {
      EntriesInOrder(resources[1..], order + 1);
    }
  }

  lemma {:induction false} ValidIsEntered(resources: seq<IPResource>, order: nat, i: nat)
    requires i < |resources| && ValidRange(resources[i])
    ensures Entry(resources[i], resources[i].ipMin.value, resources[i].ipMax.value, order + i) in Entries(resources, order)
  {
    if i > 0 {
      ValidIsEntered(resources[1..], order + 1, i - 1);
    }
  }

  lemma {:induction false} FirstMatchAt(resources: seq<IPResource>, q: Query, accept: IPResource -> bool, i: nat)
    requires i < |resources| && Matches(resources[i], q, accept)
    requires forall j :: 0 <= j < i ==> !Matches(resources[j], q, accept)
    ensures FirstMatch(resources, q, accept) == Some(resources[i])
  {
    if i > 0 {
      FirstMatchAt(resources[1..], q, accept, i - 1);
    }
  }

  lemma {:induction false} LastMatchAt(resources: seq<IPResource>, q: Query, accept: IPResource -> bool, i: nat)
    requires i < |resources| && Matches(resources[i], q, accept)
    requires forall j :: i < j < |resources| ==> !Matches(resources[j], q, accept)
    ensures LastMatch(resources, q, accept) == Some(resources[i])
  {
    if i < |resources| - 1 {
      LastMatchAt(resources[..|resources| - 1], q, accept, i);
    }
  }

  lemma {:induction false} NoMatch(resources: seq<IPResource>, q: Query, accept: IPResource -> bool)
    ensures FirstMatch(resources, q, accept).None? <==> forall r :: r in resources ==> !Matches(r, q, accept)
    ensures LastMatch(resources, q, accept).None? <==> forall r :: r in resources ==> !Matches(r, q, accept)
  {
    if resources != [] {
      NoMatch(resources[1..], q, accept);
      NoMatch(resources[..|resources| - 1], q, accept);
      assert resources == resources[..|resources| - 1] + [resources[|resources| - 1]];
    }
  }

  // The best entry is the first, or the last, match of the list.
  lemma BestIsListMatch(resources: seq<IPResource>, found: Option<Entry>, q: Query, preferLast: bool,
                        accept: IPResource -> bool)
    requires IsBest(found, Entries(resources, 0), q, preferLast, accept)
    ensures (if found.Some? then Some(found.value.resource) else None) ==
            if preferLast then LastMatch(resources, q, accept) else FirstMatch(resources, q, accept)
  {
    var entries := Entries(resources, 0);
    EntriesInOrder(resources, 0);
    forall i | 0 <= i < |resources| && Matches(resources[i], q, accept)
      ensures found.Some? && if preferLast then i <= found.value.order else found.value.order <= i
    {
      ValidIsEntered(resources, 0, i);
    }
    if found.None? {
      NoMatch(resources, q, accept);
    } else if preferLast {
      LastMatchAt(resources, q, accept, found.value.order);
    } else {
      FirstMatchAt(resources, q, accept, found.value.order);
    }
  }

  // ---- Building an index ----

  // sort.SliceStable by range start.
  function Insert(e: Entry, sorted: seq<Entry>): seq<Entry> {
    if sorted == [] || e.start <= sorted[0].start then [e] + sorted else [sorted[0]] + Insert(e, sorted[1..])
  }

  function SortByStart(entries: seq<Entry>): seq<Entry> {
    if entries == [] then [] else Insert(entries[0], SortByStart(entries[1..]))
  }

  lemma {:induction false} InsertSorts(e: Entry, sorted: seq<Entry>)
    requires ByStart(sorted)
    ensures ByStart(Insert(e, sorted))
    ensures forall x :: x in Insert(e, sorted) <==> x == e || x in sorted
  {
    if sorted != [] && e.start > sorted[0].start {
      InsertSorts(e, sorted[1..]);
      assert forall x :: x in Insert(e, sorted[1..]) ==> sorted[0].start <= x.start;
    }
  }

  lemma {:induction false} SortSorts(entries: seq<Entry>)
    ensures ByStart(SortByStart(entries))
    ensures forall x :: x in SortByStart(entries) <==> x in entries
  {
    if entries != [] {
      SortSorts(entries[1..]);
      InsertSorts(entries[0], SortByStart(entries[1..]));
    }
  }

  // An index of a list: a balanced tree over exactly the list's valid resources.
  ghost predicate Indexes(index: Index, resources: seq<IPResource>) {
    index.root == Build(SortByStart(Entries(resources, 0)))
  }

  method New(resources: seq<IPResource>) returns (index: Index)
    ensures Indexes(index, resources)
  {
    var indexed: seq<Entry> := [];
    for order := 0 to |resources|
      invariant indexed == Entries(resources[..order], 0)
    {
      var r := resources[order];
      EntriesAppend(resources[..order], r, 0);
      assert resources[..order + 1] == resources[..order] + [r];
      if ValidRange(r) {
        indexed := indexed + [Entry(r, r.ipMin.value, r.ipMax.value, order)];
      }
    }
    assert resources[..|resources|] == resources;
    index := Index(Build(SortByStart(indexed)));
  }

  method Match(index: Index, ghost resources: seq<IPResource>, destination: Address, protocol: string, port: int,
               preferLast: bool, accept: IPResource -> bool) returns (found: Option<IPResource>)
    requires Indexes(index, resources)
    ensures found == Lookup(resources, destination, protocol, port, preferLast, accept)
  {
    if destination.Other? || index.root.Nil? {
      EmptyIndex(index, resources, destination, protocol, port, preferLast, accept);
      return None;
    }
    var q := Query(destination.value, protocol, port);
    ghost var entries := SortByStart(Entries(resources, 0));
    BuildIsBounded(entries);
    BuildKeepsEntries(entries);
    SortSorts(Entries(resources, 0));
    var best := MatchNode(index.root, q, preferLast, accept, None);
    ScanFindsBest(entries, q, preferLast, accept);
    BestIsListMatch(resources, best, q, preferLast, accept);
    found := if best.Some? then Some(best.value.resource) else None;
  }

  lemma EmptyIndex(index: Index, resources: seq<IPResource>, destination: Address, protocol: string, port: int,
                   preferLast: bool, accept: IPResource -> bool)
    requires Indexes(index, resources) && (destination.Other? || index.root.Nil?)
    ensures Lookup(resources, destination, protocol, port, preferLast, accept) == None
  {
    if destination.V4? {
      var entries := Entries(resources, 0);
      SortSorts(entries);
      BuildKeepsEntries(SortByStart(entries));
      BestIsListMatch(resources, None, Query(destination.value, protocol, port), preferLast, accept);
    }
  }

  // What the four public searches promise: the first, or last, matching resource of the list.
  function Lookup(resources: seq<IPResource>, destination: Address, protocol: string, port: int,
                  preferLast: bool, accept: IPResource -> bool): Option<IPResource> {
    if destination.Other? then None else
    var q := Query(destination.value, protocol, port);
    if preferLast then LastMatch(resources, q, accept) else FirstMatch(resources, q, accept)
  }

  // The tree of a list of n resources is at most floor(log2 n) + 1 high.
  lemma IndexHeight(index: Index, resources: seq<IPResource>)
    requires Indexes(index, resources) && resources != []
    ensures Height(index.root) <= Log2(|resources|) + 1
  {
    var entries := Entries(resources, 0);
    BuildIsBalanced(SortByStart(entries));
    SortKeepsLength(entries);
    EntriesNoMore(resources, 0);
    if entries != [] {
      Log2Grows(|entries|, |resources|);
    }
  }

  lemma {:induction false} SortKeepsLength(entries: seq<Entry>)
    ensures |SortByStart(entries)| == |entries|
  {
    if entries != [] {
      SortKeepsLength(entries[1..]);
      InsertAddsOne(entries[0], SortByStart(entries[1..]));
    }
  }

  lemma {:induction false} InsertAddsOne(e: Entry, sorted: seq<Entry>)
    ensures |Insert(e, sorted)| == |sorted| + 1
  {
    if sorted != [] && e.start > sorted[0].start {
      InsertAddsOne(e, sorted[1..]);
    }
  }

  lemma {:induction false} EntriesNoMore(resources: seq<IPResource>, order: nat)
    ensures |Entries(resources, order)| <= |resources|
  {
    if resources != [] {
      EntriesNoMore(resources[1..], order + 1);
    }
  }

  // ---- The answer on the fields of the resources ----

  // The k-th resource of a list is for this destination: both ends of its range are IPv4 and enclose it, its
  // protocol is the one asked for or all, and so is its port range unless the protocol has no ports.
  predicate ServedBy(resources: seq<IPResource>, k: nat, destination: Address, protocol: string, port: int)
    requires k < |resources|
  {
    var r := resources[k];
    && destination.V4? && r.ipMin.V4? && r.ipMax.V4?
    && r.ipMin.value <= destination.value && destination.value <= r.ipMax.value
    && (r.protocol == "all" || r.protocol == protocol)
    && (protocol != "icmp" ==> r.portMin <= port && port <= r.portMax)
  }

  // None of the accepted resources for this destination comes before the k-th, or none after it.
  predicate Foremost(resources: seq<IPResource>, k: nat, destination: Address, protocol: string, port: int,
                     preferLast: bool, accept: IPResource -> bool)
    requires k < |resources|
  {
    && ServedBy(resources, k, destination, protocol, port) && accept(resources[k])
    && forall j :: 0 <= j < |resources| && ServedBy(resources, j, destination, protocol, port) && accept(resources[j]) ==>
         (if preferLast then j <= k else k <= j)
  }

  // Nothing is found exactly when no accepted resource is for the destination; otherwise the first of those
  // that are, or the last.
  lemma LookupOnFields(resources: seq<IPResource>, destination: Address, protocol: string, port: int,
                       preferLast: bool, accept: IPResource -> bool)
    ensures Lookup(resources, destination, protocol, port, preferLast, accept) == None <==>
            forall k :: 0 <= k < |resources| && ServedBy(resources, k, destination, protocol, port) ==> !accept(resources[k])
    ensures forall k :: 0 <= k < |resources| && Foremost(resources, k, destination, protocol, port, preferLast, accept) ==>
              Lookup(resources, destination, protocol, port, preferLast, accept) == Some(resources[k])
  {
    if destination.V4? {
      var q := Query(destination.value, protocol, port);
      forall k | 0 <= k < |resources|
        ensures Matches(resources[k], q, accept) <==>
                ServedBy(resources, k, destination, protocol, port) && accept(resources[k])
      {
      }
      NoMatch(resources, q, accept);
      forall k | 0 <= k < |resources| && Foremost(resources, k, destination, protocol, port, preferLast, accept)
        ensures Lookup(resources, destination, protocol, port, preferLast, accept) == Some(resources[k])
      {
        if preferLast {
          LastMatchAt(resources, q, accept, k);
        } else {
          FirstMatchAt(resources, q, accept, k);
        }
      }
    }
  }
}
