// The domain resource index: a trie over host names read from their ends, and
// the plain map of patterns that it has to agree with.
module DomainIndex {
  import opened Prelude

  datatype DomainResource = DomainResource(
    portMin: int, portMax: int, protocol: string, appID: string, nodeGroupID: string,
    enableTCPPrefL3: bool, addrPretend: bool)

  // A pattern's first domain, as it was written, and the resources of all its domains.
  datatype Entry = Entry(domain: string, resources: seq<DomainResource>)

  type Contents = map<string, Entry>

  // ---- What the index means ----

  // A pattern is a suffix that starts at the host's start, at a dot or just after one.
  predicate MatchesHost(pattern: string, host: string) {
    && 0 < |pattern| <= |host|
    && host[|host| - |pattern|..] == pattern
    && (|pattern| == |host| || pattern[0] == '.' || host[|host| - |pattern| - 1] == '.')
  }

  predicate IsHit(contents: Contents, host: string, pos: nat) {
    pos < |host| && host[pos..] in contents && MatchesHost(host[pos..], host)
  }

  // The matching patterns that start at pos or later, the longest first.
  function Hits(contents: Contents, host: string, pos: nat): seq<string>
    decreases |host| - pos
  {
    if pos >= |host| then []
    else (if IsHit(contents, host, pos) then [host[pos..]] else []) + Hits(contents, host, pos + 1)
  }

  function ResourcesOf(contents: Contents, patterns: seq<string>): seq<DomainResource> {
    if patterns == [] then []
    else (if patterns[0] in contents then contents[patterns[0]].resources else [])
         + ResourcesOf(contents, patterns[1..])
  }

  // The domain of the longest match and the resources of all matches.
  function LookUp(contents: Contents, host: string): Option<Entry> {
    var hits := Hits(contents, host, 0);
    if hits == [] || hits[0] !in contents then None
    else Some(Entry(contents[hits[0]].domain, ResourcesOf(contents, hits)))
  }

  // The hits are exactly the patterns that match, from the longest to the shortest.
  lemma {:induction false} HitsAreTheMatches(contents: Contents, host: string, pos: nat)
    ensures forall p :: p in Hits(contents, host, pos) <==>
              p in contents && MatchesHost(p, host) && |p| <= |host| - pos
    ensures forall i, j :: 0 <= i < j < |Hits(contents, host, pos)| ==>
              |Hits(contents, host, pos)[i]| > |Hits(contents, host, pos)[j]|
    decreases |host| - pos
  {
    if pos < |host| {
      HitsAreTheMatches(contents, host, pos + 1);
      var rest := Hits(contents, host, pos + 1);
      forall p | p in contents && MatchesHost(p, host) && |p| == |host| - pos
        ensures p == host[pos..]
      {
      }
      forall p | p in rest
        ensures |p| < |host| - pos
      {
      }
    }
  }

  // What the index reports for a host, in terms of the patterns that match it.
  lemma LookUpIsLongestMatch(contents: Contents, host: string)
    ensures LookUp(contents, host) == None <==> !exists p :: p in contents && MatchesHost(p, host)
    ensures forall p :: p in contents && MatchesHost(p, host)
                        && (forall q :: q in contents && MatchesHost(q, host) ==> |q| <= |p|) ==>
              LookUp(contents, host) == Some(Entry(contents[p].domain, ResourcesOf(contents, Hits(contents, host, 0))))
  {
    HitsAreTheMatches(contents, host, 0);
    var hits := Hits(contents, host, 0);
    if hits != [] {
      assert hits[0] in hits;
    }
    forall p | p in contents && MatchesHost(p, host)
               && (forall q :: q in contents && MatchesHost(q, host) ==> |q| <= |p|)
      ensures hits != [] && hits[0] == p
    {
      assert p in hits;
      assert hits[0] in hits;
    }
  }

  // ---- The trie ----

  // Nodes are named by their place in the store; the root is the first.
  datatype TrieNode = TrieNode(children: map<char, nat>, entry: Option<Entry>)

  ghost predicate HasParent(nodes: seq<TrieNode>, paths: seq<string>, n: nat)
    requires n < |nodes| == |paths| && paths[n] != ""
  {
    exists p: nat :: p < |nodes| && paths[n][0] in nodes[p].children && nodes[p].children[paths[n][0]] == n
  }

  // Every node spells the suffix that leads to it, and no two spell the same.
  ghost predicate Shape(nodes: seq<TrieNode>, paths: seq<string>) {
    && 0 < |nodes| == |paths| && paths[0] == ""
    && (forall n, c :: 0 <= n < |nodes| && c in nodes[n].children ==>
          nodes[n].children[c] < |nodes| && paths[nodes[n].children[c]] == [c] + paths[n])
    && (forall n: nat :: 0 < n < |nodes| ==> paths[n] != "" && HasParent(nodes, paths, n))
    && (forall m, n :: 0 <= m < n < |nodes| ==> paths[m] != paths[n])
  }

  ghost predicate Labelled(node: TrieNode, path: string, contents: Contents) {
    node.entry == if path in contents then Some(contents[path]) else None
  }

  // Every pattern has its node.
  ghost predicate Covered(paths: seq<string>, contents: Contents) {
    forall p :: p in contents ==> p in paths
  }

  ghost predicate Holds(nodes: seq<TrieNode>, paths: seq<string>, contents: Contents)
    requires |nodes| == |paths|
  {
    (forall n :: 0 <= n < |nodes| ==> Labelled(nodes[n], paths[n], contents)) && Covered(paths, contents)
  }

  lemma ParentOf(nodes: seq<TrieNode>, paths: seq<string>, m: nat) returns (p: nat)
    requires Shape(nodes, paths) && 0 < m < |nodes|
    ensures p < |nodes| && paths[m] != "" && paths[m][0] in nodes[p].children && nodes[p].children[paths[m][0]] == m
    ensures paths[m][1..] == paths[p]
  {
    assert HasParent(nodes, paths, m);
    p :| p < |nodes| && paths[m][0] in nodes[p].children && nodes[p].children[paths[m][0]] == m;
    assert paths[m] == [paths[m][0]] + paths[p];
  }

  // A missing child means that no node spells the longer suffix.
  lemma NoChild(nodes: seq<TrieNode>, paths: seq<string>, n: nat, c: char)
    requires Shape(nodes, paths) && n < |nodes| && c !in nodes[n].children
    ensures [c] + paths[n] !in paths
  {
    forall m | 0 <= m < |paths|
      ensures paths[m] != [c] + paths[n]
    {
      if m > 0 {
        var p := ParentOf(nodes, paths, m);
        assert ([c] + paths[n])[1..] == paths[n];
        assert p == n || paths[p] != paths[n];
      }
    }
  }

  // Beyond a suffix that no node spells there is nothing.
  lemma {:induction false} NothingBeyond(nodes: seq<TrieNode>, paths: seq<string>, host: string, pos: nat, further: nat)
    requires Shape(nodes, paths) && further <= pos < |host| && host[pos..] !in paths
    ensures host[further..] !in paths
    decreases pos - further
  {
    if further < pos {
      NothingBeyond(nodes, paths, host, pos, further + 1);
      forall m | 0 <= m < |paths|
        ensures paths[m] != host[further..]
      {
        if m > 0 {
          var p := ParentOf(nodes, paths, m);
          assert host[further..][1..] == host[further + 1..];
          assert paths[p] in paths;
        }
      }
    }
  }

  lemma GrowKeepsShape(nodes: seq<TrieNode>, paths: seq<string>, n: nat, c: char)
    requires Shape(nodes, paths) && n < |nodes| && c !in nodes[n].children
    ensures Shape(Grown(nodes, n, c), paths + [[c] + paths[n]])
  {
    var nodes', paths' := Grown(nodes, n, c), paths + [[c] + paths[n]];
    forall m: nat | 0 < m < |nodes'|
      ensures paths'[m] != "" && HasParent(nodes', paths', m)
    {
      GrowKeepsParents(nodes, paths, n, c, m);
    }
    NewSuffix(nodes, paths, n, c);
    hide HasParent;
  }

  lemma GrowKeepsParents(nodes: seq<TrieNode>, paths: seq<string>, n: nat, c: char, m: nat)
    requires Shape(nodes, paths) && n < |nodes| && c !in nodes[n].children && 0 < m <= |nodes|
    ensures var nodes', paths' := Grown(nodes, n, c), paths + [[c] + paths[n]];
            paths'[m] != "" && HasParent(nodes', paths', m)
  {
    var nodes', paths' := Grown(nodes, n, c), paths + [[c] + paths[n]];
    var p := n;
    if m < |nodes| {
      p := ParentOf(nodes, paths, m);
    }
    hide Shape;
    assert paths'[m][0] in nodes'[p].children && nodes'[p].children[paths'[m][0]] == m;
  }

  lemma NewSuffix(nodes: seq<TrieNode>, paths: seq<string>, n: nat, c: char)
    requires Shape(nodes, paths) && n < |nodes| && c !in nodes[n].children
    ensures var paths' := paths + [[c] + paths[n]];
            forall k, m :: 0 <= k < m < |paths'| ==> paths'[k] != paths'[m]
  {
    NoChild(nodes, paths, n, c);
    assert forall k :: 0 <= k < |paths| ==> paths[k] in paths;
  }

  function Grown(nodes: seq<TrieNode>, n: nat, c: char): seq<TrieNode>
    requires n < |nodes|
  {
    nodes[n := nodes[n].(children := nodes[n].children[c := |nodes|])] + [TrieNode(map[], None)]
  }

  lemma GrowKeepsContents(nodes: seq<TrieNode>, paths: seq<string>, contents: Contents, n: nat, c: char)
    requires Shape(nodes, paths) && Holds(nodes, paths, contents) && n < |nodes| && c !in nodes[n].children
    ensures Holds(Grown(nodes, n, c), paths + [[c] + paths[n]], contents)
  {
    NoChild(nodes, paths, n, c);
    forall m | 0 <= m < |nodes|
      ensures Labelled(Grown(nodes, n, c)[m], paths[m], contents)
    {
      assert Labelled(nodes[m], paths[m], contents);
    }
  }

  function Extended(contents: Contents, pattern: string, domain: string, resources: seq<DomainResource>): Contents {
    contents[pattern := if pattern in contents
                        then Entry(contents[pattern].domain, contents[pattern].resources + resources)
                        else Entry(domain, resources)]
  }

  // The pattern of a domain: normalised, and without the star of a leading "*.".
  function PatternOf(normalize: string -> string, domain: string): string {
    var normalized := normalize(domain);
    if |normalized| >= 2 && normalized[0] == '*' && normalized[1] == '.' then normalized[1..] else normalized
  }

  // What inserting the domains of a map in some order leaves in the index.
  function Inserted(normalize: string -> string, resources: map<string, seq<DomainResource>>,
                    order: seq<string>): Contents {
    if order == [] then map[] else
    var before := Inserted(normalize, resources, order[..|order| - 1]);
    var domain := order[|order| - 1];
    var pattern := PatternOf(normalize, domain);
    if pattern == "" || domain !in resources then before else Extended(before, pattern, domain, resources[domain])
  }

  class DomainResourceIndex {
    var nodes: seq<TrieNode>
    ghost var paths: seq<string>
    ghost var contents: Contents

    ghost predicate Valid()
      reads this
    {
      Shape(nodes, paths) && Holds(nodes, paths, contents)
    }

    constructor Empty()
      ensures Valid() && contents == map[]
    {
      nodes, paths, contents := [TrieNode(map[], None)], [""], map[];
    }

    // Add one domain's resources under its pattern.
    method Insert(pattern: string, domain: string, resources: seq<DomainResource>)
      requires Valid()
      modifies this
      ensures Valid() && contents == Extended(old(contents), pattern, domain, resources)
    {
      hide Shape, Holds, Extended;
      var node := Spell(pattern);
      EnterKeeps(nodes, paths, contents, node, domain, resources);
      contents := Extended(contents, pattern, domain, resources);
      nodes := Entered(nodes, node, domain, resources);
    }

    // The node that spells a pattern, made if need be.
    method Spell(pattern: string) returns (node: nat)
      requires Valid()
      modifies this`nodes, this`paths
      ensures Valid() && node < |nodes| == |paths| && paths[node] == pattern
    {
      hide Shape, Holds;
      node := 0;
      var pos: nat := |pattern|;
      Root(nodes, paths);
      while pos > 0
        invariant Valid() && pos <= |pattern| && node < |nodes| == |paths| && paths[node] == pattern[pos..]
      {
        pos := pos - 1;
        var c := pattern[pos];
        assert pattern[pos..] == [c] + pattern[pos + 1..];
        if c !in nodes[node].children {
          GrowKeepsContents(nodes, paths, contents, node, c);
          GrowKeepsShape(nodes, paths, node, c);
          paths := paths + [[c] + paths[node]];
          nodes := Grown(nodes, node, c);
        }
        Child(nodes, paths, node, c);
        node := nodes[node].children[c];
      }
    }

    // Match walks the host from its end for as long as the trie follows.
    method Match(host: string) returns (found: Option<Entry>)
      requires Valid()
      ensures found == LookUp(contents, host)
    {
      hide Shape, Holds, Hits, IsHit, ResourcesOf;
      var node := 0;
      var matches: seq<Entry> := [];
      ghost var patterns: seq<string> := [];
      var pos: nat := |host|;
      Root(nodes, paths);
      NoHits(contents, host);
      while pos > 0
        invariant pos <= |host| && node < |nodes| == |paths| && paths[node] == host[pos..]
        invariant patterns == Hits(contents, host, pos)
        invariant EntriesOf(contents, patterns, matches)
      {
        pos := pos - 1;
        var c := host[pos];
        assert host[pos..] == [c] + host[pos + 1..];
        if c !in nodes[node].children {
          NoChild(nodes, paths, node, c);
          NoMoreHits(nodes, paths, contents, host, pos, 0);
          break;
        }
        Child(nodes, paths, node, c);
        node := nodes[node].children[c];
        var boundary := pos == 0 || host[pos] == '.' || host[pos - 1] == '.';
        HitHere(nodes, paths, contents, host, pos, node);
        if nodes[node].entry.Some? && boundary {
          matches := matches + [nodes[node].entry.value];
          patterns := [host[pos..]] + patterns;
        }
      }
      if |matches| == 0 {
        return None;
      }
      var resources := [];
      pos := |matches|;
      NoResources(contents);
      while pos > 0
        invariant pos <= |matches| && EntriesOf(contents, patterns, matches)
        invariant resources == ResourcesOf(contents, patterns[..|matches| - pos])
      {
        pos := pos - 1;
        MoreResources(contents, patterns, |matches| - pos - 1);
        resources := resources + matches[pos].resources;
      }
      assert patterns[..|matches|] == patterns;
      found := Some(Entry(matches[|matches| - 1].domain, resources));
    }

    // Build the index of a map of domains, in whatever order the map is iterated.
    constructor (resources: map<string, seq<DomainResource>>, normalize: string -> string)
      ensures Valid()
      ensures exists order :: IsListing(order, resources.Keys) && contents == Inserted(normalize, resources, order)
    {
      nodes, paths, contents := [TrieNode(map[], None)], [""], map[];
      new;
      hide Shape, Holds, Extended;
      Fresh();
      ghost var order: seq<string> := [];
      var rest := resources.Keys;
      while rest != {}
        invariant Valid() && contents == Inserted(normalize, resources, order)
        invariant rest <= resources.Keys && IsListing(order, resources.Keys - rest)
        decreases |rest|
      {
        var domain :| domain in rest;
        ListingGrows(order, resources.Keys - rest, domain);
        assert resources.Keys - (rest - {domain}) == resources.Keys - rest + {domain};
        rest := rest - {domain};
        order := order + [domain];
        var pattern := PatternOf(normalize, domain);
        if pattern != "" {
          Insert(pattern, domain, resources[domain]);
        }
      }
      assert resources.Keys - rest == resources.Keys;
    }
  }

  lemma Fresh()
    ensures Shape([TrieNode(map[], None)], [""]) && Holds([TrieNode(map[], None)], [""], map[])
  {
  }

  lemma Root(nodes: seq<TrieNode>, paths: seq<string>)
    requires Shape(nodes, paths)
    ensures 0 < |nodes| == |paths| && paths[0] == ""
  {
  }

  lemma Child(nodes: seq<TrieNode>, paths: seq<string>, n: nat, c: char)
    requires Shape(nodes, paths) && n < |nodes| && c in nodes[n].children
    ensures nodes[n].children[c] < |nodes| == |paths| && paths[nodes[n].children[c]] == [c] + paths[n]
  {
  }

  function Entered(nodes: seq<TrieNode>, node: nat, domain: string, resources: seq<DomainResource>): seq<TrieNode>
    requires node < |nodes|
  {
    var entry := if nodes[node].entry.Some? then nodes[node].entry.value else Entry(domain, []);
    nodes[node := nodes[node].(entry := Some(Entry(entry.domain, entry.resources + resources)))]
  }

  lemma SameChildren(nodes: seq<TrieNode>, nodes': seq<TrieNode>, paths: seq<string>)
    requires Shape(nodes, paths) && |nodes'| == |nodes|
    requires forall n :: 0 <= n < |nodes| ==> nodes'[n].children == nodes[n].children
    ensures Shape(nodes', paths)
  {
    forall m: nat | 0 < m < |nodes'|
      ensures paths[m] != "" && HasParent(nodes', paths, m)
    {
      var p := ParentOf(nodes, paths, m);
      assert paths[m][0] in nodes'[p].children && nodes'[p].children[paths[m][0]] == m;
    }
  }

  lemma EnterKeeps(nodes: seq<TrieNode>, paths: seq<string>, contents: Contents,
                   node: nat, domain: string, resources: seq<DomainResource>)
    requires Shape(nodes, paths) && Holds(nodes, paths, contents) && node < |nodes|
    ensures Shape(Entered(nodes, node, domain, resources), paths)
    ensures Holds(Entered(nodes, node, domain, resources), paths, Extended(contents, paths[node], domain, resources))
  {
    SameChildren(nodes, Entered(nodes, node, domain, resources), paths);
    StillCovered(paths, contents, node, domain, resources);
    assert [] + resources == resources;
    forall n | 0 <= n < |nodes|
      ensures Labelled(Entered(nodes, node, domain, resources)[n], paths[n], Extended(contents, paths[node], domain, resources))
    {
      assert Labelled(nodes[n], paths[n], contents);
      assert n == node || paths[n] != paths[node];
    }
    hide Shape, Covered;
  }

  lemma StillCovered(paths: seq<string>, contents: Contents, node: nat, domain: string, resources: seq<DomainResource>)
    requires Covered(paths, contents) && node < |paths|
    ensures Covered(paths, Extended(contents, paths[node], domain, resources))
  {
  }

  lemma NoHits(contents: Contents, host: string)
    ensures Hits(contents, host, |host|) == [] && host[|host|..] == ""
  {
  }

  // A walk that stops has seen every match.
  lemma {:induction false} NoMoreHits(nodes: seq<TrieNode>, paths: seq<string>, contents: Contents,
                                      host: string, pos: nat, from: nat)
    requires Shape(nodes, paths) && Holds(nodes, paths, contents) && from <= pos < |host| && host[pos..] !in paths
    ensures Hits(contents, host, from) == Hits(contents, host, pos + 1)
    decreases pos - from
  {
    NothingBeyond(nodes, paths, host, pos, from);
    if from < pos {
      NoMoreHits(nodes, paths, contents, host, pos, from + 1);
    }
  }

  lemma HitHere(nodes: seq<TrieNode>, paths: seq<string>, contents: Contents, host: string, pos: nat, node: nat)
    requires Shape(nodes, paths) && Holds(nodes, paths, contents)
    requires pos < |host| && node < |nodes| && paths[node] == host[pos..]
    ensures Hits(contents, host, pos) ==
            (if nodes[node].entry.Some? && (pos == 0 || host[pos] == '.' || host[pos - 1] == '.') then [host[pos..]] else [])
            + Hits(contents, host, pos + 1)
    ensures nodes[node].entry.Some? ==> host[pos..] in contents && contents[host[pos..]] == nodes[node].entry.value
  {
    assert Labelled(nodes[node], paths[node], contents);
    hide Shape, Holds, MatchesHost;
    Boundary(host, pos);
  }

  lemma Boundary(host: string, pos: nat)
    requires pos < |host|
    ensures MatchesHost(host[pos..], host) <==> pos == 0 || host[pos] == '.' || host[pos - 1] == '.'
  {
  }

  // The entries a walk collects, in the order it meets them: the shortest pattern first.
  ghost predicate EntriesOf(contents: Contents, patterns: seq<string>, matches: seq<Entry>) {
    && |patterns| == |matches|
    && (forall i :: 0 <= i < |patterns| ==>
          patterns[i] in contents && contents[patterns[i]] == matches[|matches| - 1 - i])
  }

  lemma NoResources(contents: Contents)
    ensures ResourcesOf(contents, []) == []
  {
  }

  lemma {:induction false} MoreResources(contents: Contents, patterns: seq<string>, k: nat)
    requires k < |patterns| && patterns[k] in contents
    ensures ResourcesOf(contents, patterns[..k + 1]) ==
            ResourcesOf(contents, patterns[..k]) + contents[patterns[k]].resources
  {
    if k == 0 {
      assert patterns[..1][1..] == [];
      assert patterns[..0] == [];
    } else {
      assert patterns[..k + 1][1..] == patterns[1..][..k];
      assert patterns[..k][1..] == patterns[1..][..k - 1];
      MoreResources(contents, patterns[1..], k - 1);
    }
  }

  // ---- The order of insertion ----

  ghost predicate IsListing(order: seq<string>, keys: set<string>) {
    (forall k :: k in order <==> k in keys) && NoDuplicates(order)
  }

  lemma ListingGrows(order: seq<string>, keys: set<string>, key: string)
    requires IsListing(order, keys) && key !in keys
    ensures IsListing(order + [key], keys + {key})
  {
  }

  // The domains of an order that share a pattern.
  function DomainsFor(normalize: string -> string, order: seq<string>, pattern: string): seq<string> {
    if order == [] then [] else
    var domain := order[|order| - 1];
    DomainsFor(normalize, order[..|order| - 1], pattern)
    + (if PatternOf(normalize, domain) == pattern then [domain] else [])
  }

  function ResourcesOfAll(resources: map<string, seq<DomainResource>>, domains: seq<string>): seq<DomainResource> {
    if domains == [] then [] else
    var domain := domains[|domains| - 1];
    ResourcesOfAll(resources, domains[..|domains| - 1]) + (if domain in resources then resources[domain] else [])
  }

  predicate AllKnown(order: seq<string>, resources: map<string, seq<DomainResource>>) {
    forall d :: d in order ==> d in resources
  }

  lemma LastIsKnown(order: seq<string>, resources: map<string, seq<DomainResource>>)
    requires AllKnown(order, resources) && order != []
    ensures order[|order| - 1] in resources && AllKnown(order[..|order| - 1], resources)
  {
  }

  // Whatever the order, an entry carries the resources of every domain with its pattern, and the
  // name of the first of them.
  lemma {:induction false} InsertedHolds(normalize: string -> string, resources: map<string, seq<DomainResource>>,
                                         order: seq<string>, p: string)
    requires AllKnown(order, resources)
    ensures p in Inserted(normalize, resources, order) <==> p != "" && DomainsFor(normalize, order, p) != []
    ensures p in Inserted(normalize, resources, order) ==>
              Inserted(normalize, resources, order)[p]
              == Entry(DomainsFor(normalize, order, p)[0], ResourcesOfAll(resources, DomainsFor(normalize, order, p)))
  {
    if order != [] {
      var n := |order| - 1;
      LastIsKnown(order, resources);
      hide AllKnown;
      InsertedHolds(normalize, resources, order[..n], p);
      var domains := DomainsFor(normalize, order[..n], p);
      var before := Inserted(normalize, resources, order[..n]);
      hide PatternOf;
      if PatternOf(normalize, order[n]) == p {
        assert (domains + [order[n]])[..|domains|] == domains;
        assert DomainsFor(normalize, order, p) == domains + [order[n]];
        assert ResourcesOfAll(resources, domains + [order[n]]) == ResourcesOfAll(resources, domains) + resources[order[n]];
        assert [] + resources[order[n]] == resources[order[n]];
      } else {
        assert DomainsFor(normalize, order, p) == domains;
        assert p in Inserted(normalize, resources, order) <==> p in before;
      }
    }
  }

  lemma {:induction false} DomainsShareThePattern(normalize: string -> string, order: seq<string>, p: string, d: string)
    ensures d in DomainsFor(normalize, order, p) <==> d in order && PatternOf(normalize, d) == p
  {
    if order != [] {
      hide PatternOf;
      var n := |order| - 1;
      DomainsShareThePattern(normalize, order[..n], p, d);
      assert order == order[..n] + [order[n]];
    }
  }

  lemma {:induction false} FirstComesFirst(normalize: string -> string, order: seq<string>, p: string)
    requires order != [] && PatternOf(normalize, order[0]) == p
    ensures DomainsFor(normalize, order, p) != [] && DomainsFor(normalize, order, p)[0] == order[0]
  {
    hide PatternOf;
    var n := |order| - 1;
    if n > 0 {
      assert order[..n][0] == order[0];
      FirstComesFirst(normalize, order[..n], p);
    }
  }

  // No two domains of the map have the same non-empty pattern.
  predicate Apart(normalize: string -> string, resources: map<string, seq<DomainResource>>) {
    forall d, e :: d in resources && e in resources && d != e && PatternOf(normalize, d) != "" ==>
      PatternOf(normalize, d) != PatternOf(normalize, e)
  }

  lemma NoClash(normalize: string -> string, resources: map<string, seq<DomainResource>>, d: string, e: string)
    requires Apart(normalize, resources) && d in resources && e in resources && PatternOf(normalize, d) != ""
    ensures PatternOf(normalize, d) == PatternOf(normalize, e) ==> d == e
  {
  }

  lemma SameEntry(normalize: string -> string, resources: map<string, seq<DomainResource>>,
                  order: seq<string>, order': seq<string>, p: string)
    requires Apart(normalize, resources)
    requires IsListing(order, resources.Keys) && IsListing(order', resources.Keys)
    ensures p != "" ==> DomainsFor(normalize, order, p) == DomainsFor(normalize, order', p)
  {
    if p != "" {
      assert AllKnown(order, resources) && AllKnown(order', resources) && NoDuplicates(order) && NoDuplicates(order');
      hide PatternOf, Apart, AllKnown, NoDuplicates, IsListing, DomainsFor;
      OnlyOne(normalize, resources, order, p);
      OnlyOne(normalize, resources, order', p);
      SameFirst(normalize, order, order', resources.Keys, p);
      SameFirst(normalize, order', order, resources.Keys, p);
      SameSingles(DomainsFor(normalize, order, p), DomainsFor(normalize, order', p));
    }
  }

  lemma SameSingles(s: seq<string>, t: seq<string>)
    requires |s| <= 1 && |t| <= 1 && (s != [] ==> s[0] in t) && (t != [] ==> t[0] in s)
    ensures s == t
  {
  }

  lemma SameFirst(normalize: string -> string, order: seq<string>, order': seq<string>, keys: set<string>, p: string)
    requires IsListing(order, keys) && IsListing(order', keys)
    ensures DomainsFor(normalize, order, p) != [] ==>
              DomainsFor(normalize, order, p)[0] in DomainsFor(normalize, order', p)
  {
    var domains := DomainsFor(normalize, order, p);
    if domains != [] {
      DomainsShareThePattern(normalize, order, p, domains[0]);
      DomainsShareThePattern(normalize, order', p, domains[0]);
    }
  }

  lemma SameContents(normalize: string -> string, resources: map<string, seq<DomainResource>>,
                     order: seq<string>, order': seq<string>)
    requires Apart(normalize, resources)
    requires IsListing(order, resources.Keys) && IsListing(order', resources.Keys)
    ensures Inserted(normalize, resources, order) == Inserted(normalize, resources, order')
  {
    var contents, contents' := Inserted(normalize, resources, order), Inserted(normalize, resources, order');
    hide Apart, PatternOf, DomainsFor, ResourcesOfAll;
    forall p: string
      ensures p in contents <==> p in contents'
      ensures p in contents ==> contents[p] == contents'[p]
    {
      InsertedHolds(normalize, resources, order, p);
      InsertedHolds(normalize, resources, order', p);
      SameEntry(normalize, resources, order, order', p);
    }
    hide Inserted;
    assert contents == contents';
  }

  lemma {:induction false} OnlyOne(normalize: string -> string, resources: map<string, seq<DomainResource>>,
                                   order: seq<string>, p: string)
    requires Apart(normalize, resources) && p != "" && NoDuplicates(order) && AllKnown(order, resources)
    ensures |DomainsFor(normalize, order, p)| <= 1
  {
    if order != [] {
      LastIsKnown(order, resources);
      hide PatternOf, Apart;
      var n := |order| - 1;
      OnlyOne(normalize, resources, order[..n], p);
      var before := DomainsFor(normalize, order[..n], p);
      if before != [] {
        DomainsShareThePattern(normalize, order[..n], p, before[0]);
        NoClash(normalize, resources, before[0], order[n]);
      }
    }
  }

  lemma {:induction false} AListing(keys: set<string>) returns (order: seq<string>)
    ensures IsListing(order, keys)
  {
    if keys == {} {
      order := [];
    } else {
      var key :| key in keys;
      order := AListing(keys - {key});
      ListingGrows(order, keys - {key}, key);
      assert keys - {key} + {key} == keys;
      order := order + [key];
    }
  }

  lemma ListingFrom(keys: set<string>, first: string) returns (order: seq<string>)
    requires first in keys
    ensures IsListing(order, keys) && order != [] && order[0] == first
  {
    var rest := AListing(keys - {first});
    order := [first] + rest;
  }

  // The order in which the map is iterated is irrelevant exactly when no two domains clash.
  lemma OrderIsIrrelevantUnlessDomainsClash(normalize: string -> string, resources: map<string, seq<DomainResource>>)
    ensures Apart(normalize, resources) <==>
            forall order, order' :: IsListing(order, resources.Keys) && IsListing(order', resources.Keys) ==>
              Inserted(normalize, resources, order) == Inserted(normalize, resources, order')
  {
    if Apart(normalize, resources) {
      forall order, order' | IsListing(order, resources.Keys) && IsListing(order', resources.Keys)
        ensures Inserted(normalize, resources, order) == Inserted(normalize, resources, order')
      {
        SameContents(normalize, resources, order, order');
      }
    } else {
      var d, e :| d in resources && e in resources && d != e && PatternOf(normalize, d) != ""
                  && PatternOf(normalize, d) == PatternOf(normalize, e);
      var order := ListingFrom(resources.Keys, d);
      var order' := ListingFrom(resources.Keys, e);
      var p := PatternOf(normalize, d);
      InsertedHolds(normalize, resources, order, p);
      InsertedHolds(normalize, resources, order', p);
      FirstComesFirst(normalize, order, p);
      FirstComesFirst(normalize, order', p);
      assert Inserted(normalize, resources, order)[p].domain != Inserted(normalize, resources, order')[p].domain;
    }
  }

  // ---- From the map of domains to the answer ----

  predicate EndsWith(host: string, ending: string) {
    |ending| <= |host| && host[|host| - |ending|..] == ending
  }

  // A normalised domain covers itself and the hosts below it; one with a star, only the hosts below it.
  predicate AppliesTo(domain: string, host: string) {
    if |domain| >= 2 && domain[..2] == "*." then EndsWith(host, domain[1..])
    else domain != "" && (host == domain || EndsWith(host, "." + domain) || (domain[0] == '.' && EndsWith(host, domain)))
  }

  lemma PatternApplies(normalize: string -> string, domain: string, host: string)
    ensures MatchesHost(PatternOf(normalize, domain), host) <==> AppliesTo(normalize(domain), host)
  {
    var name := normalize(domain);
    if |name| >= 2 && name[..2] == "*." {
      assert name[0] == name[..2][0] && name[1] == name[..2][1];
    } else {
      assert |name| >= 2 ==> name[..2] == [name[0], name[1]];
      BelowADomain(name, host);
    }
  }

  lemma BelowADomain(name: string, host: string)
    ensures MatchesHost(name, host) <==>
            name != "" && (host == name || EndsWith(host, "." + name) || (name[0] == '.' && EndsWith(host, name)))
  {
    var n := |host| - |name|;
    if 0 < |name| < |host| {
      assert host[n - 1..] == [host[n - 1]] + host[n..];
      assert ("." + name)[1..] == name;
    }
  }

  // The resources of an answer are those of the matching patterns, the longest first.
  lemma {:induction false} ResourcesInOrder(contents: Contents, patterns: seq<string>)
    requires forall p :: p in patterns ==> p in contents
    ensures ResourcesOf(contents, patterns) ==
            Joined(seq(|patterns|, i requires 0 <= i < |patterns| => contents[patterns[i]].resources))
  {
    var parts := seq(|patterns|, i requires 0 <= i < |patterns| => contents[patterns[i]].resources);
    if patterns != [] {
      ResourcesInOrder(contents, patterns[1..]);
      var rest := patterns[1..];
      assert parts[1..] == seq(|rest|, i requires 0 <= i < |rest| => contents[rest[i]].resources);
    }
  }

  lemma {:induction false} InResources(contents: Contents, patterns: seq<string>, r: DomainResource)
    requires forall p :: p in patterns ==> p in contents
    ensures r in ResourcesOf(contents, patterns) <==> exists p :: p in patterns && r in contents[p].resources
  {
    if patterns != [] {
      InResources(contents, patterns[1..], r);
      assert patterns == [patterns[0]] + patterns[1..];
    }
  }

  lemma {:induction false} InResourcesOfAll(resources: map<string, seq<DomainResource>>, domains: seq<string>,
                                            r: DomainResource)
    ensures r in ResourcesOfAll(resources, domains) <==> exists d :: d in domains && d in resources && r in resources[d]
  {
    if domains != [] {
      var n := |domains| - 1;
      InResourcesOfAll(resources, domains[..n], r);
      assert domains == domains[..n] + [domains[n]];
    }
  }

  // A pattern is a hit exactly when some domain with this pattern covers the host.
  lemma HitsComeFromDomains(normalize: string -> string, resources: map<string, seq<DomainResource>>,
                            order: seq<string>, host: string, p: string)
    requires IsListing(order, resources.Keys)
    ensures p in Hits(Inserted(normalize, resources, order), host, 0) <==>
            exists d :: d in resources && PatternOf(normalize, d) == p && AppliesTo(normalize(d), host)
  {
    hide PatternOf, AppliesTo, MatchesHost, DomainsFor, ResourcesOfAll;
    var contents := Inserted(normalize, resources, order);
    HitsAreTheMatches(contents, host, 0);
    assert AllKnown(order, resources);
    InsertedHolds(normalize, resources, order, p);
    Short(p, host);
    hide Inserted, Hits;
    var domains := DomainsFor(normalize, order, p);
    forall d | d in resources && PatternOf(normalize, d) == p
      ensures d in domains && (AppliesTo(normalize(d), host) <==> MatchesHost(p, host))
    {
      DomainsShareThePattern(normalize, order, p, d);
      PatternApplies(normalize, d, host);
    }
    if domains != [] {
      DomainsShareThePattern(normalize, order, p, domains[0]);
      assert domains[0] in resources;
    }
  }

  lemma Short(p: string, host: string)
    ensures MatchesHost(p, host) ==> p != "" && |p| <= |host|
  {
  }

  // For every map of domains and every order of its iteration: a host is found exactly when some domain
  // covers it; the resources reported are exactly those of the domains that do; the domain reported is one
  // of them, and none of the others has a longer pattern.
  lemma ReportedExactly(normalize: string -> string, resources: map<string, seq<DomainResource>>,
                        order: seq<string>, host: string)
    requires IsListing(order, resources.Keys)
    ensures var found := LookUp(Inserted(normalize, resources, order), host);
            && (found.Some? <==> exists d :: d in resources && AppliesTo(normalize(d), host))
            && (found.Some? ==>
                  && found.value.domain in resources && AppliesTo(normalize(found.value.domain), host)
                  && (forall d :: d in resources && AppliesTo(normalize(d), host) ==>
                        |PatternOf(normalize, d)| <= |PatternOf(normalize, found.value.domain)|)
                  && (forall r :: r in found.value.resources <==>
                        exists d :: d in resources && AppliesTo(normalize(d), host) && r in resources[d]))
  {
    hide PatternOf, AppliesTo, MatchesHost, DomainsFor, ResourcesOfAll, ResourcesOf, Hits, Inserted;
    var contents := Inserted(normalize, resources, order);
    var hits := Hits(contents, host, 0);
    HitsAreTheMatches(contents, host, 0);
    forall d | d in resources && AppliesTo(normalize(d), host)
      ensures PatternOf(normalize, d) in hits
    {
      HitsComeFromDomains(normalize, resources, order, host, PatternOf(normalize, d));
    }
    forall p | p in hits
      ensures exists d :: d in resources && PatternOf(normalize, d) == p && AppliesTo(normalize(d), host)
    {
      HitsComeFromDomains(normalize, resources, order, host, p);
    }
    if hits != [] {
      FoundDomain(normalize, resources, order, host);
      forall r: DomainResource
        ensures r in ResourcesOf(contents, hits) <==>
                exists d :: d in resources && AppliesTo(normalize(d), host) && r in resources[d]
      {
        FoundResources(normalize, resources, order, host, r);
      }
    }
  }

  lemma FoundDomain(normalize: string -> string, resources: map<string, seq<DomainResource>>, order: seq<string>,
                    host: string)
    requires IsListing(order, resources.Keys) && Hits(Inserted(normalize, resources, order), host, 0) != []
    ensures var contents := Inserted(normalize, resources, order);
            var p := Hits(contents, host, 0)[0];
            && p in contents && contents[p].domain in resources
            && PatternOf(normalize, contents[p].domain) == p && AppliesTo(normalize(contents[p].domain), host)
  {
    hide PatternOf, AppliesTo, MatchesHost, DomainsFor, ResourcesOfAll, Hits;
    var contents := Inserted(normalize, resources, order);
    HitsAreTheMatches(contents, host, 0);
    var p := Hits(contents, host, 0)[0];
    assert AllKnown(order, resources) && p in Hits(contents, host, 0);
    InsertedHolds(normalize, resources, order, p);
    hide Inserted;
    var d := DomainsFor(normalize, order, p)[0];
    DomainsShareThePattern(normalize, order, p, d);
    PatternApplies(normalize, d, host);
  }

  lemma FoundResources(normalize: string -> string, resources: map<string, seq<DomainResource>>, order: seq<string>,
                       host: string, r: DomainResource)
    requires IsListing(order, resources.Keys)
    ensures var contents := Inserted(normalize, resources, order);
            r in ResourcesOf(contents, Hits(contents, host, 0)) <==>
            exists d :: d in resources && AppliesTo(normalize(d), host) && r in resources[d]
  {
    hide PatternOf, AppliesTo, MatchesHost, DomainsFor, ResourcesOfAll, ResourcesOf, Hits, Inserted;
    var contents := Inserted(normalize, resources, order);
    var hits := Hits(contents, host, 0);
    HitsAreTheMatches(contents, host, 0);
    InResources(contents, hits, r);
    assert AllKnown(order, resources);
    if p :| p in hits && r in contents[p].resources {
      InsertedHolds(normalize, resources, order, p);
      InResourcesOfAll(resources, DomainsFor(normalize, order, p), r);
      var d :| d in DomainsFor(normalize, order, p) && d in resources && r in resources[d];
      DomainsShareThePattern(normalize, order, p, d);
      PatternApplies(normalize, d, host);
    }
    if d :| d in resources && AppliesTo(normalize(d), host) && r in resources[d] {
      var p := PatternOf(normalize, d);
      HitsComeFromDomains(normalize, resources, order, host, p);
      InsertedHolds(normalize, resources, order, p);
      DomainsShareThePattern(normalize, order, p, d);
      InResourcesOfAll(resources, DomainsFor(normalize, order, p), r);
    }
  }
}
