// The UDP forwarder's connection table: a map and a list of its keys, the
// least recently active first.
module UdpTable {
  import opened Prelude

  datatype AddrPort = AddrPort(ip: seq<byte>, port: uint16)

  // ---- Orders of keys ----

  function Without(order: seq<AddrPort>, key: AddrPort): seq<AddrPort> {
    if order == [] then []
    else if order[0] == key then Without(order[1..], key)
    else [order[0]] + Without(order[1..], key)
  }

  lemma {:induction false} WithoutIsRest(order: seq<AddrPort>, key: AddrPort)
    requires NoDuplicates(order)
    ensures NoDuplicates(Without(order, key))
    ensures forall k :: k in Without(order, key) <==> k in order && k != key
    ensures key !in order ==> Without(order, key) == order
    ensures key in order ==> |Without(order, key)| == |order| - 1
  {
    if order != [] {
      var rest := order[1..];
      assert NoDuplicates(rest) && order[0] !in rest;
      WithoutIsRest(rest, key);
      assert order == [order[0]] + rest;
      if order[0] != key { assert order[0] !in Without(rest, key); }
    }
  }

  lemma {:induction false} WithoutAt(order: seq<AddrPort>, i: nat)
    requires NoDuplicates(order) && i < |order|
    ensures Without(order, order[i]) == order[..i] + order[i + 1..]
  {
    if i == 0 {
      WithoutIsRest(order[1..], order[0]);
    } else {
      WithoutAt(order[1..], i - 1);
      assert order[1..][..i - 1] == order[1..i];
      assert order[1..][i..] == order[i + 1..];
    }
  }

  // How long ago a key was last marked: the number of marks before its last one; -1 if it never was.
  function LastMark(marked: seq<AddrPort>, key: AddrPort): int {
    if marked == [] then -1
    else if marked[|marked| - 1] == key then |marked| - 1
    else LastMark(marked[..|marked| - 1], key)
  }

  lemma {:induction false} LastMarkIsPast(marked: seq<AddrPort>, key: AddrPort)
    ensures -1 <= LastMark(marked, key) < |marked|
  {
    if marked != [] {
      LastMarkIsPast(marked[..|marked| - 1], key);
    }
  }

  // Each key was marked longer ago than those after it.
  ghost predicate ByLastMark(order: seq<AddrPort>, marked: seq<AddrPort>) {
    forall i, j :: 0 <= i < j < |order| ==> LastMark(marked, order[i]) < LastMark(marked, order[j])
  }

  lemma {:induction false} WithoutKeepsOrder(order: seq<AddrPort>, marked: seq<AddrPort>, key: AddrPort)
    requires ByLastMark(order, marked)
    ensures ByLastMark(Without(order, key), marked)
    ensures forall k :: k in Without(order, key) ==> k in order && k != key
  {
    if order != [] {
      WithoutKeepsOrder(order[1..], marked, key);
      assert order == [order[0]] + order[1..];
      forall k | k in Without(order[1..], key)
        ensures LastMark(marked, order[0]) < LastMark(marked, k)
      {
        var i :| 0 <= i < |order[1..]| && order[1..][i] == k;
        assert order[1 + i] == k;
      }
    }
  }

  // A mark sends its key to the back and leaves the rest in order.
  lemma MarkKeepsOrder(order: seq<AddrPort>, marked: seq<AddrPort>, key: AddrPort)
    requires ByLastMark(order, marked)
    ensures ByLastMark(Without(order, key) + [key], marked + [key])
  {
    var rest := Without(order, key);
    WithoutKeepsOrder(order, marked, key);
    forall k | k in rest + [key]
      ensures LastMark(marked + [key], k) == if k == key then |marked| else LastMark(marked, k)
      ensures k != key ==> LastMark(marked, k) < |marked|
    {
      assert (marked + [key])[..|marked|] == marked;
      LastMarkIsPast(marked, k);
    }
    forall i, j | 0 <= i < j < |rest + [key]|
      ensures LastMark(marked + [key], (rest + [key])[i]) < LastMark(marked + [key], (rest + [key])[j])
    {
      assert (rest + [key])[i] in rest + [key] && (rest + [key])[j] in rest + [key];
      if j < |rest| { assert rest[j] in rest; }
      assert rest[i] in rest;
    }
  }

  // ---- The list ----

  datatype Element = Element(id: nat, key: AddrPort)

  function Keys(list: seq<Element>): seq<AddrPort> {
    seq(|list|, i requires 0 <= i < |list| => list[i].key)
  }

  // Every element is its key's own.
  ghost predicate Sound(list: seq<Element>, next: nat, at: map<AddrPort, Option<nat>>) {
    forall i :: 0 <= i < |list| ==>
      list[i].id < next && list[i].key in at && at[list[i].key] == Some(list[i].id)
  }

  predicate Apart(list: seq<Element>) {
    forall i, j :: 0 <= i < j < |list| ==> list[i].id != list[j].id && list[i].key != list[j].key
  }

  // Every key that has an element is in the list.
  ghost predicate Complete(list: seq<Element>, at: map<AddrPort, Option<nat>>) {
    forall k :: k in at && at[k].Some? ==> k in Keys(list)
  }

  // The list and the connections' own references into it agree.
  ghost predicate Linked(list: seq<Element>, next: nat, at: map<AddrPort, Option<nat>>) {
    Sound(list, next, at) && Apart(list) && Complete(list, at)
  }

  function Cut(list: seq<Element>, i: nat): seq<Element>
    requires i < |list|
  {
    list[..i] + list[i + 1..]
  }

  lemma ApartKeys(list: seq<Element>)
    requires Apart(list)
    ensures NoDuplicates(Keys(list))
  {
  }

  lemma KeysOfCut(list: seq<Element>, i: nat)
    requires i < |list| && Apart(list)
    ensures Keys(Cut(list, i)) == Without(Keys(list), list[i].key)
    ensures Keys(Cut(list, i) + [list[i]]) == Without(Keys(list), list[i].key) + [list[i].key]
    ensures forall k :: k in Keys(Cut(list, i)) <==> k in Keys(list) && k != list[i].key
    ensures forall k :: k in Keys(Cut(list, i) + [list[i]]) <==> k in Keys(list)
  {
    ApartKeys(list);
    assert list[i].key in Keys(list) by { assert Keys(list)[i] == list[i].key; }
    WithoutAt(Keys(list), i);
    assert Keys(Cut(list, i)) == Keys(list)[..i] + Keys(list)[i + 1..];
    WithoutIsRest(Keys(list), list[i].key);
    assert Keys(Cut(list, i) + [list[i]]) == Keys(Cut(list, i)) + [list[i].key];
  }

  lemma KeysOfPush(list: seq<Element>, e: Element)
    requires Apart(list) && e.key !in Keys(list)
    ensures Keys(list + [e]) == Without(Keys(list), e.key) + [e.key]
    ensures forall k :: k in Keys(list + [e]) <==> k in Keys(list) || k == e.key
  {
    ApartKeys(list);
    WithoutIsRest(Keys(list), e.key);
    assert Keys(list + [e]) == Keys(list) + [e.key];
  }

  lemma UnlinkedKey(list: seq<Element>, next: nat, at: map<AddrPort, Option<nat>>, key: AddrPort)
    requires Sound(list, next, at) && key in at && at[key] == None
    ensures key !in Keys(list)
  {
    forall i | 0 <= i < |list| ensures Keys(list)[i] != key { assert list[i].key in at; }
  }

  lemma PushKeepsLinked(list: seq<Element>, next: nat, at: map<AddrPort, Option<nat>>, key: AddrPort)
    requires Linked(list, next, at) && key in at && at[key] == None
    ensures Linked(list + [Element(next, key)], next + 1, at[key := Some(next)])
    ensures Keys(list + [Element(next, key)]) == Without(Keys(list), key) + [key]
  {
    hide Keys, Without;
    UnlinkedKey(list, next, at, key);
    KeysOfPush(list, Element(next, key));
    PushKeepsSound(list, next, at, key);
    hide Sound, Apart;
  }

  lemma PushKeepsSound(list: seq<Element>, next: nat, at: map<AddrPort, Option<nat>>, key: AddrPort)
    requires Sound(list, next, at) && Apart(list) && key in at && at[key] == None
    ensures Sound(list + [Element(next, key)], next + 1, at[key := Some(next)]) && Apart(list + [Element(next, key)])
  {
    assert forall i :: 0 <= i < |list| ==> list[i].key != key;
  }

  // Cutting an element out leaves elements that were there, in the same order.
  lemma CutParts(list: seq<Element>, next: nat, at: map<AddrPort, Option<nat>>, i: nat)
    requires Sound(list, next, at) && Apart(list) && i < |list|
    ensures Apart(Cut(list, i)) && Apart(Cut(list, i) + [list[i]])
    ensures Sound(Cut(list, i), next, at - {list[i].key}) && Sound(Cut(list, i) + [list[i]], next, at)
  {
    forall j | 0 <= j < |list| - 1
      ensures Cut(list, i)[j] == list[if j < i then j else j + 1]
    {
    }
  }

  lemma MoveKeepsLinked(list: seq<Element>, next: nat, at: map<AddrPort, Option<nat>>, i: nat)
    requires Linked(list, next, at) && i < |list|
    ensures Linked(Cut(list, i) + [list[i]], next, at)
    ensures Keys(Cut(list, i) + [list[i]]) == Without(Keys(list), list[i].key) + [list[i].key]
  {
    CutParts(list, next, at, i);
    KeysOfCut(list, i);
    hide Keys, Without, Cut, Sound, Apart;
  }

  lemma CutKeepsLinked(list: seq<Element>, next: nat, at: map<AddrPort, Option<nat>>, i: nat)
    requires Linked(list, next, at) && i < |list|
    ensures Linked(Cut(list, i), next, at - {list[i].key})
    ensures Keys(Cut(list, i)) == Without(Keys(list), list[i].key)
  {
    CutParts(list, next, at, i);
    KeysOfCut(list, i);
    hide Keys, Without, Cut, Sound, Apart;
  }

  // A connection's own reference leads to its key, and to no other's.
  lemma ElementOf(list: seq<Element>, next: nat, at: map<AddrPort, Option<nat>>, key: AddrPort)
    requires Linked(list, next, at) && key in at && at[key].Some?
    ensures exists j :: 0 <= j < |list| && list[j].id == at[key].value
    ensures forall i :: 0 <= i < |list| && list[i].id == at[key].value ==> list[i].key == key
    ensures forall k :: k in at && at[k] == at[key] ==> k == key
  {
    assert key in Keys(list);
    var j :| 0 <= j < |Keys(list)| && Keys(list)[j] == key;
    assert list[j].id == at[key].value;
    forall k | k in at && at[k] == at[key]
      ensures k == key
    {
      assert k in Keys(list);
      var i :| 0 <= i < |Keys(list)| && Keys(list)[i] == k;
      assert list[i].id == list[j].id;
    }
  }

  // ---- The objects ----

  class UDPConnection {
    var closed: bool
    var lruElement: Option<nat>
    var lastActive: int

    constructor ()
      ensures !closed && lruElement == None
    {
      closed, lruElement, lastActive := false, None, 0;
    }
  }

  class UDPForward {
    const maxConnections: int
    var connections: map<AddrPort, UDPConnection>
    var connectionLRU: seq<Element>
    var nextElement: nat                   // names the next element of the list
    ghost var marked: seq<AddrPort>        // every mark ever made, in order

    ghost function Order(): seq<AddrPort>
      reads this
    {
      Keys(connectionLRU)
    }

    ghost function At(): map<AddrPort, Option<nat>>
      reads this, connections.Values
    {
      map k | k in connections :: connections[k].lruElement
    }

    // The map and the list hold the same connections, once each, the least recently active first.
    ghost predicate Valid()
      reads this, connections.Values
    {
      && Linked(connectionLRU, nextElement, At())
      && (forall k :: k in connections ==> connections[k].lruElement.Some?)
      && (maxConnections > 0 ==> |connections| <= maxConnections)
      && ByLastMark(Order(), marked)
    }

    constructor (maxConnections: int)
      ensures Valid() && connections == map[] && marked == [] && this.maxConnections == maxConnections
    {
      this.maxConnections := maxConnections;
      connections, connectionLRU, nextElement, marked := map[], [], 0, [];
    }

    // Where an element stands in the list.
    method Locate(id: nat) returns (i: nat)
      requires exists j :: 0 <= j < |connectionLRU| && connectionLRU[j].id == id
      ensures i < |connectionLRU| && connectionLRU[i].id == id
    {
      i := 0;
      while connectionLRU[i].id != id
        invariant i < |connectionLRU| && forall j :: 0 <= j < i ==> connectionLRU[j].id != id
        decreases |connectionLRU| - i
      {
        i := i + 1;
      }
    }

    // To the back of the list, which a new connection joins.
    method MarkConnectionActiveLocked(key: AddrPort, conn: UDPConnection, now: int)
      requires key in connections && connections[key] == conn && Linked(connectionLRU, nextElement, At())
      requires forall k :: k in connections && k != key ==> connections[k] != conn
      modifies this`connectionLRU, this`nextElement, this`marked, conn`lruElement, conn`lastActive
      ensures Linked(connectionLRU, nextElement, At()) && conn.lruElement.Some?
      ensures conn.lastActive == now && marked == old(marked) + [key]
      ensures Order() == Without(old(Order()), key) + [key]
    {
      hide Linked, Keys, Without;
      conn.lastActive := now;
      marked := marked + [key];
      ghost var at := At();
      assert at == old(At());
      if conn.lruElement.None? {
        PushKeepsLinked(connectionLRU, nextElement, at, key);
        connectionLRU := connectionLRU + [Element(nextElement, key)];
        conn.lruElement := Some(nextElement);
        nextElement := nextElement + 1;
        assert At() == at[key := conn.lruElement];
        return;
      }
      ElementOf(connectionLRU, nextElement, at, key);
      var i := Locate(conn.lruElement.value);
      MoveKeepsLinked(connectionLRU, nextElement, at, i);
      connectionLRU := Cut(connectionLRU, i) + [connectionLRU[i]];
      assert At() == at;
    }

    method MarkConnectionActive(key: AddrPort, conn: UDPConnection, now: int)
      requires Valid()
      modifies this`connectionLRU, this`nextElement, this`marked, conn`lruElement, conn`lastActive
      ensures Valid()
      ensures if key in connections && connections[key] == conn
              then Order() == Without(old(Order()), key) + [key] && marked == old(marked) + [key]
              else Order() == old(Order()) && marked == old(marked)
    {
      hide Linked, Keys, Without, ByLastMark;
      if key in connections && connections[key] == conn {
        OneKeyEach(key);
        MarkKeepsOrder(Order(), marked, key);
        MarkConnectionActiveLocked(key, conn, now);
      }
    }

    // removeConnection: forget the connection, unless a newer one has taken its key.
    method RemoveConnection(key: AddrPort, conn: UDPConnection)
      requires Valid()
      modifies this`connections, this`connectionLRU, conn`lruElement
      ensures Valid() && marked == old(marked)
      ensures if key in old(connections) && old(connections)[key] == conn
              then connections == old(connections) - {key} && Order() == Without(old(Order()), key)
              else connections == old(connections) && Order() == old(Order())
    {
      hide Linked, Keys, Without, ByLastMark;
      if key in connections && connections[key] == conn {
        OneKeyEach(key);
        ghost var at := At();
        Smaller(connections, key);
        WithoutKeepsOrder(Order(), marked, key);
        ElementOf(connectionLRU, nextElement, at, key);
        var i := Locate(conn.lruElement.value);
        CutKeepsLinked(connectionLRU, nextElement, at, i);
        connections := connections - {key};
        connectionLRU := Cut(connectionLRU, i);
        conn.lruElement := None;
        assert At() == at - {key};
      }
    }

    // A connection is in the table under one key only.
    lemma OneKeyEach(key: AddrPort)
      requires Valid() && key in connections
      ensures forall k :: k in connections && k != key ==> connections[k] != connections[key]
    {
      ElementOf(connectionLRU, nextElement, At(), key);
      assert forall k :: k in connections ==> At()[k] == connections[k].lruElement;
    }

    // Forget the least recently active connection.
    method DropOldest() returns (key: AddrPort, evicted: UDPConnection)
      requires Valid() && connections != map[]
      modifies this`connections, this`connectionLRU, connections.Values`lruElement
      ensures Valid() && marked == old(marked)
      ensures |connections| == |old(connections)| - 1 && key in old(connections) && evicted == old(connections)[key]
      ensures connections == old(connections) - {key} && IsOldest(key, connections.Keys, marked)
      ensures old(Order()) == [key] + Order()
    {
      hide Linked, Keys, Without, ByLastMark, IsOldest;
      ghost var at := At();
      SomeKey(connections, at);
      ListIsNotEmpty(connectionLRU, nextElement, at);
      FrontIsOldest(connectionLRU, nextElement, at, marked);
      CutKeepsLinked(connectionLRU, nextElement, at, 0);
      key := connectionLRU[0].key;
      evicted := connections[key];
      OneKeyEach(key);
      Smaller(connections, key);
      connections := connections - {key};
      connectionLRU := Cut(connectionLRU, 0);
      evicted.lruElement := None;
      assert At() == at - {key};
      assert connections.Keys == at.Keys - {key};
    }

    // Make room for one more connection, if the table is full.
    method MakeRoomForConnectionLocked() returns (evicted: UDPConnection?, ghost oldest: Option<AddrPort>)
      requires Valid()
      modifies this`connections, this`connectionLRU, connections.Values`lruElement
      ensures Valid() && marked == old(marked)
      ensures maxConnections > 0 ==> |connections| < maxConnections
      ensures oldest.Some? <==> 0 < maxConnections <= |old(connections)|
      ensures oldest == None ==> evicted == null && connections == old(connections) && Order() == old(Order())
      ensures oldest.Some? ==>
                && oldest.value in old(connections) && evicted == old(connections)[oldest.value]
                && connections == old(connections) - {oldest.value} && IsOldest(oldest.value, connections.Keys, marked)
                && old(Order()) == [oldest.value] + Order()
    {
      hide Linked, Keys, Without, ByLastMark, IsOldest;
      evicted, oldest := null, None;
      if 0 < maxConnections && maxConnections <= |connections| {
        var key;
        key, evicted := DropOldest();
        oldest := Some(key);
      }
    }

    method GetOrCreateConnection(key: AddrPort, now: int) returns (conn: UDPConnection, ghost oldest: Option<AddrPort>)
      requires Valid()
      modifies this, connections.Values
      ensures Valid() && key in connections && connections[key] == conn && marked == old(marked) + [key]
      ensures key in old(connections) ==>
                connections == old(connections) && Order() == Without(old(Order()), key) + [key] && oldest == None
      ensures key !in old(connections) ==>
                fresh(conn) && !conn.closed && (oldest.Some? <==> 0 < maxConnections <= |old(connections)|)
      ensures key !in old(connections) && oldest == None ==>
                connections == old(connections)[key := conn] && Order() == old(Order()) + [key]
      ensures oldest.Some? ==>
                && oldest.value in old(connections) && old(connections)[oldest.value].closed
                && connections == (old(connections) - {oldest.value})[key := conn]
                && IsOldest(oldest.value, (old(connections) - {oldest.value}).Keys, old(marked))
                && old(Order()) + [key] == [oldest.value] + Order()
    {
      hide Linked, Keys, Without, ByLastMark, IsOldest;
      oldest := None;
      if key in connections {
        conn := connections[key];
        MarkConnectionActive(key, conn, now);
      } else {
        conn, oldest := AddMakingRoom(key, now);
      }
    }

    method AddMakingRoom(key: AddrPort, now: int) returns (conn: UDPConnection, ghost oldest: Option<AddrPort>)
      requires Valid() && key !in connections
      modifies this, connections.Values
      ensures Valid() && key in connections && connections[key] == conn && marked == old(marked) + [key]
      ensures fresh(conn) && !conn.closed && (oldest.Some? <==> 0 < maxConnections <= |old(connections)|)
      ensures oldest == None ==>
                connections == old(connections)[key := conn] && Order() == old(Order()) + [key]
      ensures oldest.Some? ==>
                && oldest.value in old(connections) && old(connections)[oldest.value].closed
                && connections == (old(connections) - {oldest.value})[key := conn]
                && IsOldest(oldest.value, (old(connections) - {oldest.value}).Keys, old(marked))
                && old(Order()) + [key] == [oldest.value] + Order()
    {
      hide Linked, Keys, Without, ByLastMark, IsOldest;
      var evicted;
      evicted, oldest := MakeRoomForConnectionLocked();
      conn := AddConnection(key, now);
      if evicted != null {
        Close(evicted);
      }
    }

    method Close(conn: UDPConnection)
      modifies conn`closed
      ensures conn.closed
      ensures old(Valid()) ==> Valid()
    {
      ghost var at := At();
      conn.closed := true;
      assert At() == at;
    }

    method AddConnection(key: AddrPort, now: int) returns (conn: UDPConnection)
      requires Valid() && key !in connections && (maxConnections > 0 ==> |connections| < maxConnections)
      modifies this`connections, this`connectionLRU, this`nextElement, this`marked
      ensures Valid() && fresh(conn) && !conn.closed && marked == old(marked) + [key]
      ensures connections == old(connections)[key := conn] && Order() == old(Order()) + [key]
    {
      hide Linked, Keys, Without, ByLastMark, IsOldest;
      conn := new UDPConnection();
      ghost var at := At();
      KeysAreKnown(connectionLRU, nextElement, at, key);
      MarkKeepsOrder(Order(), marked, key);
      connections := connections[key := conn];
      JoinsLinked(connectionLRU, nextElement, at, key);
      assert At() == at[key := None];
      MarkConnectionActiveLocked(key, conn, now);
    }
  }

  // Every other key was marked more recently.
  ghost predicate IsOldest(key: AddrPort, others: set<AddrPort>, marked: seq<AddrPort>) {
    forall k :: k in others ==> LastMark(marked, key) < LastMark(marked, k)
  }

  lemma ListIsNotEmpty(list: seq<Element>, next: nat, at: map<AddrPort, Option<nat>>)
    requires Linked(list, next, at) && |at| > 0 && forall k :: k in at ==> at[k].Some?
    ensures list != []
  {
    assert at.Keys != {};
    var k :| k in at;
    assert k in Keys(list);
  }

  lemma FrontIsOldest(list: seq<Element>, next: nat, at: map<AddrPort, Option<nat>>, marked: seq<AddrPort>)
    requires Linked(list, next, at) && list != [] && ByLastMark(Keys(list), marked)
    requires forall k :: k in at ==> at[k].Some?
    ensures list[0].key in at && Keys(list)[0] == list[0].key
    ensures Keys(list) == [list[0].key] + Without(Keys(list), list[0].key)
    ensures ByLastMark(Without(Keys(list), list[0].key), marked)
    ensures IsOldest(list[0].key, at.Keys - {list[0].key}, marked)
  {
    hide Linked, Keys, NoDuplicates, ByLastMark, IsOldest;
    FrontKey(list, next, at);
    var keys := Keys(list);
    WithoutAt(keys, 0);
    WithoutKeepsOrder(keys, marked, keys[0]);
    FrontOfOrder(keys, marked, at.Keys);
  }

  lemma FrontKey(list: seq<Element>, next: nat, at: map<AddrPort, Option<nat>>)
    requires Linked(list, next, at) && list != [] && forall k :: k in at ==> at[k].Some?
    ensures NoDuplicates(Keys(list)) && Keys(list) != [] && Keys(list)[0] == list[0].key && list[0].key in at
    ensures forall k :: k in at.Keys ==> k in Keys(list)
  {
    ApartKeys(list);
  }

  lemma FrontOfOrder(order: seq<AddrPort>, marked: seq<AddrPort>, known: set<AddrPort>)
    requires ByLastMark(order, marked) && order != [] && forall k :: k in known ==> k in order
    ensures IsOldest(order[0], known - {order[0]}, marked)
  {
    hide LastMark, ByLastMark;
    forall k | k in known - {order[0]}
      ensures LastMark(marked, order[0]) < LastMark(marked, k)
    {
      FrontIsFirst(order, marked, k);
    }
  }

  lemma FrontIsFirst(order: seq<AddrPort>, marked: seq<AddrPort>, k: AddrPort)
    requires ByLastMark(order, marked) && order != [] && k in order && k != order[0]
    ensures LastMark(marked, order[0]) < LastMark(marked, k)
  {
    var i :| 0 <= i < |order| && order[i] == k;
  }

  lemma KeysAreKnown(list: seq<Element>, next: nat, at: map<AddrPort, Option<nat>>, key: AddrPort)
    requires Linked(list, next, at) && key !in at
    ensures key !in Keys(list) && Without(Keys(list), key) == Keys(list)
  {
    ApartKeys(list);
    forall i | 0 <= i < |list| ensures Keys(list)[i] != key { assert list[i].key in at; }
    WithoutIsRest(Keys(list), key);
  }

  lemma JoinsLinked(list: seq<Element>, next: nat, at: map<AddrPort, Option<nat>>, key: AddrPort)
    requires Linked(list, next, at) && key !in at
    ensures Linked(list, next, at[key := None])
  {
  }

  lemma SomeKey(connections: map<AddrPort, UDPConnection>, at: map<AddrPort, Option<nat>>)
    requires connections != map[] && at.Keys == connections.Keys
    ensures |at| > 0
  {
    assert connections.Keys != {};
  }

  lemma Smaller(connections: map<AddrPort, UDPConnection>, key: AddrPort)
    requires key in connections
    ensures |connections - {key}| == |connections| - 1
  {
    assert (connections - {key}).Keys == connections.Keys - {key};
  }
}
