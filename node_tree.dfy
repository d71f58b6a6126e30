/**
 * The tree of drivers and their nodes in the administration console: the name order
 * children are kept in, finding a driver or a node, and adding and removing drivers and
 * nodes so that names stay sorted, unique under a driver, and each node under one driver.
 */
module NodeTree {
  import opened Text

  datatype Option<T> = None | Some(value: T)

  /** `String.compareTo(...) < 0`: the first differing character decides, else the shorter string comes first. */
  predicate Less(a: string, b: string)
  {
    if a == [] then b != []
    else if b == [] then false
    else if a[0] != b[0] then a[0] < b[0]
    else Less(a[1..], b[1..])
  }

  lemma {:induction false} LessIrreflexive(a: string)
    ensures !Less(a, a)
  {
    if a != [] {
      LessIrreflexive(a[1..]);
    }
  }

  lemma {:induction false} LessTotal(a: string, b: string)
    ensures a != b ==> Less(a, b) || Less(b, a)
  {
    if a != [] && b != [] && a[0] == b[0] {
      LessTotal(a[1..], b[1..]);
      if a[1..] == b[1..] {
        assert a == [a[0]] + a[1..] && b == [b[0]] + b[1..];
      }
    }
  }

  lemma {:induction false} LessTransitive(a: string, b: string, c: string)
    requires Less(a, b) && Less(b, c)
    ensures Less(a, c)
  {
    if a != [] && a[0] == b[0] && b[0] == c[0] {
      LessTransitive(a[1..], b[1..], c[1..]);
    }
  }

  /** Names in strictly increasing order: sorted and without duplicates. */
  predicate StrictlySorted(names: seq<string>)
  {
    forall i, j :: 0 <= i < j < |names| ==> Less(names[i], names[j])
  }

  lemma SortedDistinct(names: seq<string>, i: nat, j: nat)
    requires StrictlySorted(names) && i < |names| && j < |names| && i != j
    ensures names[i] != names[j]
  {
    if i < j {
      LessIrreflexive(names[i]);
    } else {
      LessIrreflexive(names[j]);
    }
  }

  function Insert<T>(s: seq<T>, i: nat, x: T): (t: seq<T>)
    requires i <= |s|
    ensures |t| == |s| + 1 && t[i] == x
    ensures forall k :: 0 <= k < i ==> t[k] == s[k]
    ensures forall k :: i < k < |t| ==> t[k] == s[k - 1]
  {
    s[..i] + [x] + s[i..]
  }

  function RemoveAt<T>(s: seq<T>, i: nat): (t: seq<T>)
    requires i < |s|
    ensures |t| == |s| - 1
    ensures forall k :: 0 <= k < i ==> t[k] == s[k]
    ensures forall k :: i <= k < |t| ==> t[k] == s[k + 1]
  {
    s[..i] + s[i + 1..]
  }

  /**
   * The insert-index search from child `i` on: -1 at a child with the same name, the
   * index of the first child whose name is greater, or the child count.
   */
  function InsertIndexFrom(names: seq<string>, name: string, i: nat): (r: int)
    requires i <= |names|
    ensures r == -1 || i <= r <= |names|
    ensures r == -1 ==> exists j :: i <= j < |names| && names[j] == name
    ensures r >= 0 ==> forall k :: i <= k < r ==> names[k] != name && !Less(name, names[k])
    ensures 0 <= r < |names| ==> Less(name, names[r])
    decreases |names| - i
  {
    if i == |names| then |names|
    else if names[i] == name then -1
    else if Less(name, names[i]) then i
    else InsertIndexFrom(names, name, i + 1)
  }

  function InsertIndex(names: seq<string>, name: string): (r: int)
  {
    InsertIndexFrom(names, name, 0)
  }

  /**
   * Over strictly sorted names, the insert index is -1 exactly when the name is present,
   * and inserting the name at a non-negative index keeps the names strictly sorted.
   */
  lemma InsertIndexKeepsSorted(names: seq<string>, name: string)
    requires StrictlySorted(names)
    ensures InsertIndex(names, name) == -1 <==> name in names
    ensures InsertIndex(names, name) >= 0 ==> StrictlySorted(Insert(names, InsertIndex(names, name), name))
  {
    var r := InsertIndex(names, name);
    if r >= 0 {
      forall j | 0 <= j < |names|
        ensures names[j] != name && (j < r ==> Less(names[j], name)) && (j >= r ==> Less(name, names[j]))
      {
        if j < r {
          LessTotal(names[j], name);
        } else {
          if j > r {
            LessTransitive(name, names[r], names[j]);
          }
          LessIrreflexive(name);
        }
      }
      var t := Insert(names, r, name);
      forall a, b | 0 <= a < b < |t|
        ensures Less(t[a], t[b])
      {
        if a != r && b != r {
          assert t[a] == names[if a < r then a else a - 1];
          assert t[b] == names[if b < r then b else b - 1];
        }
      }
    }
  }

  /** The find loop from child `i` on: the first child with the name, or null. */
  function FindFrom(names: seq<string>, name: string, i: nat): (r: Option<nat>)
    requires i <= |names|
    ensures r.Some? ==> i <= r.value < |names| && names[r.value] == name
    ensures r.Some? ==> forall k :: i <= k < r.value ==> names[k] != name
    ensures r.None? ==> forall k :: i <= k < |names| ==> names[k] != name
    decreases |names| - i
  {
    if i == |names| then None
    else if names[i] == name then Some(i)
    else FindFrom(names, name, i + 1)
  }

  function Find(names: seq<string>, name: string): (r: Option<nat>)
  {
    FindFrom(names, name, 0)
  }

  /** The set of names a sequence holds. */
  function SetOf(names: seq<string>): (s: set<string>)
    ensures forall n :: n in s <==> n in names
  {
    set n | n in names
  }

  /** One more name of a list adds it to the set of names seen so far. */
  lemma SetOfPrefix(names: seq<string>, j: nat)
    requires j < |names|
    ensures SetOf(names[..j + 1]) == SetOf(names[..j]) + {names[j]}
  {
    assert names[..j + 1] == names[..j] + [names[j]];
  }

  /** Removing one name from strictly sorted names keeps them sorted and removes exactly that name. */
  lemma RemoveAtSorted(names: seq<string>, k: nat)
    requires StrictlySorted(names) && k < |names|
    ensures StrictlySorted(RemoveAt(names, k))
    ensures SetOf(RemoveAt(names, k)) == SetOf(names) - {names[k]}
  {
    var t := RemoveAt(names, k);
    forall a, b | 0 <= a < b < |t|
      ensures Less(t[a], t[b])
    {
      assert t[a] == names[if a < k then a else a + 1];
      assert t[b] == names[if b < k then b else b + 1];
    }
    forall n | n in SetOf(names) - {names[k]}
      ensures n in SetOf(t)
    {
      var j :| 0 <= j < |names| && names[j] == n;
      assert j != k;
      assert t[if j < k then j else j - 1] == n;
    }
    forall j | 0 <= j < |t|
      ensures t[j] != names[k]
    {
      SortedDistinct(names, if j < k then j else j + 1, k);
    }
  }

  /** A node as the tree shows it: its "host:port" name and whether it is a node (rather than a peer driver). */
  datatype NodeEntry = NodeEntry(name: string, isNode: bool)

  /** A driver as the tree shows it: its name and its nodes. */
  datatype DriverEntry = DriverEntry(name: string, nodes: seq<NodeEntry>)

  /** What the driver's management interface reports about its nodes. */
  datatype NodeInfo = NodeInfo(host: string, port: int, isNode: bool)

  /** The answer to a node-information query: it failed, it was null, or the nodes. */
  datatype NodesAnswer = QueryFailed | NoInfo | Infos(infos: seq<NodeInfo>)

  /** The name a node is shown under: its host, a colon and its port. */
  function NodeName(info: NodeInfo): string
  {
    info.host + [':'] + IntStr(info.port)
  }

  function EntryOf(info: NodeInfo): (e: NodeEntry)
    ensures e.name == NodeName(info) && e.isNode == info.isNode
  {
    NodeEntry(NodeName(info), info.isNode)
  }

  function NodeNames(ns: seq<NodeEntry>): (names: seq<string>)
    ensures |names| == |ns| && forall i :: 0 <= i < |ns| ==> names[i] == ns[i].name
  {
    seq(|ns|, i requires 0 <= i < |ns| => ns[i].name)
  }

  function DriverNames(ds: seq<DriverEntry>): (names: seq<string>)
    ensures |names| == |ds| && forall i :: 0 <= i < |ds| ==> names[i] == ds[i].name
  {
    seq(|ds|, i requires 0 <= i < |ds| => ds[i].name)
  }

  function NameSet(ns: seq<NodeEntry>): set<string>
  {
    SetOf(NodeNames(ns))
  }

  function DriverNameSet(ds: seq<DriverEntry>): set<string>
  {
    SetOf(DriverNames(ds))
  }

  /** No node name is shown under two drivers. */
  predicate NodesUnique(ds: seq<DriverEntry>)
  {
    forall i, j :: 0 <= i < |ds| && 0 <= j < |ds| && i != j ==> NameSet(ds[i].nodes) !! NameSet(ds[j].nodes)
  }

  /** The tree's invariant: drivers and each driver's nodes in strictly increasing name order, and each node under one driver at most. */
  predicate ValidTree(ds: seq<DriverEntry>)
  {
    StrictlySorted(DriverNames(ds))
    && (forall d :: 0 <= d < |ds| ==> StrictlySorted(NodeNames(ds[d].nodes)))
    && NodesUnique(ds)
  }

  /** A driver's nodes without the first one of that name, if any. */
  function WithoutName(ns: seq<NodeEntry>, name: string): seq<NodeEntry>
  {
    match Find(NodeNames(ns), name)
    case None => ns
    case Some(k) => RemoveAt(ns, k)
  }

  lemma WithoutNameMeaning(ns: seq<NodeEntry>, name: string)
    requires StrictlySorted(NodeNames(ns))
    ensures StrictlySorted(NodeNames(WithoutName(ns, name)))
    ensures NameSet(WithoutName(ns, name)) == NameSet(ns) - {name}
  {
    match Find(NodeNames(ns), name)
    case None =>
    case Some(k) =>
      assert NodeNames(RemoveAt(ns, k)) == RemoveAt(NodeNames(ns), k);
      RemoveAtSorted(NodeNames(ns), k);
  }

  /** The tree after the node is taken away from every driver other than `d`. */
  function Evicted(ds: seq<DriverEntry>, d: nat, name: string): (r: seq<DriverEntry>)
    ensures |r| == |ds| && DriverNames(r) == DriverNames(ds)
  {
    seq(|ds|, i requires 0 <= i < |ds| => if i == d then ds[i] else ds[i].(nodes := WithoutName(ds[i].nodes, name)))
  }

  /**
   * `nodeAdded(driverNode, nodeInfo)` on the tree: nothing when the driver already shows
   * the name; otherwise the node is inserted at its sorted index and any node of that
   * name is removed from every other driver.
   */
  function AddNode(ds: seq<DriverEntry>, d: nat, e: NodeEntry): (r: seq<DriverEntry>)
    requires d < |ds|
    ensures |r| == |ds|
  {
    var k := InsertIndex(NodeNames(ds[d].nodes), e.name);
    if k < 0 then ds
    else Evicted(ds[d := ds[d].(nodes := Insert(ds[d].nodes, k, e))], d, e.name)
  }

  lemma InsertSet(names: seq<string>, k: nat, x: string)
    requires k <= |names|
    ensures SetOf(Insert(names, k, x)) == SetOf(names) + {x}
  {
    var t := Insert(names, k, x);
    forall n | n in names
      ensures n in t
    {
      var j :| 0 <= j < |names| && names[j] == n;
      assert t[if j < k then j else j + 1] == n;
    }
  }

  /**
   * Adding a node to driver `d` of a valid tree keeps it valid and keeps the drivers; the
   * name is then shown under `d` and under no other driver, and nothing else changes.
   */
  lemma AddNodeMeaning(ds: seq<DriverEntry>, d: nat, e: NodeEntry)
    requires ValidTree(ds) && d < |ds|
    ensures var r := AddNode(ds, d, e);
      ValidTree(r) && DriverNames(r) == DriverNames(ds)
      && NameSet(r[d].nodes) == NameSet(ds[d].nodes) + {e.name}
      && forall i :: 0 <= i < |ds| && i != d ==> NameSet(r[i].nodes) == NameSet(ds[i].nodes) - {e.name}
  {
    var names := NodeNames(ds[d].nodes);
    var k := InsertIndex(names, e.name);
    InsertIndexKeepsSorted(names, e.name);
    var r := AddNode(ds, d, e);
    if k < 0 {
      forall i | 0 <= i < |ds| && i != d
        ensures NameSet(r[i].nodes) == NameSet(ds[i].nodes) - {e.name}
      {
        assert e.name in NameSet(ds[d].nodes);
      }
    } else {
      var nd := ds[d].(nodes := Insert(ds[d].nodes, k, e));
      assert NodeNames(nd.nodes) == Insert(names, k, e.name);
      InsertSet(names, k, e.name);
      assert r[d] == nd;
      forall i | 0 <= i < |ds| && i != d
        ensures StrictlySorted(NodeNames(r[i].nodes))
        ensures NameSet(r[i].nodes) == NameSet(ds[i].nodes) - {e.name}
      {
        WithoutNameMeaning(ds[i].nodes, e.name);
      }
      assert DriverNames(r) == DriverNames(ds);
    }
  }

  /** The nodes reported, added to driver `d` one after the other. */
  function AddNodes(ds: seq<DriverEntry>, d: nat, infos: seq<NodeInfo>): (r: seq<DriverEntry>)
    requires d < |ds|
    ensures |r| == |ds|
  {
    if infos == [] then ds else AddNode(AddNodes(ds, d, infos[..|infos| - 1]), d, EntryOf(infos[|infos| - 1]))
  }

  /** The names of the reported nodes. */
  function InfoNames(infos: seq<NodeInfo>): (s: set<string>)
  {
    if infos == [] then {} else InfoNames(infos[..|infos| - 1]) + {NodeName(infos[|infos| - 1])}
  }

  lemma {:induction false} AddNodesKeepsTree(ds: seq<DriverEntry>, d: nat, infos: seq<NodeInfo>)
    requires ValidTree(ds) && d < |ds|
    ensures ValidTree(AddNodes(ds, d, infos)) && DriverNames(AddNodes(ds, d, infos)) == DriverNames(ds)
  {
    if infos != [] {
      var front := infos[..|infos| - 1];
      AddNodesKeepsTree(ds, d, front);
      AddNodeMeaning(AddNodes(ds, d, front), d, EntryOf(infos[|infos| - 1]));
    }
  }

  /** After adding the reported nodes, driver `d` shows them too, and no other driver shows any of them. */
  lemma {:induction false} AddNodesMeaning(ds: seq<DriverEntry>, d: nat, infos: seq<NodeInfo>)
    requires ValidTree(ds) && d < |ds|
    ensures var r := AddNodes(ds, d, infos);
      NameSet(r[d].nodes) == NameSet(ds[d].nodes) + InfoNames(infos)
      && forall i :: 0 <= i < |ds| && i != d ==> NameSet(r[i].nodes) == NameSet(ds[i].nodes) - InfoNames(infos)
  {
    AddNodesAtDriver(ds, d, infos);
    forall i | 0 <= i < |ds| && i != d
      ensures NameSet(AddNodes(ds, d, infos)[i].nodes) == NameSet(ds[i].nodes) - InfoNames(infos)
    {
      AddNodesElsewhere(ds, d, infos, i);
    }
  }

  /** The driver the nodes are added to shows them all. */
  lemma {:induction false} AddNodesAtDriver(ds: seq<DriverEntry>, d: nat, infos: seq<NodeInfo>)
    requires ValidTree(ds) && d < |ds|
    ensures NameSet(AddNodes(ds, d, infos)[d].nodes) == NameSet(ds[d].nodes) + InfoNames(infos)
  {
    if infos != [] {
      var front := infos[..|infos| - 1];
      AddNodesAtDriver(ds, d, front);
      AddNodesKeepsTree(ds, d, front);
      AddNodeMeaning(AddNodes(ds, d, front), d, EntryOf(infos[|infos| - 1]));
    }
  }

  /** Any other driver loses the nodes added. */
  lemma {:induction false} AddNodesElsewhere(ds: seq<DriverEntry>, d: nat, infos: seq<NodeInfo>, i: nat)
    requires ValidTree(ds) && d < |ds| && i < |ds| && i != d
    ensures NameSet(AddNodes(ds, d, infos)[i].nodes) == NameSet(ds[i].nodes) - InfoNames(infos)
  {
    if infos != [] {
      var front := infos[..|infos| - 1];
      AddNodesElsewhere(ds, d, front, i);
      AddNodesKeepsTree(ds, d, front);
      AddNodeMeaning(AddNodes(ds, d, front), d, EntryOf(infos[|infos| - 1]));
    }
  }

  /**
   * `driverAdded` on the tree: nothing when the driver is already shown; otherwise the
   * driver is inserted at its sorted index, and the nodes it reports, if the query
   * succeeds with a non-null answer, are added to it.
   */
  function AfterDriverAdded(ds: seq<DriverEntry>, name: string, answer: NodesAnswer): seq<DriverEntry>
  {
    var k := InsertIndex(DriverNames(ds), name);
    if k < 0 then ds
    else
      var withDriver := Insert(ds, k, DriverEntry(name, []));
      if answer.Infos? then AddNodes(withDriver, k, answer.infos) else withDriver
  }

  /** A valid tree stays valid, and the driver is shown after it is added, whatever its nodes. */
  lemma DriverAddedMeaning(ds: seq<DriverEntry>, name: string, answer: NodesAnswer)
    requires ValidTree(ds)
    ensures ValidTree(AfterDriverAdded(ds, name, answer))
    ensures DriverNameSet(AfterDriverAdded(ds, name, answer)) == DriverNameSet(ds) + {name}
  {
    var names := DriverNames(ds);
    var k := InsertIndex(names, name);
    InsertIndexKeepsSorted(names, name);
    if k >= 0 {
      DriverInserted(ds, k, name);
      if answer.Infos? {
        AddNodesKeepsTree(Insert(ds, k, DriverEntry(name, [])), k, answer.infos);
      }
    }
  }

  /** A driver without nodes inserted where its name keeps the driver names sorted gives a valid tree. */
  lemma DriverInserted(ds: seq<DriverEntry>, k: nat, name: string)
    requires ValidTree(ds) && k <= |ds| && StrictlySorted(Insert(DriverNames(ds), k, name))
    ensures var r := Insert(ds, k, DriverEntry(name, []));
      ValidTree(r) && DriverNameSet(r) == DriverNameSet(ds) + {name}
  {
    var names := DriverNames(ds);
    var r := Insert(ds, k, DriverEntry(name, []));
    assert DriverNames(r) == Insert(names, k, name);
    InsertSet(names, k, name);
    assert NameSet([]) == {};
  }

  /**
   * `driverRemoved` on the tree: nothing for a driver not shown; otherwise either all its
   * nodes are removed and the driver kept, or the driver is removed with its nodes.
   */
  function AfterDriverRemoved(ds: seq<DriverEntry>, name: string, removeNodesOnly: bool): seq<DriverEntry>
  {
    match Find(DriverNames(ds), name)
    case None => ds
    case Some(d) => if removeNodesOnly then ds[d := ds[d].(nodes := [])] else RemoveAt(ds, d)
  }

  lemma DriverRemovedMeaning(ds: seq<DriverEntry>, name: string, removeNodesOnly: bool)
    requires ValidTree(ds)
    ensures var r := AfterDriverRemoved(ds, name, removeNodesOnly);
      ValidTree(r)
      && (removeNodesOnly ==> DriverNames(r) == DriverNames(ds))
      && (removeNodesOnly && name in DriverNames(ds) ==> exists d :: 0 <= d < |r| && r[d] == DriverEntry(name, []))
      && (!removeNodesOnly ==> DriverNameSet(r) == DriverNameSet(ds) - {name})
  {
    match Find(DriverNames(ds), name)
    case None =>
    case Some(d) =>
      if removeNodesOnly {
        NodesCleared(ds, d);
      } else {
        DriverDropped(ds, d);
      }
  }

  /** Emptying one driver's nodes keeps the tree valid and its drivers. */
  lemma NodesCleared(ds: seq<DriverEntry>, d: nat)
    requires ValidTree(ds) && d < |ds|
    ensures var r := ds[d := ds[d].(nodes := [])];
      ValidTree(r) && DriverNames(r) == DriverNames(ds) && r[d] == DriverEntry(ds[d].name, [])
  {
    assert NameSet([]) == {};
    assert DriverNames(ds[d := ds[d].(nodes := [])]) == DriverNames(ds);
  }

  /** Removing one driver keeps the tree valid and removes exactly its name. */
  lemma DriverDropped(ds: seq<DriverEntry>, d: nat)
    requires ValidTree(ds) && d < |ds|
    ensures ValidTree(RemoveAt(ds, d)) && DriverNameSet(RemoveAt(ds, d)) == DriverNameSet(ds) - {ds[d].name}
  {
    var r := RemoveAt(ds, d);
    assert DriverNames(r) == RemoveAt(DriverNames(ds), d);
    RemoveAtSorted(DriverNames(ds), d);
    forall i | 0 <= i < |r|
      ensures StrictlySorted(NodeNames(r[i].nodes))
    {
      assert r[i] == ds[if i < d then i else i + 1];
    }
    forall i, j | 0 <= i < |r| && 0 <= j < |r| && i != j
      ensures NameSet(r[i].nodes) !! NameSet(r[j].nodes)
    {
      assert r[i] == ds[if i < d then i else i + 1];
      assert r[j] == ds[if j < d then j else j + 1];
    }
  }

  /** `nodeRemoved` on the tree: the first node of that name under the driver, when both are shown, is removed. */
  function AfterNodeRemoved(ds: seq<DriverEntry>, driverName: string, nodeName: string): seq<DriverEntry>
  {
    match Find(DriverNames(ds), driverName)
    case None => ds
    case Some(d) => ds[d := ds[d].(nodes := WithoutName(ds[d].nodes, nodeName))]
  }

  lemma NodeRemovedMeaning(ds: seq<DriverEntry>, driverName: string, nodeName: string)
    requires ValidTree(ds)
    ensures var r := AfterNodeRemoved(ds, driverName, nodeName);
      ValidTree(r) && DriverNames(r) == DriverNames(ds)
      && forall i :: 0 <= i < |ds| ==>
           NameSet(r[i].nodes) == if ds[i].name == driverName then NameSet(ds[i].nodes) - {nodeName} else NameSet(ds[i].nodes)
  {
    match Find(DriverNames(ds), driverName)
    case None =>
    case Some(d) =>
      var r := AfterNodeRemoved(ds, driverName, nodeName);
      WithoutNameMeaning(ds[d].nodes, nodeName);
      assert DriverNames(r) == DriverNames(ds);
      forall i | 0 <= i < |ds| && i != d
        ensures ds[i].name != driverName
      {
        SortedDistinct(DriverNames(ds), i, d);
      }
  }

  /** `nodeAdded(driverName, nodeInfo)` on the tree: the node is added to the driver of that name, when it is shown. */
  function AfterNodeAdded(ds: seq<DriverEntry>, driverName: string, info: NodeInfo): seq<DriverEntry>
  {
    match Find(DriverNames(ds), driverName)
    case None => ds
    case Some(d) => AddNode(ds, d, EntryOf(info))
  }

  lemma NodeAddedMeaning(ds: seq<DriverEntry>, driverName: string, info: NodeInfo)
    requires ValidTree(ds)
    ensures var r := AfterNodeAdded(ds, driverName, info);
      ValidTree(r) && DriverNames(r) == DriverNames(ds)
      && (driverName !in DriverNames(ds) ==> r == ds)
      && (driverName in DriverNames(ds) ==> forall i :: 0 <= i < |ds| ==>
            NameSet(r[i].nodes) == if ds[i].name == driverName then NameSet(ds[i].nodes) + {NodeName(info)} else NameSet(ds[i].nodes) - {NodeName(info)})
  {
    match Find(DriverNames(ds), driverName)
    case None =>
    case Some(d) =>
      AddNodeMeaning(ds, d, EntryOf(info));
      forall i | 0 <= i < |ds| && i != d
        ensures ds[i].name != driverName
      {
        SortedDistinct(DriverNames(ds), i, d);
      }
  }

  /** `nodeRemoved` under the name of the driver at index `d`: only that driver changes. */
  lemma NodeRemovedAtIndex(ds: seq<DriverEntry>, d: nat, nodeName: string)
    requires ValidTree(ds) && d < |ds|
    ensures var r := AfterNodeRemoved(ds, ds[d].name, nodeName);
      ValidTree(r) && DriverNames(r) == DriverNames(ds)
      && NameSet(r[d].nodes) == NameSet(ds[d].nodes) - {nodeName}
      && forall i :: 0 <= i < |ds| && i != d ==> NameSet(r[i].nodes) == NameSet(ds[i].nodes)
  {
    NodeRemovedMeaning(ds, ds[d].name, nodeName);
    forall i | 0 <= i < |ds| && i != d
      ensures ds[i].name != ds[d].name
    {
      SortedDistinct(DriverNames(ds), i, d);
    }
  }

  /** `nodeAdded` under the name of the driver at index `d`: the node is shown under it and under no other driver. */
  lemma NodeAddedAtIndex(ds: seq<DriverEntry>, d: nat, info: NodeInfo)
    requires ValidTree(ds) && d < |ds|
    ensures var r := AfterNodeAdded(ds, ds[d].name, info);
      ValidTree(r) && DriverNames(r) == DriverNames(ds)
      && NameSet(r[d].nodes) == NameSet(ds[d].nodes) + {NodeName(info)}
      && forall i :: 0 <= i < |ds| && i != d ==> NameSet(r[i].nodes) == NameSet(ds[i].nodes) - {NodeName(info)}
  {
    NodeAddedMeaning(ds, ds[d].name, info);
    forall i | 0 <= i < |ds| && i != d
      ensures ds[i].name != ds[d].name
    {
      SortedDistinct(DriverNames(ds), i, d);
    }
  }

  /** The manager of the tree of drivers and their nodes shown by the node data panel. */
  class NodeDataPanelManager {
    /** The drivers under the tree's root, in order, each with its nodes. */
    var drivers: seq<DriverEntry>
    /** The names of the drivers whose connection has a status listener registered. */
    var listeners: set<string>
    /** The (driver, node) pairs whose display was refreshed, in order. */
    var changed: seq<(string, string)>

    predicate Valid()
      reads this
    {
      ValidTree(drivers)
    }

    constructor()
      ensures Valid() && drivers == [] && listeners == {} && changed == []
    {
      drivers := [];
      listeners := {};
      changed := [];
    }

    /** `findDriver`: the index of the first driver with that name, or null. */
    method FindDriver(name: string) returns (d: Option<nat>)
      ensures d == Find(DriverNames(drivers), name)
    {
      var i := 0;
      while i < |drivers|
        invariant 0 <= i <= |drivers|
        invariant FindFrom(DriverNames(drivers), name, i) == Find(DriverNames(drivers), name)
      {
        if drivers[i].name == name {
          return Some(i);
        }
        i := i + 1;
      }
      return None;
    }

    /** `findNode`: the index of the first node of the driver with that name, or null. */
    method FindNode(d: nat, name: string) returns (k: Option<nat>)
      requires d < |drivers|
      ensures k == Find(NodeNames(drivers[d].nodes), name)
    {
      var nodes := drivers[d].nodes;
      var i := 0;
      while i < |nodes|
        invariant 0 <= i <= |nodes|
        invariant FindFrom(NodeNames(nodes), name, i) == Find(NodeNames(nodes), name)
      {
        if nodes[i].name == name {
          return Some(i);
        }
        i := i + 1;
      }
      return None;
    }

    /** `driverInsertIndex`: -1 when a driver has that name, else the index that keeps the drivers in name order. */
    method DriverInsertIndex(name: string) returns (r: int)
      ensures r == InsertIndex(DriverNames(drivers), name)
    {
      var n := |drivers|;
      var i := 0;
      while i < n
        invariant 0 <= i <= n
        invariant InsertIndexFrom(DriverNames(drivers), name, i) == InsertIndex(DriverNames(drivers), name)
      {
        var current := drivers[i].name;
        if current == name {
          return -1;
        } else if Less(name, current) {
          return i;
        }
        i := i + 1;
      }
      return n;
    }

    /** `nodeInsertIndex`: the same rule over the nodes of driver `d`. */
    method NodeInsertIndex(d: nat, name: string) returns (r: int)
      requires d < |drivers|
      ensures r == InsertIndex(NodeNames(drivers[d].nodes), name)
    {
      var nodes := drivers[d].nodes;
      var n := |nodes|;
      var i := 0;
      while i < n
        invariant 0 <= i <= n
        invariant InsertIndexFrom(NodeNames(nodes), name, i) == InsertIndex(NodeNames(nodes), name)
      {
        var current := nodes[i].name;
        if name == current {
          return -1;
        } else if Less(name, current) {
          return i;
        }
        i := i + 1;
      }
      return n;
    }

    /** `nodeDataUpdated`: the node's display is refreshed when both the driver and the node are found. */
    method NodeDataUpdated(driverName: string, nodeName: string)
      modifies this`changed
      ensures changed == old(changed) + (if driverName in DriverNames(drivers) && nodeName in NodeNames(drivers[Find(DriverNames(drivers), driverName).value].nodes)
        then [(driverName, nodeName)] else [])
    {
      var d := FindDriver(driverName);
      if d.None? {
        return;
      }
      var k := FindNode(d.value, nodeName);
      if k.Some? {
        changed := changed + [(driverName, nodeName)];
      }
    }

    /**
     * `driverAdded`: a driver already shown is ignored. Otherwise it is inserted in name
     * order, a status listener is registered for it unless one is, and the nodes it
     * reports are added under it; a failed query leaves it without nodes.
     */
    method DriverAdded(name: string, answer: NodesAnswer)
      requires Valid()
      modifies this`drivers, this`listeners
      ensures Valid()
      ensures drivers == AfterDriverAdded(old(drivers), name, answer)
      ensures listeners == if name in old(DriverNames(drivers)) then old(listeners) else old(listeners) + {name}
    {
      InsertIndexKeepsSorted(DriverNames(drivers), name);
      DriverAddedMeaning(drivers, name, answer);
      var index := DriverInsertIndex(name);
      if index < 0 {
        return;
      }
      drivers := Insert(drivers, index, DriverEntry(name, []));
      if name !in listeners {
        listeners := listeners + {name};
      }
      if !answer.Infos? {
        return;
      }
      AddReported(index, answer.infos);
    }

    /** The loop over the reported nodes: each is added under driver `d`. */
    method AddReported(d: nat, infos: seq<NodeInfo>)
      requires d < |drivers|
      modifies this`drivers
      ensures drivers == AddNodes(old(drivers), d, infos)
    {
      var i := 0;
      while i < |infos|
        invariant 0 <= i <= |infos|
        invariant drivers == AddNodes(old(drivers), d, infos[..i])
      {
        assert infos[..i + 1][..i] == infos[..i];
        NodeAddedAt(d, infos[i]);
        i := i + 1;
      }
      assert infos[..i] == infos;
    }

    /**
     * `driverRemoved`: nothing for a driver not shown; otherwise either its nodes are
     * removed, last first, and the driver kept, or the driver is removed.
     */
    method DriverRemoved(name: string, removeNodesOnly: bool)
      requires Valid()
      modifies this`drivers
      ensures Valid()
      ensures drivers == AfterDriverRemoved(old(drivers), name, removeNodesOnly)
    {
      DriverRemovedMeaning(drivers, name, removeNodesOnly);
      var d := FindDriver(name);
      if d.None? {
        return;
      }
      if removeNodesOnly {
        RemoveChildren(d.value);
      } else {
        drivers := RemoveAt(drivers, d.value);
      }
    }

    /** The loop of `driverRemoved` over the driver's nodes: each is removed, the last first. */
    method RemoveChildren(d: nat)
      requires d < |drivers|
      modifies this`drivers
      ensures drivers == old(drivers)[d := old(drivers)[d].(nodes := [])]
    {
      ghost var nodes := drivers[d].nodes;
      var i := |drivers[d].nodes| - 1;
      assert nodes[..i + 1] == nodes;
      while i >= 0
        invariant -1 <= i < |nodes|
        invariant drivers == old(drivers)[d := old(drivers)[d].(nodes := nodes[..i + 1])]
      {
        assert nodes[..i + 1][..i] == nodes[..i];
        drivers := drivers[d := drivers[d].(nodes := drivers[d].nodes[..i])];
        i := i - 1;
      }
    }

    /** `nodeAdded(driverName, nodeInfo)`: nothing for a driver not shown, else the node is added under it. */
    method NodeAdded(driverName: string, info: NodeInfo)
      requires Valid()
      modifies this`drivers
      ensures Valid()
      ensures drivers == AfterNodeAdded(old(drivers), driverName, info)
    {
      NodeAddedMeaning(drivers, driverName, info);
      var d := FindDriver(driverName);
      if d.None? {
        return;
      }
      NodeAddedAt(d.value, info);
    }

    /**
     * `nodeAdded(driverNode, nodeInfo)`: a node the driver already shows is ignored;
     * otherwise it is inserted in name order and taken away from every other driver.
     */
    method NodeAddedAt(d: nat, info: NodeInfo)
      requires d < |drivers|
      modifies this`drivers
      ensures drivers == AddNode(old(drivers), d, EntryOf(info))
    {
      var name := NodeName(info);
      var index := NodeInsertIndex(d, name);
      if index < 0 {
        return;
      }
      drivers := drivers[d := drivers[d].(nodes := Insert(drivers[d].nodes, index, EntryOf(info)))];
      EvictOthers(d, name);
    }

    /** The loop of `nodeAdded` over the other drivers: a node of that name is removed from each. */
    method EvictOthers(d: nat, name: string)
      modifies this`drivers
      ensures drivers == Evicted(old(drivers), d, name)
    {
      var i := 0;
      while i < |drivers|
        invariant 0 <= i <= |drivers| == |old(drivers)|
        invariant forall j :: 0 <= j < i ==> drivers[j] == Evicted(old(drivers), d, name)[j]
        invariant forall j :: i <= j < |drivers| ==> drivers[j] == old(drivers)[j]
      {
        if i != d {
          var k := FindNode(i, name);
          if k.Some? {
            drivers := drivers[i := drivers[i].(nodes := RemoveAt(drivers[i].nodes, k.value))];
          }
        }
        i := i + 1;
      }
    }

    /** `nodeRemoved`: when both the driver and the node are shown, the node is removed. */
    method NodeRemoved(driverName: string, nodeName: string)
      requires Valid()
      modifies this`drivers
      ensures Valid()
      ensures drivers == AfterNodeRemoved(old(drivers), driverName, nodeName)
    {
      NodeRemovedMeaning(drivers, driverName, nodeName);
      var d := FindDriver(driverName);
      if d.None? {
        return;
      }
      var k := FindNode(d.value, nodeName);
      if k.None? {
        return;
      }
      drivers := drivers[d.value := drivers[d.value].(nodes := RemoveAt(drivers[d.value].nodes, k.value))];
    }
  }
}
