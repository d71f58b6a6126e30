/**
 * The periodic refresh of the administration console's tree: the drivers shown are
 * reconciled with the client's connections, and the nodes of each driver with what the
 * driver reports, by set difference in both directions; a refresh is skipped while one
 * is under way, and the refresh timer is started at most once.
 */
module NodeRefresh {
  import opened NodeTree

  /** A client connection: its uuid and the id of its management connection, which names the driver. */
  datatype ClientConnection = ClientConnection(uuid: string, driverName: string)

  /** The uuids of the first n connections. */
  function Uuids(cs: seq<ClientConnection>, n: nat): (s: set<string>)
    requires n <= |cs|
    ensures forall i :: 0 <= i < n ==> cs[i].uuid in s
  {
    if n == 0 then {} else Uuids(cs, n - 1) + {cs[n - 1].uuid}
  }

  /** A uuid is in the set exactly when one of the first n connections has it. */
  lemma {:induction false} UuidsMeaning(cs: seq<ClientConnection>, n: nat, u: string)
    requires n <= |cs|
    ensures u in Uuids(cs, n) <==> exists i :: 0 <= i < n && cs[i].uuid == u
  {
    if n > 0 {
      UuidsMeaning(cs, n - 1, u);
    }
  }

  /**
   * The first n connections by driver name: a connection whose uuid was already met is
   * skipped; the others are put in order, so a later one replaces an earlier one of the
   * same name.
   */
  function MapOf(cs: seq<ClientConnection>, n: nat): map<string, ClientConnection>
    requires n <= |cs|
  {
    if n == 0 then map[]
    else
      var last := cs[n - 1];
      if last.uuid in Uuids(cs, n - 1) then MapOf(cs, n - 1) else MapOf(cs, n - 1)[last.driverName := last]
  }

  function ConnectionMap(cs: seq<ClientConnection>): map<string, ClientConnection>
  {
    MapOf(cs, |cs|)
  }

  /** The connection at index i is the first with its uuid. */
  predicate FirstOfUuid(cs: seq<ClientConnection>, i: nat)
    requires i < |cs|
  {
    cs[i].uuid !in Uuids(cs, i)
  }

  /** Being first of its uuid means no earlier connection has the same uuid. */
  lemma FirstOfUuidMeaning(cs: seq<ClientConnection>, i: nat)
    requires i < |cs|
    ensures FirstOfUuid(cs, i) <==> forall j :: 0 <= j < i ==> cs[j].uuid != cs[i].uuid
  {
    UuidsMeaning(cs, i, cs[i].uuid);
  }

  /** A driver name is kept exactly when the first connection of some uuid has it. */
  lemma {:induction false} ConnectionMapKeys(cs: seq<ClientConnection>, n: nat, name: string)
    requires n <= |cs|
    ensures name in MapOf(cs, n) <==> exists i :: 0 <= i < n && FirstOfUuid(cs, i) && cs[i].driverName == name
  {
    if n > 0 {
      ConnectionMapKeys(cs, n - 1, name);
    }
  }

  /** The connection a name is kept with has that name and is the first connection of its uuid. */
  lemma {:induction false} ConnectionMapValues(cs: seq<ClientConnection>, n: nat, name: string)
    requires n <= |cs|
    ensures name in MapOf(cs, n) ==> MapOf(cs, n)[name].driverName == name
    ensures name in MapOf(cs, n) ==> exists i :: 0 <= i < n && FirstOfUuid(cs, i) && cs[i] == MapOf(cs, n)[name]
  {
    if n > 0 {
      ConnectionMapValues(cs, n - 1, name);
    }
  }

  /** A list of the names in `a` that are not in `b`, in the set's iteration order. */
  method Difference(a: set<string>, b: set<string>) returns (list: seq<string>)
    ensures SetOf(list) == a - b
  {
    list := [];
    var remaining := a;
    while remaining != {}
      invariant remaining <= a
      invariant SetOf(list) == (a - remaining) - b
      decreases remaining
    {
      var name :| name in remaining;
      if name !in b {
        list := list + [name];
      }
      remaining := remaining - {name};
    }
  }

  /** Driver `d` shows the names `added` besides its nodes before, and every other driver lost them. */
  predicate AddedSoFar(before: seq<DriverEntry>, ds: seq<DriverEntry>, d: nat, added: set<string>)
  {
    |ds| == |before| && d < |ds|
    && NameSet(ds[d].nodes) == NameSet(before[d].nodes) + added
    && forall i :: 0 <= i < |ds| && i != d ==> NameSet(ds[i].nodes) == NameSet(before[i].nodes) - added
  }

  lemma AddedStep(before: seq<DriverEntry>, ds: seq<DriverEntry>, d: nat, added: set<string>, info: NodeInfo)
    requires ValidTree(ds) && AddedSoFar(before, ds, d, added) && DriverNames(ds) == DriverNames(before)
    ensures var r := AfterNodeAdded(ds, ds[d].name, info);
      ValidTree(r) && DriverNames(r) == DriverNames(before) && AddedSoFar(before, r, d, added + {NodeName(info)})
      && r[d].name == ds[d].name
  {
    NodeAddedAtIndex(ds, d, info);
  }

  /** A driver is refreshed when its connection is kept, is connected, and its node query answers with nodes. */
  predicate Refreshed(name: string, names: set<string>, connected: string -> bool, answers: string -> NodesAnswer)
  {
    name in names && connected(name) && answers(name).Infos?
  }

  /** Every refreshed driver shows only nodes its query reported. */
  predicate OnlyReported(ds: seq<DriverEntry>, names: set<string>, connected: string -> bool, answers: string -> NodesAnswer)
  {
    forall e :: e in ds && Refreshed(e.name, names, connected, answers) ==> NameSet(e.nodes) <= InfoNames(answers(e.name).infos)
  }

  /** Removing a driver keeps the entries of all the others as they were. */
  lemma RemovedKeepsEntries(ds: seq<DriverEntry>, name: string)
    ensures forall e :: e in AfterDriverRemoved(ds, name, false) ==> e in ds
  {
    match Find(DriverNames(ds), name)
    case None =>
    case Some(d) =>
      var r := RemoveAt(ds, d);
      forall e | e in r
        ensures e in ds
      {
        var k :| 0 <= k < |r| && r[k] == e;
        if k < d {
          assert ds[k] == e;
        } else {
          assert ds[k + 1] == e;
        }
      }
  }

  /** A driver inserted without nodes keeps every refreshed driver showing only reported nodes. */
  lemma InsertedKeepsOnlyReported(ds: seq<DriverEntry>, k: nat, name: string, names: set<string>, connected: string -> bool, answers: string -> NodesAnswer)
    requires k <= |ds| && OnlyReported(ds, names, connected, answers)
    ensures OnlyReported(Insert(ds, k, DriverEntry(name, [])), names, connected, answers)
  {
    var r := Insert(ds, k, DriverEntry(name, []));
    assert NameSet([]) == {};
    forall e | e in r
      ensures e in ds || e == DriverEntry(name, [])
    {
      var i :| 0 <= i < |r| && r[i] == e;
      if i < k {
        assert ds[i] == e;
      } else if i > k {
        assert ds[i - 1] == e;
      }
    }
  }

  /** Adding to driver `d` the nodes its own query reports keeps every refreshed driver showing only reported nodes. */
  lemma NodesAddedKeepOnlyReported(ds: seq<DriverEntry>, d: nat, names: set<string>, connected: string -> bool, answers: string -> NodesAnswer)
    requires ValidTree(ds) && d < |ds| && ds[d].nodes == [] && answers(ds[d].name).Infos?
    requires OnlyReported(ds, names, connected, answers)
    ensures OnlyReported(AddNodes(ds, d, answers(ds[d].name).infos), names, connected, answers)
  {
    var infos := answers(ds[d].name).infos;
    var r := AddNodes(ds, d, infos);
    AddNodesKeepsTree(ds, d, infos);
    AddNodesMeaning(ds, d, infos);
    assert NameSet([]) == {};
    forall e | e in r && Refreshed(e.name, names, connected, answers)
      ensures NameSet(e.nodes) <= InfoNames(answers(e.name).infos)
    {
      var i :| 0 <= i < |r| && r[i] == e;
      assert DriverNames(r)[i] == DriverNames(ds)[i];
      if i != d {
        assert ds[i] in ds;
      }
    }
  }

  /**
   * Adding a driver with the nodes its own query reports keeps every refreshed driver
   * showing only reported nodes: the new driver shows its reported nodes, the others lose some.
   */
  lemma AddedKeepsOnlyReported(ds: seq<DriverEntry>, name: string, names: set<string>, connected: string -> bool, answers: string -> NodesAnswer)
    requires ValidTree(ds) && OnlyReported(ds, names, connected, answers)
    ensures OnlyReported(AfterDriverAdded(ds, name, answers(name)), names, connected, answers)
  {
    var k := InsertIndex(DriverNames(ds), name);
    InsertIndexKeepsSorted(DriverNames(ds), name);
    if k >= 0 {
      DriverInserted(ds, k, name);
      InsertedKeepsOnlyReported(ds, k, name, names, connected, answers);
      if answers(name).Infos? {
        NodesAddedKeepOnlyReported(Insert(ds, k, DriverEntry(name, [])), k, names, connected, answers);
      }
    }
  }

  class NodeRefreshHandler {
    /** The tree being refreshed. */
    const manager: NodeDataPanelManager
    /** Whether a refresh is under way. */
    var refreshing: bool
    /** Whether the refresh timer exists. */
    var timerRunning: bool
    /** The interval between two refreshes, in milliseconds. */
    var refreshInterval: int

    /** The handler starts its refresh timer as soon as it is created. */
    constructor(manager: NodeDataPanelManager)
      ensures this.manager == manager && !refreshing && refreshInterval == 1000 && timerRunning
    {
      this.manager := manager;
      refreshing := false;
      refreshInterval := 1000;
      timerRunning := true;
    }

    /** `startRefreshTimer`: nothing when a timer exists or the interval is not positive; otherwise the timer is created. */
    method StartRefreshTimer()
      modifies this`timerRunning
      ensures old(timerRunning) || refreshInterval <= 0 ==> timerRunning == old(timerRunning)
      ensures !old(timerRunning) && refreshInterval > 0 ==> timerRunning
    {
      if timerRunning {
        return;
      }
      if refreshInterval <= 0 {
        return;
      }
      timerRunning := true;
    }

    /** `stopRefreshTimer`: the timer, if any, is cancelled and dropped. */
    method StopRefreshTimer()
      modifies this`timerRunning
      ensures !timerRunning
    {
      if timerRunning {
        timerRunning := false;
      }
    }

    /**
     * `refresh`: skipped while another refresh is under way; otherwise the tree is
     * reconciled, and the flag is cleared afterwards.
     */
    method Refresh(connections: seq<ClientConnection>, connected: string -> bool, answers: string -> NodesAnswer)
      requires manager.Valid()
      modifies this`refreshing, manager`drivers, manager`listeners
      ensures manager.Valid()
      ensures old(refreshing) ==> refreshing && unchanged(manager)
      ensures !old(refreshing) ==> !refreshing && DriverNameSet(manager.drivers) == ConnectionMap(connections).Keys
      ensures !old(refreshing) ==> OnlyReported(manager.drivers, ConnectionMap(connections).Keys, connected, answers)
    {
      if refreshing {
        return;
      }
      refreshing := true;
      Refresh0(connections, connected, answers);
      refreshing := false;
    }

    /**
     * `refresh0`: shown drivers without a connection are removed and the others have their
     * nodes refreshed; then connected drivers not shown are added. The drivers shown are
     * then exactly those of the connections kept.
     */
    method Refresh0(connections: seq<ClientConnection>, connected: string -> bool, answers: string -> NodesAnswer)
      requires manager.Valid()
      modifies manager`drivers, manager`listeners
      ensures manager.Valid()
      ensures DriverNameSet(manager.drivers) == ConnectionMap(connections).Keys
      ensures OnlyReported(manager.drivers, ConnectionMap(connections).Keys, connected, answers)
    {
      var byName := KeepFirstByUuid(connections);
      var shown := DriverNames(manager.drivers);
      var toRemove := RefreshShown(shown, byName.Keys, connected, answers);
      RemoveDrivers(toRemove);
      assert OnlyReported(manager.drivers, byName.Keys, connected, answers);
      assert DriverNameSet(manager.drivers) == SetOf(shown) * byName.Keys;
      var toAdd := Difference(byName.Keys, SetOf(shown));
      AddDrivers(toAdd, byName.Keys, connected, answers);
    }

    /** The loop of `refresh0` over the connections: the first connection of each uuid is put under its driver name. */
    method KeepFirstByUuid(connections: seq<ClientConnection>) returns (byName: map<string, ClientConnection>)
      ensures byName == ConnectionMap(connections)
    {
      var uuids: set<string> := {};
      byName := map[];
      var i := 0;
      while i < |connections|
        invariant 0 <= i <= |connections|
        invariant uuids == Uuids(connections, i) && byName == MapOf(connections, i)
      {
        var c := connections[i];
        if c.uuid !in uuids {
          uuids := uuids + {c.uuid};
          byName := byName[c.driverName := c];
        }
        i := i + 1;
      }
    }

    /** The loop of `refresh0` over the drivers shown: those with a connection have their nodes refreshed, the others are listed. */
    method RefreshShown(shown: seq<string>, names: set<string>, connected: string -> bool, answers: string -> NodesAnswer)
      returns (toRemove: seq<string>)
      requires manager.Valid() && DriverNames(manager.drivers) == shown
      modifies manager`drivers
      ensures manager.Valid() && DriverNames(manager.drivers) == shown
      ensures SetOf(toRemove) == SetOf(shown) - names
      ensures forall d :: 0 <= d < |shown| && Refreshed(shown[d], names, connected, answers) ==>
        NameSet(manager.drivers[d].nodes) <= InfoNames(answers(shown[d]).infos)
      ensures forall d :: 0 <= d < |shown| && !Refreshed(shown[d], names, connected, answers) ==>
        NameSet(manager.drivers[d].nodes) <= NameSet(old(manager.drivers)[d].nodes)
      ensures OnlyReported(manager.drivers, names, connected, answers)
    {
      toRemove := [];
      var i := 0;
      while i < |shown|
        invariant 0 <= i <= |shown|
        invariant manager.Valid() && DriverNames(manager.drivers) == shown
        invariant SetOf(toRemove) == SetOf(shown[..i]) - names
        invariant forall d :: 0 <= d < i && Refreshed(shown[d], names, connected, answers) ==>
          NameSet(manager.drivers[d].nodes) <= InfoNames(answers(shown[d]).infos)
        invariant forall d :: 0 <= d < |shown| && (d >= i || !Refreshed(shown[d], names, connected, answers)) ==>
          NameSet(manager.drivers[d].nodes) <= NameSet(old(manager.drivers)[d].nodes)
      {
        var name := shown[i];
        assert shown[..i + 1] == shown[..i] + [name];
        if name !in names {
          toRemove := toRemove + [name];
        } else {
          RefreshNodes(name, connected(name), answers(name));
        }
        i := i + 1;
      }
      assert shown[..i] == shown;
      forall e | e in manager.drivers && Refreshed(e.name, names, connected, answers)
        ensures NameSet(e.nodes) <= InfoNames(answers(e.name).infos)
      {
        var d :| 0 <= d < |manager.drivers| && manager.drivers[d] == e;
        assert shown[d] == e.name;
      }
    }

    /** The removal loop of `refresh0`: each listed driver is removed with its nodes. */
    method RemoveDrivers(toRemove: seq<string>)
      requires manager.Valid()
      modifies manager`drivers
      ensures manager.Valid()
      ensures DriverNameSet(manager.drivers) == old(DriverNameSet(manager.drivers)) - SetOf(toRemove)
      ensures forall e :: e in manager.drivers ==> e in old(manager.drivers)
    {
      var j := 0;
      while j < |toRemove|
        invariant 0 <= j <= |toRemove|
        invariant manager.Valid()
        invariant DriverNameSet(manager.drivers) == old(DriverNameSet(manager.drivers)) - SetOf(toRemove[..j])
        invariant forall e :: e in manager.drivers ==> e in old(manager.drivers)
      {
        SetOfPrefix(toRemove, j);
        DriverRemovedMeaning(manager.drivers, toRemove[j], false);
        RemovedKeepsEntries(manager.drivers, toRemove[j]);
        manager.DriverRemoved(toRemove[j], false);
        j := j + 1;
      }
      assert toRemove[..j] == toRemove;
    }

    /** The addition loop of `refresh0`: each listed driver is added with the nodes it reports. */
    method AddDrivers(toAdd: seq<string>, names: set<string>, connected: string -> bool, answers: string -> NodesAnswer)
      requires manager.Valid() && OnlyReported(manager.drivers, names, connected, answers)
      modifies manager`drivers, manager`listeners
      ensures manager.Valid() && OnlyReported(manager.drivers, names, connected, answers)
      ensures DriverNameSet(manager.drivers) == old(DriverNameSet(manager.drivers)) + SetOf(toAdd)
    {
      var j := 0;
      while j < |toAdd|
        invariant 0 <= j <= |toAdd|
        invariant manager.Valid() && OnlyReported(manager.drivers, names, connected, answers)
        invariant DriverNameSet(manager.drivers) == old(DriverNameSet(manager.drivers)) + SetOf(toAdd[..j])
      {
        SetOfPrefix(toAdd, j);
        DriverAddedMeaning(manager.drivers, toAdd[j], answers(toAdd[j]));
        AddedKeepsOnlyReported(manager.drivers, toAdd[j], names, connected, answers);
        manager.DriverAdded(toAdd[j], answers(toAdd[j]));
        j := j + 1;
      }
      assert toAdd[..j] == toAdd;
    }

    /**
     * `refreshNodes`: nothing for a driver not shown or not connected, or when its node
     * query fails or answers null. Otherwise the nodes shown but not reported are removed
     * and the nodes reported but not shown are added: the driver then shows exactly the
     * reported nodes, and the added ones leave every other driver.
     */
    method RefreshNodes(driverName: string, connected: bool, answer: NodesAnswer)
      requires manager.Valid()
      modifies manager`drivers
      ensures manager.Valid() && DriverNames(manager.drivers) == old(DriverNames(manager.drivers))
      ensures driverName !in old(DriverNames(manager.drivers)) || !connected || !answer.Infos? ==> manager.drivers == old(manager.drivers)
      ensures driverName in old(DriverNames(manager.drivers)) && connected && answer.Infos? ==>
        forall i :: 0 <= i < |manager.drivers| ==>
          NameSet(manager.drivers[i].nodes) ==
            if manager.drivers[i].name == driverName then InfoNames(answer.infos)
            else NameSet(old(manager.drivers)[i].nodes) - InfoNames(answer.infos)
    {
      var d := manager.FindDriver(driverName);
      if d.None? {
        return;
      }
      var panelNames := ShownNodeNames(d.value);
      if !connected || !answer.Infos? {
        return;
      }
      var actual := ReportedByName(answer.infos);
      var toRemove := Difference(panelNames, actual.Keys);
      ghost var before := manager.drivers;
      RemoveNodes(d.value, toRemove);
      var toAdd := Difference(actual.Keys, panelNames);
      AddNodesByName(d.value, toAdd, actual);
      forall i | 0 <= i < |before| && i != d.value
        ensures NameSet(manager.drivers[i].nodes) == NameSet(before[i].nodes) - InfoNames(answer.infos)
        ensures manager.drivers[i].name != driverName
      {
        assert NameSet(before[i].nodes) !! panelNames;
        SortedDistinct(DriverNames(before), i, d.value);
      }
    }

    /** The removal loop of `refreshNodes`: each listed node is removed from driver `d`. */
    method RemoveNodes(d: nat, toRemove: seq<string>)
      requires manager.Valid() && d < |manager.drivers|
      modifies manager`drivers
      ensures manager.Valid() && DriverNames(manager.drivers) == DriverNames(old(manager.drivers))
      ensures NameSet(manager.drivers[d].nodes) == NameSet(old(manager.drivers)[d].nodes) - SetOf(toRemove)
      ensures forall i :: 0 <= i < |manager.drivers| && i != d ==> NameSet(manager.drivers[i].nodes) == NameSet(old(manager.drivers)[i].nodes)
    {
      var driverName := manager.drivers[d].name;
      var j := 0;
      while j < |toRemove|
        invariant 0 <= j <= |toRemove|
        invariant manager.Valid() && DriverNames(manager.drivers) == DriverNames(old(manager.drivers))
        invariant NameSet(manager.drivers[d].nodes) == NameSet(old(manager.drivers)[d].nodes) - SetOf(toRemove[..j])
        invariant forall i :: 0 <= i < |manager.drivers| && i != d ==> NameSet(manager.drivers[i].nodes) == NameSet(old(manager.drivers)[i].nodes)
      {
        assert toRemove[..j + 1] == toRemove[..j] + [toRemove[j]];
        NodeRemovedAtIndex(manager.drivers, d, toRemove[j]);
        manager.NodeRemoved(driverName, toRemove[j]);
        j := j + 1;
      }
      assert toRemove[..j] == toRemove;
    }

    /** The addition loop of `refreshNodes`: each listed node is added under driver `d`. */
    method AddNodesByName(d: nat, toAdd: seq<string>, actual: map<string, NodeInfo>)
      requires manager.Valid() && d < |manager.drivers|
      requires forall name :: name in toAdd ==> name in actual && NodeName(actual[name]) == name
      modifies manager`drivers
      ensures manager.Valid() && DriverNames(manager.drivers) == DriverNames(old(manager.drivers))
      ensures NameSet(manager.drivers[d].nodes) == NameSet(old(manager.drivers)[d].nodes) + SetOf(toAdd)
      ensures forall i :: 0 <= i < |manager.drivers| && i != d ==> NameSet(manager.drivers[i].nodes) == NameSet(old(manager.drivers)[i].nodes) - SetOf(toAdd)
    {
      var driverName := manager.drivers[d].name;
      var j := 0;
      while j < |toAdd|
        invariant 0 <= j <= |toAdd|
        invariant manager.Valid() && DriverNames(manager.drivers) == DriverNames(old(manager.drivers))
        invariant AddedSoFar(old(manager.drivers), manager.drivers, d, SetOf(toAdd[..j]))
        invariant manager.drivers[d].name == driverName
      {
        SetOfPrefix(toAdd, j);
        var info := actual[toAdd[j]];
        AddedStep(old(manager.drivers), manager.drivers, d, SetOf(toAdd[..j]), info);
        manager.NodeAdded(driverName, info);
        j := j + 1;
      }
      assert toAdd[..j] == toAdd;
    }

    /** The loop of `refreshNodes` over the driver's nodes: the names shown. */
    method ShownNodeNames(d: nat) returns (names: set<string>)
      requires d < |manager.drivers|
      ensures names == NameSet(manager.drivers[d].nodes)
    {
      var nodes := manager.drivers[d].nodes;
      names := {};
      var i := 0;
      while i < |nodes|
        invariant 0 <= i <= |nodes|
        invariant names == SetOf(NodeNames(nodes[..i]))
      {
        assert NodeNames(nodes[..i + 1]) == NodeNames(nodes[..i]) + [nodes[i].name];
        names := names + {nodes[i].name};
        i := i + 1;
      }
      assert nodes[..i] == nodes;
    }

    /** The loop of `refreshNodes` over the reported nodes: each is put under its "host:port" name. */
    method ReportedByName(infos: seq<NodeInfo>) returns (actual: map<string, NodeInfo>)
      ensures actual.Keys == InfoNames(infos)
      ensures forall name :: name in actual ==> NodeName(actual[name]) == name
    {
      actual := map[];
      var i := 0;
      while i < |infos|
        invariant 0 <= i <= |infos|
        invariant actual.Keys == InfoNames(infos[..i])
        invariant forall name :: name in actual ==> NodeName(actual[name]) == name
      {
        assert infos[..i + 1][..i] == infos[..i];
        actual := actual[NodeName(infos[i]) := infos[i]];
        i := i + 1;
      }
      assert infos[..i] == infos;
    }
  }
}
