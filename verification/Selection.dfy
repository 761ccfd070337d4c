/** Which storage class a node gets: the first of the list that exists, admits the node and can serve it. */
module Selection {
  import opened Wrappers
  import opened Topology
  import opened Expansion
  import opened Decision
  import opened TopologyTerms

  datatype Driver = Driver(name: string, topologyKeys: seq<string>)

  datatype CSINode = CSINode(drivers: seq<Driver>)

  datatype Node = Node(name: string, labels: Labels)

  datatype StorageClass = StorageClass(
    name: string, provisioner: string, reclaimPolicy: Option<string>, allowedTopologies: seq<SelectorTerm>,
    parameters: map<string, string>)

  /** What a lister answers: an error, a nil object, or an object. */
  datatype Answer<+T> = Error | Nil | Item(value: T)

  /** The caches of the cluster's nodes, drivers and classes, each of which may fail on any name. */
  datatype Listers = Listers(
    csiNodes: string -> Answer<CSINode>, drivers: string -> Answer<()>, classes: string -> Option<StorageClass>)

  // ------------------------------------------------------------- declaratively

  /** The driver's entry, the first if there are several. */
  predicate FirstEntry(drivers: seq<Driver>, name: string, i: nat) {
    i < |drivers| && drivers[i].name == name && forall j :: 0 <= j < i ==> drivers[j].name != name
  }

  predicate Installed(drivers: seq<Driver>, name: string) {
    exists i :: 0 <= i < |drivers| && drivers[i].name == name
  }

  /** The node has every topology key of the driver's entry, and some selector term admits it. */
  ghost predicate EntryAllows(sc: StorageClass, labels: Labels, entry: Driver) {
    (forall k :: k in entry.topologyKeys ==> k in labels) && SomeAdmits(sc.allowedTopologies, labels, entry.topologyKeys)
  }

  ghost predicate TopologyAllows(sc: StorageClass, labels: Labels, drivers: seq<Driver>) {
    || sc.allowedTopologies == []
    || exists i: nat :: FirstEntry(drivers, sc.provisioner, i) && EntryAllows(sc, labels, drivers[i])
  }

  /** The node can be served by this class: its topology allows it, and its driver, if it is one, is installed there. */
  ghost predicate Serves(l: Listers, csiNode: CSINode, node: Node, sc: StorageClass) {
    && TopologyAllows(sc, node.labels, csiNode.drivers)
    && (l.drivers(sc.provisioner).Item? ==> Installed(csiNode.drivers, sc.provisioner))
  }

  ghost predicate Qualifies(l: Listers, csiNode: CSINode, node: Node, name: string) {
    l.classes(name).Some? && Serves(l, csiNode, node, l.classes(name).value)
  }

  /** The class at position i is the first that qualifies. */
  ghost predicate FirstQualifying(l: Listers, csiNode: CSINode, node: Node, names: seq<string>, i: nat) {
    && i < |names| && Qualifies(l, csiNode, node, names[i])
    && forall j :: 0 <= j < i ==> !Qualifies(l, csiNode, node, names[j])
  }

  // ----------------------------------------------------------------- as it runs

  /** getTopologyKeys: those of the driver's entry, or none when there is no entry. */
  method GetTopologyKeys(csiNode: CSINode, driverName: string) returns (keys: seq<string>)
    ensures forall i: nat :: FirstEntry(csiNode.drivers, driverName, i) ==> keys == csiNode.drivers[i].topologyKeys
    ensures !Installed(csiNode.drivers, driverName) ==> keys == []
  {
    for i := 0 to |csiNode.drivers|
      invariant forall j :: 0 <= j < i ==> csiNode.drivers[j].name != driverName
    {
      if csiNode.drivers[i].name == driverName {
        return csiNode.drivers[i].topologyKeys;
      }
    }
    return [];
  }

  lemma {:induction false} InstalledHasEntry(drivers: seq<Driver>, name: string, k: nat) returns (i: nat)
    requires k < |drivers| && drivers[k].name == name
    ensures FirstEntry(drivers, name, i)
    decreases k
  {
    i := k;
    if j: nat :| j < k && drivers[j].name == name {
      i := InstalledHasEntry(drivers, name, j);
    }
  }

  /** What the keys that were found say about the class. */
  lemma KeysDecide(sc: StorageClass, labels: Labels, drivers: seq<Driver>, keys: seq<string>)
    requires sc.allowedTopologies != []
    requires forall i: nat :: FirstEntry(drivers, sc.provisioner, i) ==> keys == drivers[i].topologyKeys
    requires !Installed(drivers, sc.provisioner) ==> keys == []
    ensures Passes(sc.allowedTopologies, labels, keys) <==> TopologyAllows(sc, labels, drivers)
  {
    DecisionExact(sc.allowedTopologies, labels, keys);
    if Installed(drivers, sc.provisioner) {
      var k :| 0 <= k < |drivers| && drivers[k].name == sc.provisioner;
      var i := InstalledHasEntry(drivers, sc.provisioner, k);
      assert keys == drivers[i].topologyKeys;
    } else {
      NoKeysNoPass(sc.allowedTopologies, labels);
    }
  }

  /** The search loop over the compiled terms, left at the first that is included. */
  method SomeIsSubset(terms: seq<Slice>, ghost shown: seq<Term>, selected: Slice) returns (found: bool)
    requires Shows(terms, shown) && selected.Valid()
    ensures found <==> exists t :: t in shown && Scan(t, selected.Contents())
  {
    found := false;
    for i := 0 to |terms|
      invariant !found
      invariant forall k :: 0 <= k < i ==> !Scan(shown[k], selected.Contents())
    {
      var included := Subset(terms[i], selected);
      if included {
        found := true;
        assert shown[i] in shown;
        break;
      }
    }
  }

  /** The topology check of one class: compile its selector, sort the node's term, scan. */
  method TopologyAdmits(sc: StorageClass, csiNode: CSINode, node: Node) returns (ok: bool)
    requires sc.allowedTopologies != []
    ensures ok == TopologyAllows(sc, node.labels, csiNode.drivers)
  {
    var topologyKeys := GetTopologyKeys(csiNode, sc.provisioner);
    KeysDecide(sc, node.labels, csiNode.drivers, topologyKeys);
    var selectedTopology, isMissingKey := GetTopologyFromNode(node.labels, topologyKeys);
    if isMissingKey {
      return false;
    }
    var allowedTopologiesFlatten := Flatten(sc.allowedTopologies);
    ok := SomeIsSubset(allowedTopologiesFlatten, Flattened(sc.allowedTopologies), selectedTopology);
  }

  method DriverListed(csiNode: CSINode, name: string) returns (ok: bool)
    ensures ok == Installed(csiNode.drivers, name)
  {
    for i := 0 to |csiNode.drivers|
      invariant forall j :: 0 <= j < i ==> csiNode.drivers[j].name != name
    {
      if csiNode.drivers[i].name == name {
        return true;
      }
    }
    return false;
  }

  /**
   getStorageClassFromNode. An error is returned exactly when the node's CSINode cannot be had or no class
   of the list qualifies; otherwise the class is the first that does.
   */
  method GetStorageClassFromNode(l: Listers, selectedNode: Node, storageClasses: seq<string>)
    returns (r: Option<StorageClass>)
    ensures r.None? <==>
      var csi := l.csiNodes(selectedNode.name);
      !csi.Item? || forall i :: 0 <= i < |storageClasses| ==> !Qualifies(l, csi.value, selectedNode, storageClasses[i])
    ensures r.Some? ==>
      exists i: nat :: FirstQualifying(l, l.csiNodes(selectedNode.name).value, selectedNode, storageClasses, i)
        && l.classes(storageClasses[i]) == r
  {
    var answer := l.csiNodes(selectedNode.name);
    if !answer.Item? {
      return None;
    }
    var selectedCSINode := answer.value;
    for i := 0 to |storageClasses|
      invariant forall j :: 0 <= j < i ==> !Qualifies(l, selectedCSINode, selectedNode, storageClasses[j])
    {
      var found := l.classes(storageClasses[i]);
      if found.None? {
        continue;
      }
      var sc := found.value;
      if |sc.allowedTopologies| > 0 {
        var admitted := TopologyAdmits(sc, selectedCSINode, selectedNode);
        if !admitted {
          continue;
        }
      }
      if !l.drivers(sc.provisioner).Item? {
        // the provisioner is not a CSI driver
        assert FirstQualifying(l, selectedCSINode, selectedNode, storageClasses, i);
        return found;
      }
      var listed := DriverListed(selectedCSINode, sc.provisioner);
      if listed {
        assert FirstQualifying(l, selectedCSINode, selectedNode, storageClasses, i);
        return found;
      }
    }
    return None;
  }

  // ---------------------------------------------------------------- consequences

  /** For selectors with values everywhere and no repeated key in a term, selection evaluates them directly. */
  lemma SelectionEvaluatesDirectly(l: Listers, csiNode: CSINode, node: Node, sc: StorageClass)
    requires forall e :: e in sc.allowedTopologies ==> WellFormed(e) && DistinctKeys(e)
    ensures Serves(l, csiNode, node, sc) <==>
      && (sc.allowedTopologies == [] || exists i: nat ::
            && FirstEntry(csiNode.drivers, sc.provisioner, i)
            && (forall k :: k in csiNode.drivers[i].topologyKeys ==> k in node.labels)
            && SomeDirect(sc.allowedTopologies, node.labels, csiNode.drivers[i].topologyKeys))
      && (l.drivers(sc.provisioner).Item? ==> Installed(csiNode.drivers, sc.provisioner))
  {
    forall i: nat | FirstEntry(csiNode.drivers, sc.provisioner, i)
      ensures EntryAllows(sc, node.labels, csiNode.drivers[i]) <==>
        (forall k :: k in csiNode.drivers[i].topologyKeys ==> k in node.labels)
        && SomeDirect(sc.allowedTopologies, node.labels, csiNode.drivers[i].topologyKeys)
    {
      DecisionIsDirectEvaluation(sc.allowedTopologies, node.labels, csiNode.drivers[i].topologyKeys);
      DecisionExact(sc.allowedTopologies, node.labels, csiNode.drivers[i].topologyKeys);
    }
  }

  /**
   A class restricted to topologies is never selected for a node on which its driver has no topology keys,
   above all one on which the driver is not installed, however its selector is written.
   */
  lemma RestrictedNeedsKeys(l: Listers, csiNode: CSINode, node: Node, sc: StorageClass)
    requires sc.allowedTopologies != []
    requires forall i: nat :: FirstEntry(csiNode.drivers, sc.provisioner, i) ==> csiNode.drivers[i].topologyKeys == []
    ensures !Serves(l, csiNode, node, sc)
  {
    KeysDecide(sc, node.labels, csiNode.drivers, []);
    NoKeysNoPass(sc.allowedTopologies, node.labels);
  }

  // ---------------------------------------------------------- the list of classes

  /** strings.Split at a comma */
  function SplitAtCommas(s: string): (r: seq<string>)
    ensures r != []
  {
    if s == [] then [""]
    else
      var rest := SplitAtCommas(s[1..]);
      if s[0] == ',' then [""] + rest else [[s[0]] + rest[0]] + rest[1..]
  }

  function JoinWithCommas(parts: seq<string>): string
    requires parts != []
  {
    if |parts| == 1 then parts[0] else parts[0] + "," + JoinWithCommas(parts[1..])
  }

  /** The parts hold no comma and, put together again, give the parameter: no other list does both. */
  lemma {:induction false} SplitIsInverse(s: string)
    ensures JoinWithCommas(SplitAtCommas(s)) == s
    ensures forall i :: 0 <= i < |SplitAtCommas(s)| ==> ',' !in SplitAtCommas(s)[i]
  {
    if s != [] {
      SplitIsInverse(s[1..]);
      var rest := SplitAtCommas(s[1..]);
      assert s == [s[0]] + s[1..];
      if s[0] == ',' {
        assert ([""] + rest)[1..] == rest;
      } else {
        var first := [s[0]] + rest[0];
        assert ([first] + rest[1..])[1..] == rest[1..];
        if |rest| == 1 {
          assert [first] + rest[1..] == [first];
        } else {
          assert first + "," + JoinWithCommas(rest[1..]) == [s[0]] + (rest[0] + "," + JoinWithCommas(rest[1..]));
        }
      }
    }
  }

  lemma {:induction false} SplitOfJoin(parts: seq<string>)
    requires parts != [] && forall i :: 0 <= i < |parts| ==> ',' !in parts[i]
    ensures SplitAtCommas(JoinWithCommas(parts)) == parts
    decreases |parts|, |parts[0]|
  {
    if parts[0] != [] {
      var shorter := [parts[0][1..]] + parts[1..];
      SplitOfJoin(shorter);
      assert shorter[1..] == parts[1..];
      assert JoinWithCommas(parts) == [parts[0][0]] + JoinWithCommas(shorter);
      assert parts[0] == [parts[0][0]] + parts[0][1..];
      assert parts == [parts[0]] + parts[1..];
    } else if |parts| > 1 {
      SplitOfJoin(parts[1..]);
      assert JoinWithCommas(parts) == "," + JoinWithCommas(parts[1..]);
      assert parts == [""] + parts[1..];
    } else {
      assert parts == [""];
    }
  }
}
