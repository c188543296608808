/** The base class of every collecting visitor: it filters a namespace name,
    carries the originating node's attributes over to it, marks it by the
    visitor's collector interface and hands it to the one Adt mutator that
    interface selects. */
module Visitor {
  import opened Common
  import opened Names
  import opened Entity
  import opened NameFilter

  /** The four collector interfaces of Parser\Visitor\Feature. A visitor's
      set of them stands for its `instanceof` answers, so that a visitor
      implementing none, or several, stays expressible. */
  datatype Capability =
    | DeclaredNamespaceCollector
    | UsedNamespaceCollector
    | UnsupportedNamespaceCollector
    | NamespacedStringCollector

  /** True when the visitor implements at least one collector interface. */
  predicate IsCollector(caps: set<Capability>)
  {
    || DeclaredNamespaceCollector in caps
    || UsedNamespaceCollector in caps
    || UnsupportedNamespaceCollector in caps
    || NamespacedStringCollector in caps
  }

  /** Having no collector interface is having no capability at all: the four
      interfaces are all there are. */
  lemma IsCollectorIffNonEmpty(caps: set<Capability>)
    ensures IsCollector(caps) <==> caps != {}
  {
    if caps != {} {
      var c :| c in caps;
      match c
      case DeclaredNamespaceCollector => assert DeclaredNamespaceCollector in caps;
      case UsedNamespaceCollector => assert UsedNamespaceCollector in caps;
      case UnsupportedNamespaceCollector => assert UnsupportedNamespaceCollector in caps;
      case NamespacedStringCollector => assert NamespacedStringCollector in caps;
    }
  }

  /** getAdtMutator: the first interface in the order declared, used,
      unsupported, namespaced string decides; none of them is an error that
      names the visitor's class. */
  function AdtMutator(caps: set<Capability>, visitorClass: string): (r: Result<Mutator, Failure>)
    ensures r == Success(SetDeclaredNamespace) <==> DeclaredNamespaceCollector in caps
    ensures r == Success(AddUsedNamespace) <==>
      DeclaredNamespaceCollector !in caps && UsedNamespaceCollector in caps
    ensures r == Success(AddUnsupportedStmt) <==>
      DeclaredNamespaceCollector !in caps && UsedNamespaceCollector !in caps &&
      UnsupportedNamespaceCollector in caps
    ensures r == Success(AddNamespacedString) <==>
      DeclaredNamespaceCollector !in caps && UsedNamespaceCollector !in caps &&
      UnsupportedNamespaceCollector !in caps && NamespacedStringCollector in caps
    ensures r.Failure? <==> !IsCollector(caps)
    ensures r.Failure? <==> caps == {}
    ensures r.Failure? ==> r.error == WrongInterface(visitorClass)
  {
    IsCollectorIffNonEmpty(caps);
    if DeclaredNamespaceCollector in caps then Success(SetDeclaredNamespace)
    else if UsedNamespaceCollector in caps then Success(AddUsedNamespace)
    else if UnsupportedNamespaceCollector in caps then Success(AddUnsupportedStmt)
    else if NamespacedStringCollector in caps then Success(AddNamespacedString)
    else Failure(WrongInterface(visitorClass))
  }

  /** The marker `modify` prepends: `?` for an unsupported collector, `§`
      for a namespaced-string collector; the later assignment wins when a
      visitor is both, and declared and used collectors get none. */
  function Marker(caps: set<Capability>): (m: Option<string>)
    ensures NamespacedStringCollector in caps ==> m == Some("§")
    ensures UnsupportedNamespaceCollector in caps && NamespacedStringCollector !in caps ==> m == Some("?")
    ensures m.None? <==> UnsupportedNamespaceCollector !in caps && NamespacedStringCollector !in caps
  {
    var prefix := if UnsupportedNamespaceCollector in caps then Some("?") else None;
    if NamespacedStringCollector in caps then Some("§") else prefix
  }

  /** modify: the name with the visitor's marker as a new first segment. */
  function Modify(name: Name, caps: set<Capability>): (r: Name)
    ensures r.attributes == name.attributes
    ensures Marker(caps).None? ==> r.parts == name.parts
    ensures Marker(caps).Some? ==> r.parts == [Marker(caps).value] + name.parts
    ensures NamespacedStringCollector in caps ==> r.parts[0] == "§"
    ensures UnsupportedNamespaceCollector in caps && NamespacedStringCollector !in caps ==> r.parts[0] == "?"
  {
    match Marker(caps)
    case None => name
    case Some(p) => name.Prepend(p)
  }

  /** The node whose attributes collect copies: the one given, or else a
      clone of the unfiltered name. */
  function Source(name: Name, node: Option<Node>): Node
  {
    if node.None? then name.AsNode() else node.value
  }

  /** exchange: every attribute of the node is set on the name, one key at a
      time; keys the node lacks keep the name's value. */
  method Exchange(name: Name, node: Option<Node>) returns (r: Name)
    ensures r.parts == name.parts
    ensures node.None? ==> r.attributes == name.attributes
    ensures node.Some? ==> r.attributes.Keys == name.attributes.Keys + node.value.attributes.Keys
    ensures node.Some? ==> forall k :: k in node.value.attributes ==> r.attributes[k] == node.value.attributes[k]
    ensures node.Some? ==> forall k :: k in name.attributes && k !in node.value.attributes ==>
      r.attributes[k] == name.attributes[k]
  {
    r := name;
    if node.Some? {
      var attributes := node.value.attributes;
      var pending := attributes.Keys;
      while pending != {}
        invariant pending <= attributes.Keys
        invariant r.parts == name.parts
        invariant r.attributes.Keys == name.attributes.Keys + (attributes.Keys - pending)
        invariant forall k :: k in attributes && k !in pending ==> r.attributes[k] == attributes[k]
        invariant forall k :: k in name.attributes && k !in attributes.Keys - pending ==>
          r.attributes[k] == name.attributes[k]
        decreases pending
      {
        var key :| key in pending;
        r := r.WithAttribute(key, attributes[key]);
        pending := pending - {key};
      }
    }
  }

  /** What one collect call does to the Adt, given the filter's answer, the
      node attributes come from and whether an Adt is set: no call, one
      mutator call, or the error collect throws. The mutator is chosen
      before the Adt is fetched, so a wrong interface is reported even
      without an Adt. */
  function CollectCall(caps: set<Capability>, visitorClass: string, filtered: Option<Name>,
                       source: Node, adtSet: bool): (r: Result<Option<Call>, Failure>)
    ensures filtered.None? ==> r == Success(None)
    ensures filtered.Some? && !IsCollector(caps) ==> r == Failure(WrongInterface(visitorClass))
    ensures filtered.Some? && IsCollector(caps) && !adtSet ==> r == Failure(AdtNotSet)
    ensures filtered.Some? && IsCollector(caps) && adtSet ==> r.Success? && r.value.Some?
    ensures r.Success? && r.value.Some? ==>
      var c := r.value.value;
      AdtMutator(caps, visitorClass) == Success(c.mutator) &&
      c.name.attributes == filtered.value.attributes + source.attributes &&
      c.name.parts == (match Marker(caps) case None => [] case Some(p) => [p]) + filtered.value.parts
  {
    match filtered
    case None => Success(None)
    case Some(n) =>
      match AdtMutator(caps, visitorClass)
      case Failure(e) => Failure(e)
      case Success(m) =>
        if !adtSet then Failure(AdtNotSet)
        else Success(Some(Call(m, Modify(Name(n.parts, n.attributes + source.attributes), caps))))
  }

  /** For a visitor with exactly one collector interface, collecting an
      accepted name stores it, marked or not, in the one place that
      interface stands for. */
  lemma SingleCollectorStores(cap: Capability, visitorClass: string, filtered: Name, source: Node, s: AdtState)
    ensures var r := CollectCall({cap}, visitorClass, Some(filtered), source, true);
      var stored := Name(filtered.parts, filtered.attributes + source.attributes);
      r.Success? && r.value.Some? &&
      ApplyCall(s, r.value.value) ==
        match cap
        case DeclaredNamespaceCollector => s.(declared := Some(stored))
        case UsedNamespaceCollector => s.(used := s.used + {stored})
        case UnsupportedNamespaceCollector => s.(unsupported := s.unsupported + {stored.Prepend("?")})
        case NamespacedStringCollector => s.(namespacedStrings := s.namespacedStrings + {stored.Prepend("§")})
  {
  }

  /** A visitor that is both an unsupported and a namespaced-string
      collector files a `§`-marked name under the unsupported statements:
      getAdtMutator takes the first interface, modify the last. */
  lemma MixedCollectorMarksAsString(visitorClass: string, filtered: Name, source: Node)
    ensures var r := CollectCall({UnsupportedNamespaceCollector, NamespacedStringCollector}, visitorClass,
                                 Some(filtered), source, true);
      r.Success? && r.value.Some? &&
      r.value.value.mutator == AddUnsupportedStmt && r.value.value.name.parts[0] == "§"
  {
  }

  class AbstractVisitor {
    /** get_class($this), for the wrong-interface message. */
    const visitorClass: string
    /** The collector interfaces the concrete visitor implements. */
    const capabilities: set<Capability>
    /** What a fresh Filter\NodeName does with its options and a name. */
    const defaultRule: Rule

    var adt: Adt?
    var nodeNameFilter: NodeNameFilter?

    constructor (visitorClass: string, capabilities: set<Capability>, defaultRule: Rule)
      ensures this.visitorClass == visitorClass && this.capabilities == capabilities
      ensures this.defaultRule == defaultRule
      ensures adt == null && nodeNameFilter == null
    {
      this.visitorClass := visitorClass;
      this.capabilities := capabilities;
      this.defaultRule := defaultRule;
      adt := null;
      nodeNameFilter := null;
    }

    /** setOptions: handed unchanged to the (possibly fresh default) filter;
        the visitor keeps no options of its own. */
    method SetOptions(options: seq<Scalar>)
      modifies this`nodeNameFilter, nodeNameFilter
      ensures nodeNameFilter != null && nodeNameFilter.options == options
      ensures old(nodeNameFilter) != null ==> nodeNameFilter == old(nodeNameFilter)
      ensures old(nodeNameFilter) == null ==> fresh(nodeNameFilter) && nodeNameFilter.rule == defaultRule
    {
      var f := GetNodeNameFilter();
      f.SetOptions(options);
    }

    method SetAdt(a: Adt)
      modifies this`adt
      ensures adt == a
    {
      adt := a;
    }

    /** getAdt: the Adt set last, or a DomainException while none is set. */
    function GetAdt(): (r: Result<Adt, Failure>)
      reads this
      ensures r.Success? <==> adt != null
      ensures r.Success? ==> r.value == adt
      ensures r.Failure? ==> r.error == AdtNotSet && ExceptionOf(r.error) == DomainException
    {
      if adt == null then Failure(AdtNotSet) else Success(adt)
    }

    method SetNodeNameFilter(f: NodeNameFilter)
      modifies this`nodeNameFilter
      ensures nodeNameFilter == f
    {
      nodeNameFilter := f;
    }

    /** getNodeNameFilter: installs a default filter only when none is set;
        otherwise the installed instance comes back unchanged. */
    method GetNodeNameFilter() returns (f: NodeNameFilter)
      modifies this`nodeNameFilter
      ensures nodeNameFilter == f
      ensures old(nodeNameFilter) != null ==> f == old(nodeNameFilter)
      ensures old(nodeNameFilter) == null ==> fresh(f) && f.rule == defaultRule && f.options == []
    {
      if nodeNameFilter == null {
        var created := new NodeNameFilter(defaultRule);
        SetNodeNameFilter(created);
      }
      f := nodeNameFilter;
    }

    /** filter: the name through the node-name filter. */
    method Filter(name: Name) returns (r: Option<Name>)
      modifies this`nodeNameFilter
      ensures nodeNameFilter != null && r == nodeNameFilter.Filter(name)
      ensures old(nodeNameFilter) != null ==> nodeNameFilter == old(nodeNameFilter)
      ensures old(nodeNameFilter) == null ==>
        fresh(nodeNameFilter) && nodeNameFilter.rule == defaultRule && nodeNameFilter.options == []
    {
      var f := GetNodeNameFilter();
      r := f.Filter(name);
    }

    /** collect: a rejected name is dropped silently; an accepted one gets the
        node's attributes and the visitor's marker and goes to the single
        mutator its interface selects, unless that selection or the Adt
        lookup throws. */
    method Collect(name: Name, node: Option<Node>) returns (o: Outcome<Failure>)
      modifies this`nodeNameFilter, adt
      ensures adt == old(adt) && nodeNameFilter != null
      ensures old(nodeNameFilter) != null ==> nodeNameFilter == old(nodeNameFilter)
      ensures old(nodeNameFilter) == null ==>
        fresh(nodeNameFilter) && nodeNameFilter.rule == defaultRule && nodeNameFilter.options == []
      ensures var call := CollectCall(capabilities, visitorClass, nodeNameFilter.Filter(name),
                                      Source(name, node), adt != null);
        (call.Failure? ==> o == Fail(call.error)) &&
        (call.Success? ==> o == Pass) &&
        (adt != null ==>
          adt.State() == if call.Success? && call.value.Some? then ApplyCall(old(adt.State()), call.value.value)
                         else old(adt.State()))
    {
      var source := Source(name, node);
      var filtered := Filter(name);
      if filtered.Some? {
        var n := Exchange(filtered.value, Some(source));
        assert n.attributes == filtered.value.attributes + source.attributes;
        n := Modify(n, capabilities);
        var mutator := AdtMutator(capabilities, visitorClass);
        if mutator.Failure? {
          return Fail(mutator.error);
        }
        var target := GetAdt();
        if target.Failure? {
          return Fail(target.error);
        }
        match mutator.value
        case SetDeclaredNamespace => target.value.SetDeclaredNamespace(n);
        case AddUsedNamespace => target.value.AddUsedNamespace(n);
        case AddUnsupportedStmt => target.value.AddUnsupportedStmt(n);
        case AddNamespacedString => target.value.AddNamespacedString(n);
      }
      return Pass;
    }
  }
}
