/** The result aggregate ("Adt") of one analysed file: the declared
    namespace and the sets of used namespaces, unsupported statements and
    namespaced strings. Only its four mutators are part of this model. */
module Entity {
  import opened Common
  import opened Names

  /** The four Adt mutators a collecting visitor can call. */
  datatype Mutator =
    | SetDeclaredNamespace
    | AddUsedNamespace
    | AddUnsupportedStmt
    | AddNamespacedString

  /** One mutator call with its argument. */
  datatype Call = Call(mutator: Mutator, name: Name)

  /** The abstract contents of an Adt. */
  datatype AdtState = AdtState(
    declared: Option<Name>,
    used: set<Name>,
    unsupported: set<Name>,
    namespacedStrings: set<Name>)

  const EmptyState := AdtState(None, {}, {}, {})

  /** The effect of one call: the declared namespace is overwritten, the
      other three are set insertions; exactly the component the mutator
      names changes. */
  function ApplyCall(s: AdtState, c: Call): (r: AdtState)
    ensures c.mutator == SetDeclaredNamespace ==> r == s.(declared := Some(c.name))
    ensures c.mutator != SetDeclaredNamespace ==> r.declared == s.declared
    ensures c.name in r.used <==> c.name in s.used || c.mutator == AddUsedNamespace
    ensures c.name in r.unsupported <==> c.name in s.unsupported || c.mutator == AddUnsupportedStmt
    ensures c.name in r.namespacedStrings <==> c.name in s.namespacedStrings || c.mutator == AddNamespacedString
    ensures s.used <= r.used && r.used <= s.used + {c.name}
    ensures s.unsupported <= r.unsupported && r.unsupported <= s.unsupported + {c.name}
    ensures s.namespacedStrings <= r.namespacedStrings && r.namespacedStrings <= s.namespacedStrings + {c.name}
  {
    match c.mutator
    case SetDeclaredNamespace => s.(declared := Some(c.name))
    case AddUsedNamespace => s.(used := s.used + {c.name})
    case AddUnsupportedStmt => s.(unsupported := s.unsupported + {c.name})
    case AddNamespacedString => s.(namespacedStrings := s.namespacedStrings + {c.name})
  }

  /** Repeating a call changes nothing: every mutator is idempotent. */
  lemma ApplyCallIdempotent(s: AdtState, c: Call)
    ensures ApplyCall(ApplyCall(s, c), c) == ApplyCall(s, c)
  {
    var once := ApplyCall(s, c);
    match c.mutator
    case SetDeclaredNamespace =>
    case AddUsedNamespace => assert once.used + {c.name} == once.used;
    case AddUnsupportedStmt => assert once.unsupported + {c.name} == once.unsupported;
    case AddNamespacedString => assert once.namespacedStrings + {c.name} == once.namespacedStrings;
  }

  class Adt {
    var declaredNamespace: Option<Name>
    var usedNamespaces: set<Name>
    var unsupportedStmts: set<Name>
    var namespacedStrings: set<Name>

    function State(): AdtState
      reads this
    {
      AdtState(declaredNamespace, usedNamespaces, unsupportedStmts, namespacedStrings)
    }

    constructor ()
      ensures State() == EmptyState
    {
      declaredNamespace := None;
      usedNamespaces, unsupportedStmts, namespacedStrings := {}, {}, {};
    }

    method SetDeclaredNamespace(name: Name)
      modifies this
      ensures State() == ApplyCall(old(State()), Call(Mutator.SetDeclaredNamespace, name))
    {
      declaredNamespace := Some(name);
    }

    method AddUsedNamespace(name: Name)
      modifies this
      ensures State() == ApplyCall(old(State()), Call(Mutator.AddUsedNamespace, name))
    {
      usedNamespaces := usedNamespaces + {name};
    }

    method AddUnsupportedStmt(name: Name)
      modifies this
      ensures State() == ApplyCall(old(State()), Call(Mutator.AddUnsupportedStmt, name))
    {
      unsupportedStmts := unsupportedStmts + {name};
    }

    method AddNamespacedString(name: Name)
      modifies this
      ensures State() == ApplyCall(old(State()), Call(Mutator.AddNamespacedString, name))
    {
      namespacedStrings := namespacedStrings + {name};
    }
  }
}
