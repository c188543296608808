/** The traverser that binds visitors to a tree walk, as far as its tests
    pin it down: a loader turns identifiers (with their options) into
    visitors, four required visitors always come first, user identifiers
    are trimmed of surrounding separators, their options are looked up
    under decorated keys, the analysis is injected into every visitor that
    accepts it, and a traversal hands back the nodes it was given. */
module Traverser {
  import opened Common

  /** The namespace separator. */
  const Separator: char := '\\'

  /** The visitors every traversal runs, in this order, before the user's. */
  const RequiredVisitors: seq<string> := [
    RequiredNamespace + [Separator] + "MultiNamespaceDetector",
    "PhpParser" + [Separator] + "NodeVisitor" + [Separator] + "NameResolver",
    RequiredNamespace + [Separator] + "DeclaredNamespaceCollector",
    RequiredNamespace + [Separator] + "UsedNamespaceCollector"
  ]

  /** PhpDA\Parser\Visitor\Required, spelled segment by segment. */
  const RequiredNamespace: string :=
    "PhpDA" + [Separator] + "Parser" + [Separator] + "Visitor" + [Separator] + "Required"

  // ---------------------------------------------------------------------
  // Identifiers

  predicate AllSeparators(s: string)
  {
    forall k :: 0 <= k < |s| ==> s[k] == Separator
  }

  /** s without its leading separators. */
  function TrimLeft(s: string): (r: string)
    ensures |r| <= |s| && r == s[|s| - |r|..]
    ensures AllSeparators(s[..|s| - |r|])
    ensures r != [] ==> r[0] != Separator
  {
    if |s| > 0 && s[0] == Separator then TrimLeft(s[1..]) else s
  }

  /** s without its trailing separators. */
  function TrimRight(s: string): (r: string)
    ensures |r| <= |s| && r == s[..|r|]
    ensures AllSeparators(s[|r|..])
    ensures r != [] ==> r[|r| - 1] != Separator
  {
    if |s| > 0 && s[|s| - 1] == Separator then TrimRight(s[..|s| - 1]) else s
  }

  /** r sits in s at position i and everything around it in s is a separator. */
  predicate InfixAt(s: string, r: string, i: int)
  {
    0 <= i && i + |r| <= |s| &&
    (forall k :: 0 <= k < |r| ==> s[i + k] == r[k]) &&
    (forall k :: 0 <= k < i ==> s[k] == Separator) &&
    (forall k :: i + |r| <= k < |s| ==> s[k] == Separator)
  }

  /** An identifier as the loader sees it: the infix of s left once the
      separators at both ends are gone. */
  function Trim(s: string): (r: string)
    ensures r != [] ==> r[0] != Separator && r[|r| - 1] != Separator
  {
    TrimRight(TrimLeft(s))
  }

  /** What Trim removes is separators only, at either end. */
  lemma TrimIsInfix(s: string)
    ensures exists i :: InfixAt(s, Trim(s), i)
  {
    var left := TrimLeft(s);
    var r := TrimRight(left);
    var i := |s| - |left|;
    forall k | 0 <= k < |r| ensures s[i + k] == r[k] {
      assert r[k] == left[k] == s[i..][k];
    }
    forall k | 0 <= k < i ensures s[k] == Separator {
      assert s[k] == s[..i][k];
    }
    forall k | i + |r| <= k < |s| ensures s[k] == Separator {
      assert s[k] == left[k - i] == left[|r|..][k - i - |r|];
    }
    assert InfixAt(s, Trim(s), i);
  }

  /** Appending a separator to s shifts its left trim by that separator,
      unless s is all separators. */
  lemma {:induction false} TrimLeftAppend(s: string)
    ensures TrimLeft(s + [Separator]) == if TrimLeft(s) == [] then [] else TrimLeft(s) + [Separator]
  {
    if |s| > 0 && s[0] == Separator {
      assert (s + [Separator])[1..] == s[1..] + [Separator];
      TrimLeftAppend(s[1..]);
    } else if s == [] {
      assert TrimLeft([Separator]) == TrimLeft([]);
    }
  }

  /** A trailing separator makes no difference to the right trim. */
  lemma TrimRightAppend(s: string)
    ensures TrimRight(s + [Separator]) == TrimRight(s)
  {
    assert (s + [Separator])[..|s|] == s;
  }

  /** A leading separator makes no difference to the trim. */
  lemma TrimDropsLeading(s: string)
    ensures Trim([Separator] + s) == Trim(s)
  {
    assert ([Separator] + s)[1..] == s;
  }

  /** A trailing separator makes no difference to the trim. */
  lemma TrimDropsTrailing(s: string)
    ensures Trim(s + [Separator]) == Trim(s)
  {
    TrimLeftAppend(s);
    var left := TrimLeft(s);
    if left != [] {
      TrimRightAppend(left);
    }
  }

  /** A separator on each side of an identifier makes no difference. */
  lemma TrimSurrounded(s: string)
    ensures Trim([Separator] + s + [Separator]) == Trim(s)
  {
    assert [Separator] + s + [Separator] == [Separator] + (s + [Separator]);
    TrimDropsLeading(s + [Separator]);
    TrimDropsTrailing(s);
  }

  /** An identifier that neither starts nor ends with a separator. */
  predicate Clean(s: string)
  {
    s != [] && s[0] != Separator && s[|s| - 1] != Separator
  }

  /** A clean identifier is its own trim. */
  lemma TrimClean(s: string)
    requires Clean(s)
    ensures Trim(s) == s
  {
  }

  // ---------------------------------------------------------------------
  // Options

  /** An options entry as configured: a list, or a single scalar. */
  datatype OptionValue = Single(value: Scalar) | List(items: seq<Scalar>)

  type OptionMap = map<string, OptionValue>

  /** `(array)` on an options entry: a scalar becomes a one-element list. */
  function AsList(v: OptionValue): (r: seq<Scalar>)
    ensures v.List? ==> r == v.items
    ensures v.Single? ==> r == [v.value]
  {
    match v
    case Single(x) => [x]
    case List(xs) => xs
  }

  /** The keys an identifier's options may be filed under, in lookup order. */
  function KeyVariants(id: string): seq<string>
  {
    [id, id + [Separator], [Separator] + id + [Separator]]
  }

  /** The position of the first of keys that m defines. */
  function FirstDefined(keys: seq<string>, m: OptionMap): (r: Option<nat>)
    ensures r.None? <==> forall i :: 0 <= i < |keys| ==> keys[i] !in m
    ensures r.Some? ==>
      r.value < |keys| && keys[r.value] in m && forall j :: 0 <= j < r.value ==> keys[j] !in m
  {
    if keys == [] then None
    else if keys[0] in m then Some(0)
    else match FirstDefined(keys[1..], m)
      case None => None
      case Some(i) => Some(i + 1)
  }

  /** The options handed to the loader for a trimmed identifier: those of
      the first key variant present, as a list, or None. */
  function OptionsFor(id: string, options: Option<OptionMap>): (r: Option<seq<Scalar>>)
    ensures options.None? ==> r.None?
    ensures options.Some? && id in options.value ==> r == Some(AsList(options.value[id]))
    ensures options.Some? && id !in options.value && id + [Separator] in options.value ==>
      r == Some(AsList(options.value[id + [Separator]]))
    ensures options.Some? && id !in options.value && id + [Separator] !in options.value &&
            [Separator] + id + [Separator] in options.value ==>
              r == Some(AsList(options.value[[Separator] + id + [Separator]]))
    ensures r.None? <==>
      (options.None? ||
       (id !in options.value && id + [Separator] !in options.value &&
        [Separator] + id + [Separator] !in options.value))
  {
    match options
    case None => None
    case Some(m) =>
      var keys := KeyVariants(id);
      assert keys[0] == id && keys[1] == id + [Separator] && keys[2] == [Separator] + id + [Separator];
      match FirstDefined(keys, m)
      case None =>
        assert keys[0] !in m && keys[1] !in m && keys[2] !in m;
        None
      case Some(i) => Some(AsList(m[keys[i]]))
  }

  // ---------------------------------------------------------------------
  // Loading

  /** What the loader is asked for: an identifier and its options. */
  datatype Request = Request(identifier: string, options: Option<seq<Scalar>>)

  /** The request for one user identifier. */
  function UserRequest(id: string, options: Option<OptionMap>): Request
  {
    Request(Trim(id), OptionsFor(Trim(id), options))
  }

  /** Every request of one bind, in order: the required visitors without
      options, then the user identifiers. */
  function Requests(ids: seq<string>, options: Option<OptionMap>): (rs: seq<Request>)
    ensures |rs| == |RequiredVisitors| + |ids|
    ensures forall i :: 0 <= i < |RequiredVisitors| ==> rs[i] == Request(RequiredVisitors[i], None)
    ensures forall i :: 0 <= i < |ids| ==> rs[|RequiredVisitors| + i] == UserRequest(ids[i], options)
  {
    seq(|RequiredVisitors|, i requires 0 <= i < |RequiredVisitors| => Request(RequiredVisitors[i], None))
      + seq(|ids|, i requires 0 <= i < |ids| => UserRequest(ids[i], options))
  }

  /** Two identifier lists that trim alike make the same requests: the
      loader never sees the separators around an identifier. */
  lemma RequestsDependOnTrim(ids: seq<string>, ids': seq<string>, options: Option<OptionMap>)
    requires |ids| == |ids'| && forall k :: 0 <= k < |ids| ==> Trim(ids[k]) == Trim(ids'[k])
    ensures Requests(ids, options) == Requests(ids', options)
  {
    var a, b := Requests(ids, options), Requests(ids', options);
    var n := |RequiredVisitors|;
    forall i | 0 <= i < |a| ensures a[i] == b[i] {
      if i >= n {
        var j := i - n;
        assert a[n + j] == UserRequest(ids[j], options);
        assert b[n + j] == UserRequest(ids'[j], options);
      }
    }
  }

  /** A separator on each side of a user identifier changes no request. */
  lemma SurroundedIdentifierBindsAlike(ids: seq<string>, options: Option<OptionMap>, k: nat)
    requires k < |ids|
    ensures Requests(ids[k := [Separator] + ids[k] + [Separator]], options) == Requests(ids, options)
  {
    TrimSurrounded(ids[k]);
    RequestsDependOnTrim(ids[k := [Separator] + ids[k] + [Separator]], ids, options);
  }

  /** A visitor as the loader returns it. */
  datatype LoadedVisitor = LoadedVisitor(visitorClass: string, analysisAware: bool)

  /** The plugin loader; what it does is not part of this model, so each
      loader carries its answers as a function (None for `false`). */
  class VisitorLoader {
    const resolve: (string, Option<seq<Scalar>>) -> Option<LoadedVisitor>

    constructor (resolve: (string, Option<seq<Scalar>>) -> Option<LoadedVisitor>)
      ensures this.resolve == resolve
    {
      this.resolve := resolve;
    }

    function Get(r: Request): Option<LoadedVisitor>
    {
      resolve(r.identifier, r.options)
    }
  }

  /** The analysis a traversal fills; only its identity matters here. */
  class Analysis {
    constructor ()
    {
    }
  }

  /** A bound visitor and the analyses injected into it. */
  datatype BoundVisitor = BoundVisitor(visitor: LoadedVisitor, analysisCalls: seq<Option<Analysis>>)

  /** A loaded visitor once bound: one injection of the analysis if it
      accepts one, none otherwise. */
  function Bound(v: LoadedVisitor, analysis: Option<Analysis>): BoundVisitor
  {
    BoundVisitor(v, if v.analysisAware then [analysis] else [])
  }

  /** rs[i] is the first request the loader refuses. */
  predicate FirstRefused(loader: VisitorLoader, rs: seq<Request>, i: int)
  {
    0 <= i < |rs| && loader.Get(rs[i]).None? && forall j :: 0 <= j < i ==> loader.Get(rs[j]).Some?
  }

  /** Loading rs in order: every visitor bound, or the error for the first
      identifier the loader refuses. */
  function Bind(loader: VisitorLoader, analysis: Option<Analysis>, rs: seq<Request>): (r: Result<seq<BoundVisitor>, Failure>)
    ensures r.Success? <==> forall i :: 0 <= i < |rs| ==> loader.Get(rs[i]).Some?
    ensures r.Success? ==>
      |r.value| == |rs| &&
      forall i :: 0 <= i < |rs| ==>
        r.value[i].visitor == loader.Get(rs[i]).value &&
        r.value[i].analysisCalls == if r.value[i].visitor.analysisAware then [analysis] else []
    ensures r.Failure? ==>
      exists i :: FirstRefused(loader, rs, i) && r.error == VisitorNotLoaded(rs[i].identifier)
    decreases |rs|
  {
    if rs == [] then Success([])
    else
      var init := rs[..|rs| - 1];
      var last := rs[|rs| - 1];
      match Bind(loader, analysis, init)
      case Failure(e) =>
        assert forall j :: 0 <= j < |init| ==> init[j] == rs[j];
        assert forall i :: FirstRefused(loader, init, i) ==> FirstRefused(loader, rs, i);
        Failure(e)
      case Success(bs) =>
        match loader.Get(last)
        case None =>
          assert FirstRefused(loader, rs, |rs| - 1);
          Failure(VisitorNotLoaded(last.identifier))
        case Some(v) =>
          assert forall j :: 0 <= j < |init| ==> init[j] == rs[j];
          Success(bs + [Bound(v, analysis)])
  }

  class NodeTraverser {
    var visitorLoader: VisitorLoader?
    var analysis: Option<Analysis>
    var visitors: seq<BoundVisitor>

    constructor ()
      ensures visitorLoader == null && analysis == None && visitors == []
    {
      visitorLoader := null;
      analysis := None;
      visitors := [];
    }

    method SetVisitorLoader(loader: VisitorLoader)
      modifies this`visitorLoader
      ensures visitorLoader == loader
    {
      visitorLoader := loader;
    }

    /** getVisitorLoader: the loader set last, or a DomainException. */
    function GetVisitorLoader(): (r: Result<VisitorLoader, Failure>)
      reads this
      ensures r.Success? <==> visitorLoader != null
      ensures r.Success? ==> r.value == visitorLoader
      ensures r.Failure? ==> r.error == LoaderNotSet && ExceptionOf(r.error) == DomainException
    {
      if visitorLoader == null then Failure(LoaderNotSet) else Success(visitorLoader)
    }

    method SetAnalysis(a: Analysis)
      modifies this`analysis
      ensures analysis == Some(a)
    {
      analysis := Some(a);
    }

    /** getAnalysis: None until an analysis is set. */
    function GetAnalysis(): (r: Option<Analysis>)
      reads this
      ensures r == analysis
    {
      analysis
    }

    /** Loads one request and appends the bound visitor. */
    method LoadVisitor(loader: VisitorLoader, request: Request) returns (o: Outcome<Failure>)
      modifies this`visitors
      ensures loader.Get(request).None? ==> o == Fail(VisitorNotLoaded(request.identifier)) && visitors == old(visitors)
      ensures loader.Get(request).Some? ==> o == Pass && visitors == old(visitors) + [Bound(loader.Get(request).value, analysis)]
    {
      var v := loader.Get(request);
      if v.None? {
        return Fail(VisitorNotLoaded(request.identifier));
      }
      visitors := visitors + [Bound(v.value, analysis)];
      return Pass;
    }

    /** Loads rs in order, appending each bound visitor, and stops at the
        first request the loader refuses. */
    method LoadVisitors(loader: VisitorLoader, rs: seq<Request>) returns (o: Outcome<Failure>)
      modifies this`visitors
      ensures var bound := Bind(loader, analysis, rs);
        (bound.Failure? ==> o == Fail(bound.error)) &&
        (bound.Success? ==> o == Pass && visitors == old(visitors) + bound.value)
    {
      ghost var bound: seq<BoundVisitor> := [];
      assert rs[..0] == [];
      var i := 0;
      while i < |rs|
        invariant 0 <= i <= |rs|
        invariant visitors == old(visitors) + bound
        invariant Bind(loader, analysis, rs[..i]) == Success(bound)
      {
        o := LoadVisitor(loader, rs[i]);
        if o.Fail? {
          BindFailsOnExtension(loader, analysis, rs, i);
          return;
        }
        BindExtends(loader, analysis, rs, i);
        bound := bound + [Bound(loader.Get(rs[i]).value, analysis)];
        i := i + 1;
      }
      assert rs[..|rs|] == rs;
      o := Pass;
    }

    /** bindVisitors: the required visitors, then the user's, each trimmed
        and given its options; stops at the first identifier the loader
        refuses. */
    method BindVisitors(ids: seq<string>, options: Option<OptionMap>) returns (o: Outcome<Failure>)
      modifies this`visitors
      ensures visitorLoader == null ==> o == Fail(LoaderNotSet) && visitors == old(visitors)
      ensures visitorLoader != null ==>
        var bound := Bind(visitorLoader, analysis, Requests(ids, options));
        (bound.Failure? ==> o == Fail(bound.error)) &&
        (bound.Success? ==> o == Pass && visitors == old(visitors) + bound.value)
      ensures o.Pass? ==>
        visitorLoader != null &&
        |visitors| == |old(visitors)| + |RequiredVisitors| + |ids| &&
        forall i :: 0 <= i < |RequiredVisitors| ==>
          visitors[|old(visitors)| + i].visitor == visitorLoader.Get(Request(RequiredVisitors[i], None)).value
    {
      var l := GetVisitorLoader();
      if l.Failure? {
        return Fail(l.error);
      }
      var rs := Requests(ids, options);
      o := LoadVisitors(l.value, rs);
    }

    /** traverse: the walk itself is not part of this model; the nodes it
        was given come back. */
    method Traverse<N>(nodes: seq<N>) returns (r: seq<N>)
      ensures r == nodes
    {
      r := nodes;
    }
  }

  /** Binding one more request of rs appends its bound visitor. */
  lemma BindExtends(loader: VisitorLoader, analysis: Option<Analysis>, rs: seq<Request>, k: nat)
    requires k < |rs| && Bind(loader, analysis, rs[..k]).Success? && loader.Get(rs[k]).Some?
    ensures Bind(loader, analysis, rs[..k + 1]) ==
      Success(Bind(loader, analysis, rs[..k]).value + [Bound(loader.Get(rs[k]).value, analysis)])
  {
    assert rs[..k + 1][..k] == rs[..k];
  }

  /** Once a prefix binds and the next request is refused, the whole bind
      fails with that request's identifier. */
  lemma BindFailsOnExtension(loader: VisitorLoader, analysis: Option<Analysis>, rs: seq<Request>, k: nat)
    requires k < |rs| && Bind(loader, analysis, rs[..k]).Success? && loader.Get(rs[k]).None?
    ensures Bind(loader, analysis, rs) == Failure(VisitorNotLoaded(rs[k].identifier))
  {
    assert rs[..k + 1][..k] == rs[..k];
    assert Bind(loader, analysis, rs[..k + 1]) == Failure(VisitorNotLoaded(rs[k].identifier));
    var r := Bind(loader, analysis, rs);
    assert FirstRefused(loader, rs, k) by {
      forall j | 0 <= j < k ensures loader.Get(rs[j]).Some? {
        assert rs[..k][j] == rs[j];
      }
    }
    var i :| FirstRefused(loader, rs, i) && r.error == VisitorNotLoaded(rs[i].identifier);
    assert i == k;
  }
}
