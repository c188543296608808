/** The NodeTraverser test cases, replayed against the model: each method
    builds a fresh traverser the way the test's setUp does and states what
    the test asserts about it. A loader that answers exactly the
    (identifier, options) pairs a test expects plays the part of the
    test's mock; any other request gets `false`. */
module TraverserScenarios {
  import opened Common
  import opened Traverser

  const MultiNamespaceDetector := RequiredVisitors[0]
  const UsedNamespaceCollector := RequiredVisitors[3]

  /** l answers the expected requests with a visitor named after the
      identifier, which accepts an analysis when its identifier is in
      aware, and every other request with false. */
  ghost predicate Mocks(l: VisitorLoader, expected: set<Request>, aware: set<string>)
  {
    forall r :: l.Get(r) == if r in expected then Some(LoadedVisitor(r.identifier, r.identifier in aware)) else None
  }

  /** The mock loader of a test. */
  method MockLoader(expected: set<Request>, aware: set<string>) returns (l: VisitorLoader)
    ensures Mocks(l, expected, aware)
  {
    l := new VisitorLoader((id, opts) =>
      if Request(id, opts) in expected then Some(LoadedVisitor(id, id in aware)) else None);
  }

  /** What setUp tells the mock to expect: each required visitor without options. */
  function RequiredRequests(): (rs: set<Request>)
    ensures forall i :: 0 <= i < |RequiredVisitors| ==> Request(RequiredVisitors[i], None) in rs
  {
    {Request(RequiredVisitors[0], None), Request(RequiredVisitors[1], None),
     Request(RequiredVisitors[2], None), Request(RequiredVisitors[3], None)}
  }

  /** The class names of bound visitors, in binding order. */
  function Classes(vs: seq<BoundVisitor>): (r: seq<string>)
    ensures |r| == |vs| && forall i :: 0 <= i < |vs| ==> r[i] == vs[i].visitor.visitorClass
  {
    seq(|vs|, i requires 0 <= i < |vs| => vs[i].visitor.visitorClass)
  }

  /** The identifiers a sequence of requests names. */
  function Identifiers(rs: seq<Request>): (r: seq<string>)
    ensures |r| == |rs| && forall i :: 0 <= i < |rs| ==> r[i] == rs[i].identifier
  {
    seq(|rs|, i requires 0 <= i < |rs| => rs[i].identifier)
  }

  /** The requests setUp's mock expects first, in binding order. */
  function RequiredRequestSeq(): (rs: seq<Request>)
    ensures |rs| == |RequiredVisitors|
    ensures forall i :: 0 <= i < |rs| ==> rs[i] == Request(RequiredVisitors[i], None) && rs[i] in RequiredRequests()
    ensures Identifiers(rs) == RequiredVisitors
  {
    seq(|RequiredVisitors|, i requires 0 <= i < |RequiredVisitors| => Request(RequiredVisitors[i], None))
  }

  /** A bind asks for the required visitors and then for the user requests. */
  lemma RequestsAre(ids: seq<string>, options: Option<OptionMap>, user: seq<Request>)
    requires |user| == |ids| && forall j :: 0 <= j < |ids| ==> UserRequest(ids[j], options) == user[j]
    ensures Requests(ids, options) == RequiredRequestSeq() + user
  {
  }

  /** When the mock expects every request, binding succeeds and binds one
      visitor per request, named after its identifier, which receives the
      analysis exactly when the mock made it analysis-aware. */
  lemma MockBindsAll(l: VisitorLoader, expected: set<Request>, aware: set<string>,
                     analysis: Option<Analysis>, rs: seq<Request>)
    requires Mocks(l, expected, aware)
    requires forall i :: 0 <= i < |rs| ==> rs[i] in expected
    ensures Bind(l, analysis, rs).Success?
    ensures Classes(Bind(l, analysis, rs).value) == Identifiers(rs)
    ensures forall i :: 0 <= i < |rs| ==>
      Bind(l, analysis, rs).value[i].analysisCalls == if rs[i].identifier in aware then [analysis] else []
  {
    var b := Bind(l, analysis, rs).value;
    assert forall i :: 0 <= i < |rs| ==> b[i].visitor == LoadedVisitor(rs[i].identifier, rs[i].identifier in aware);
  }

  /** setUp and the bind of a test: a fresh traverser with the analysis (if
      any) and the loader set, and the outcome of binding ids. */
  method BindFresh(loader: VisitorLoader, analysis: Option<Analysis>, ids: seq<string>, options: Option<OptionMap>)
    returns (o: Outcome<Failure>, t: NodeTraverser)
    ensures t.analysis == analysis
    ensures var b := Bind(loader, analysis, Requests(ids, options));
      (b.Failure? ==> o == Fail(b.error)) && (b.Success? ==> o == Pass && t.visitors == b.value)
  {
    t := new NodeTraverser();
    if analysis.Some? {
      t.SetAnalysis(analysis.value);
    }
    t.SetVisitorLoader(loader);
    assert t.visitorLoader == loader && t.visitors == [];
    o := t.BindVisitors(ids, options);
    ghost var b := Bind(loader, analysis, Requests(ids, options));
    assert b.Success? ==> t.visitors == [] + b.value == b.value;
  }

  /** testMutateAndAccessVisitorLoader */
  method MutateAndAccessVisitorLoader(loader: VisitorLoader) returns (r: Result<VisitorLoader, Failure>)
    ensures r == Success(loader)
  {
    var t := new NodeTraverser();
    t.SetVisitorLoader(loader);
    r := t.GetVisitorLoader();
  }

  /** testNullPointerExceptionForAccessVisitorLoader */
  method AccessVisitorLoaderUnset() returns (r: Result<VisitorLoader, Failure>)
    ensures r.Failure? && ExceptionOf(r.error) == DomainException
  {
    var t := new NodeTraverser();
    r := t.GetVisitorLoader();
  }

  // The identifiers the tests use are their own trim.

  lemma FooTrimmed()
    ensures Trim("foo") == "foo"
  {
    TrimClean("foo");
  }

  lemma BarBazTrimmed()
    ensures Trim("bar\\baz") == "bar\\baz"
  {
    TrimClean("bar\\baz");
  }

  lemma BazBazTrimmed()
    ensures Trim("baz\\baz") == "baz\\baz"
  {
    TrimClean("baz\\baz");
  }

  lemma BazTrimmed()
    ensures Trim("baz") == "baz"
  {
    TrimClean("baz");
  }

  lemma UsedNamespaceCollectorTrimmed()
    ensures Trim(UsedNamespaceCollector) == UsedNamespaceCollector
  {
    TrimClean(UsedNamespaceCollector);
  }

  lemma MultiNamespaceDetectorTrimmed()
    ensures Trim(MultiNamespaceDetector) == MultiNamespaceDetector
  {
    TrimClean(MultiNamespaceDetector);
  }

  /** The requests a bind of testBindingVisitors' identifiers makes, for
      any foo, used, barBaz, bazBaz and multi that are their own trim: each
      identifier without its surrounding separators, and no options. */
  lemma BindingVisitorsRequests(foo: string, used: string, barBaz: string, bazBaz: string, multi: string)
    requires Trim(foo) == foo && Trim(used) == used && Trim(barBaz) == barBaz
    requires Trim(bazBaz) == bazBaz && Trim(multi) == multi
    ensures Requests([foo, [Separator] + used + [Separator], [Separator] + barBaz, bazBaz + [Separator], multi], None)
      == RequiredRequestSeq() +
         [Request(foo, None), Request(used, None), Request(barBaz, None), Request(bazBaz, None), Request(multi, None)]
  {
    var clean := [foo, used, barBaz, bazBaz, multi];
    var ids := [foo, [Separator] + used + [Separator], [Separator] + barBaz, bazBaz + [Separator], multi];
    var user := [Request(foo, None), Request(used, None), Request(barBaz, None), Request(bazBaz, None), Request(multi, None)];
    forall k | 0 <= k < |ids| ensures Trim(ids[k]) == Trim(clean[k]) {
      if k == 1 {
        TrimSurrounded(used);
      } else if k == 2 {
        TrimDropsLeading(barBaz);
      } else if k == 3 {
        TrimDropsTrailing(bazBaz);
      } else {
        assert k == 0 || k == 4;
      }
    }
    RequestsDependOnTrim(ids, clean, None);
    forall k | 0 <= k < |clean| ensures UserRequest(clean[k], None) == user[k] {
      assert k == 0 || k == 1 || k == 2 || k == 3 || k == 4;
    }
    RequestsAre(clean, None, user);
  }

  /** The names of the required visitors followed by those of user requests. */
  lemma IdentifiersAfterRequired(user: seq<Request>)
    ensures Identifiers(RequiredRequestSeq() + user) == RequiredVisitors + Identifiers(user)
  {
    var rs := RequiredRequestSeq() + user;
    assert forall i :: 0 <= i < |RequiredVisitors| ==> rs[i] == RequiredRequestSeq()[i];
  }

  /** The identifiers of five requests without options. */
  lemma IdentifiersOfBare(a: string, b: string, c: string, d: string, e: string)
    ensures Identifiers([Request(a, None), Request(b, None), Request(c, None), Request(d, None), Request(e, None)])
      == [a, b, c, d, e]
  {
  }

  /** A mock that expects the required visitors and every user request
      binds them all, named after their identifiers, required ones first. */
  lemma MockBindsAfterRequired(l: VisitorLoader, expected: set<Request>, user: seq<Request>)
    requires Mocks(l, expected, {})
    requires RequiredRequests() <= expected
    requires forall j :: 0 <= j < |user| ==> user[j] in expected
    ensures var b := Bind(l, None, RequiredRequestSeq() + user);
      b.Success? && Classes(b.value) == RequiredVisitors + Identifiers(user)
  {
    var rs := RequiredRequestSeq() + user;
    var n := |RequiredVisitors|;
    forall i | 0 <= i < |rs| ensures rs[i] in expected {
      if i >= n {
        assert rs[n + (i - n)] == user[i - n];
      }
    }
    MockBindsAll(l, expected, {}, None, rs);
    IdentifiersAfterRequired(user);
  }

  /** Five requests without options, each in a set that holds them all. */
  lemma BareRequestsIn(expected: set<Request>, a: string, b: string, c: string, d: string, e: string)
    requires {Request(a, None), Request(b, None), Request(c, None), Request(d, None), Request(e, None)} <= expected
    ensures var user := [Request(a, None), Request(b, None), Request(c, None), Request(d, None), Request(e, None)];
      forall j :: 0 <= j < |user| ==> user[j] in expected
  {
    var user := [Request(a, None), Request(b, None), Request(c, None), Request(d, None), Request(e, None)];
    forall j | 0 <= j < |user| ensures user[j] in expected {
      assert j == 0 || j == 1 || j == 2 || j == 3 || j == 4;
    }
  }

  /** A mock that expects the required visitors and the bare foo, used,
      barBaz, bazBaz and multi without options binds testBindingVisitors'
      identifiers, in order after the required ones. */
  lemma BindingVisitorsBind(l: VisitorLoader, expected: set<Request>,
                            foo: string, used: string, barBaz: string, bazBaz: string, multi: string)
    requires Trim(foo) == foo && Trim(used) == used && Trim(barBaz) == barBaz
    requires Trim(bazBaz) == bazBaz && Trim(multi) == multi
    requires Mocks(l, expected, {})
    requires RequiredRequests() <= expected
    requires {Request(foo, None), Request(used, None), Request(barBaz, None), Request(bazBaz, None), Request(multi, None)} <= expected
    ensures var b := Bind(l, None, Requests([foo, [Separator] + used + [Separator], [Separator] + barBaz,
                                             bazBaz + [Separator], multi], None));
      b.Success? && Classes(b.value) == RequiredVisitors + [foo, used, barBaz, bazBaz, multi]
  {
    var user := [Request(foo, None), Request(used, None), Request(barBaz, None), Request(bazBaz, None), Request(multi, None)];
    BindingVisitorsRequests(foo, used, barBaz, bazBaz, multi);
    BareRequestsIn(expected, foo, used, barBaz, bazBaz, multi);
    MockBindsAfterRequired(l, expected, user);
    IdentifiersOfBare(foo, used, barBaz, bazBaz, multi);
  }

  /** The identifiers testBindingVisitors binds. */
  function BindingVisitorsIds(): seq<string>
  {
    ["foo", [Separator] + UsedNamespaceCollector + [Separator], [Separator] + "bar\\baz", "baz\\baz" + [Separator], MultiNamespaceDetector]
  }

  /** The requests testBindingVisitors' mock expects. */
  function BindingVisitorsExpected(): set<Request>
  {
    RequiredRequests() + {Request("foo", None), Request("bar\\baz", None), Request("baz\\baz", None)}
  }

  /** testBindingVisitors' mock expects the required visitors and each of
      its trimmed identifiers without options. */
  lemma BindingVisitorsExpects()
    ensures RequiredRequests() <= BindingVisitorsExpected()
    ensures {Request("foo", None), Request(UsedNamespaceCollector, None), Request("bar\\baz", None),
             Request("baz\\baz", None), Request(MultiNamespaceDetector, None)} <= BindingVisitorsExpected()
  {
    assert Request(UsedNamespaceCollector, None) in RequiredRequests();
    assert Request(MultiNamespaceDetector, None) in RequiredRequests();
  }

  lemma BindingVisitorsOutcome(l: VisitorLoader)
    requires Mocks(l, BindingVisitorsExpected(), {})
    ensures var b := Bind(l, None, Requests(BindingVisitorsIds(), None));
      b.Success? && Classes(b.value) == RequiredVisitors + ["foo", UsedNamespaceCollector, "bar\\baz", "baz\\baz", MultiNamespaceDetector]
  {
    FooTrimmed();
    UsedNamespaceCollectorTrimmed();
    BarBazTrimmed();
    BazBazTrimmed();
    MultiNamespaceDetectorTrimmed();
    BindingVisitorsExpects();
    BindingVisitorsBind(l, BindingVisitorsExpected(), "foo", UsedNamespaceCollector, "bar\\baz", "baz\\baz", MultiNamespaceDetector);
  }

  /** testBindingVisitors: every request is one the mock expects, and every
      identifier is bound in order after the required ones. */
  method BindingVisitors() returns (o: Outcome<Failure>, bound: seq<string>)
    ensures o == Pass
    ensures bound == RequiredVisitors + ["foo", UsedNamespaceCollector, "bar\\baz", "baz\\baz", MultiNamespaceDetector]
  {
    var loader := MockLoader(BindingVisitorsExpected(), {});
    var t;
    o, t := BindFresh(loader, None, BindingVisitorsIds(), None);
    BindingVisitorsOutcome(loader);
    bound := Classes(t.visitors);
  }

  /** The options testBindingVisitorsWithOptions configures. */
  function TestOptions(): OptionMap
  {
    map["foo\\" := List([Str("foo")]), "\\bar\\baz\\" := Single(Int(234))]
  }

  /** `foo` finds its options under the key with a trailing separator. */
  lemma FooOptions()
    ensures OptionsFor("foo", Some(TestOptions())) == Some([Str("foo")])
  {
    assert "foo" + [Separator] == "foo\\";
    assert "foo" != "foo\\" && "foo" != "\\bar\\baz\\";
  }

  /** `bar\baz` finds its scalar option under the key with a separator on
      each side, as a one-element list. */
  lemma BarBazOptions()
    ensures OptionsFor("bar\\baz", Some(TestOptions())) == Some([Int(234)])
  {
    assert [Separator] + "bar\\baz" + [Separator] == "\\bar\\baz\\";
    assert |"bar\\baz"| == 7;
    assert |"bar\\baz" + [Separator]| == 8;
  }

  /** `baz` finds no options. */
  lemma BazOptions()
    ensures OptionsFor("baz", Some(TestOptions())) == None
  {
    assert |"baz"| == 3;
    assert ("baz" + [Separator])[0] == 'b';
    assert |[Separator] + "baz" + [Separator]| == 5;
  }

  /** A mock that expects the required visitors without options and each
      user identifier with the options found for it binds them all. */
  lemma MockBindsUserRequests(l: VisitorLoader, expected: set<Request>, aware: set<string>,
                              analysis: Option<Analysis>, ids: seq<string>, options: Option<OptionMap>)
    requires Mocks(l, expected, aware)
    requires RequiredRequests() <= expected
    requires forall j :: 0 <= j < |ids| ==> UserRequest(ids[j], options) in expected
    ensures Bind(l, analysis, Requests(ids, options)).Success?
  {
    var rs := Requests(ids, options);
    forall i | 0 <= i < |rs| ensures rs[i] in expected {
      if i >= |RequiredVisitors| {
        assert rs[|RequiredVisitors| + (i - |RequiredVisitors|)] == UserRequest(ids[i - |RequiredVisitors|], options);
      }
    }
    MockBindsAll(l, expected, aware, analysis, rs);
  }

  /** The identifiers testBindingVisitorsWithOptions binds. */
  function WithOptionsIds(): seq<string>
  {
    ["foo", "bar\\baz", "baz"]
  }

  /** The requests testBindingVisitorsWithOptions' mock expects. */
  function WithOptionsExpected(): set<Request>
  {
    RequiredRequests() + {Request("foo", Some([Str("foo")])), Request("bar\\baz", Some([Int(234)])), Request("baz", None)}
  }

  // Each identifier of testBindingVisitorsWithOptions is asked for with
  // the options its mock expects.

  lemma FooRequest()
    ensures UserRequest("foo", Some(TestOptions())) == Request("foo", Some([Str("foo")]))
  {
    FooTrimmed();
    FooOptions();
  }

  lemma BarBazRequest()
    ensures UserRequest("bar\\baz", Some(TestOptions())) == Request("bar\\baz", Some([Int(234)]))
  {
    BarBazTrimmed();
    BarBazOptions();
  }

  lemma BazRequest()
    ensures UserRequest("baz", Some(TestOptions())) == Request("baz", None)
  {
    BazTrimmed();
    BazOptions();
  }

  /** testBindingVisitorsWithOptions' mock expects every request its bind makes. */
  lemma WithOptionsExpects()
    ensures RequiredRequests() <= WithOptionsExpected()
    ensures forall j :: 0 <= j < |WithOptionsIds()| ==>
      UserRequest(WithOptionsIds()[j], Some(TestOptions())) in WithOptionsExpected()
  {
    var ids := WithOptionsIds();
    forall j | 0 <= j < |ids| ensures UserRequest(ids[j], Some(TestOptions())) in WithOptionsExpected() {
      if j == 0 {
        FooRequest();
      } else if j == 1 {
        BarBazRequest();
      } else {
        assert j == 2;
        BazRequest();
      }
    }
  }

  lemma WithOptionsOutcome(l: VisitorLoader)
    requires Mocks(l, WithOptionsExpected(), {})
    ensures Bind(l, None, Requests(WithOptionsIds(), Some(TestOptions()))).Success?
  {
    WithOptionsExpects();
    MockBindsUserRequests(l, WithOptionsExpected(), {}, None, WithOptionsIds(), Some(TestOptions()));
  }

  /** testBindingVisitorsWithOptions: every request carries the options the
      mock expects for it, so the bind succeeds. */
  method BindingVisitorsWithOptions() returns (o: Outcome<Failure>)
    ensures o == Pass
  {
    var loader := MockLoader(WithOptionsExpected(), {});
    var t;
    o, t := BindFresh(loader, None, WithOptionsIds(), Some(TestOptions()));
    WithOptionsOutcome(loader);
  }

  /** `foo` is not one of the required visitors. */
  lemma FooNotRequired()
    ensures Request("foo", None) !in RequiredRequests()
  {
    assert forall i :: 0 <= i < |RequiredVisitors| ==> |RequiredVisitors[i]| > 3;
  }

  /** A mock that expects only the required visitors refuses `foo`, and the
      bind fails with its identifier once the required ones are bound. */
  lemma InvalidVisitorOutcome(l: VisitorLoader)
    requires Mocks(l, RequiredRequests(), {})
    ensures Bind(l, None, Requests(["foo"], None)) == Failure(VisitorNotLoaded("foo"))
  {
    var rs := Requests(["foo"], None);
    var n := |RequiredVisitors|;
    FooTrimmed();
    FooNotRequired();
    assert rs[n] == UserRequest("foo", None) == Request("foo", None);
    assert rs[..n] == RequiredRequestSeq();
    MockBindsAll(l, RequiredRequests(), {}, None, rs[..n]);
    BindFailsOnExtension(l, None, rs, n);
  }

  /** testBindingInvalidVisitor: the loader answers false for `foo`, and the
      bind raises a RuntimeException. */
  method BindingInvalidVisitor() returns (o: Outcome<Failure>)
    ensures o == Fail(VisitorNotLoaded("foo")) && ExceptionOf(o.error) == RuntimeException
  {
    var loader := MockLoader(RequiredRequests(), {});
    var t;
    o, t := BindFresh(loader, None, ["foo"], None);
    InvalidVisitorOutcome(loader);
  }

  /** testMutateAndAccessAnalysis: no analysis at first, then the one set. */
  method MutateAndAccessAnalysis(analysis: Analysis) returns (before: Option<Analysis>, after: Option<Analysis>)
    ensures before == None && after == Some(analysis)
  {
    var t := new NodeTraverser();
    before := t.GetAnalysis();
    t.SetAnalysis(analysis);
    after := t.GetAnalysis();
  }

  /** testTraversing: the user visitor accepts the analysis and receives the
      traverser's analysis exactly once, and traversal hands back the nodes
      it was given. */
  method Traversing(analysis: Analysis) returns (calls: seq<Option<Analysis>>, result: seq<string>)
    ensures calls == [Some(analysis)]
    ensures result == ["foo", "bar"]
  {
    var foo := "foo";
    var expected := RequiredRequests() + {Request(foo, None)};
    var loader := MockLoader(expected, {foo});
    var o, t := BindFresh(loader, Some(analysis), [foo], None);
    FooTrimmed();
    ghost var rs := Requests([foo], None);
    assert rs[|RequiredVisitors|] == Request(foo, None);
    MockBindsUserRequests(loader, expected, {foo}, Some(analysis), [foo], None);
    MockBindsAll(loader, expected, {foo}, Some(analysis), rs);
    calls := t.visitors[|RequiredVisitors|].analysisCalls;
    result := t.Traverse(["foo", "bar"]);
  }
}
