# PhpDA: collecting visitors and visitor binding, in Dafny

PhpDA analyses the namespace dependencies of PHP code. It walks each file's
syntax tree with a set of visitors, and every visitor records the namespace
names it meets in a per-file aggregate called the Adt.

This project models two parts of that pipeline and proves what they promise.

The first part is the base class of every collecting visitor,
`AbstractVisitor`. Its `collect` step does the following:

- it drops a name the node-name filter rejects;
- it copies the originating node's attributes onto an accepted name;
- it marks the name `?` for an unsupported-statement collector and `§` for a
  namespaced-string collector;
- it hands the name to exactly one Adt mutator, chosen by the visitor's
  collector interfaces in a fixed order;
- it throws when the visitor implements no collector interface, or when no
  Adt is set.

The filter is created on first use, and the visitor's options go to it.

The second part is the visitor-binding contract of `NodeTraverser`. Its
test case pins down the following:

- a request for a required visitor carries no options;
- user identifiers lose their surrounding `\` before the loader sees them;
- an identifier's options may be filed under the identifier with a trailing
  `\`, or with a `\` on each side;
- a scalar option becomes a one-element list;
- a loader answer of `false` aborts the bind with a RuntimeException;
- a visitor that accepts the analysis receives it once;
- a traversal hands back the nodes it was given.

Further choices come from the design rather than from the tests:

- the four required visitors are always loaded, before the user's, in the
  order multi-namespace detector, name resolver, declared-namespace
  collector, used-namespace collector;
- options are looked up under the plain identifier first, then with a
  trailing `\`, then with a `\` on each side;
- the analysis is injected when the visitor is bound, and it is whatever
  analysis the traverser holds at that moment.

Each test method of that test case is replayed as a Dafny method (module
`TraverserScenarios`). A loader that answers exactly the requests the test
expects stands in for the test's mock.

Modules:

- `Common`: Option, Result, Outcome and the failures. PHP exceptions become
  values.
- `Names`: names and nodes.
- `NameFilter`: the filter object.
- `Entity`: the Adt, as a class with an abstract state and a pure
  specification `ApplyCall` of its mutators.
- `Visitor`: the abstract visitor, as a class with its pure helpers beside it.
- `Traverser`: trimming, option lookup, `Bind` as the specification of a
  bind, and the `NodeTraverser` class.
- `TraverserScenarios`: the replayed test case.

## Model

| member | source | states |
|---|---|---|
| `Common.Message` | src/Parser/Visitor/AbstractVisitor.php:160 | the wrong-interface message contains the visitor's class name, between `Visitor ` and ` has wrong interface`; a missing Adt reads `Adt has not been set` (line 69) |
| `Names.Name.WithAttribute` | src/Parser/Visitor/AbstractVisitor.php:105 | setting one attribute sets that key to the value, keeps every other attribute and leaves the segments alone |
| `Names.Name.Prepend` | src/Parser/Visitor/AbstractVisitor.php:210 | prepending adds the prefix as a new first segment in front of the old ones and keeps the attributes |
| `Names.Name.AsNode` | src/Parser/Visitor/AbstractVisitor.php:126-128 | the clone of a name used as the originating node carries the name's attributes |
| `NameFilter.NodeNameFilter.SetOptions` | src/Parser/Visitor/AbstractVisitor.php:51 | the filter stores the options exactly as given |
| `Entity.ApplyCall` | src/Parser/Visitor/AbstractVisitor.php:134 | one mutator call changes exactly the component it names: the declared namespace is overwritten, and the name is inserted into the used, unsupported or namespaced-string set, which otherwise grows by nothing |
| `Entity.ApplyCallIdempotent` | src/Parser/Visitor/AbstractVisitor.php:134 | repeating a mutator call with the same name leaves the Adt as after the first call |
| `Entity.Adt.SetDeclaredNamespace` | src/Parser/Visitor/AbstractVisitor.php:144-146 | the Adt's new state is the old one with the declared-namespace call applied |
| `Entity.Adt.AddUsedNamespace` | src/Parser/Visitor/AbstractVisitor.php:148-150 | the Adt's new state is the old one with the used-namespace call applied |
| `Entity.Adt.AddUnsupportedStmt` | src/Parser/Visitor/AbstractVisitor.php:152-154 | the Adt's new state is the old one with the unsupported-statement call applied |
| `Entity.Adt.AddNamespacedString` | src/Parser/Visitor/AbstractVisitor.php:156-158 | the Adt's new state is the old one with the namespaced-string call applied |
| `Visitor.IsCollectorIffNonEmpty` | src/Parser/Visitor/AbstractVisitor.php:166-193 | a visitor passes one of the four collector tests exactly when it implements at least one collector interface |
| `Visitor.AdtMutator` | src/Parser/Visitor/AbstractVisitor.php:142-161 | each mutator is chosen exactly when its interface is present and no earlier one in the order declared, used, unsupported, namespaced string is; with none of them, that is with no interface at all, the result is a wrong-interface failure naming the visitor's class |
| `Visitor.Marker` | src/Parser/Visitor/AbstractVisitor.php:199-212 | `§` whenever the visitor is a namespaced-string collector, `?` for an unsupported collector that is not one, and no marker exactly when it is neither |
| `Visitor.Modify` | src/Parser/Visitor/AbstractVisitor.php:199-212 | the attributes are kept; a namespaced-string collector's name gets `§` as its first segment, an unsupported collector's that is not one gets `?`, and any other name keeps its segments |
| `Visitor.Exchange` | src/Parser/Visitor/AbstractVisitor.php:100-108 | without a node the name is unchanged; with one the name keeps its segments, gains every node attribute with the node's value, and keeps its own value for keys the node lacks |
| `Visitor.CollectCall` | src/Parser/Visitor/AbstractVisitor.php:124-136 | a rejected name makes no call and raises nothing; an accepted name raises the wrong-interface failure before the missing-Adt failure; otherwise exactly one call, with the mutator `AdtMutator` picks, the name's attributes overridden by the source's, and the marker as first segment |
| `Visitor.SingleCollectorStores` | src/Parser/Visitor/AbstractVisitor.php:130-135 | for a visitor with one collector interface, an accepted name lands in that interface's place in the Adt, marked `?` or `§` for the two marking interfaces and unmarked otherwise |
| `Visitor.MixedCollectorMarksAsString` | src/Parser/Visitor/AbstractVisitor.php:130-135 | a visitor that is both an unsupported and a namespaced-string collector files a `§`-marked name among the unsupported statements |
| `Visitor.AbstractVisitor.SetOptions` | src/Parser/Visitor/AbstractVisitor.php:49-52 | the options reach the visitor's filter unchanged; a filter already set stays, and otherwise a fresh default filter is installed first |
| `Visitor.AbstractVisitor.SetAdt` | src/Parser/Visitor/AbstractVisitor.php:57-60 | the given Adt becomes the visitor's Adt |
| `Visitor.AbstractVisitor.GetAdt` | src/Parser/Visitor/AbstractVisitor.php:66-73 | the Adt set last, or a DomainException exactly while none is set |
| `Visitor.AbstractVisitor.SetNodeNameFilter` | src/Parser/Visitor/AbstractVisitor.php:78-81 | the given filter becomes the visitor's filter |
| `Visitor.AbstractVisitor.GetNodeNameFilter` | src/Parser/Visitor/AbstractVisitor.php:86-93 | a filter already installed comes back unchanged; otherwise a fresh default filter with no options is installed and returned |
| `Visitor.AbstractVisitor.Filter` | src/Parser/Visitor/AbstractVisitor.php:114-117 | the answer of the visitor's filter (the default one when none was set) for the name |
| `Visitor.AbstractVisitor.Collect` | src/Parser/Visitor/AbstractVisitor.php:124-136 | the outcome and the Adt's new state are those `CollectCall` specifies for the filter's answer, the originating node (or the name's clone) and whether an Adt is set; the Adt reference is untouched |
| `Traverser.Trim` | tests/PhpDATest/Parser/NodeTraverserTest.php:72-85 | a trimmed identifier neither starts nor ends with a separator |
| `Traverser.TrimIsInfix` | tests/PhpDATest/Parser/NodeTraverserTest.php:72-85 | trimming removes separators only, and only at the two ends: the result sits in the identifier with nothing but separators around it |
| `Traverser.TrimDropsLeading` | tests/PhpDATest/Parser/NodeTraverserTest.php:75 | a leading separator does not change the trimmed identifier (`\bar\baz` asks for `bar\baz`) |
| `Traverser.TrimDropsTrailing` | tests/PhpDATest/Parser/NodeTraverserTest.php:76 | a trailing separator does not change the trimmed identifier (`baz\baz\` asks for `baz\baz`) |
| `Traverser.TrimSurrounded` | tests/PhpDATest/Parser/NodeTraverserTest.php:74 | a separator on each side does not change the trimmed identifier |
| `Traverser.TrimClean` | tests/PhpDATest/Parser/NodeTraverserTest.php:73-77 | an identifier that neither starts nor ends with a separator is asked for as it is |
| `Traverser.AsList` | tests/PhpDATest/Parser/NodeTraverserTest.php:95-101 | a list of options is passed as it is, a scalar option as a one-element list |
| `Traverser.FirstDefined` | tests/PhpDATest/Parser/NodeTraverserTest.php:95-102 | the position of the first key the options define, with none before it, or none exactly when no key is defined |
| `Traverser.OptionsFor` | tests/PhpDATest/Parser/NodeTraverserTest.php:90-105 | the options under the identifier, else under the identifier with a trailing separator, else under the identifier with a separator on each side, as a list; none exactly when no options are given or none of the three keys is present |
| `Traverser.Requests` | tests/PhpDATest/Parser/NodeTraverserTest.php:43-52 | a bind asks first for the four required visitors in their order and without options, then for each user identifier, trimmed and with its options |
| `Traverser.RequestsDependOnTrim` | tests/PhpDATest/Parser/NodeTraverserTest.php:72-85 | identifier lists that trim alike make the same requests |
| `Traverser.SurroundedIdentifierBindsAlike` | tests/PhpDATest/Parser/NodeTraverserTest.php:74 | wrapping one user identifier in separators changes no request of the bind |
| `Traverser.Bind` | tests/PhpDATest/Parser/NodeTraverserTest.php:108-118 | binding succeeds exactly when the loader answers every request; then one bound visitor per request, in order, injected with the analysis once when it accepts one and never otherwise; else the error names the first refused identifier |
| `Traverser.BindExtends` | tests/PhpDATest/Parser/NodeTraverserTest.php:85 | binding one more accepted request appends its bound visitor to the bound prefix |
| `Traverser.BindFailsOnExtension` | tests/PhpDATest/Parser/NodeTraverserTest.php:108-118 | once a prefix binds and the next request is refused, the whole bind fails naming that identifier |
| `Traverser.NodeTraverser.constructor` | tests/PhpDATest/Parser/NodeTraverserTest.php:55 | a new traverser has no loader, no analysis and no bound visitors |
| `Traverser.NodeTraverser.SetVisitorLoader` | tests/PhpDATest/Parser/NodeTraverserTest.php:60 | the given loader becomes the traverser's loader |
| `Traverser.NodeTraverser.GetVisitorLoader` | tests/PhpDATest/Parser/NodeTraverserTest.php:58-68 | the loader set last, or a DomainException exactly while none is set |
| `Traverser.NodeTraverser.SetAnalysis` | tests/PhpDATest/Parser/NodeTraverserTest.php:124 | the given analysis becomes the traverser's analysis |
| `Traverser.NodeTraverser.GetAnalysis` | tests/PhpDATest/Parser/NodeTraverserTest.php:120-126 | the analysis set last, none before any is set |
| `Traverser.NodeTraverser.LoadVisitor` | tests/PhpDATest/Parser/NodeTraverserTest.php:114-117 | a refused request fails naming its identifier and binds nothing; an accepted one appends its bound visitor |
| `Traverser.NodeTraverser.LoadVisitors` | tests/PhpDATest/Parser/NodeTraverserTest.php:70-86 | loading requests one by one ends as `Bind` specifies: every bound visitor appended in order, or the error of the first refusal |
| `Traverser.NodeTraverser.BindVisitors` | tests/PhpDATest/Parser/NodeTraverserTest.php:70-118 | without a loader, a DomainException and no change; otherwise the outcome and the appended visitors are `Bind` of the bind's requests, and on success the four required visitors come first |
| `Traverser.NodeTraverser.Traverse` | tests/PhpDATest/Parser/NodeTraverserTest.php:143-145 | traversal hands back the nodes it was given |
| `TraverserScenarios.MockLoader` | tests/PhpDATest/Parser/NodeTraverserTest.php:49-53 | the stand-in loader answers exactly the expected requests, with a visitor named after the identifier |
| `TraverserScenarios.MockBindsAll` | tests/PhpDATest/Parser/NodeTraverserTest.php:51-53 | when the loader expects every request, the bind succeeds with visitors named after the identifiers, each injected as its awareness says |
| `TraverserScenarios.BindFresh` | tests/PhpDATest/Parser/NodeTraverserTest.php:41-56 | a fresh traverser given a loader (and an analysis) binds as `Bind` specifies |
| `TraverserScenarios.MutateAndAccessVisitorLoader` | tests/PhpDATest/Parser/NodeTraverserTest.php:58-62 | the loader read back is the one set |
| `TraverserScenarios.AccessVisitorLoaderUnset` | tests/PhpDATest/Parser/NodeTraverserTest.php:64-68 | reading the loader of a fresh traverser raises a DomainException |
| `TraverserScenarios.BindingVisitorsRequests` | tests/PhpDATest/Parser/NodeTraverserTest.php:72-82 | the five identifiers of the test are asked for trimmed and without options, after the required visitors |
| `TraverserScenarios.BindingVisitorsOutcome` | tests/PhpDATest/Parser/NodeTraverserTest.php:70-86 | the test's loader binds all of its requests, named in order |
| `TraverserScenarios.BindingVisitors` | tests/PhpDATest/Parser/NodeTraverserTest.php:70-86 | the bind passes and binds the four required visitors, then all five user identifiers trimmed: `foo`, `UsedNamespaceCollector`, `bar\baz`, `baz\baz`, `MultiNamespaceDetector`, so the two required ones named again are bound a second time (there is no de-duplication) |
| `TraverserScenarios.FooOptions` | tests/PhpDATest/Parser/NodeTraverserTest.php:96 | `foo` gets the list filed under `foo\` |
| `TraverserScenarios.BarBazOptions` | tests/PhpDATest/Parser/NodeTraverserTest.php:97 | `bar\baz` gets the scalar filed under `\bar\baz\`, as a one-element list |
| `TraverserScenarios.BazOptions` | tests/PhpDATest/Parser/NodeTraverserTest.php:102 | `baz` gets no options |
| `TraverserScenarios.WithOptionsOutcome` | tests/PhpDATest/Parser/NodeTraverserTest.php:88-106 | every request carries the options the test's loader expects, so the bind succeeds |
| `TraverserScenarios.BindingVisitorsWithOptions` | tests/PhpDATest/Parser/NodeTraverserTest.php:88-106 | the bind with options passes |
| `TraverserScenarios.InvalidVisitorOutcome` | tests/PhpDATest/Parser/NodeTraverserTest.php:108-118 | a loader that refuses `foo` makes the bind fail naming `foo`, after the required visitors |
| `TraverserScenarios.BindingInvalidVisitor` | tests/PhpDATest/Parser/NodeTraverserTest.php:108-118 | the bind fails naming `foo`, with a RuntimeException |
| `TraverserScenarios.MutateAndAccessAnalysis` | tests/PhpDATest/Parser/NodeTraverserTest.php:120-126 | no analysis at first, then the one set |
| `TraverserScenarios.Traversing` | tests/PhpDATest/Parser/NodeTraverserTest.php:128-146 | the analysis-aware user visitor receives the traverser's analysis exactly once, and traversal returns `foo`, `bar` |

## Left out

- The tree walk and the PhpParser base classes are not part of this model.
  `Traverse` is the identity on its node list. `Name::prepend` is adding a
  leading segment.
- The rules of the concrete node-name filter (`Filter\NodeName`) are not
  part of this model. Each filter carries them as a function of its options
  and a name, and a visitor's default filter has a rule given at
  construction.
- The plugin loader and its registry are not part of this model. A loader is
  a function from a request to a visitor, or to `None` for `false`.
- The Adt class is not part of this model beyond the four mutators that
  `collect` calls. Their effect, an overwrite or a set insertion, follows
  their names.
- PHP's call of a method by name and the `instanceof`/`get_class` reflection
  are replaced by the `Mutator` enumeration, a set of capability tags and a
  class-name field.
- Visitor.Exchange: names are values, so the name object is not updated in
  place and aliasing between the input name and the filter's answer is not
  modelled. The attribute copy is the same.
- Visitor.Modify: the marker is not prepended in place either. In the source
  the filter's answer is already exchanged and marked when the mutator
  choice or the Adt lookup throws, so a filter that returns the caller's own
  name leaves that name changed after a failed collect; the model's failed
  collect changes no name.
- Traverser.Requests: that the required visitors are loaded at all, that they
  come before the user's and in the listed order is a design choice. The
  test case registers them with the loader without a count or an order, so
  it only pins that they are asked for without options.
- Traverser.OptionsFor: the order of the three key variants, and the plain
  identifier as the first of them, are a design choice. The test case only
  has identifiers that match one decorated key each.
- Traverser.Bind: injecting the analysis at bind time, with the analysis held
  then (`None` when none is set), is a design choice. The test case sets the
  analysis before both the bind and the traversal, so it does not say which
  of the two injects it.
- `§` is a single character; its byte encoding is not modelled.
- Traverser.Trim: removes every leading and trailing separator, as PHP's
  `trim` does. The tests use at most one on each side.
- Traverser.NodeTraverser.BindVisitors: after a failed bind the bound
  visitors are left unspecified, because the test case does not say whether
  a partial list survives.
- Traverser.NodeTraverser.BindVisitors: whether a required identifier that a
  user lists again is bound twice is not pinned down. This model binds it
  again, as the test's mock allows.
- The test injects the analysis through a visitor's `setAnalysis`, while the
  visitor base class shown exposes `setAdt`. The model records each
  injection in the bound visitor (`analysisCalls`) and does not link the
  two.
- The traverser's exception messages are not pinned down by its tests.
  `Common.Message` gives none for them.
- The Mockery expectation machinery (`once()`, `shouldIgnoreMissing`) is
  replaced by a loader that answers exactly the expected requests.
