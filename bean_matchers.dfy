/**
 * BeanMatchers.similarTo: a Hamcrest matcher that decides whether an actual value is
 * "similar" to an expected one — null against null, containers element by element,
 * beans by `equals` and otherwise getter by getter — and records the first mismatch.
 *
 * Reflection is replaced by explicit class descriptions: a value says which class it
 * belongs to, and a bean value carries what each of its getters returns.
 */
module BeanMatchers {
  import opened Wrappers
  import opened JavaText

  // ---------------------------------------------------------------- values and classes

  /** A public method as `Class.getMethods()` lists it. */
  datatype MethodSig = MethodSig(name: string, paramCount: nat)

  /**
   * A class or interface: its name, its superclass (`None` for interfaces and for
   * `java.lang.Object`), the interfaces it declares directly, and its public methods
   * (inherited ones included, as `getMethods()` reports them).
   */
  datatype ClassDecl = ClassDecl(
    name: string,
    superclass: Option<ClassDecl>,
    interfaces: seq<ClassDecl>,
    methods: seq<MethodSig>)

  const ObjectClassName := "java.lang.Object"

  /**
   * The values the matcher distinguishes: `null`; a `java.lang.Iterable` and a
   * `java.util.Iterator` with the elements they yield; an array (`primitive` for `int[]`
   * and the like, which cannot be cast to `Object[]`); and any other object, with its
   * class, an identity for `equals`, and the value each getter returns (a getter whose
   * name is missing throws when invoked).
   */
  datatype Value =
    | Null
    | Iterable(elems: seq<Value>)
    | Iterator(elems: seq<Value>)
    | Array(primitive: bool, elems: seq<Value>)
    | Obj(cls: ClassDecl, key: int, getters: map<string, Value>)
  {
    predicate IsContainer() {
      Iterable? || Iterator? || Array?
    }
  }

  /** The names of a class, its superclasses and all the interfaces they implement. */
  function Supertypes(c: ClassDecl): set<string>
    decreases c, 1
  {
    {c.name}
      + (if c.superclass.Some? then Supertypes(c.superclass.value) else {})
      + InterfaceSupertypes(c, 0)
  }

  function InterfaceSupertypes(c: ClassDecl, k: nat): set<string>
    decreases c, 0, |c.interfaces| - k
  {
    if k >= |c.interfaces| then {} else Supertypes(c.interfaces[k]) + InterfaceSupertypes(c, k + 1)
  }

  /** `clazz.isInstance(actual)`: only objects belong to a declared class. */
  predicate IsInstance(c: ClassDecl, actual: Value) {
    actual.Obj? && c.name in Supertypes(actual.cls)
  }

  /**
   * `equalTo(expected).matches(actual)` as the matcher uses it: `null` equals only
   * `null`, and two objects are equal when their identities agree. The matcher never
   * asks whether a container equals something.
   */
  predicate JEquals(actual: Value, expected: Value) {
    if actual.Null? || expected.Null? then actual.Null? && expected.Null?
    else actual.Obj? && expected.Obj? && actual.key == expected.key
  }

  /** `isBean`: the class of the value is not in a `java.lang` package. */
  predicate IsBean(v: Value)
    requires v.Obj?
  {
    !StartsWith(v.cls.name, "java.lang")
  }

  // ---------------------------------------------------------------- getter discovery

  /** `getHierarchy`: the class and its superclasses, `java.lang.Object` excluded. */
  function Hierarchy(c: Option<ClassDecl>): (r: seq<ClassDecl>)
    ensures forall k :: 0 <= k < |r| ==> r[k].name != ObjectClassName
    decreases c
  {
    if c.None? || c.value.name == ObjectClassName then []
    else [c.value] + Hierarchy(c.value.superclass)
  }

  /** `getInterfaces`: each declared interface followed by the interfaces it extends. */
  function Interfaces(c: ClassDecl): seq<ClassDecl>
    decreases c, 1
  {
    InterfacesFrom(c, 0)
  }

  function InterfacesFrom(c: ClassDecl, k: nat): seq<ClassDecl>
    decreases c, 0, |c.interfaces| - k
  {
    if k >= |c.interfaces| then []
    else [c.interfaces[k]] + Interfaces(c.interfaces[k]) + InterfacesFrom(c, k + 1)
  }

  /** One step of a left-to-right scan computing `InterfacesFrom`. */
  lemma InterfacesStep(r: seq<ClassDecl>, c: ClassDecl, k: nat)
    requires k < |c.interfaces|
    ensures r + [c.interfaces[k]] + Interfaces(c.interfaces[k]) + InterfacesFrom(c, k + 1) == r + InterfacesFrom(c, k)
  {
    var iface := c.interfaces[k];
    ConcatAssoc(r + [iface], Interfaces(iface), InterfacesFrom(c, k + 1));
    ConcatAssoc(r, [iface], Interfaces(iface) + InterfacesFrom(c, k + 1));
  }

  /** The classes of `cs` that `actual` is an instance of, in order. */
  function InstanceFilter(cs: seq<ClassDecl>, actual: Value): (r: seq<ClassDecl>)
    ensures !actual.Obj? ==> r == []
    decreases |cs|
  {
    if cs == [] then []
    else
      var last := cs[|cs| - 1];
      InstanceFilter(cs[..|cs| - 1], actual) + (if IsInstance(last, actual) then [last] else [])
  }

  /** The filter keeps exactly the classes of `cs` that `actual` is an instance of. */
  lemma {:induction false} InstanceFilterMembers(cs: seq<ClassDecl>, actual: Value)
    ensures forall c :: c in InstanceFilter(cs, actual) <==> c in cs && IsInstance(c, actual)
    decreases |cs|
  {
    if cs != [] {
      var init := cs[..|cs| - 1];
      InstanceFilterMembers(init, actual);
      assert cs == init + [cs[|cs| - 1]];
    }
  }

  /** A getter as `commonGetters` selects them: no parameters, not `getClass`, named get… or is…. */
  predicate IsGetter(m: MethodSig) {
    m.paramCount == 0 && m.name != "getClass" && (StartsWith(m.name, "get") || StartsWith(m.name, "is"))
  }

  /** The getter names among `ms`, in order. */
  function GettersIn(ms: seq<MethodSig>): seq<string>
    decreases |ms|
  {
    if ms == [] then []
    else (if IsGetter(ms[0]) then [ms[0].name] else []) + GettersIn(ms[1..])
  }

  /** A name is listed exactly when some method of `ms` is a getter of that name. */
  lemma {:induction false} GettersInMembers(ms: seq<MethodSig>)
    ensures forall n :: n in GettersIn(ms) <==> exists m :: m in ms && IsGetter(m) && m.name == n
    decreases |ms|
  {
    if ms != [] {
      GettersInMembers(ms[1..]);
      assert forall m :: m in ms <==> m == ms[0] || m in ms[1..];
    }
  }

  /** The getter names of every class of `cs`, class by class. */
  function GettersOf(cs: seq<ClassDecl>): seq<string>
    decreases |cs|
  {
    if cs == [] then []
    else GettersIn(cs[0].methods) + GettersOf(cs[1..])
  }

  /** A name is listed exactly when some class of `cs` lists it among its getters. */
  lemma {:induction false} GettersOfMembers(cs: seq<ClassDecl>)
    ensures forall n :: n in GettersOf(cs) <==> exists c :: c in cs && n in GettersIn(c.methods)
    decreases |cs|
  {
    if cs != [] {
      GettersOfMembers(cs[1..]);
      assert forall c :: c in cs <==> c == cs[0] || c in cs[1..];
    }
  }

  /** The classes `commonGetters` collects: expected's hierarchy, then its interfaces, that actual is an instance of. */
  function CommonClasses(expected: Value, actual: Value): seq<ClassDecl>
    requires expected.Obj?
  {
    InstanceFilter(Hierarchy(Some(expected.cls)), actual) + InstanceFilter(Interfaces(expected.cls), actual)
  }

  /**
   * `commonGetters(expected, actual)`, in the order the classes and their methods are
   * discovered (Java collects them in a hash set, whose order is unspecified; that the
   * verdict does not depend on the order is `GetterOrderIrrelevant`).
   */
  function CommonGetterNames(expected: Value, actual: Value): seq<string> {
    if expected.Obj? && !actual.Null? then GettersOf(CommonClasses(expected, actual)) else []
  }

  /** A name is a common getter exactly when some common class declares a getter of that name. */
  lemma CommonGetterNamesIff(expected: Value, actual: Value, n: string)
    requires expected.Obj? && !actual.Null?
    ensures n in CommonGetterNames(expected, actual) <==>
      exists c :: (c in Hierarchy(Some(expected.cls)) || c in Interfaces(expected.cls)) && IsInstance(c, actual)
        && exists m :: m in c.methods && IsGetter(m) && m.name == n
  {
    var hs := Hierarchy(Some(expected.cls));
    var ifs := Interfaces(expected.cls);
    var cs := CommonClasses(expected, actual);
    InstanceFilterMembers(hs, actual);
    InstanceFilterMembers(ifs, actual);
    GettersOfMembers(cs);
    assert forall c :: c in cs <==> (c in hs || c in ifs) && IsInstance(c, actual);
    forall c | c in cs
      ensures n in GettersIn(c.methods) <==> exists m :: m in c.methods && IsGetter(m) && m.name == n
    {
      GettersInMembers(c.methods);
    }
  }

  /** Only an object can share a class with a bean, so any other actual value has no common getter. */
  lemma NoCommonGettersWithNonObject(expected: Value, actual: Value)
    requires !actual.Obj?
    ensures CommonGetterNames(expected, actual) == []
  {
  }

  // ---------------------------------------------------------------- the similarity check

  /** The check (`where`) under which `match` records a failure. */
  datatype Check =
    | NullCheck
    | MaybeValuesAreEqual
    | IsAnIterable
    | IsAnIterator
    | IteratedElementIsSimilar
    | ExpectedHasNoMoreElements
    | ActualHasMoreElements
    | GettersAreSimilar

  datatype ContainerType = IterableType | IteratorType

  /** The matcher that failed: `equalTo`, `isA`, or a nested similarity matcher with its path and its own record. */
  datatype FailingMatcher =
    | EqualTo(operand: Value)
    | IsA(container: ContainerType)
    | SimilarTo(path: string, operand: Value, inner: Option<Failure>)

  /** What `match` writes into `failingMatcher`, `failingActual` and `failingCheck`. */
  datatype Failure = Failure(matcher: FailingMatcher, actual: Value, check: Check)

  /** An unchecked exception leaving `matches`. */
  datatype Fault =
    | ClassCast
    | InvocationFailed(getter: string)

  datatype Outcome = Returned(similar: bool) | Threw(fault: Fault)

  /** The outcome of one `matches` call and the failure record it writes, if any. */
  datatype Run = Run(outcome: Outcome, written: Option<Failure>)

  /** The record a matcher holds after a run that started with `before`. */
  function Recorded(before: Option<Failure>, run: Run): Option<Failure> {
    if run.written.Some? then run.written else before
  }

  function Test(ok: bool, failure: Failure): Run {
    if ok then Run(Returned(true), None) else Run(Returned(false), Some(failure))
  }

  function IndexPath(i: nat): string {
    "[" + NatToString(i) + "]"
  }

  function GetterPath(name: string): string {
    "." + name + "()"
  }

  /** `SimilarMatcher(expected).matches(actual)`, in the precedence order of the source. */
  function Similar(expected: Value, actual: Value): Run
    decreases expected, 2
  {
    if expected.Null? || actual.Null? then
      Test(JEquals(actual, expected), Failure(EqualTo(expected), actual, NullCheck))
    else match expected
      case Iterable(es) =>
        if !actual.Iterable? then Run(Returned(false), Some(Failure(IsA(IterableType), actual, IsAnIterable)))
        else SimilarElems(expected, actual.elems, 0)
      case Iterator(es) =>
        if !actual.Iterator? then Run(Returned(false), Some(Failure(IsA(IteratorType), actual, IsAnIterator)))
        else SimilarElems(expected, actual.elems, 0)
      case Array(primitive, es) =>
        if !actual.Array? || actual.primitive || primitive then Run(Threw(ClassCast), None)
        else SimilarElems(expected, actual.elems, 0)
      case Obj(_, _, _) =>
        if JEquals(actual, expected) then Run(Returned(true), None)
        else
          var maybeEqual := Some(Failure(EqualTo(expected), actual, MaybeValuesAreEqual));
          var names := CommonGetterNames(expected, actual);
          if !IsBean(expected) || names == [] then Run(Returned(false), maybeEqual)
          else
            var g := SimilarGetters(expected, actual, names, 0);
            Run(g.outcome, Recorded(maybeEqual, g))
  }

  /** The loop of `matchIterator`, from position `i` of both element sequences. */
  function SimilarElems(owner: Value, actual: seq<Value>, i: nat): Run
    requires owner.IsContainer()
    decreases owner, 1, |owner.elems| - i
  {
    var expected := owner.elems;
    if i < |expected| then
      if i < |actual| then
        var sub := Similar(expected[i], actual[i]);
        match sub.outcome
        case Threw(f) => Run(Threw(f), None)
        case Returned(ok) =>
          if ok then SimilarElems(owner, actual, i + 1)
          else Run(Returned(false), Some(Failure(SimilarTo(IndexPath(i), expected[i], sub.written), actual[i], IteratedElementIsSimilar)))
      else Test(expected[i].Null?, Failure(EqualTo(expected[i]), Null, ExpectedHasNoMoreElements))
    else if i < |actual| then Test(actual[i].Null?, Failure(EqualTo(actual[i]), Null, ActualHasMoreElements))
    else Run(Returned(true), None)
  }

  /** The getter loop of `matches`, from the `k`-th common getter: expected's getter is invoked first. */
  function SimilarGetters(expected: Value, actual: Value, names: seq<string>, k: nat): Run
    requires expected.Obj?
    decreases expected, 1, |names| - k
  {
    if k >= |names| then Run(Returned(true), None)
    else
      var n := names[k];
      if n !in expected.getters then Run(Threw(InvocationFailed(n)), None)
      else if !actual.Obj? || n !in actual.getters then Run(Threw(InvocationFailed(n)), None)
      else
        var sub := Similar(expected.getters[n], actual.getters[n]);
        match sub.outcome
        case Threw(f) => Run(Threw(f), None)
        case Returned(ok) =>
          if ok then SimilarGetters(expected, actual, names, k + 1)
          else Run(Returned(false), Some(Failure(SimilarTo(GetterPath(n), expected.getters[n], sub.written), actual.getters[n], GettersAreSimilar)))
  }

  /** The path of the innermost failure, as the nested matchers' paths add up in the mismatch text. */
  function FailurePath(f: Option<Failure>): string
    decreases f
  {
    if f.Some? && f.value.matcher.SimilarTo? then f.value.matcher.path + FailurePath(f.value.matcher.inner) else ""
  }

  /** The value found at the end of that path. */
  function FailureActual(f: Option<Failure>): Option<Value>
    decreases f
  {
    if f.None? then None
    else if f.value.matcher.SimilarTo? && f.value.matcher.inner.Some? then FailureActual(f.value.matcher.inner)
    else Some(f.value.actual)
  }

  // ---------------------------------------------------------------- properties

  predicate IsSimilar(expected: Value, actual: Value) {
    Similar(expected, actual).outcome == Returned(true)
  }

  predicate Throws(expected: Value, actual: Value) {
    Similar(expected, actual).outcome.Threw?
  }

  /** `null` is similar to `null` only; any other pairing with `null` fails the null check. */
  lemma NullRule(expected: Value, actual: Value)
    requires expected.Null? || actual.Null?
    ensures Similar(expected, actual).outcome == Returned(expected.Null? && actual.Null?)
    ensures !(expected.Null? && actual.Null?) ==>
      Similar(expected, actual).written == Some(Failure(EqualTo(expected), actual, NullCheck))
  {
  }

  /** An expected iterable (iterator) needs an actual iterable (iterator); otherwise the `isA` check fails. */
  lemma ContainerKindRule(expected: Value, actual: Value)
    requires (expected.Iterable? && !actual.Iterable?) || (expected.Iterator? && !actual.Iterator?)
    requires !actual.Null?
    ensures Similar(expected, actual).outcome == Returned(false)
    ensures Similar(expected, actual).written ==
      if expected.Iterable? then Some(Failure(IsA(IterableType), actual, IsAnIterable))
      else Some(Failure(IsA(IteratorType), actual, IsAnIterator))
  {
  }

  /** Unless both are object arrays, an expected array paired with a non-null actual throws `ClassCastException`. */
  lemma ArrayCastRule(expected: Value, actual: Value)
    requires expected.Array? && !actual.Null?
    ensures !actual.Array? || actual.primitive || expected.primitive ==>
      Similar(expected, actual) == Run(Threw(ClassCast), None)
    ensures actual.Array? && !actual.primitive && !expected.primitive ==>
      Similar(expected, actual) == SimilarElems(expected, actual.elems, 0)
  {
  }

  /** Containers that `matches` compares element by element. */
  predicate SameKind(expected: Value, actual: Value) {
    || (expected.Iterable? && actual.Iterable?)
    || (expected.Iterator? && actual.Iterator?)
    || (expected.Array? && actual.Array? && !expected.primitive && !actual.primitive)
  }

  lemma SameKindElems(expected: Value, actual: Value)
    requires SameKind(expected, actual)
    ensures Similar(expected, actual) == SimilarElems(expected, actual.elems, 0)
  {
  }

  /** Positions `i` up to `m` that are all similar are passed over. */
  lemma {:induction false} SkipSimilarElems(owner: Value, actual: seq<Value>, i: nat, m: nat)
    requires owner.IsContainer() && i <= m <= |owner.elems| && m <= |actual|
    requires forall j :: i <= j < m ==> IsSimilar(owner.elems[j], actual[j])
    ensures SimilarElems(owner, actual, i) == SimilarElems(owner, actual, m)
    decreases m - i
  {
    if i < m {
      SimilarElemsStep(owner, actual, i);
      SkipSimilarElems(owner, actual, i + 1, m);
    }
  }

  /** A similar pair lets the element loop go on to the next position. */
  lemma SimilarElemsStep(owner: Value, actual: seq<Value>, i: nat)
    requires owner.IsContainer() && i < |owner.elems| && i < |actual|
    requires IsSimilar(owner.elems[i], actual[i])
    ensures SimilarElems(owner, actual, i) == SimilarElems(owner, actual, i + 1)
  {
  }

  lemma {:induction false} ElemsPairwise(owner: Value, actual: seq<Value>, i: nat)
    requires owner.IsContainer() && |actual| == |owner.elems| && i <= |actual|
    requires forall j :: i <= j < |actual| ==> !Throws(owner.elems[j], actual[j])
    ensures SimilarElems(owner, actual, i).outcome ==
      Returned(forall j :: i <= j < |actual| ==> IsSimilar(owner.elems[j], actual[j]))
    decreases |actual| - i
  {
    if i < |actual| {
      ElemsPairwise(owner, actual, i + 1);
      if IsSimilar(owner.elems[i], actual[i]) {
        SimilarElemsStep(owner, actual, i);
      }
    }
  }

  /** Two containers of equal length are similar exactly when every positional pair is similar. */
  lemma EqualLengthPairwise(expected: Value, actual: Value)
    requires SameKind(expected, actual) && |expected.elems| == |actual.elems|
    requires forall j :: 0 <= j < |actual.elems| ==> !Throws(expected.elems[j], actual.elems[j])
    ensures Similar(expected, actual).outcome ==
      Returned(forall j :: 0 <= j < |actual.elems| ==> IsSimilar(expected.elems[j], actual.elems[j]))
  {
    ElemsPairwise(expected, actual.elems, 0);
  }

  /** The first dissimilar position `k` decides, and the record names it with the path `[k]`. */
  lemma FirstElementMismatch(expected: Value, actual: Value, k: nat)
    requires SameKind(expected, actual) && k < |expected.elems| && k < |actual.elems|
    requires forall j :: 0 <= j < k ==> IsSimilar(expected.elems[j], actual.elems[j])
    requires Similar(expected.elems[k], actual.elems[k]).outcome == Returned(false)
    ensures Similar(expected, actual).outcome == Returned(false)
    ensures Similar(expected, actual).written ==
      Some(Failure(SimilarTo(IndexPath(k), expected.elems[k], Similar(expected.elems[k], actual.elems[k]).written),
                   actual.elems[k], IteratedElementIsSimilar))
    ensures FailurePath(Similar(expected, actual).written) ==
      IndexPath(k) + FailurePath(Similar(expected.elems[k], actual.elems[k]).written)
  {
    SkipSimilarElems(expected, actual.elems, 0, k);
  }

  /**
   * When the actual container runs out first and the shared prefix is similar, the verdict
   * is whether the first missing expected element is `null`; later ones are not inspected.
   */
  lemma ExpectedLonger(expected: Value, actual: Value)
    requires SameKind(expected, actual) && |actual.elems| < |expected.elems|
    requires forall j :: 0 <= j < |actual.elems| ==> IsSimilar(expected.elems[j], actual.elems[j])
    ensures Similar(expected, actual).outcome == Returned(expected.elems[|actual.elems|].Null?)
    ensures !expected.elems[|actual.elems|].Null? ==>
      Similar(expected, actual).written == Some(Failure(EqualTo(expected.elems[|actual.elems|]), Null, ExpectedHasNoMoreElements))
  {
    SkipSimilarElems(expected, actual.elems, 0, |actual.elems|);
  }

  /**
   * When the expected container runs out first and the shared prefix is similar, the verdict
   * is whether the first surplus actual element is `null`; later ones are not inspected.
   */
  lemma ActualLonger(expected: Value, actual: Value)
    requires SameKind(expected, actual) && |expected.elems| < |actual.elems|
    requires forall j :: 0 <= j < |expected.elems| ==> IsSimilar(expected.elems[j], actual.elems[j])
    ensures Similar(expected, actual).outcome == Returned(actual.elems[|expected.elems|].Null?)
    ensures !actual.elems[|expected.elems|].Null? ==>
      Similar(expected, actual).written == Some(Failure(EqualTo(actual.elems[|expected.elems|]), Null, ActualHasMoreElements))
  {
    SkipSimilarElems(expected, actual.elems, 0, |expected.elems|);
  }

  /** Objects that are `equals` are similar at once, and nothing is recorded. */
  lemma EqualsShortCircuit(expected: Value, actual: Value)
    requires expected.Obj? && JEquals(actual, expected)
    ensures Similar(expected, actual) == Run(Returned(true), None)
  {
  }

  /** Unequal objects of a `java.lang` class, or without common getters, are dissimilar. */
  lemma NoGettersDissimilar(expected: Value, actual: Value)
    requires expected.Obj? && !actual.Null? && !JEquals(actual, expected)
    requires !IsBean(expected) || CommonGetterNames(expected, actual) == []
    ensures Similar(expected, actual) == Run(Returned(false), Some(Failure(EqualTo(expected), actual, MaybeValuesAreEqual)))
  {
  }

  /** Getter `n` can be invoked on both values and comparing its results does not throw. */
  predicate Invocable(expected: Value, actual: Value, n: string) {
    expected.Obj? && actual.Obj? && n in expected.getters && n in actual.getters
    && !Throws(expected.getters[n], actual.getters[n])
  }

  predicate GetterSimilar(expected: Value, actual: Value, n: string) {
    expected.Obj? && actual.Obj? && n in expected.getters && n in actual.getters
    && IsSimilar(expected.getters[n], actual.getters[n])
  }

  lemma {:induction false} GettersVerdict(expected: Value, actual: Value, names: seq<string>, k: nat)
    requires expected.Obj? && k <= |names|
    requires forall n :: n in names[k..] ==> Invocable(expected, actual, n)
    ensures SimilarGetters(expected, actual, names, k).outcome ==
      Returned(forall n :: n in names[k..] ==> GetterSimilar(expected, actual, n))
    decreases |names| - k
  {
    if k < |names| {
      assert forall n :: n in names[k..] <==> n == names[k] || n in names[k + 1..] by {
        assert names[k..] == [names[k]] + names[k + 1..];
      }
      var n := names[k];
      assert n in names[k..];
      GettersVerdict(expected, actual, names, k + 1);
      assert Invocable(expected, actual, n);
      if GetterSimilar(expected, actual, n) {
        assert SimilarGetters(expected, actual, names, k) == SimilarGetters(expected, actual, names, k + 1);
      } else {
        assert SimilarGetters(expected, actual, names, k).outcome == Returned(false);
      }
    }
  }

  /** A bean that is not `equals` is similar exactly when every common getter returns similar values. */
  lemma BeanByGetters(expected: Value, actual: Value)
    requires expected.Obj? && !actual.Null? && !JEquals(actual, expected) && IsBean(expected)
    requires CommonGetterNames(expected, actual) != []
    requires forall n :: n in CommonGetterNames(expected, actual) ==> Invocable(expected, actual, n)
    ensures Similar(expected, actual).outcome ==
      Returned(forall n :: n in CommonGetterNames(expected, actual) ==> GetterSimilar(expected, actual, n))
  {
    var names := CommonGetterNames(expected, actual);
    assert names[0..] == names;
    GettersVerdict(expected, actual, names, 0);
  }

  /** The order in which the getters are visited does not change the verdict. */
  lemma GetterOrderIrrelevant(expected: Value, actual: Value, xs: seq<string>, ys: seq<string>)
    requires expected.Obj? && forall n :: n in xs <==> n in ys
    requires forall n :: n in xs ==> Invocable(expected, actual, n)
    ensures SimilarGetters(expected, actual, xs, 0).outcome == SimilarGetters(expected, actual, ys, 0).outcome
  {
    assert xs[0..] == xs && ys[0..] == ys;
    GettersVerdict(expected, actual, xs, 0);
    GettersVerdict(expected, actual, ys, 0);
  }

  /**
   * When one getter cannot be invoked and another returns dissimilar values, the order
   * decides: visiting the failing getter first throws, visiting the other first answers
   * `false` and records its failure.
   */
  lemma GetterOrderMatters(expected: Value, actual: Value, bad: string, differ: string)
    requires expected.Obj? && actual.Obj?
    requires !Invocable(expected, actual, bad)
    requires Invocable(expected, actual, differ) && !GetterSimilar(expected, actual, differ)
    ensures SimilarGetters(expected, actual, [bad, differ], 0).outcome.Threw?
    ensures SimilarGetters(expected, actual, [differ, bad], 0).outcome == Returned(false)
    ensures SimilarGetters(expected, actual, [differ, bad], 0).written.Some?
  {
  }

  lemma {:induction false} SkipSimilarGetters(expected: Value, actual: Value, names: seq<string>, i: nat, m: nat)
    requires expected.Obj? && i <= m <= |names|
    requires forall j :: i <= j < m ==> GetterSimilar(expected, actual, names[j])
    ensures SimilarGetters(expected, actual, names, i) == SimilarGetters(expected, actual, names, m)
    decreases m - i
  {
    if i < m {
      SkipSimilarGetters(expected, actual, names, i + 1, m);
    }
  }

  /** The first getter whose values are dissimilar decides, and the record names it with the path `.name()`. */
  lemma FirstGetterMismatch(expected: Value, actual: Value, k: nat)
    requires expected.Obj? && actual.Obj? && !JEquals(actual, expected) && IsBean(expected)
    requires k < |CommonGetterNames(expected, actual)|
    requires forall j :: 0 <= j < k ==> GetterSimilar(expected, actual, CommonGetterNames(expected, actual)[j])
    requires var n := CommonGetterNames(expected, actual)[k];
      n in expected.getters && n in actual.getters && Similar(expected.getters[n], actual.getters[n]).outcome == Returned(false)
    ensures var n := CommonGetterNames(expected, actual)[k];
      Similar(expected, actual) == Run(Returned(false),
        Some(Failure(SimilarTo(GetterPath(n), expected.getters[n], Similar(expected.getters[n], actual.getters[n]).written),
                     actual.getters[n], GettersAreSimilar)))
  {
    SkipSimilarGetters(expected, actual, CommonGetterNames(expected, actual), 0, k);
  }

  /**
   * A value that can be compared with itself: it holds no primitive array, and no iterator,
   * because matching one iterator against itself advances it twice per step
   * (`similar(it).matches(it)` on an iterator over [1, 2] compares 1 with 2).
   */
  predicate SelfComparable(v: Value)
    decreases v
  {
    match v
    case Iterable(es) => forall j :: 0 <= j < |es| ==> SelfComparable(es[j])
    case Iterator(_) => false
    case Array(p, es) => !p && forall j :: 0 <= j < |es| ==> SelfComparable(es[j])
    case _ => true
  }

  /** Every value without primitive arrays and iterators is similar to itself. */
  lemma {:induction false} SimilarReflexive(v: Value)
    requires SelfComparable(v)
    ensures IsSimilar(v, v)
    decreases v, 1
  {
    if v.IsContainer() {
      ElemsReflexive(v, 0);
    }
  }

  lemma {:induction false} ElemsReflexive(v: Value, i: nat)
    requires v.IsContainer() && SelfComparable(v) && i <= |v.elems|
    ensures SimilarElems(v, v.elems, i) == Run(Returned(true), None)
    decreases v, 0, |v.elems| - i
  {
    if i < |v.elems| {
      SimilarReflexive(v.elems[i]);
      ElemsReflexive(v, i + 1);
    }
  }

  // ---------------------------------------------------------------- scenarios

  const IntegerClass := ClassDecl("java.lang.Integer", None, [], [])

  /** A boxed `Integer`; its identity for `equals` is its value. */
  function Int(n: int): Value {
    Obj(IntegerClass, n, map[])
  }

  const PointClass := ClassDecl("example.Point", None, [], [MethodSig("getClass", 0), MethodSig("getX", 0), MethodSig("getY", 0)])

  /** A point bean; `id` is its identity for `equals`. */
  function Point(id: int, x: int, y: int): Value {
    Obj(PointClass, id, map["getX" := Int(x), "getY" := Int(y)])
  }

  /** Points (1, 2) and (1, 3) differ at `.getY()`, where the actual value is 3. */
  lemma PointScenario()
    ensures Similar(Point(1, 1, 2), Point(2, 1, 3)).outcome == Returned(false)
    ensures FailurePath(Similar(Point(1, 1, 2), Point(2, 1, 3)).written) == ".getY()"
    ensures FailureActual(Similar(Point(1, 1, 2), Point(2, 1, 3)).written) == Some(Int(3))
  {
    var e := Point(1, 1, 2);
    var a := Point(2, 1, 3);
    PointGetters(1, 1, 2, 2, 1, 3);
    PointGetterValues(1, 2, 1, 3);
    var w := Failure(SimilarTo(".getY()", Int(2), Some(Failure(EqualTo(Int(2)), Int(3), MaybeValuesAreEqual))), Int(3), GettersAreSimilar);
    assert !JEquals(a, e);
    BeanUnfold(e, a);
    assert Similar(e, a) == Run(Returned(false), Some(w));
    assert FailurePath(Some(w)) == ".getY()" + "";
  }

  /** `Similar` on a bean that is not `equals` and has common getters is the getter loop. */
  lemma BeanUnfold(expected: Value, actual: Value)
    requires expected.Obj? && !actual.Null? && !JEquals(actual, expected) && IsBean(expected)
    requires CommonGetterNames(expected, actual) != []
    ensures var g := SimilarGetters(expected, actual, CommonGetterNames(expected, actual), 0);
      Similar(expected, actual) == Run(g.outcome, Recorded(Some(Failure(EqualTo(expected), actual, MaybeValuesAreEqual)), g))
  {
  }

  lemma PointGetterValues(x1: int, y1: int, x2: int, y2: int)
    requires x1 == x2 && y1 != y2
    ensures SimilarGetters(Point(1, x1, y1), Point(2, x2, y2), ["getX", "getY"], 0) ==
      Run(Returned(false), Some(Failure(SimilarTo(".getY()", Int(y1), Some(Failure(EqualTo(Int(y1)), Int(y2), MaybeValuesAreEqual))), Int(y2), GettersAreSimilar)))
  {
    var e := Point(1, x1, y1);
    var a := Point(2, x2, y2);
    IntegersDiffer(y1, y2);
    assert IsSimilar(Int(x1), Int(x2));
    assert "getX" != "getY" by {
      assert "getX"[3] != "getY"[3];
    }
    assert e.getters["getY"] == Int(y1) && a.getters["getY"] == Int(y2);
    assert e.getters["getX"] == Int(x1) && a.getters["getX"] == Int(x2);
    assert GetterPath("getY") == ".getY()";
    assert SimilarGetters(e, a, ["getX", "getY"], 0) == SimilarGetters(e, a, ["getX", "getY"], 1);
  }

  lemma PointGetters(id1: int, x1: int, y1: int, id2: int, x2: int, y2: int)
    ensures CommonGetterNames(Point(id1, x1, y1), Point(id2, x2, y2)) == ["getX", "getY"]
    ensures IsBean(Point(id1, x1, y1))
  {
    PointCommonClass(id1, x1, y1, id2, x2, y2);
    PointClassGetters();
    assert GettersOf([PointClass]) == GettersIn(PointClass.methods) + GettersOf([]);
    assert !StartsWith("example.Point", "java.lang") by {
      assert "example.Point"[..9][0] != "java.lang"[0];
    }
  }

  lemma PointCommonClass(id1: int, x1: int, y1: int, id2: int, x2: int, y2: int)
    ensures CommonClasses(Point(id1, x1, y1), Point(id2, x2, y2)) == [PointClass]
  {
    var a := Point(id2, x2, y2);
    assert Hierarchy(Some(PointClass)) == [PointClass];
    assert Interfaces(PointClass) == [];
    assert PointClass.name in Supertypes(PointClass);
    assert [PointClass][..0] == [];
    assert InstanceFilter([PointClass], a) == [PointClass];
  }

  lemma PointClassGetters()
    ensures GettersIn(PointClass.methods) == ["getX", "getY"]
  {
    assert !IsGetter(MethodSig("getClass", 0));
    assert IsGetter(MethodSig("getX", 0)) by {
      assert "getX"[..3] == "get";
    }
    assert IsGetter(MethodSig("getY", 0)) by {
      assert "getY"[..3] == "get";
    }
    var ms := PointClass.methods;
    assert ms[2..][1..] == [];
    assert GettersIn(ms[2..]) == ["getY"];
    assert ms[1..][1..] == ms[2..];
    assert GettersIn(ms[1..]) == ["getX", "getY"];
  }

  lemma IntegersDiffer(m: int, n: int)
    requires m != n
    ensures Similar(Int(m), Int(n)) == Run(Returned(false), Some(Failure(EqualTo(Int(m)), Int(n), MaybeValuesAreEqual)))
  {
    assert StartsWith("java.lang.Integer", "java.lang");
  }

  /** `[1, 2, 3]` against `[1, 2]`: after two similar elements the expected side has one more. */
  lemma ShorterListScenario()
    ensures Similar(Iterable([Int(1), Int(2), Int(3)]), Iterable([Int(1), Int(2)])) ==
      Run(Returned(false), Some(Failure(EqualTo(Int(3)), Null, ExpectedHasNoMoreElements)))
  {
    ExpectedLonger(Iterable([Int(1), Int(2), Int(3)]), Iterable([Int(1), Int(2)]));
  }

  /** Containers of different lengths can be similar: a `null` first surplus element passes. */
  lemma SurplusNullScenario()
    ensures IsSimilar(Iterable([Int(1)]), Iterable([Int(1), Null, Int(5)]))
    ensures IsSimilar(Iterable([Int(1), Null, Int(5)]), Iterable([Int(1)]))
  {
    ActualLonger(Iterable([Int(1)]), Iterable([Int(1), Null, Int(5)]));
    ExpectedLonger(Iterable([Int(1), Null, Int(5)]), Iterable([Int(1)]));
  }

  // ---------------------------------------------------------------- the matcher object

  /** `BeanMatchers.SimilarMatcher`: an expected value, its path below the top-level matcher, and the last failure. */
  class SimilarMatcher {
    const expected: Value
    const path: string
    var failing: Option<Failure>

    /** `similarTo(expected)`. */
    constructor (expected: Value)
      ensures this.expected == expected && path == "" && failing == None
    {
      this.expected := expected;
      path := "";
      failing := None;
    }

    /** The matcher created for one element or one getter value. */
    constructor Nested(expected: Value, path: string)
      ensures this.expected == expected && this.path == path && failing == None
    {
      this.expected := expected;
      this.path := path;
      failing := None;
    }

    /** `matches(actual)`: the verdict of `Similar`, and the record it leaves behind. */
    method Matches(actual: Value) returns (r: Outcome)
      modifies this
      decreases expected, 3
      ensures r == Similar(expected, actual).outcome
      ensures failing == Recorded(old(failing), Similar(expected, actual))
    {
      if expected.Null? || actual.Null? {
        var ok := Match(actual, EqualTo(expected), NullCheck);
        return Returned(ok);
      }
      if expected.Iterable? {
        r := MatchIterable(actual);
        return;
      }
      if expected.Iterator? {
        r := MatchIterator(actual);
        return;
      }
      if expected.Array? {
        r := MatchArray(actual);
        return;
      }
      var equal := Match(actual, EqualTo(expected), MaybeValuesAreEqual);
      if equal {
        return Returned(true);
      }
      if !IsBean(expected) {
        return Returned(false);
      }
      var getters := CommonGetters(expected, actual);
      if |getters| == 0 {
        return Returned(false);
      }
      BeanUnfold(expected, actual);
      r := MatchGetters(actual, getters);
    }

    /** The getter loop of `matches`: expected's getter is invoked first, then actual's. */
    method MatchGetters(actual: Value, getters: seq<string>) returns (r: Outcome)
      requires expected.Obj?
      modifies this
      decreases expected, 1
      ensures r == SimilarGetters(expected, actual, getters, 0).outcome
      ensures failing == Recorded(old(failing), SimilarGetters(expected, actual, getters, 0))
    {
      var k := 0;
      while k < |getters|
        invariant 0 <= k <= |getters|
        invariant failing == old(failing)
        invariant SimilarGetters(expected, actual, getters, k) == SimilarGetters(expected, actual, getters, 0)
      {
        var n := getters[k];
        if n !in expected.getters || !actual.Obj? || n !in actual.getters {
          return Threw(InvocationFailed(n));
        }
        var nested := new SimilarMatcher.Nested(expected.getters[n], GetterPath(n));
        var sub := nested.Matches(actual.getters[n]);
        if sub.Threw? {
          return sub;
        }
        if !sub.similar {
          failing := Some(Failure(SimilarTo(nested.path, nested.expected, nested.failing), actual.getters[n], GettersAreSimilar));
          return Returned(false);
        }
        k := k + 1;
      }
      return Returned(true);
    }

    /** `match(actual, matcher, where)` for the `equalTo` and `isA` matchers. */
    method Match(actual: Value, m: FailingMatcher, check: Check) returns (ok: bool)
      requires !m.SimilarTo?
      modifies this
      ensures ok == match m
        case EqualTo(e) => JEquals(actual, e)
        case IsA(t) => (if t == IterableType then actual.Iterable? else actual.Iterator?)
        case _ => false
      ensures failing == if ok then old(failing) else Some(Failure(m, actual, check))
    {
      ok := match m
        case EqualTo(e) => JEquals(actual, e)
        case IsA(t) => (if t == IterableType then actual.Iterable? else actual.Iterator?)
        case _ => false;
      if !ok {
        failing := Some(Failure(m, actual, check));
      }
    }

    /** `matchIterable(actual, expected)`. */
    method MatchIterable(actual: Value) returns (r: Outcome)
      requires expected.Iterable? && !actual.Null?
      modifies this
      decreases expected, 2
      ensures r == Similar(expected, actual).outcome
      ensures failing == Recorded(old(failing), Similar(expected, actual))
    {
      var isIterable := Match(actual, IsA(IterableType), IsAnIterable);
      if !isIterable {
        return Returned(false);
      }
      r := MatchElements(actual.elems);
    }

    /** `matchIterator(actual, expected)` called from `matches`. */
    method MatchIterator(actual: Value) returns (r: Outcome)
      requires expected.Iterator? && !actual.Null?
      modifies this
      decreases expected, 2
      ensures r == Similar(expected, actual).outcome
      ensures failing == Recorded(old(failing), Similar(expected, actual))
    {
      var isIterator := Match(actual, IsA(IteratorType), IsAnIterator);
      if !isIterator {
        return Returned(false);
      }
      r := MatchElements(actual.elems);
    }

    /** `matchArray(actual, expected)`: both sides are cast to `Object[]` before comparing. */
    method MatchArray(actual: Value) returns (r: Outcome)
      requires expected.Array? && !actual.Null?
      modifies this
      decreases expected, 2
      ensures r == Similar(expected, actual).outcome
      ensures failing == Recorded(old(failing), Similar(expected, actual))
    {
      if !actual.Array? || actual.primitive || expected.primitive {
        return Threw(ClassCast);
      }
      r := MatchElements(actual.elems);
    }

    /** The element loop of `matchIterator`, once both sides are known to be sequences. */
    method MatchElements(actual: seq<Value>) returns (r: Outcome)
      requires expected.IsContainer()
      modifies this
      decreases expected, 1
      ensures r == SimilarElems(expected, actual, 0).outcome
      ensures failing == Recorded(old(failing), SimilarElems(expected, actual, 0))
    {
      var es := expected.elems;
      var i := 0;
      while i < |es|
        invariant 0 <= i <= |es|
        invariant SimilarElems(expected, actual, i) == SimilarElems(expected, actual, 0)
        invariant failing == old(failing)
      {
        if i < |actual| {
          var nested := new SimilarMatcher.Nested(es[i], IndexPath(i));
          var sub := nested.Matches(actual[i]);
          if sub.Threw? {
            return sub;
          }
          if !sub.similar {
            failing := Some(Failure(SimilarTo(nested.path, nested.expected, nested.failing), actual[i], IteratedElementIsSimilar));
            return Returned(false);
          }
          i := i + 1;
        } else {
          var ok := Match(Null, EqualTo(es[i]), ExpectedHasNoMoreElements);
          return Returned(ok);
        }
      }
      if i < |actual| {
        var ok := Match(Null, EqualTo(actual[i]), ActualHasMoreElements);
        return Returned(ok);
      }
      return Returned(true);
    }

    /** `getInterfaces(clazz)`. */
    method GetInterfaces(c: ClassDecl) returns (r: seq<ClassDecl>)
      ensures r == Interfaces(c)
      decreases c
    {
      r := [];
      var k := 0;
      while k < |c.interfaces|
        invariant 0 <= k <= |c.interfaces|
        invariant r + InterfacesFrom(c, k) == Interfaces(c)
      {
        var iface := c.interfaces[k];
        var inherited := GetInterfaces(iface);
        InterfacesStep(r, c, k);
        r := r + [iface] + inherited;
        k := k + 1;
      }
    }

    /** `commonGetters(expected, actual)`: the getters of the classes of expected that actual is an instance of. */
    method CommonGetters(expected: Value, actual: Value) returns (getters: seq<string>)
      ensures getters == CommonGetterNames(expected, actual)
    {
      if !expected.Obj? || actual.Null? {
        return [];
      }
      var inHierarchy := InstancesAmong(Hierarchy(Some(expected.cls)), actual);
      var interfaces := GetInterfaces(expected.cls);
      var inInterfaces := InstancesAmong(interfaces, actual);
      getters := GettersAmong(inHierarchy + inInterfaces);
    }

    /** One class-collecting loop of `commonGetters`. */
    method InstancesAmong(cs: seq<ClassDecl>, actual: Value) returns (classes: seq<ClassDecl>)
      ensures classes == InstanceFilter(cs, actual)
    {
      classes := [];
      var i := 0;
      while i < |cs|
        invariant 0 <= i <= |cs|
        invariant classes == InstanceFilter(cs[..i], actual)
      {
        assert cs[..i + 1][..i] == cs[..i];
        if IsInstance(cs[i], actual) {
          classes := classes + [cs[i]];
        }
        i := i + 1;
      }
      assert cs[..|cs|] == cs;
    }

    /** The outer method-collecting loop of `commonGetters`. */
    method GettersAmong(classes: seq<ClassDecl>) returns (getters: seq<string>)
      ensures getters == GettersOf(classes)
    {
      getters := [];
      var c := 0;
      while c < |classes|
        invariant 0 <= c <= |classes|
        invariant getters + GettersOf(classes[c..]) == GettersOf(classes)
      {
        assert GettersOf(classes[c..]) == GettersIn(classes[c].methods) + GettersOf(classes[c + 1..]);
        var names := GettersAmongMethods(classes[c].methods);
        getters := getters + names;
        c := c + 1;
      }
    }

    /** The inner method-collecting loop of `commonGetters`, over one class's methods. */
    method GettersAmongMethods(methods: seq<MethodSig>) returns (names: seq<string>)
      ensures names == GettersIn(methods)
    {
      names := [];
      var m := 0;
      while m < |methods|
        invariant 0 <= m <= |methods|
        invariant names + GettersIn(methods[m..]) == GettersIn(methods)
      {
        assert methods[m..][1..] == methods[m + 1..];
        if IsGetter(methods[m]) {
          names := names + [methods[m].name];
        }
        m := m + 1;
      }
    }
  }
}
