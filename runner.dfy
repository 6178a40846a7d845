/**
 * The suite-assembly pipeline of CategorizedTestSuiteRunner: resolve the category annotation
 * of a suite class, pick the candidate classes, drop the restricted ones and collect the rest.
 */
module CategorizedTestSuiteRunner {
  import opened Wrappers
  import opened Classes
  import opened Finder

  /** The runner's own class: it extends JUnit's Suite. */
  const CategorizedRunner: Runner := Runner(
    "org.ps4os.categorizedtestsuite.CategorizedTestSuiteRunner",
    {"org.ps4os.categorizedtestsuite.CategorizedTestSuiteRunner", SuiteName,
     "org.junit.runners.ParentRunner", "org.junit.runner.Runner", "java.lang.Object"})

  /** The two static fields: the annotation finder and ALL_CLASSES_WITH_TEST_ANNOTATIONS. */
  datatype Statics = Statics(annotationFinder: Index, allClassesWithTestAnnotations: set<TestClass>)

  // ---------------------------------------------------------------------------------------
  // The default pool, built once by the static initializer
  // ---------------------------------------------------------------------------------------

  /** Every class that declares a @Test method, plus every class annotated @RunWith. */
  ghost function DefaultPool(ix: Index): set<TestClass> {
    (set m | m in ix.testMethods :: m.declaringClass) + (set c | c in FindAnnotatedClasses(ix, RunWithName))
  }

  ghost predicate Initialized(s: Statics) {
    s.allClassesWithTestAnnotations == DefaultPool(s.annotationFinder)
  }

  /** The static initializer, once the classpath scan has produced the index. */
  method StaticInit(ix: Index) returns (s: Statics)
    ensures s.annotationFinder == ix
    ensures forall c :: c in s.allClassesWithTestAnnotations <==>
      DeclaresTest(ix, c) || c in FindAnnotatedClasses(ix, RunWithName)
    ensures Initialized(s)
  {
    var all := new ClassSet();
    for i := 0 to |ix.testMethods|
      invariant all.elems == set m | m in ix.testMethods[..i] :: m.declaringClass
    {
      all.Add(ix.testMethods[i].declaringClass);
      assert ix.testMethods[..i + 1] == ix.testMethods[..i] + [ix.testMethods[i]];
    }
    assert ix.testMethods[..|ix.testMethods|] == ix.testMethods;
    all.AddAll(FindAnnotatedClasses(ix, RunWithName));
    s := Statics(ix, all.elems);
  }

  // ---------------------------------------------------------------------------------------
  // Marker resolution
  // ---------------------------------------------------------------------------------------

  /** Position `i` holds a category annotation and no earlier position does. */
  ghost predicate FirstCategoryAt(kinds: set<Name>, annotations: seq<Name>, i: int) {
    0 <= i < |annotations| && annotations[i] in kinds &&
    forall j | 0 <= j < i :: annotations[j] !in kinds
  }

  /**
   * The first annotation of the suite class, in the order they are reported, whose type is
   * itself annotated @TestCategory; None when there is no such annotation.
   */
  function CategoryAnnotation(kinds: set<Name>, annotations: seq<Name>): (r: Option<Name>)
    ensures r.None? <==> forall j | 0 <= j < |annotations| :: annotations[j] !in kinds
    ensures r.Some? ==> r.value in kinds && r.value in annotations
  {
    if annotations == [] then None
    else if annotations[0] in kinds then Some(annotations[0])
    else CategoryAnnotation(kinds, annotations[1..])
  }

  /** The annotation at the first qualifying position is the one resolved, whatever follows it. */
  lemma {:induction false} CategoryAnnotationIsFirst(kinds: set<Name>, annotations: seq<Name>, i: int)
    requires FirstCategoryAt(kinds, annotations, i)
    ensures CategoryAnnotation(kinds, annotations) == Some(annotations[i])
  {
    if i > 0 {
      assert annotations[0] !in kinds;
      CategoryAnnotationIsFirst(kinds, annotations[1..], i - 1);
    }
  }

  // ---------------------------------------------------------------------------------------
  // Restriction filter
  // ---------------------------------------------------------------------------------------

  /** Whether `classToAdd` carries one of the annotation types listed in @SkipTestCategory. */
  function IsRestrictedTestCategory(classToAdd: TestClass, skipped: seq<Name>): (r: bool)
    ensures r <==> exists kind | kind in skipped :: IsAnnotationPresent(classToAdd, kind)
  {
    if skipped == [] then false
    else if IsAnnotationPresent(classToAdd, skipped[0]) then true
    else IsRestrictedTestCategory(classToAdd, skipped[1..])
  }

  /** The class is run by a runner that is itself a Suite: a nested suite. */
  predicate RunsAsSuite(c: TestClass) {
    c.runWith.Some? && SuiteName in c.runWith.value.lineage
  }

  /** The suite's @TestsOfType, if present, admits the class. */
  predicate OfRequiredType(suite: TestClass, c: TestClass) {
    suite.testsOfType.None? || IsAssignableFrom(suite.testsOfType.value, c)
  }

  /** The suite's @SkipTestCategory, if present, names an annotation the class carries. */
  predicate InSkippedCategory(suite: TestClass, c: TestClass) {
    suite.skipTestCategory.Some? && IsRestrictedTestCategory(c, suite.skipTestCategory.value)
  }

  /** The class passes all three restrictions of the suite. */
  predicate Admitted(suite: TestClass, c: TestClass) {
    !RunsAsSuite(c) && OfRequiredType(suite, c) && !InSkippedCategory(suite, c)
  }

  /** The candidates that pass the restrictions. */
  ghost function Selected(suite: TestClass, candidates: set<TestClass>): set<TestClass> {
    set c | c in candidates && Admitted(suite, c)
  }

  // ---------------------------------------------------------------------------------------
  // The assembled suite
  // ---------------------------------------------------------------------------------------

  /** The classes the suite draws from: those carrying its category annotation, or the default pool. */
  ghost function Candidates(s: Statics, suite: TestClass): set<TestClass> {
    match CategoryAnnotation(s.annotationFinder.categoryKinds, suite.annotations)
    case Some(kind) => set c | c in FindAnnotatedClasses(s.annotationFinder, kind)
    case None => s.allClassesWithTestAnnotations
  }

  /** The classes of the suite. */
  ghost function SuiteClasses(s: Statics, suite: TestClass): (r: set<TestClass>)
    ensures r <= Candidates(s, suite)
    ensures forall c | c in r :: !RunsAsSuite(c)
    ensures suite.testsOfType.Some? ==> forall c | c in r :: IsAssignableFrom(suite.testsOfType.value, c)
    ensures suite.skipTestCategory.Some? ==>
      forall c, kind | c in r && kind in suite.skipTestCategory.value :: !IsAnnotationPresent(c, kind)
    ensures forall c | c in Candidates(s, suite) && !RunsAsSuite(c) && OfRequiredType(suite, c)
      && !InSkippedCategory(suite, c) :: c in r
  {
    Selected(suite, Candidates(s, suite))
  }

  /** `scanForTestClasses`: the classes handed to JUnit's Suite for `suiteClass`. */
  method ScanForTestClasses(s: Statics, suiteClass: TestClass) returns (r: set<TestClass>)
    ensures r == SuiteClasses(s, suiteClass)
  {
    var kinds := s.annotationFinder.categoryKinds;
    var annotations := suiteClass.annotations;
    var customTestCategoryAnnotation: Option<Name> := None;
    var i := 0;
    while i < |annotations|
      invariant 0 <= i <= |annotations|
      invariant customTestCategoryAnnotation.None?
      invariant forall j | 0 <= j < i :: annotations[j] !in kinds
    {
      if annotations[i] in kinds {
        customTestCategoryAnnotation := Some(annotations[i]);
        break;
      }
      i := i + 1;
    }
    if customTestCategoryAnnotation.Some? {
      CategoryAnnotationIsFirst(kinds, annotations, i);
    }

    var testClasses := new ClassSet();
    if customTestCategoryAnnotation.Some? {
      var candidateClasses := new ClassSet();
      candidateClasses.AddAll(FindAnnotatedClasses(s.annotationFinder, customTestCategoryAnnotation.value));
      ProcessTests(testClasses, suiteClass, candidateClasses.elems);
    } else {
      ProcessTests(testClasses, suiteClass, s.allClassesWithTestAnnotations);
    }
    r := testClasses.elems;
  }

  /** `processTests`: offers every candidate, in whatever order the set yields them. */
  method ProcessTests(testClasses: ClassSet, suiteClass: TestClass, candidateClasses: set<TestClass>)
    modifies testClasses
    ensures testClasses.elems == old(testClasses.elems) + Selected(suiteClass, candidateClasses)
  {
    var remaining := candidateClasses;
    while remaining != {}
      invariant remaining <= candidateClasses
      invariant testClasses.elems == old(testClasses.elems) + Selected(suiteClass, candidateClasses - remaining)
      decreases remaining
    {
      var classToAdd :| classToAdd in remaining;
      AddClassIfNotRestricted(testClasses, suiteClass, classToAdd);
      remaining := remaining - {classToAdd};
    }
  }

  /** `addClassIfNotRestricted`: adds exactly `classToAdd` when it passes the restrictions, else nothing. */
  method AddClassIfNotRestricted(testClasses: ClassSet, suiteClass: TestClass, classToAdd: TestClass)
    modifies testClasses
    ensures testClasses.elems == if Admitted(suiteClass, classToAdd)
      then old(testClasses.elems) + {classToAdd} else old(testClasses.elems)
    ensures old(testClasses.elems) <= testClasses.elems
    ensures testClasses.elems - old(testClasses.elems) <= {classToAdd}
    ensures classToAdd in old(testClasses.elems) ==> testClasses.elems == old(testClasses.elems)
  {
    var runWithAnnotation := classToAdd.runWith;
    if runWithAnnotation.None? || SuiteName !in runWithAnnotation.value.lineage {
      var testsOfTypeAnnotation := suiteClass.testsOfType;
      var skipTestCategoryAnnotation := suiteClass.skipTestCategory;

      var addClass := true;
      if testsOfTypeAnnotation.Some? && !IsAssignableFrom(testsOfTypeAnnotation.value, classToAdd) {
        addClass := false;
      } else if skipTestCategoryAnnotation.Some? && IsRestrictedTestCategory(classToAdd, skipTestCategoryAnnotation.value) {
        addClass := false;
      }

      if addClass {
        testClasses.Add(classToAdd);
      }
    }
  }

  // ---------------------------------------------------------------------------------------
  // Properties of the assembled suite
  // ---------------------------------------------------------------------------------------

  /** A suite class run by this runner is never one of its own classes, even when it carries its own category. */
  lemma SuiteNotInOwnResult(s: Statics, suite: TestClass)
    requires suite.runWith == Some(CategorizedRunner)
    ensures suite !in SuiteClasses(s, suite)
  {
  }

  /** With no category annotation on the suite, every class comes from the default pool. */
  lemma DefaultSuiteDrawsOnTestClasses(s: Statics, suite: TestClass)
    requires Initialized(s)
    requires CategoryAnnotation(s.annotationFinder.categoryKinds, suite.annotations).None?
    ensures forall c | c in SuiteClasses(s, suite) ::
      DeclaresTest(s.annotationFinder, c) || c in FindAnnotatedClasses(s.annotationFinder, RunWithName)
  {
  }

  /** With a category annotation resolved and a consistent index, every class carries that annotation. */
  lemma CategorySuiteCarriesCategory(s: Statics, suite: TestClass, kind: Name)
    requires Consistent(s.annotationFinder)
    requires CategoryAnnotation(s.annotationFinder.categoryKinds, suite.annotations) == Some(kind)
    ensures forall c | c in SuiteClasses(s, suite) :: IsAnnotationPresent(c, kind)
  {
  }

  /** A category annotation that no class carries gives an empty suite, not an error. */
  lemma UnusedCategoryGivesEmptySuite(s: Statics, suite: TestClass, kind: Name)
    requires CategoryAnnotation(s.annotationFinder.categoryKinds, suite.annotations) == Some(kind)
    requires kind !in s.annotationFinder.annotatedClasses
    ensures SuiteClasses(s, suite) == {}
  {
  }

  /** Without @TestsOfType and @SkipTestCategory, only nested suites are dropped from the candidates. */
  lemma UnrestrictedSuiteKeepsAllButSuites(s: Statics, suite: TestClass)
    requires suite.testsOfType.None? && suite.skipTestCategory.None?
    ensures SuiteClasses(s, suite) == set c | c in Candidates(s, suite) && !RunsAsSuite(c)
  {
  }

  /** An empty @SkipTestCategory list restricts nothing. */
  lemma EmptySkipListRestrictsNothing(suite: TestClass, c: TestClass)
    requires suite.skipTestCategory == Some([])
    ensures !InSkippedCategory(suite, c)
  {
  }
}
