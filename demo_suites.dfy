/**
 * The demo suites of the repository, evaluated on a small classpath. The suite classes are the
 * repository's own; the test classes they select are stand-ins shaped after the results noted
 * beside each suite (the demo test classes themselves are not part of this model).
 */
module DemoSuites {
  import opened Wrappers
  import opened Classes
  import opened Finder
  import opened CategorizedTestSuiteRunner

  const Object: Name := "java.lang.Object"
  const C1: Name := "org.ps4os.categorizedtestsuite.demo.C1"
  const Numbered: Name := "org.ps4os.categorizedtestsuite.demo.Numbered"
  const Special: Name := "org.ps4os.categorizedtestsuite.demo.Special"
  const BaseTest: Name := "org.ps4os.categorizedtestsuite.demo.tests.BaseTest"

  function PlainTest(name: Name, supertypes: set<Name>, annotations: seq<Name>): TestClass {
    TestClass(name, {name, Object} + supertypes, annotations, None, None, None)
  }

  const TestA := PlainTest("org.ps4os.categorizedtestsuite.demo.tests.TestA", {}, [C1])
  const TestA2 := PlainTest("org.ps4os.categorizedtestsuite.demo.tests.TestA2", {}, [C1, Numbered])
  const TestB1 := PlainTest("org.ps4os.categorizedtestsuite.demo.tests.TestB1", {BaseTest}, [])
  const TestB2 := PlainTest("org.ps4os.categorizedtestsuite.demo.tests.TestB2", {BaseTest}, [])
  const TestB3 := PlainTest("org.ps4os.categorizedtestsuite.demo.tests.TestB3", {BaseTest}, [Special])

  const FullSuiteWithBaseTest := TestClass(
    "org.ps4os.categorizedtestsuite.demo.suites.FullSuiteWithBaseTest",
    {"org.ps4os.categorizedtestsuite.demo.suites.FullSuiteWithBaseTest", Object},
    [TestsOfTypeName, RunWithName],
    Some(CategorizedRunner), Some(BaseTest), None)

  const FullSuiteWithBaseTestWithoutSpecial := TestClass(
    "org.ps4os.categorizedtestsuite.demo.suites.FullSuiteWithBaseTestWithoutSpecial",
    {"org.ps4os.categorizedtestsuite.demo.suites.FullSuiteWithBaseTestWithoutSpecial", Object},
    [TestsOfTypeName, SkipTestCategoryName, RunWithName],
    Some(CategorizedRunner), Some(BaseTest), Some([Special]))

  const Suite1WithoutNumbered := TestClass(
    "org.ps4os.categorizedtestsuite.demo.suites.Suite1WithoutNumbered",
    {"org.ps4os.categorizedtestsuite.demo.suites.Suite1WithoutNumbered", Object},
    [C1, SkipTestCategoryName, RunWithName],
    Some(CategorizedRunner), None, Some([Numbered]))

  /** C1 is the one annotation type annotated @TestCategory; the suite Suite1WithoutNumbered carries it too. */
  const DemoIndex := Index(
    {C1},
    map[C1 := [TestA, TestA2, Suite1WithoutNumbered],
        Numbered := [TestA2],
        Special := [TestB3],
        RunWithName := [FullSuiteWithBaseTest, FullSuiteWithBaseTestWithoutSpecial, Suite1WithoutNumbered]],
    [TestMethod("test", TestA), TestMethod("test", TestA2), TestMethod("test", TestB1),
     TestMethod("test", TestB2), TestMethod("test", TestB3)])

  const Demo := Statics(DemoIndex,
    {TestA, TestA2, TestB1, TestB2, TestB3,
     FullSuiteWithBaseTest, FullSuiteWithBaseTestWithoutSpecial, Suite1WithoutNumbered})

  lemma DemoIsInitialized()
    ensures Initialized(Demo) && Consistent(DemoIndex)
  {
  }

  lemma DemoClassesWellFormed()
    ensures forall c | c in Demo.allClassesWithTestAnnotations :: WellFormed(c)
  {
  }

  lemma DemoNamesIdentify()
    ensures NamesIdentify(Demo.allClassesWithTestAnnotations)
  {
  }

  /** No category annotation, @TestsOfType(BaseTest): TestB1, TestB2, TestB3. */
  lemma FullSuiteWithBaseTestSelects()
    ensures SuiteClasses(Demo, FullSuiteWithBaseTest) == {TestB1, TestB2, TestB3}
  {
  }

  /** As above with @SkipTestCategory(Special): TestB1, TestB2. */
  lemma FullSuiteWithBaseTestWithoutSpecialSelects()
    ensures SuiteClasses(Demo, FullSuiteWithBaseTestWithoutSpecial) == {TestB1, TestB2}
  {
  }

  /** Category C1 with @SkipTestCategory(Numbered): TestA, and not the suite itself. */
  lemma Suite1WithoutNumberedSelects()
    ensures SuiteClasses(Demo, Suite1WithoutNumbered) == {TestA}
  {
  }
}
