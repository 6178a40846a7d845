# Categorized test suites — a Dafny model of suite assembly

`CategorizedTestSuiteRunner` is a JUnit 4 `Suite` runner that assembles its suite from the
classpath instead of an explicit class list. For a suite class it

1. resolves the suite's *category annotation*: the first annotation on the suite class whose
   annotation type is itself annotated `@TestCategory`;
2. picks the candidates: the classes carrying that annotation, or, when the suite has none, the
   default pool `ALL_CLASSES_WITH_TEST_ANNOTATIONS` (classes declaring a `@Test` method plus
   classes annotated `@RunWith`), built once by the static initializer;
3. drops a candidate whose `@RunWith` runner is a `Suite` (nested suites, including the suite
   class itself), one that is not assignable to the suite's `@TestsOfType`, and one that carries
   an annotation listed in the suite's `@SkipTestCategory`;
4. adds the survivors to a `HashSet` and hands them to JUnit.

The model replaces reflection by data. A class (`Classes.TestClass`) records its annotation types in
the order `getAnnotations()` reports them, the set of types it is assignable to (its lineage), and
the values of `@RunWith`, `@TestsOfType` and `@SkipTestCategory`. The classpath index
(`Finder.Index`) holds the classes found per annotation type and the `@Test` methods; it also
carries the set of annotation types that are themselves annotated `@TestCategory`, which the runner
learns by reflection on each annotation type rather than from the finder. The `HashSet` the runner fills in place is the class
`Classes.ClassSet`. `SuiteClasses` is the specification of a suite's contents, and the imperative
`ScanForTestClasses` / `ProcessTests` / `AddClassIfNotRestricted` are proved against it.

Modules: `Wrappers` (Option), `Classes`, `Finder`, `CategorizedTestSuiteRunner` (the core) and
`DemoSuites` (the repository's three demo suites as example lemmas).

Facts about the code that the model keeps:
- Category resolution takes the first qualifying annotation in `getAnnotations()` order and stops
  there (`break`); a second category annotation on the same suite is ignored. The model takes that
  order as an input sequence and proves first-match resolution.
- Anti-recursion tests `Suite.isAssignableFrom` on the `@RunWith` value; the model reads it through
  the runner class's lineage.
- The runner has no step for classes that fail to load; the index holds loaded classes only.

## Model

| member | source | states |
|---|---|---|
| `CategorizedTestSuiteRunner.StaticInit` | src/main/java/org/ps4os/categorizedtestsuite/CategorizedTestSuiteRunner.java:41-56 | the default pool holds exactly the classes that declare a `@Test` method or are annotated `@RunWith`, and the finder is the given index |
| `CategorizedTestSuiteRunner.CategoryAnnotation` | src/main/java/org/ps4os/categorizedtestsuite/CategorizedTestSuiteRunner.java:91-100 | "none" exactly when no annotation of the suite has a `@TestCategory` type; otherwise the result is such an annotation of the suite |
| `CategorizedTestSuiteRunner.CategoryAnnotationIsFirst` | src/main/java/org/ps4os/categorizedtestsuite/CategorizedTestSuiteRunner.java:93-99 | the annotation resolved is the first qualifying one in declaration order, whatever qualifying annotations follow it |
| `CategorizedTestSuiteRunner.IsRestrictedTestCategory` | src/main/java/org/ps4os/categorizedtestsuite/CategorizedTestSuiteRunner.java:151-161 | true exactly when the class carries some annotation type in the skip list (so false for an empty list) |
| `CategorizedTestSuiteRunner.SuiteClasses` | src/main/java/org/ps4os/categorizedtestsuite/CategorizedTestSuiteRunner.java:102-147 | the suite is a subset of the candidates; it holds no nested suite, only classes assignable to `@TestsOfType` when present, and no class carrying a skipped annotation; every candidate passing all three restrictions is in it |
| `CategorizedTestSuiteRunner.ScanForTestClasses` | src/main/java/org/ps4os/categorizedtestsuite/CategorizedTestSuiteRunner.java:89-115 | the loop with `break` resolves the category annotation, and the classes returned are exactly `SuiteClasses` |
| `CategorizedTestSuiteRunner.ProcessTests` | src/main/java/org/ps4os/categorizedtestsuite/CategorizedTestSuiteRunner.java:117-123 | after offering every candidate, in any iteration order, the set holds its old contents plus exactly the candidates passing the restrictions |
| `CategorizedTestSuiteRunner.AddClassIfNotRestricted` | src/main/java/org/ps4os/categorizedtestsuite/CategorizedTestSuiteRunner.java:125-149 | adds exactly the offered class when it passes all three restrictions and leaves the set unchanged otherwise; never removes anything, and offering a class already present changes nothing |
| `CategorizedTestSuiteRunner.SuiteNotInOwnResult` | src/main/java/org/ps4os/categorizedtestsuite/CategorizedTestSuiteRunner.java:127-129 | a suite class run by this runner (a `Suite`) is never among its own classes, even when it carries its own category annotation |
| `CategorizedTestSuiteRunner.DefaultSuiteDrawsOnTestClasses` | src/main/java/org/ps4os/categorizedtestsuite/CategorizedTestSuiteRunner.java:110-113 | without a category annotation every selected class declares a `@Test` method or is annotated `@RunWith` |
| `CategorizedTestSuiteRunner.CategorySuiteCarriesCategory` | src/main/java/org/ps4os/categorizedtestsuite/CategorizedTestSuiteRunner.java:104-109 | with a category annotation resolved (and an index that lists only carriers), every selected class carries it |
| `CategorizedTestSuiteRunner.UnusedCategoryGivesEmptySuite` | src/main/java/org/ps4os/categorizedtestsuite/CategorizedTestSuiteRunner.java:106-108 | a category annotation no class carries yields an empty suite rather than an error |
| `CategorizedTestSuiteRunner.UnrestrictedSuiteKeepsAllButSuites` | src/main/java/org/ps4os/categorizedtestsuite/CategorizedTestSuiteRunner.java:129-147 | without `@TestsOfType` and `@SkipTestCategory` the suite is all candidates except nested suites |
| `CategorizedTestSuiteRunner.EmptySkipListRestrictsNothing` | src/main/java/org/ps4os/categorizedtestsuite/CategorizedTestSuiteRunner.java:139-142 | an empty `@SkipTestCategory` list drops no class |
| `Classes.ClassSet.Add` | src/main/java/org/ps4os/categorizedtestsuite/CategorizedTestSuiteRunner.java:146 | `HashSet.add`: the set gains the class; a class already present changes nothing |
| `Classes.ClassSet.AddAll` | src/main/java/org/ps4os/categorizedtestsuite/CategorizedTestSuiteRunner.java:106-107 | `HashSet.addAll` of a list: the set gains exactly the list's elements, duplicates collapsed |
| `DemoSuites.DemoIsInitialized` | src/main/java/org/ps4os/categorizedtestsuite/CategorizedTestSuiteRunner.java:51-56 | the demo classpath's pool is what the static initializer builds, and its index lists only carriers |
| `DemoSuites.DemoClassesWellFormed` | src/main/java/org/ps4os/categorizedtestsuite/CategorizedTestSuiteRunner.java:127-132 | every demo class carries its `@RunWith`, `@TestsOfType` and `@SkipTestCategory` values exactly when it carries those annotations, and is assignable to itself |
| `DemoSuites.DemoNamesIdentify` | src/main/java/org/ps4os/categorizedtestsuite/CategorizedTestSuiteRunner.java:102 | no two distinct demo classes share a name, as `Class` identity guarantees |
| `DemoSuites.FullSuiteWithBaseTestSelects` | src/test/java/org/ps4os/categorizedtestsuite/demo/suites/FullSuiteWithBaseTest.java:8-13 | `@TestsOfType(BaseTest)` without a category selects TestB1, TestB2, TestB3 |
| `DemoSuites.FullSuiteWithBaseTestWithoutSpecialSelects` | src/test/java/org/ps4os/categorizedtestsuite/demo/suites/FullSuiteWithBaseTestWithoutSpecial.java:10-16 | adding `@SkipTestCategory(Special)` selects TestB1, TestB2 |
| `DemoSuites.Suite1WithoutNumberedSelects` | src/test/java/org/ps4os/categorizedtestsuite/demo/suites/Suite1WithoutNumbered.java:9-15 | category `C1` with `@SkipTestCategory(Numbered)` selects TestA only, and not the suite class that carries `C1` itself |

## Left out

- The classpath scan of the static initializer (`ClassLoaders.findUrls`, `AnnotationFinder`, `ClasspathArchive`) and its `IOException` turned into a `RuntimeException`: I/O and a foreign library. Its output is the input `Finder.Index`.
- The JUnit `Suite` constructors: they only pass the computed classes to JUnit, which runs them.
- Java reflection: `getAnnotations`, `getAnnotation`, `isAnnotationPresent` and `isAssignableFrom` are read from fields of `TestClass` (including whatever inherited annotations reflection would report), not computed from class declarations.
- The reflective test `annotationType().isAnnotationPresent(TestCategory.class)` on the suite's annotation types is not computed from annotation declarations: the set of annotation types that pass it is carried as `Index.categoryKinds`.
- The order of the array returned by `toArray`: `HashSet` order is unspecified, so the suite is a set.
- The demo test classes (TestA, TestB1, BaseTest, ...) and the annotation types `C1`, `Numbered` and `Special` are not part of this model; `DemoSuites` uses stand-ins consistent with the results noted beside each demo suite.
