/**
 * What the runner learns about a Java class through reflection, written out as data:
 * the annotations it carries, the types it is assignable to, and the values of the three
 * annotations the runner reads (@RunWith, @TestsOfType, @SkipTestCategory).
 */
module Classes {
  import opened Wrappers

  /** A fully qualified Java type name. */
  type Name = string

  const SuiteName: Name := "org.junit.runners.Suite"
  const RunWithName: Name := "org.junit.runner.RunWith"
  const TestsOfTypeName: Name := "org.ps4os.categorizedtestsuite.TestsOfType"
  const SkipTestCategoryName: Name := "org.ps4os.categorizedtestsuite.SkipTestCategory"

  /** The runner class named by a @RunWith annotation, with every type it is assignable to. */
  datatype Runner = Runner(name: Name, lineage: set<Name>)

  /**
   * A candidate test class or a suite class.
   * `annotations` lists the annotation types `getAnnotations()` reports, in that order;
   * `lineage` holds every type the class is assignable to (itself, its superclasses and interfaces).
   */
  datatype TestClass = TestClass(
    name: Name,
    lineage: set<Name>,
    annotations: seq<Name>,
    runWith: Option<Runner>,
    testsOfType: Option<Name>,
    skipTestCategory: Option<seq<Name>>)

  /**
   * What Java guarantees of a class: the three annotation values are present exactly when their
   * annotation type is among the class's annotations, and the class is assignable to itself.
   */
  predicate WellFormed(c: TestClass) {
    && (c.runWith.Some? <==> RunWithName in c.annotations)
    && (c.testsOfType.Some? <==> TestsOfTypeName in c.annotations)
    && (c.skipTestCategory.Some? <==> SkipTestCategoryName in c.annotations)
    && c.name in c.lineage
  }

  /** A class name identifies one class, as `Class` identity does within one class loader. */
  predicate NamesIdentify(cs: set<TestClass>) {
    forall a, b | a in cs && b in cs && a.name == b.name :: a == b
  }

  /** A method annotated @Test, known only by the class that declares it. */
  datatype TestMethod = TestMethod(name: Name, declaringClass: TestClass)

  /** `t.isAssignableFrom(c)`: `c` is `t` or a subtype of it. */
  predicate IsAssignableFrom(t: Name, c: TestClass) {
    t in c.lineage
  }

  /** `c.isAnnotationPresent(kind)`. */
  predicate IsAnnotationPresent(c: TestClass, kind: Name) {
    kind in c.annotations
  }

  /** A `java.util.HashSet<Class>`: a mutable set shared by reference. */
  class ClassSet {
    var elems: set<TestClass>

    constructor ()
      ensures elems == {}
    {
      elems := {};
    }

    /** `add`: inserts `c`; a class already present leaves the set as it was. */
    method Add(c: TestClass)
      modifies this
      ensures elems == old(elems) + {c}
      ensures c in old(elems) ==> elems == old(elems)
    {
      elems := elems + {c};
    }

    /** `addAll` of a list of classes. */
    method AddAll(cs: seq<TestClass>)
      modifies this
      ensures elems == old(elems) + (set c | c in cs)
    {
      elems := elems + (set c | c in cs);
    }
  }
}
