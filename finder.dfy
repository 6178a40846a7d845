/**
 * The classpath index the runner queries: which classes carry a given annotation, and which
 * methods are annotated @Test. Building it (the classpath scan) is outside this model; the index
 * is an input. It also carries `categoryKinds`, the annotation types that are themselves annotated
 * @TestCategory: the runner finds those by reflection on each annotation type, not through the
 * finder, and the model keeps the answer here beside the rest of the classpath facts.
 */
module Finder {
  import opened Classes

  datatype Index = Index(
    categoryKinds: set<Name>,
    annotatedClasses: map<Name, seq<TestClass>>,
    testMethods: seq<TestMethod>)

  /** `findAnnotatedClasses(kind)`: an annotation type nothing carries yields the empty list. */
  function FindAnnotatedClasses(ix: Index, kind: Name): seq<TestClass> {
    if kind in ix.annotatedClasses then ix.annotatedClasses[kind] else []
  }

  /** The index reports a class under an annotation type only when the class carries it. */
  ghost predicate Consistent(ix: Index) {
    forall kind, c | kind in ix.annotatedClasses && c in ix.annotatedClasses[kind] ::
      IsAnnotationPresent(c, kind)
  }

  /** Whether some method of the index annotated @Test is declared by `c`. */
  ghost predicate DeclaresTest(ix: Index, c: TestClass) {
    exists m | m in ix.testMethods :: m.declaringClass == c
  }
}
