/**
 * The part of Java reflection the bean container relies on, replaced by a
 * capability table: each class descriptor carries the annotations present on
 * it and the set of its proper supertypes (classes and interfaces).
 */
module Reflection {

  /** An annotation type, identified by its fully qualified name. */
  datatype Annotation = Annotation(name: string)

  const Component := Annotation("org.simpleframework.annotation.Component")
  const Controller := Annotation("org.simpleframework.annotation.Controller")
  const Service := Annotation("org.simpleframework.annotation.Service")
  const Repository := Annotation("org.simpleframework.annotation.Repository")

  /** The marker annotations that make a class a bean, in the order they are tried. */
  const BeanAnnotations: seq<Annotation> := [Component, Controller, Service, Repository]

  /**
   * A class object. `supertypes` holds every class and interface the class
   * extends or implements, directly or indirectly, and never the class itself.
   */
  datatype ClassRef = ClassRef(name: string, annotations: set<Annotation>, supertypes: set<ClassRef>)

  /** `c.isAnnotationPresent(a)` */
  predicate IsAnnotationPresent(c: ClassRef, a: Annotation) {
    a in c.annotations
  }

  /** `sup.isAssignableFrom(sub)`: a value of class `sub` may be stored in a variable of type `sup`. */
  predicate IsAssignableFrom(sup: ClassRef, sub: ClassRef) {
    sub == sup || sup in sub.supertypes
  }

  /** Some annotation of `markers` is present on `c`. */
  predicate MarkedBy(c: ClassRef, markers: seq<Annotation>) {
    exists k :: 0 <= k < |markers| && IsAnnotationPresent(c, markers[k])
  }

  /** The container manages `c`: one of the four bean annotations is present on it. */
  predicate IsBeanClass(c: ClassRef) {
    MarkedBy(c, BeanAnnotations)
  }

  /** Extending the list of markers by one adds exactly that marker's test. */
  lemma MarkedByStep(c: ClassRef, markers: seq<Annotation>, j: nat)
    requires j < |markers|
    ensures MarkedBy(c, markers[..j + 1]) <==> MarkedBy(c, markers[..j]) || IsAnnotationPresent(c, markers[j])
  {
  }

  /** A bean class is exactly one that carries Component, Controller, Service or Repository. */
  lemma BeanClassMarkers(c: ClassRef)
    ensures IsBeanClass(c) <==>
              (IsAnnotationPresent(c, Component) || IsAnnotationPresent(c, Controller) ||
               IsAnnotationPresent(c, Service) || IsAnnotationPresent(c, Repository))
  {
    if IsAnnotationPresent(c, Component) { assert IsAnnotationPresent(c, BeanAnnotations[0]); }
    if IsAnnotationPresent(c, Controller) { assert IsAnnotationPresent(c, BeanAnnotations[1]); }
    if IsAnnotationPresent(c, Service) { assert IsAnnotationPresent(c, BeanAnnotations[2]); }
    if IsAnnotationPresent(c, Repository) { assert IsAnnotationPresent(c, BeanAnnotations[3]); }
  }

  /** A Java object; the container only ever observes its identity and its runtime class. */
  class Instance {
    const runtimeClass: ClassRef

    /** `ClassUtil.newInstance(c, true)`: a new object of class `c`. */
    constructor (c: ClassRef)
      ensures runtimeClass == c
    {
      runtimeClass := c;
    }
  }
}
