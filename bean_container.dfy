/**
 * The bean container of org.simpleframework.core: a registry that maps each
 * managed class to its single instance, filled once from a package scan and
 * queried by annotation or by supertype.
 */
module Core {
  import opened Wrappers
  import opened Reflection

  /** The registry's contents: at most one instance per class. */
  type BeanMap = map<ClassRef, Instance>

  /** The classes of a package scan that the container instantiates. */
  function ScannedBeans(classSet: set<ClassRef>): (r: set<ClassRef>)
    ensures r <= classSet
    ensures forall c :: c in classSet ==>
      (c in r <==>
        (IsAnnotationPresent(c, Component) || IsAnnotationPresent(c, Controller) ||
         IsAnnotationPresent(c, Service) || IsAnnotationPresent(c, Repository)))
  {
    var r := set c | c in classSet && IsBeanClass(c);
    assert forall c :: c in classSet ==>
      (c in r <==>
        (IsAnnotationPresent(c, Component) || IsAnnotationPresent(c, Controller) ||
         IsAnnotationPresent(c, Service) || IsAnnotationPresent(c, Repository))) by {
      forall c | c in classSet {
        BeanClassMarkers(c);
      }
    }
    r
  }

  /** Scanning one more class adds it to the beans exactly when it is a bean class. */
  lemma ScannedBeansStep(done: set<ClassRef>, c: ClassRef)
    ensures ScannedBeans(done + {c}) == ScannedBeans(done) + (if IsBeanClass(c) then {c} else {})
  {
  }

  /**
   * A scan never yields more beans than classes, and yields as many exactly
   * when every scanned class carries a bean annotation.
   */
  lemma ScannedBeansSize(classSet: set<ClassRef>)
    ensures |ScannedBeans(classSet)| <= |classSet|
    ensures |ScannedBeans(classSet)| == |classSet| <==> forall c :: c in classSet ==> IsBeanClass(c)
  {
    var r := ScannedBeans(classSet);
    SubsetCardinality(r, classSet);
    if forall c :: c in classSet ==> IsBeanClass(c) {
      assert r == classSet;
    } else {
      var c :| c in classSet && !IsBeanClass(c);
      SubsetCardinality(r, classSet - {c});
    }
  }

  /**
   * What `getClassesByAnnotation(a)` returns: the registered classes that carry
   * `a`, or `None` (Java's `null`) when there is no such class, never an empty set.
   */
  function ClassesByAnnotation(m: BeanMap, a: Annotation): (r: Option<set<ClassRef>>)
    ensures r.None? <==> forall c :: c in m ==> !IsAnnotationPresent(c, a)
    ensures r.Some? ==> r.value != {}
    ensures r.Some? ==> forall c :: c in r.value <==> c in m && IsAnnotationPresent(c, a)
  {
    if |m| == 0 then None
    else
      var s := set c | c in m && IsAnnotationPresent(c, a);
      assert s == {} <==> forall c :: c in m ==> !IsAnnotationPresent(c, a) by {
        if c :| c in m && IsAnnotationPresent(c, a) {
          assert c in s;
        }
      }
      if |s| > 0 then Some(s) else None
  }

  /**
   * What `getClassesBySuper(s)` returns: the registered classes assignable to
   * `s` other than `s` itself, or `None` when there is no such class.
   */
  function ClassesBySuper(m: BeanMap, s: ClassRef): (r: Option<set<ClassRef>>)
    ensures r.None? <==> forall c :: c in m ==> !IsAssignableFrom(s, c) || c == s
    ensures r.Some? ==> r.value != {} && s !in r.value
    ensures r.Some? ==> forall c :: c in r.value <==> c in m && s in c.supertypes && c != s
  {
    if |m| == 0 then None
    else
      var r := set c | c in m && IsAssignableFrom(s, c) && c != s;
      assert r == {} <==> forall c :: c in m ==> !IsAssignableFrom(s, c) || c == s by {
        if c :| c in m && IsAssignableFrom(s, c) && c != s {
          assert c in r;
        }
      }
      if |r| > 0 then Some(r) else None
  }

  /** Registering the given classes in an empty map yields one entry per class. */
  lemma KeysDetermineSize(before: BeanMap, after: BeanMap, added: set<ClassRef>)
    requires after.Keys == before.Keys + added
    ensures before == map[] ==> |after| == |added|
  {
    if before == map[] {
      assert after.Keys == added;
    }
  }

  /** A subset is no larger than its superset. */
  lemma {:induction false} SubsetCardinality<T>(a: set<T>, b: set<T>)
    requires a <= b
    ensures |a| <= |b|
  {
    assert b == a + (b - a);
  }

  /** The container: `beanMap` and the one-shot `loaded` flag. */
  class BeanContainer {
    var beanMap: BeanMap
    var loaded: bool

    /** A new container is empty and not loaded. */
    constructor ()
      ensures beanMap == map[] && !loaded
    {
      beanMap := map[];
      loaded := false;
    }

    function IsLoaded(): bool
      reads this
    {
      loaded
    }

    function Size(): nat
      reads this
    {
      |beanMap|
    }

    function GetClasses(): set<ClassRef>
      reads this
    {
      beanMap.Keys
    }

    /** The set of all beans; two classes mapped to one instance contribute it once. */
    function GetBeans(): (r: set<Instance>)
      reads this
      ensures |r| <= Size()
      ensures r == set c | c in beanMap :: beanMap[c]
    {
      beanMap.Values
    }

    /** The bean registered for `c`, if any. */
    function GetBean(c: ClassRef): (r: Option<Instance>)
      reads this
      ensures r.Some? <==> c in GetClasses()
      ensures r.Some? ==> r.value in GetBeans()
    {
      if c in beanMap then Some(beanMap[c]) else None
    }

    /**
     * Scans once. A loaded container, or an empty scan, is left as it is;
     * otherwise every scanned class that carries a bean annotation is mapped
     * to a new instance of itself (once per annotation present, so the last
     * instance stays), and the container becomes loaded.
     */
    method LoadBeans(classSet: set<ClassRef>)
      modifies this
      ensures loaded == (old(loaded) || |classSet| > 0)
      ensures old(loaded) ==> beanMap == old(beanMap)
      ensures !old(loaded) ==> beanMap.Keys == old(beanMap).Keys + ScannedBeans(classSet)
      ensures !old(loaded) ==> forall c :: c in old(beanMap) && c !in ScannedBeans(classSet) ==>
                                 beanMap[c] == old(beanMap)[c]
      ensures !old(loaded) ==> forall c :: c in ScannedBeans(classSet) ==>
                                 fresh(beanMap[c]) && beanMap[c].runtimeClass == c
      ensures !old(loaded) && old(beanMap) == map[] ==> Size() == |ScannedBeans(classSet)|
    {
      if loaded {
        return;
      }
      if |classSet| == 0 {
        return;
      }
      RegisterScanned(classSet);
      KeysDetermineSize(old(beanMap), beanMap, ScannedBeans(classSet));
      loaded := true;
    }

    /**
     * The outer loop of the scan: for each scanned class, register it once per
     * bean annotation present on it.
     */
    method RegisterScanned(classSet: set<ClassRef>)
      modifies this
      ensures loaded == old(loaded)
      ensures beanMap.Keys == old(beanMap).Keys + ScannedBeans(classSet)
      ensures forall c :: c in old(beanMap) && c !in ScannedBeans(classSet) ==> beanMap[c] == old(beanMap)[c]
      ensures forall c :: c in ScannedBeans(classSet) ==> fresh(beanMap[c]) && beanMap[c].runtimeClass == c
    {
      var rest := classSet;
      ghost var done: set<ClassRef> := {};
      while rest != {}
        invariant rest <= classSet && done == classSet - rest
        invariant loaded == old(loaded)
        invariant beanMap.Keys == old(beanMap).Keys + ScannedBeans(done)
        invariant forall c :: c in old(beanMap) && c !in ScannedBeans(done) ==> beanMap[c] == old(beanMap)[c]
        invariant forall c :: c in ScannedBeans(done) ==> fresh(beanMap[c]) && beanMap[c].runtimeClass == c
        decreases rest
      {
        var clazz :| clazz in rest;
        RegisterMarked(clazz);
        ScannedBeansStep(done, clazz);
        rest := rest - {clazz};
        done := done + {clazz};
      }
      assert done == classSet;
    }

    /**
     * The inner loop of the scan: for each bean annotation present on `clazz`,
     * in order, map `clazz` to a new instance of itself.
     */
    method RegisterMarked(clazz: ClassRef)
      modifies this
      ensures loaded == old(loaded)
      ensures beanMap.Keys == old(beanMap).Keys + (if IsBeanClass(clazz) then {clazz} else {})
      ensures forall c :: c in old(beanMap) && (c != clazz || !IsBeanClass(clazz)) ==> beanMap[c] == old(beanMap)[c]
      ensures IsBeanClass(clazz) ==> fresh(beanMap[clazz]) && beanMap[clazz].runtimeClass == clazz
    {
      var j := 0;
      while j < |BeanAnnotations|
        invariant 0 <= j <= |BeanAnnotations|
        invariant loaded == old(loaded)
        invariant beanMap.Keys == old(beanMap).Keys + (if MarkedBy(clazz, BeanAnnotations[..j]) then {clazz} else {})
        invariant forall c :: c in old(beanMap) && (c != clazz || !MarkedBy(clazz, BeanAnnotations[..j])) ==>
                    beanMap[c] == old(beanMap)[c]
        invariant MarkedBy(clazz, BeanAnnotations[..j]) ==>
                    fresh(beanMap[clazz]) && beanMap[clazz].runtimeClass == clazz
      {
        MarkedByStep(clazz, BeanAnnotations, j);
        if IsAnnotationPresent(clazz, BeanAnnotations[j]) {
          var bean := new Instance(clazz);
          beanMap := beanMap[clazz := bean];
        }
        j := j + 1;
      }
      assert BeanAnnotations[..j] == BeanAnnotations;
    }

    /** `beanMap.put(c, bean)`: registers `bean` for `c` and returns the bean it replaces. */
    method AddBean(c: ClassRef, bean: Instance) returns (previous: Option<Instance>)
      modifies this
      ensures previous == old(GetBean(c))
      ensures beanMap == old(beanMap)[c := bean]
      ensures GetBean(c) == Some(bean)
      ensures forall k :: k != c ==> GetBean(k) == old(GetBean(k))
      ensures Size() == old(Size()) + (if previous.None? then 1 else 0)
      ensures loaded == old(loaded)
    {
      previous := GetBean(c);
      beanMap := beanMap[c := bean];
    }

    /** `beanMap.remove(c)`: unregisters `c` and returns the bean it had. */
    method RemoveBean(c: ClassRef) returns (removed: Option<Instance>)
      modifies this
      ensures removed == old(GetBean(c))
      ensures beanMap == old(beanMap) - {c}
      ensures GetBean(c) == None
      ensures forall k :: k != c ==> GetBean(k) == old(GetBean(k))
      ensures Size() == old(Size()) - (if removed.Some? then 1 else 0)
      ensures loaded == old(loaded)
    {
      removed := GetBean(c);
      beanMap := beanMap - {c};
    }

    /** Collects the registered classes that carry `annotation`, or `None` for none. */
    method GetClassesByAnnotation(annotation: Annotation) returns (r: Option<set<ClassRef>>)
      ensures r == ClassesByAnnotation(beanMap, annotation)
    {
      var keySet := GetClasses();
      if |keySet| == 0 {
        return None;
      }
      var classSet: set<ClassRef> := {};
      var rest := keySet;
      while rest != {}
        invariant rest <= keySet
        invariant classSet == set c | c in keySet - rest && IsAnnotationPresent(c, annotation)
        decreases rest
      {
        var clazz :| clazz in rest;
        if IsAnnotationPresent(clazz, annotation) {
          classSet := classSet + {clazz};
        }
        rest := rest - {clazz};
      }
      assert keySet - rest == keySet;
      r := if |classSet| > 0 then Some(classSet) else None;
    }

    /** Collects the registered proper subtypes of `interfaceOrClass`, or `None` for none. */
    method GetClassesBySuper(interfaceOrClass: ClassRef) returns (r: Option<set<ClassRef>>)
      ensures r == ClassesBySuper(beanMap, interfaceOrClass)
    {
      var keySet := GetClasses();
      if |keySet| == 0 {
        return None;
      }
      var classSet: set<ClassRef> := {};
      var rest := keySet;
      while rest != {}
        invariant rest <= keySet
        invariant classSet == set c | c in keySet - rest && IsAssignableFrom(interfaceOrClass, c) &&
                                      c != interfaceOrClass
        decreases rest
      {
        var clazz :| clazz in rest;
        if IsAssignableFrom(interfaceOrClass, clazz) && clazz != interfaceOrClass {
          classSet := classSet + {clazz};
        }
        rest := rest - {clazz};
      }
      assert keySet - rest == keySet;
      r := if |classSet| > 0 then Some(classSet) else None;
    }
  }
}
