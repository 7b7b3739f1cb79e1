# Bean container model

This project models `BeanContainer`, the registry of the simple IoC framework
`org.simpleframework`. The registry maps each managed class to its single
instance. It is filled once from a package scan, can also be edited by hand
(`addBean`, `removeBean`), and can be queried by annotation or by supertype.

- `reflection.dfy` (module `Reflection`) stands in for Java reflection. A class
  object is a `ClassRef` that carries its own metadata: the annotations present
  on it and the set of its proper supertypes. `isAnnotationPresent` and
  `isAssignableFrom` are predicates over that metadata. `BeanAnnotations` is the
  fixed list `Component, Controller, Service, Repository`. A Java object is an
  `Instance` that knows its runtime class, and `new Instance(c)` plays the part
  of `ClassUtil.newInstance(c, true)`.
- `bean_container.dfy` (module `Core`) holds the class `BeanContainer` with the
  fields `beanMap` and `loaded`. The source changes these fields in place, so
  `loadBeans`, `addBean` and `removeBean` are methods with `modifies this`.
  `getClassesByAnnotation` and `getClassesBySuper` build their result set in a
  loop over the key set, so they are methods too. Each is proved equal to a
  specification function (`ClassesByAnnotation`, `ClassesBySuper`), and those
  functions' contracts state what the result means. `isLoaded`, `size`,
  `getBean`, `getClasses` and `getBeans` are functions of the state.
  `IsLoaded`, `Size` and `GetClasses` return the flag, the number of entries
  and the key set unchanged, so they carry no contract of their own. What the
  size is after each operation is stated by `LoadBeans`, `AddBean` and
  `RemoveBean`.
- `scenario.dfy` (module `Scenario`) replays the container test with a sample
  application: a controller, a service interface and its implementation.
- `wrappers.dfy` gives `Option`. `None` stands for Java's `null` result.

The `loaded` flag is never reset. `LoadBeans` ensures
`loaded == (old(loaded) || |classSet| > 0)`, and `AddBean` and `RemoveBean`
ensure `loaded == old(loaded)`. So once the flag is true, it stays true.

An empty scan and a scan that finds only unannotated classes behave
differently. The empty scan returns early, and the container stays unloaded.
The other scan registers nothing but still sets `loaded`, so a later scan is
ignored.

## Model

| member | source | states |
|---|---|---|
| `Core.BeanContainer.constructor` | src/main/java/org/simpleframework/core/BeanContainer.java:41-53 | A new container has an empty bean map and is not loaded. |
| `Core.BeanContainer.LoadBeans` | src/main/java/org/simpleframework/core/BeanContainer.java:89-113 | On a loaded container it changes nothing. On an empty scan it changes nothing and the container stays unloaded. Otherwise the container becomes loaded, and the new key set is the old one plus every scanned class that carries a bean annotation. Entries of other classes are untouched, and each scanned bean class maps to a fresh instance of itself. Starting from an empty map, the size afterwards is the number of scanned classes that carry a bean annotation. |
| `Core.BeanContainer.RegisterScanned` | src/main/java/org/simpleframework/core/BeanContainer.java:102-110 | The loop over the scanned classes adds exactly the scanned bean classes as keys. It leaves other entries and `loaded` unchanged, and maps each bean class to a fresh instance of itself. |
| `Core.BeanContainer.RegisterMarked` | src/main/java/org/simpleframework/core/BeanContainer.java:103-109 | The inner loop over the four annotations adds exactly `clazz` as a key, and only when it is a bean class. It maps `clazz` to a fresh instance of `clazz`, and leaves every other entry and `loaded` unchanged. |
| `Core.ScannedBeans` | src/main/java/org/simpleframework/core/BeanContainer.java:46-47 | The classes a scan registers are the scanned classes carrying `Component`, `Controller`, `Service` or `Repository`, and no others. |
| `Core.ScannedBeansSize` | src/main/java/org/simpleframework/core/BeanContainer.java:102-110 | A scan registers at most as many classes as it found. It registers exactly that many if and only if every scanned class carries a bean annotation. |
| `Reflection.BeanClassMarkers` | src/main/java/org/simpleframework/core/BeanContainer.java:103-105 | A class passes the marker loop exactly when one of the four listed annotations is present on it. |
| `Reflection.Instance.constructor` | src/main/java/org/simpleframework/core/BeanContainer.java:107 | The constructed instance's runtime class is the class that was asked for. |
| `Core.BeanContainer.AddBean` | src/main/java/org/simpleframework/core/BeanContainer.java:123-125 | Returns the previous bean of the class, or none. Afterwards `GetBean(c)` gives the new bean and every other class maps as before. The size grows by one exactly when the class was new, and `loaded` is unchanged. |
| `Core.BeanContainer.RemoveBean` | src/main/java/org/simpleframework/core/BeanContainer.java:133-135 | Returns the bean the class had, or none. Afterwards the class is absent and every other class maps as before. The size drops by one exactly when the class was present, and `loaded` is unchanged. |
| `Core.BeanContainer.GetBean` | src/main/java/org/simpleframework/core/BeanContainer.java:142-144 | A bean is returned exactly for registered classes, and the returned bean is among `GetBeans()`. |
| `Core.BeanContainer.GetBeans` | src/main/java/org/simpleframework/core/BeanContainer.java:158-160 | The set is exactly the beans stored under the registered classes. It is never larger than the size, because duplicate instances collapse. |
| `Core.ClassesByAnnotation` | src/main/java/org/simpleframework/core/BeanContainer.java:165-181 | The result is none if and only if no registered class carries the annotation, which includes the empty map. Otherwise it is exactly the non-empty set of registered classes carrying it. |
| `Core.BeanContainer.GetClassesByAnnotation` | src/main/java/org/simpleframework/core/BeanContainer.java:165-181 | The loop over the key set returns `ClassesByAnnotation` of the current map. |
| `Core.ClassesBySuper` | src/main/java/org/simpleframework/core/BeanContainer.java:188-204 | The result is none if and only if no registered class other than the supertype is assignable to it. Otherwise it is exactly the non-empty set of registered proper subtypes, and it never contains the supertype itself. |
| `Core.BeanContainer.GetClassesBySuper` | src/main/java/org/simpleframework/core/BeanContainer.java:188-204 | The loop over the key set returns `ClassesBySuper` of the current map. |
| `Scenario.LoadBeansScenario` | src/test/java/org/simpleframework/core/BeanContainerTest.java:19-41 | The container is unloaded before the scan. After the scan it is loaded, holds 2 beans, and has exactly one class annotated `Controller`. The bean registered for the controller class is an instance of that class. A second scan leaves the size unchanged. The service interface has exactly one registered implementation. |
| `Scenario.UnannotatedScanScenario` | src/main/java/org/simpleframework/core/BeanContainer.java:96-112 | A non-empty scan with no annotated class leaves the size at 0 but marks the container as loaded. |

## Left out

- Singleton holder: `getInstance` and the enum holder are not modelled. The container is an ordinary object made by its constructor.
- Concurrency: `synchronized` on `loadBeans` and the thread safety of `ConcurrentHashMap` are not modelled. The model has single-threaded map semantics.
- Logging: the warnings emitted on a repeated load, an empty scan and an empty map are side effects with no state, and are not modelled.
- Classpath scanning: `ClassUtil.extractPackageClass` is file and jar I/O, and is not part of this model. `LoadBeans` takes the scanned class set as its argument instead of a package name.
- Construction failure: `ClassUtil.newInstance` is not part of this model. Its fatal failure path, which aborts the scan with the entries already stored and `loaded` still false, is not modelled.
- Reflection: annotations and supertypes come from the metadata carried by each `ClassRef`. Inherited annotations, meta-annotations and the closing of the supertype set under inheritance are the metadata supplier's responsibility.
- `ValidationUtil.isEmpty` is not part of this model. It is modelled as a size-zero test.
- Null: Java `null` keys and values, which `ConcurrentHashMap` rejects with an exception, are not modelled. A `null` result is `None`.
- `getClasses` returns a live view of the key set in Java. The model returns the key set as a value.
- Dependency injection: `DependencyInjector.doIoc` is not part of this model, because its source is not available. `LoadBeansScenario` only shows that the service interface has a unique registered implementation.
