/**
 * The sample application the container's tests scan: a controller, a service
 * interface and its one implementation.
 */
module Scenario {
  import opened Wrappers
  import opened Reflection
  import opened Core

  const MainService := ClassRef("com.chuan.service.MainService", {}, {})
  const MainServiceImpl := ClassRef("com.chuan.service.impl.MainServiceImpl", {Service}, {MainService})
  const MainPageController := ClassRef("com.chuan.controller.MainPageController", {Controller}, {})

  /**
   * The ordered test of the container: not loaded at first, two beans and
   * loaded after scanning, one class annotated Controller, and a second scan
   * that changes nothing. The bean registered for the controller class is an
   * instance of that class. The service interface has exactly one registered
   * implementation, the one a by-type injection of it would pick.
   */
  method LoadBeansScenario() returns (loadedBefore: bool, size: nat, loadedAfter: bool,
                                      controllers: Option<set<ClassRef>>, sizeAgain: nat,
                                      implementations: Option<set<ClassRef>>, bean: Option<Instance>)
    ensures !loadedBefore && size == 2 && loadedAfter
    ensures controllers.Some? && |controllers.value| == 1
    ensures sizeAgain == size
    ensures implementations == Some({MainServiceImpl})
    ensures bean.Some? && bean.value.runtimeClass == MainPageController
  {
    var container := new BeanContainer();
    loadedBefore := container.IsLoaded();
    var scan := {MainPageController, MainService, MainServiceImpl};
    BeanClassMarkers(MainPageController);
    BeanClassMarkers(MainService);
    BeanClassMarkers(MainServiceImpl);
    assert ScannedBeans(scan) == {MainPageController, MainServiceImpl};
    container.LoadBeans(scan);
    size := container.Size();
    loadedAfter := container.IsLoaded();
    controllers := container.GetClassesByAnnotation(Controller);
    assert controllers.value == {MainPageController};
    container.LoadBeans(scan);
    sizeAgain := container.Size();
    implementations := container.GetClassesBySuper(MainService);
    assert implementations.value == {MainServiceImpl};
    bean := container.GetBean(MainPageController);
  }

  /**
   * A scan that finds classes but none with a bean annotation registers
   * nothing, yet still marks the container as loaded.
   */
  method UnannotatedScanScenario() returns (size: nat, loaded: bool)
    ensures size == 0 && loaded
  {
    var container := new BeanContainer();
    BeanClassMarkers(MainService);
    assert ScannedBeans({MainService}) == {};
    container.LoadBeans({MainService});
    size := container.Size();
    loaded := container.IsLoaded();
  }
}
