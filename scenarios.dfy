/**
 * Clients of the locator that follow the cases of ServiceLocatorTests.swift,
 * each on a fresh locator (the tests reset the shared one after every case).
 * Their assertions follow from the method contracts alone.
 */
module LocatorScenarios {
  import opened Registry
  import opened Locator

  method InitiallyEmpty()
  {
    var sut := new ServiceLocator();
    var names := sut.GetRegisteredServiceNames();
    assert names == [];
  }

  method RegisterStoresUnderTypeName()
  {
    var mockService := new ServiceType("MockService", {});
    var sut := new ServiceLocator();
    var service := new ServiceInstance(mockService);
    var key := sut.Register(service, mockService, None);
    assert key == Ok("MockService");
    var names := sut.GetRegisteredServiceNames();
    assert names[0] in sut.services;
    assert names == ["MockService"];
  }

  method GetReturnsRegisteredService()
  {
    var mockService := new ServiceType("MockService", {});
    var sut := new ServiceLocator();
    var service := new ServiceInstance(mockService);
    var _ := sut.Register(service, mockService, None);
    var located := sut.Get(mockService, None);
    assert located == Ok(service);
  }

  method UnregisterRemovesService()
  {
    var mockService := new ServiceType("MockService", {});
    var sut := new ServiceLocator();
    var service := new ServiceInstance(mockService);
    var _ := sut.Register(service, mockService, None);
    var removed := sut.Unregister(mockService, None);
    assert removed.Ok?;
    var names := sut.GetRegisteredServiceNames();
    assert names == [];
  }

  method GetOrRegisterFindsRegisteredService()
  {
    var locatable := new ServiceType("MockLocatableService", {});
    var sut := new ServiceLocator();
    var service := new ServiceInstance(locatable);
    var _ := sut.Register(service, locatable, None);
    var located := sut.GetOrRegister(locatable);
    assert located == service;
  }

  method GetOrRegisterRegistersNewService()
  {
    var locatable := new ServiceType("MockLocatableService", {});
    var sut := new ServiceLocator();
    var first := sut.GetOrRegister(locatable);
    assert sut.services == map["MockLocatableService" := first];
    var second := sut.GetOrRegister(locatable);
    assert second == first;
  }

  method RegisterDuplicateFails()
  {
    var mockService := new ServiceType("MockService", {});
    var sut := new ServiceLocator();
    var service := new ServiceInstance(mockService);
    var _ := sut.Register(service, mockService, None);
    var duplicate := new ServiceInstance(mockService);
    var again := sut.Register(duplicate, mockService, None);
    assert again == Err(DuplicateService("MockService"));
    assert sut.services["MockService"] == service;
  }

  method GetUnregisteredFails()
  {
    var mockService := new ServiceType("MockService", {});
    var sut := new ServiceLocator();
    var located := sut.Get(mockService, None);
    assert located == Err(InexistentService("MockService"));
  }

  method GetAsAnotherTypeFails()
  {
    var mockService := new ServiceType("MockService", {});
    var anotherMockService := new ServiceType("AnotherMockService", {});
    var sut := new ServiceLocator();
    var service := new ServiceInstance(mockService);
    var key := sut.Register(service, mockService, Some("Service"));
    assert key == Ok("Service");
    var located := sut.Get(anotherMockService, Some("Service"));
    assert located == Err(TypeMismatch("Service"));
  }

  /** A service registered under an explicit name, read back, mistyped, removed. */
  method NamedServiceLifecycle()
  {
    var intType := new ServiceType("Int", {});
    var stringType := new ServiceType("String", {});
    var sut := new ServiceLocator();
    var answer := new ServiceInstance(intType);
    var _ := sut.Register(answer, intType, Some("answer"));
    var asInt := sut.Get(intType, Some("answer"));
    assert asInt == Ok(answer);
    var asString := sut.Get(stringType, Some("answer"));
    assert asString == Err(TypeMismatch("answer"));
    var removed := sut.Unregister(intType, Some("answer"));
    assert removed.Ok?;
    var afterwards := sut.Get(intType, Some("answer"));
    assert afterwards == Err(InexistentService("answer"));
  }

  /** A service registered as a protocol it conforms to is found under the protocol, not its own type. */
  method RegisteredUnderProtocol()
  {
    var protocol := new ServiceType("ServiceProtocol", {});
    var implementation := new ServiceType("ServiceImplementation", {protocol});
    var sut := new ServiceLocator();
    var service := new ServiceInstance(implementation);
    var _ := sut.Register(service, protocol, None);
    var viaProtocol := sut.Get(protocol, None);
    assert viaProtocol == Ok(service);
    var viaImplementation := sut.Get(implementation, None);
    assert viaImplementation == Err(InexistentService("ServiceImplementation"));
  }
}
