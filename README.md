# ServiceLocator registry in Dafny

This project models `ServiceLocator`, the service registry of the iOS sample
"DependencyInjectionAndServiceLocators". The registry keeps one mutable table,
`services`, that maps a key to a stored service whose type has been erased. It
offers six operations:

- `register` adds a service and rejects a duplicate key.
- `get` looks up a service and checks its type with a downcast on the way out.
- `unregister` removes a service without checking its type.
- `getOrRegister` finds a service or constructs, stores and returns a default instance.
- `getRegisteredServiceNames` lists the keys.
- `unregisterAll` clears the table.

Every operation derives its key the same way. It uses the explicit name if one
is passed, otherwise the printed name of the type parameter. Failures are one
of `duplicateService`, `inexistentService` and `typeMismatch`, and each carries
the key.

Files:

- `registry.dfy` (module `Registry`) defines the values the registry works with:
  - the error and result types;
  - `ServiceType`, which stands for a Swift metatype. Reference identity is type identity, `name` is the printed name, and `supertypes` lists the classes and protocols its values can be cast to;
  - `ServiceInstance`, a stored service object with its dynamic type;
  - `Casts`, which stands for `as? T`;
  - `BuildName`;
  - one function per operation, giving the result and the table afterwards;
  - a trace semantics (`Call`, `Apply`, `Run`) and lemmas that relate the operations.
- `service_locator.dfy` (module `Locator`) has the class `ServiceLocator`. Its field `services: map<string, ServiceInstance>` is updated in place by methods proved against the `Registry` functions. `GetRegisteredServiceNames` walks the key set in a loop.
- `scenarios.dfy` (module `LocatorScenarios`) has client methods that repeat the cases of `ServiceLocatorTests.swift`. Their assertions follow from the method contracts alone. Five of them differ from the Swift tests:
  - `RegisterDuplicateFails` also asserts that the first service is still stored under the key. The Swift test only checks the error.
  - `GetAsAnotherTypeFails` also asserts that the registration returns the key `"Service"`. The Swift test discards that result.
  - `GetOrRegisterRegistersNewService` asserts more than the Swift test, which only checks that the result is not nil. It asserts the table afterwards and that a second call returns the same instance.
  - `NamedServiceLifecycle` has no counterpart in the tests. It registers, reads back, mistypes and removes a service under the explicit name `"answer"`.
  - `RegisteredUnderProtocol` has no counterpart in the tests. It shows that a service registered as a protocol is found under the protocol's name and not under its own type's name.

The key is the explicit name whenever one is passed, even the empty string.
`buildName` uses `??` and does not check that the name is non-empty.

## Model

| member | source | states |
|---|---|---|
| Registry.KeyDerivation | DependencyInjectionAndServiceLocators/DependencyInjectionAndServiceLocators/ServiceLocator.swift:108-113 | the key is the explicit name whenever one is given, the empty name included; without a name it is the type's printed name |
| Registry.KeysFollowStaticType | DependencyInjectionAndServiceLocators/DependencyInjectionAndServiceLocators/ServiceLocator.swift:38-43 | without a name the key comes from the static type of the call, not the dynamic type of the value: a service registered as a protocol is not found under its own type |
| Registry.RegisterIn | DependencyInjectionAndServiceLocators/DependencyInjectionAndServiceLocators/ServiceLocator.swift:33-46 | succeeds exactly when the key is absent; then it returns the key, adds exactly that entry holding the service and keeps every other entry; otherwise it fails with duplicateService(key) and leaves the table unchanged |
| Registry.GetIn | DependencyInjectionAndServiceLocators/DependencyInjectionAndServiceLocators/ServiceLocator.swift:48-61 | inexistentService(key) exactly when the key is absent; typeMismatch(key) exactly when the stored value cannot be cast to the requested type; otherwise the stored object itself, which casts to that type |
| Registry.UnregisterIn | DependencyInjectionAndServiceLocators/DependencyInjectionAndServiceLocators/ServiceLocator.swift:63-74 | succeeds exactly when the key is present, whatever the stored type; then it removes that key only; otherwise it fails with inexistentService(key) and leaves the table unchanged |
| Registry.GetOrRegisterIn | DependencyInjectionAndServiceLocators/DependencyInjectionAndServiceLocators/ServiceLocator.swift:78-96 | with a compatible entry under the type's key it returns that entry and changes nothing; with none it stores the new instance under the type's key, keeps every other entry and returns the instance; the inner registration cannot fail |
| Registry.Apply | DependencyInjectionAndServiceLocators/DependencyInjectionAndServiceLocators/ServiceLocator.swift:33-104 | frame of one call: a call that does not stop the process adds no key but the one it registers under, and every entry it does not remove (by unregistering that key or clearing the table) keeps its service |
| Registry.RegisterThenGet | DependencyInjectionAndServiceLocators/DependencyInjectionAndServiceLocatorsTests/ServiceLocatorTests.swift:34-41 | register followed by get with the same type and name returns the very same object |
| Registry.RegisterTwice | DependencyInjectionAndServiceLocators/DependencyInjectionAndServiceLocators/ServiceLocator.swift:40-41 | a second registration under the same key fails with duplicateService(key), leaves the table as it was and keeps the first service |
| Registry.TypeIsolation | DependencyInjectionAndServiceLocators/DependencyInjectionAndServiceLocators/ServiceLocator.swift:57-58 | a service requested under its name as a type it cannot be cast to yields typeMismatch(name), never the service |
| Registry.UnregisterUndoesRegister | DependencyInjectionAndServiceLocators/DependencyInjectionAndServiceLocators/ServiceLocator.swift:63-74 | unregistering what was just registered under an absent key succeeds and restores the table exactly |
| Registry.UnregisterThenGet | DependencyInjectionAndServiceLocators/DependencyInjectionAndServiceLocators/ServiceLocator.swift:70-73 | after unregister, a get under the same key fails with inexistentService(key) |
| Registry.GetOrRegisterConverges | DependencyInjectionAndServiceLocators/DependencyInjectionAndServiceLocators/ServiceLocator.swift:78-96 | two getOrRegister calls in a row return the same instance, and the second leaves the table unchanged |
| Registry.EntriesAreNeverReplaced | DependencyInjectionAndServiceLocators/DependencyInjectionAndServiceLocators/ServiceLocator.swift:40-43 | across any run of calls that neither unregisters a key nor clears the table, the entry under that key keeps its service: entries are never overwritten |
| Locator.ServiceLocator.constructor | DependencyInjectionAndServiceLocators/DependencyInjectionAndServiceLocators/ServiceLocator.swift:28 | a new locator has an empty table |
| Locator.ServiceLocator.Register | DependencyInjectionAndServiceLocators/DependencyInjectionAndServiceLocators/ServiceLocator.swift:33-46 | the result and the new table are those of RegisterIn on the old table |
| Locator.ServiceLocator.Get | DependencyInjectionAndServiceLocators/DependencyInjectionAndServiceLocators/ServiceLocator.swift:48-61 | the result is that of GetIn on the table, and the table is not modified |
| Locator.ServiceLocator.Unregister | DependencyInjectionAndServiceLocators/DependencyInjectionAndServiceLocators/ServiceLocator.swift:63-74 | the result and the new table are those of UnregisterIn on the old table |
| Locator.ServiceLocator.GetOrRegister | DependencyInjectionAndServiceLocators/DependencyInjectionAndServiceLocators/ServiceLocator.swift:78-96 | the returned service and the new table are those of GetOrRegisterIn; a service it constructs is a new object of the requested type |
| Locator.ServiceLocator.GetRegisteredServiceNames | DependencyInjectionAndServiceLocators/DependencyInjectionAndServiceLocators/ServiceLocator.swift:98-100 | the names are exactly the table's keys, each listed once |
| Locator.ServiceLocator.UnregisterAll | DependencyInjectionAndServiceLocators/DependencyInjectionAndServiceLocators/ServiceLocator.swift:102-104 | the table is empty afterwards |

## Left out

- Unicode canonical equivalence of keys. Swift compares and hashes `String` keys by canonical equivalence, so `"\u{E9}"` and `"e\u{301}"` are one key in the Swift dictionary. The model's keys are `string` values compared code point by code point, so names that differ only in Unicode normalisation are distinct keys here. For example, registering under one of them and then under the other succeeds twice in the model. In Swift, the second registration throws duplicateService.
- Concurrency. The locator has no lock, and the model covers sequential calls only. The race in which the inner `register` of `getOrRegister` fails ("no thread safety") needs a concurrent caller. Sequentially, it is proved unreachable.
- Locator.ServiceLocator.GetOrRegister: the `fatalError("not exhaustive")` path is a precondition (`CanGetOrRegister`). The precondition says no value of an incompatible type is stored under the type's key. The model does not represent the process crash itself, except that `Apply` reports such a call as stopping the process.
- Locator.ServiceLocator.Register: it requires that the service can be cast to the static type it is registered as. Swift's typing of `service: Service` guarantees this, and the model does not encode generics.
- Swift runtime reflection. The printed name `"\(Service.self)"` is the `name` field of a `ServiceType`, and the model does not assume that distinct types print distinct names. The downcast `as? Service` is `Casts`, a dynamic-type-or-listed-supertype relation. Generics, protocol conformance rules and casts of value types (bridging, optionals) are not modelled.
- Stored values are objects, and their identity stands for the UUID-based equality of the test mocks. Swift value types such as `Int`, which `Any` can also hold, are represented as objects too.
- The process-wide `static let shared` singleton. The model constructs locators explicitly.
- The order of `getRegisteredServiceNames`. Swift's dictionary order is unspecified, and the model picks keys in an arbitrary order.
- The `Serviceable` protocol's `init()`. `getOrRegister` constructs a `ServiceInstance` of the requested type and does not model any user initialiser.
- Service.swift, ViewModel.swift, SomeViewClass.swift, DependencyInjectionAndServiceLocatorsApp.swift, the mocks and the other test files are not part of this model. They are UI glue, a boolean toggle and test doubles.
