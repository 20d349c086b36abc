/**
 * The service registry as a value: the table of registered services, how a
 * lookup key is derived, and what each operation of the locator does to the
 * table and returns. The class in service_locator.dfy is proved against the
 * functions of this module; the lemmas at the end relate the operations.
 */
module Registry {

  /** The three failures the locator throws; each carries the key it computed. */
  datatype Error =
    | DuplicateService(name: string)
    | InexistentService(name: string)
    | TypeMismatch(name: string)

  datatype Option<+T> = None | Some(value: T)

  datatype Result<+T> = Ok(value: T) | Err(error: Error)

  /**
   * A Swift type as the registry sees it. Reference identity is type
   * identity; `name` is the text that interpolating the metatype yields,
   * and two different types may print the same text. `supertypes` are the
   * classes and protocols a value of this dynamic type can be cast to.
   */
  class ServiceType {
    const name: string
    const supertypes: set<ServiceType>

    constructor (name: string, supertypes: set<ServiceType>)
      ensures this.name == name && this.supertypes == supertypes
    {
      this.name := name;
      this.supertypes := supertypes;
    }
  }

  /** A registered service object; two services are the same service exactly when they are the same object. */
  class ServiceInstance {
    const dynamicType: ServiceType

    constructor (t: ServiceType)
      ensures dynamicType == t
    {
      dynamicType := t;
    }
  }

  /** Whether the checked downcast `value as? T` succeeds. */
  predicate Casts(v: ServiceInstance, t: ServiceType)
  {
    v.dynamicType == t || t in v.dynamicType.supertypes
  }

  /** The table of registered services, from key to the type-erased stored value. */
  type Services = map<string, ServiceInstance>

  /** The key an operation uses: the explicit name when one is passed, else the type's printed name. */
  function BuildName(t: ServiceType, name: Option<string>): (key: string)
  {
    match name
    case Some(n) => n
    case None => t.name
  }

  /** What an operation returns, together with the table it leaves behind. */
  datatype Outcome<+T> = Outcome(result: Result<T>, services: Services)

  /** `register(service:name:)` with the static type `t` of the service. */
  function RegisterIn(m: Services, service: ServiceInstance, t: ServiceType, name: Option<string>): (o: Outcome<string>)
    ensures var key := BuildName(t, name);
            && (o.result.Ok? <==> key !in m)
            && (o.result.Ok? ==>
                  && o.result.value == key
                  && o.services.Keys == m.Keys + {key}
                  && o.services[key] == service
                  && forall k :: k in m ==> o.services[k] == m[k])
            && (o.result.Err? ==> o.result.error == DuplicateService(key) && o.services == m)
  {
    var key := BuildName(t, name);
    if key in m then Outcome(Err(DuplicateService(key)), m)
    else Outcome(Ok(key), m[key := service])
  }

  /** `get(name:)` with the requested type `t`. */
  function GetIn(m: Services, t: ServiceType, name: Option<string>): (r: Result<ServiceInstance>)
    ensures var key := BuildName(t, name);
            && (r == Err(InexistentService(key)) <==> key !in m)
            && (r == Err(TypeMismatch(key)) <==> key in m && !Casts(m[key], t))
            && (r.Ok? <==> key in m && Casts(m[key], t))
            && (r.Ok? ==> r.value == m[key] && Casts(r.value, t))
  {
    var key := BuildName(t, name);
    if key !in m then Err(InexistentService(key))
    else if !Casts(m[key], t) then Err(TypeMismatch(key))
    else Ok(m[key])
  }

  /** `unregister(_:name:)`; the stored value's type is not checked. */
  function UnregisterIn(m: Services, t: ServiceType, name: Option<string>): (o: Outcome<()>)
    ensures var key := BuildName(t, name);
            && (o.result.Ok? <==> key in m)
            && (o.result.Ok? ==>
                  && o.services.Keys == m.Keys - {key}
                  && forall k :: k in o.services ==> o.services[k] == m[k])
            && (o.result.Err? ==> o.result.error == InexistentService(key) && o.services == m)
  {
    var key := BuildName(t, name);
    if key !in m then Outcome(Err(InexistentService(key)), m)
    else Outcome(Ok(()), m - {key})
  }

  /**
   * `getOrRegister(_:)` stops the process with fatalError("not exhaustive")
   * when the lookup under the type's key fails with anything but a missing
   * entry, that is, when a value of another type is stored under it.
   */
  predicate CanGetOrRegister(m: Services, t: ServiceType)
  {
    var key := BuildName(t, None);
    key in m ==> Casts(m[key], t)
  }

  /**
   * `getOrRegister(_:)`, where `made` is the instance `Service.init()`
   * would construct. The result is the service returned and the table after.
   */
  function GetOrRegisterIn(m: Services, t: ServiceType, made: ServiceInstance): (o: (ServiceInstance, Services))
    requires CanGetOrRegister(m, t)
    ensures var key := BuildName(t, None);
            && (key in m ==> o.0 == m[key] && o.1 == m)
            && (key !in m ==>
                  && o.0 == made
                  && o.1.Keys == m.Keys + {key}
                  && o.1[key] == made
                  && forall k :: k in m ==> o.1[k] == m[k])
  {
    var found := GetIn(m, t, None);
    if found.Ok? then (found.value, m)
    else
      // the precondition excludes the "not exhaustive" fatalError
      assert found.error.InexistentService?;
      var registered := RegisterIn(m, made, t, None);
      // the key was just found absent, so the "no thread safety" fatalError cannot happen
      assert registered.result.Ok?;
      (made, registered.services)
  }

  /** One call on the locator, with the instance `getOrRegister` would construct given explicitly. */
  datatype Call =
    | RegisterCall(service: ServiceInstance, t: ServiceType, name: Option<string>)
    | GetCall(t: ServiceType, name: Option<string>)
    | UnregisterCall(t: ServiceType, name: Option<string>)
    | GetOrRegisterCall(t: ServiceType, made: ServiceInstance)
    | NamesCall
    | UnregisterAllCall

  /** The keys a call may add to the table: the one key of a registering call, none for the others. */
  function AddedKeys(c: Call): set<string>
  {
    match c
    case RegisterCall(_, t, name) => {BuildName(t, name)}
    case GetOrRegisterCall(t, _) => {BuildName(t, None)}
    case _ => {}
  }

  /**
   * The table after one call, or None when the call stops the process.
   * A call adds no key but its own, and every entry it does not remove
   * keeps its service.
   */
  function Apply(m: Services, c: Call): (r: Option<Services>)
    ensures r.Some? ==> r.value.Keys <= m.Keys + AddedKeys(c)
    ensures r.Some? ==> forall k :: k in m && !Removes(c, k) ==> k in r.value && r.value[k] == m[k]
  {
    match c
    case RegisterCall(service, t, name) => Some(RegisterIn(m, service, t, name).services)
    case GetCall(_, _) => Some(m)
    case UnregisterCall(t, name) => Some(UnregisterIn(m, t, name).services)
    case GetOrRegisterCall(t, made) =>
      if CanGetOrRegister(m, t) then Some(GetOrRegisterIn(m, t, made).1) else None
    case NamesCall => Some(m)
    case UnregisterAllCall => Some(map[])
  }

  /** The table after a sequence of calls, or None when one of them stops the process. */
  function Run(m: Services, calls: seq<Call>): (r: Option<Services>)
    decreases |calls|
  {
    if calls == [] then Some(m)
    else match Apply(m, calls[0])
      case None => None
      case Some(next) => Run(next, calls[1..])
  }

  /** Whether a call can take the entry under `key` out of the table. */
  predicate Removes(c: Call, key: string)
  {
    c.UnregisterAllCall? || (c.UnregisterCall? && BuildName(c.t, c.name) == key)
  }

  // ---------------------------------------------------------------------
  // Properties of the operations
  // ---------------------------------------------------------------------

  /** The key is the explicit name whenever one is given, even the empty one; otherwise the type's printed name. */
  lemma KeyDerivation(t: ServiceType, name: Option<string>)
    ensures name.Some? ==> BuildName(t, name) == name.value
    ensures name.None? ==> BuildName(t, name) == t.name
    ensures BuildName(t, Some("")) == ""
  {
  }

  /** Registering a service and then getting it with the same type and name returns that very object. */
  lemma RegisterThenGet(m: Services, service: ServiceInstance, t: ServiceType, name: Option<string>)
    requires BuildName(t, name) !in m
    requires Casts(service, t)
    ensures GetIn(RegisterIn(m, service, t, name).services, t, name) == Ok(service)
  {
  }

  /** A second registration under the same key fails and the first service stays registered. */
  lemma RegisterTwice(m: Services, first: ServiceInstance, second: ServiceInstance, t: ServiceType, name: Option<string>)
    requires BuildName(t, name) !in m
    ensures var once := RegisterIn(m, first, t, name).services;
            var twice := RegisterIn(once, second, t, name);
            && twice == Outcome(Err(DuplicateService(BuildName(t, name))), once)
            && twice.services[BuildName(t, name)] == first
  {
  }

  /**
   * A service registered under an explicit name and requested under that
   * name as a type it cannot be cast to yields a type mismatch, never the service.
   */
  lemma TypeIsolation(m: Services, service: ServiceInstance, t: ServiceType, u: ServiceType, name: string)
    requires name !in m
    requires !Casts(service, u)
    ensures GetIn(RegisterIn(m, service, t, Some(name)).services, u, Some(name)) == Err(TypeMismatch(name))
  {
  }

  /**
   * Without a name the key is the static type used in the call, not the
   * dynamic type of the value: a service registered as `t` is not found
   * when requested as its own dynamic type, unless the two print alike.
   */
  lemma KeysFollowStaticType(m: Services, service: ServiceInstance, t: ServiceType)
    requires service.dynamicType.name !in m
    requires t.name != service.dynamicType.name
    ensures GetIn(RegisterIn(m, service, t, None).services, service.dynamicType, None)
            == Err(InexistentService(service.dynamicType.name))
  {
  }

  /** Unregistering what was just registered restores the table exactly. */
  lemma UnregisterUndoesRegister(m: Services, service: ServiceInstance, t: ServiceType, name: Option<string>)
    requires BuildName(t, name) !in m
    ensures UnregisterIn(RegisterIn(m, service, t, name).services, t, name) == Outcome(Ok(()), m)
  {
    var key := BuildName(t, name);
    assert m[key := service] - {key} == m;
  }

  /** After an unregister the service is gone: getting it fails as missing. */
  lemma UnregisterThenGet(m: Services, t: ServiceType, u: ServiceType, name: Option<string>)
    requires BuildName(t, name) == BuildName(u, name)
    ensures GetIn(UnregisterIn(m, t, name).services, u, name) == Err(InexistentService(BuildName(u, name)))
  {
  }

  /** Two `getOrRegister` calls in a row return the same instance, and the second changes nothing. */
  lemma GetOrRegisterConverges(m: Services, t: ServiceType, first: ServiceInstance, second: ServiceInstance)
    requires CanGetOrRegister(m, t)
    requires first.dynamicType == t
    ensures var (s1, m1) := GetOrRegisterIn(m, t, first);
            && CanGetOrRegister(m1, t)
            && GetOrRegisterIn(m1, t, second) == (s1, m1)
  {
  }

  /**
   * Entries are never replaced: as long as no call unregisters its key and
   * no call clears the table, a registered entry keeps its service.
   */
  lemma {:induction false} EntriesAreNeverReplaced(m: Services, calls: seq<Call>, key: string)
    requires key in m
    requires forall i :: 0 <= i < |calls| ==> !Removes(calls[i], key)
    requires Run(m, calls).Some?
    ensures key in Run(m, calls).value && Run(m, calls).value[key] == m[key]
    decreases |calls|
  {
    if calls != [] {
      var next := Apply(m, calls[0]).value;
      assert !Removes(calls[0], key);
      assert key in next && next[key] == m[key];
      assert forall i :: 0 <= i < |calls[1..]| ==> !Removes(calls[1..][i], key) by {
        forall i | 0 <= i < |calls[1..]| ensures !Removes(calls[1..][i], key) {
          assert calls[1..][i] == calls[i + 1];
        }
      }
      EntriesAreNeverReplaced(next, calls[1..], key);
    }
  }
}
