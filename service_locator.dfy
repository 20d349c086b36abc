/**
 * The locator object: a mutable table of services that each method reads
 * or updates in place, proved against the functions of module Registry.
 */
module Locator {
  import opened Registry

  class ServiceLocator {
    /** The registered services by key, with their values type-erased. */
    var services: Services

    /** A locator with nothing registered. */
    constructor ()
      ensures services == map[]
    {
      services := map[];
    }

    /**
     * Registers `service` under its key. `t` is the static type the caller
     * registers it as, so the service can always be viewed as a `t`.
     */
    method Register(service: ServiceInstance, t: ServiceType, name: Option<string>) returns (r: Result<string>)
      requires Casts(service, t)
      modifies this
      ensures Outcome(r, services) == RegisterIn(old(services), service, t, name)
    {
      var key := BuildName(t, name);
      if key in services {
        return Err(DuplicateService(key));
      }
      services := services[key := service];
      return Ok(key);
    }

    /** Looks up the service under the key of `t` and `name` and checks that it is a `t`. */
    method Get(t: ServiceType, name: Option<string>) returns (r: Result<ServiceInstance>)
      ensures r == GetIn(services, t, name)
    {
      var key := BuildName(t, name);
      if key !in services {
        return Err(InexistentService(key));
      }
      var registered := services[key];
      if !Casts(registered, t) {
        return Err(TypeMismatch(key));
      }
      return Ok(registered);
    }

    /** Removes the service under the key of `t` and `name`, whatever its type. */
    method Unregister(t: ServiceType, name: Option<string>) returns (r: Result<()>)
      modifies this
      ensures Outcome(r, services) == UnregisterIn(old(services), t, name)
    {
      var key := BuildName(t, name);
      if key !in services {
        return Err(InexistentService(key));
      }
      services := services - {key};
      return Ok(());
    }

    /**
     * Returns the service registered under the name of `t`, or constructs
     * a new `t`, registers it and returns it.
     */
    method GetOrRegister(t: ServiceType) returns (r: ServiceInstance)
      requires CanGetOrRegister(services, t)
      modifies this
      ensures (r, services) == GetOrRegisterIn(old(services), t, r)
      ensures BuildName(t, None) !in old(services) ==> fresh(r) && r.dynamicType == t
    {
      var found := Get(t, None);
      if found.Ok? {
        return found.value;
      }
      // the precondition excludes the "not exhaustive" fatalError
      assert found.error.InexistentService?;
      var instance := new ServiceInstance(t);
      var registered := Register(instance, t, None);
      // the key was just found absent, so the "no thread safety" fatalError cannot happen
      assert registered.Ok?;
      return instance;
    }

    /** The keys of all registered services, each once, in no particular order. */
    method GetRegisteredServiceNames() returns (names: seq<string>)
      ensures |names| == |services.Keys|
      ensures forall k :: k in services <==> k in names
      ensures forall i, j :: 0 <= i < j < |names| ==> names[i] != names[j]
    {
      names := [];
      var rest := services.Keys;
      while rest != {}
        invariant rest <= services.Keys
        invariant forall k :: k in services ==> k in rest || k in names
        invariant forall i :: 0 <= i < |names| ==> names[i] in services && names[i] !in rest
        invariant forall i, j :: 0 <= i < j < |names| ==> names[i] != names[j]
        invariant |names| + |rest| == |services.Keys|
        decreases rest
      {
        var key :| key in rest;
        names := names + [key];
        rest := rest - {key};
      }
    }

    /** Removes every registered service. */
    method UnregisterAll()
      modifies this
      ensures services == map[]
    {
      services := map[];
    }
  }
}
