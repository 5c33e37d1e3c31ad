/**
 * The service registry of `request_handler`: named live services behind
 * one websocket transport, the identifiers that address them, and the
 * `http_server` that forwards to it.
 */
module Registry {
  import opened Wrappers
  import opened Subscribers
  import opened Protocol
  import opened LiveServices

  /** `websocket_identifier`: the name of one registered live service. */
  datatype WebsocketIdentifier = WebsocketIdentifier(name: string)

  /** `http_server_init_t`: the identifier and whether `init` created it. */
  datatype InitResult = InitResult(key: WebsocketIdentifier, success: bool)

  /** The exceptions the registry lets escape. */
  datatype RegistryError =
    | AlreadyExists(name: string)  // runtime_error from unique_init
    | OutOfRange(name: string)     // std::out_of_range from map::at

  /** The calls the registry makes on the websocket transport. */
  datatype TransportCall = RegisterService(name: string) | ShutdownService(name: string)

  /** Every service `init` creates signals readiness with this field. */
  const DefaultReadySignal: string := "ready"

  /** The registry as a value: each name with its live service's state. */
  type Services = map<string, Channel>

  /** The registry after `init(name)`: `try_emplace` adds a fresh empty
      service under a new name and leaves an existing one alone. */
  function Initialized(s: Services, name: string): (r: Services)
    ensures r.Keys == s.Keys + {name}
    ensures name !in s ==> r[name] == Channel(map[], [])
    ensures forall n :: n in s ==> r[n] == s[n]
  {
    if name in s then s else s[name := Channel(map[], [])]
  }

  /** What `init(name)` returns: the identifier of `name`, and whether the
      name was new. */
  function InitOf(s: Services, name: string): (r: InitResult)
    ensures r.key.name == name
    ensures r.success <==> name !in s
  {
    InitResult(WebsocketIdentifier(name), name !in s)
  }

  /** What `unique_init(name)` returns: the identifier of a new name, or
      the duplicate-name error. */
  function UniqueInitOf(s: Services, name: string): (r: Result<WebsocketIdentifier, RegistryError>)
    ensures r.Ok? <==> name !in s
    ensures r.Ok? ==> r.value.name == name
    ensures r.Err? ==> r.error == AlreadyExists(name)
  {
    var init := InitOf(s, name);
    if init.success then Ok(init.key) else Err(AlreadyExists(name))
  }

  /** The registry after `uninit(key)`: `erase` removes that name, if it
      is there, and nothing else. */
  function Uninitialized(s: Services, key: WebsocketIdentifier): (r: Services)
    ensures r.Keys == s.Keys - {key.name}
    ensures forall n :: n in r ==> r[n] == s[n]
  {
    s - {key.name}
  }

  /** `send(key, data)`: the named service's `send`, or the exception of
      `at` when the name is not registered. */
  ghost function Sent(s: Services, key: WebsocketIdentifier, data: Frame): (r: Result<Services, RegistryError>)
    ensures r.Err? <==> key.name !in s
    ensures r.Err? ==> r.error == OutOfRange(key.name)
    ensures r.Ok? ==> r.value.Keys == s.Keys
    ensures r.Ok? ==> r.value[key.name] == Step(s[key.name], Send(data))
    ensures r.Ok? ==> forall n :: n in s && n != key.name ==> r.value[n] == s[n]
  {
    if key.name in s then Ok(s[key.name := Step(s[key.name], Send(data))])
    else Err(OutOfRange(key.name))
  }

  /** `init` twice under one name: the first creates, the second finds it,
      changes nothing and returns the same identifier, so sending through
      either identifier reaches the same service. */
  lemma InitTwice(s: Services, name: string)
    requires name !in s
    ensures InitOf(s, name).success
    ensures !InitOf(Initialized(s, name), name).success
    ensures Initialized(Initialized(s, name), name) == Initialized(s, name)
    ensures InitOf(s, name).key == InitOf(Initialized(s, name), name).key
  {
  }

  /** `unique_init` of a name in use fails; once `uninit` has removed it,
      `unique_init` of the same name succeeds again. */
  lemma UniqueInitAfterUninit(s: Services, name: string)
    requires name in s
    ensures UniqueInitOf(s, name) == Err(AlreadyExists(name))
    ensures UniqueInitOf(Uninitialized(s, WebsocketIdentifier(name)), name)
         == Ok(WebsocketIdentifier(name))
  {
  }

  /** The `key` of `init`'s result addresses the service registered under
      the name, whether `success` is set or not: `send` through it reaches
      that service and no other, and `uninit` through it removes that one. */
  lemma InitKeyAddressesService(s: Services, name: string, data: Frame)
    ensures var t := Initialized(s, name);
            var key := InitOf(s, name).key;
            Sent(t, key, data) == Ok(t[name := Step(t[name], Send(data))])
            && Uninitialized(t, key) == t - {name}
  {
  }

  /** `request_handler`, restricted to its registry of live services. */
  class RequestHandler {
    /** `websocket_services_`. */
    var services: map<string, LiveService>
    /** The `register_service` and `shutdown_service` calls made so far. */
    ghost var transport: seq<TransportCall>

    /** Every service was created by `init`, and no two names share one. */
    ghost predicate Valid()
      reads this
    {
      && (forall n :: n in services ==> services[n].readySignal == DefaultReadySignal)
      && (forall n, m :: n in services && m in services && n != m ==> services[n] != services[m])
    }

    ghost function Services(): Services
      reads this, services.Values
    {
      map n | n in services :: services[n].State()
    }

    constructor ()
      ensures Valid()
      ensures Services() == map[] && transport == []
    {
      services := map[];
      transport := [];
    }

    /** `init`: look up or create the service named `name`; only a new
        service, a fresh object, is registered with the transport. */
    method Init(name: string) returns (r: InitResult)
      requires Valid()
      modifies this
      ensures Valid()
      ensures r == InitOf(old(Services()), name)
      ensures Services() == Initialized(old(Services()), name)
      ensures transport == old(transport) + if r.success then [RegisterService(name)] else []
      ensures forall n :: n in old(services) ==> n in services && services[n] == old(services[n])
      ensures r.success ==> fresh(services[name])
    {
      if name in services {
        return InitResult(WebsocketIdentifier(name), false);
      }
      ghost var before := Services();
      var service := new LiveService(DefaultReadySignal);
      services := services[name := service];
      transport := transport + [RegisterService(name)];
      r := InitResult(WebsocketIdentifier(name), true);
      assert Services() == before[name := Channel(map[], [])] by {
        forall n | n in services && n != name
          ensures services[n].State() == before[n]
        {
          assert services[n] == old(services[n]);
        }
      }
    }

    /** `unique_init`: `init`, failing when the name was already taken. */
    method UniqueInit(name: string) returns (r: Result<WebsocketIdentifier, RegistryError>)
      requires Valid()
      modifies this
      ensures Valid()
      ensures r == UniqueInitOf(old(Services()), name)
      ensures Services() == Initialized(old(Services()), name)
      ensures transport == old(transport) + if r.Ok? then [RegisterService(name)] else []
      ensures forall n :: n in old(services) ==> n in services && services[n] == old(services[n])
      ensures r.Ok? ==> fresh(services[name])
    {
      var init := Init(name);
      if init.success {
        return Ok(init.key);
      }
      return Err(AlreadyExists(name));
    }

    /** `uninit`: shut the service down on the transport and erase it. */
    method Uninit(key: WebsocketIdentifier)
      requires Valid()
      modifies this
      ensures Valid()
      ensures services == old(services) - {key.name}
      ensures Services() == Uninitialized(old(Services()), key)
      ensures transport == old(transport) + [ShutdownService(key.name)]
    {
      transport := transport + [ShutdownService(key.name)];
      services := services - {key.name};
    }

    /** `send`: forward the frame to the named service; an unknown name
        fails as `at` does instead of being ignored. */
    method Send(key: WebsocketIdentifier, data: Frame) returns (r: Outcome<RegistryError>)
      requires Valid()
      modifies if key.name in services then {services[key.name]} else {}
      ensures Valid()
      ensures services == old(services)
      ensures r.Pass? <==> key.name in old(services)
      ensures r.Pass? ==> Sent(old(Services()), key, data) == Ok(Services())
      ensures r.Fail? ==> Sent(old(Services()), key, data) == Err(r.error)
      ensures r.Fail? ==> Services() == old(Services())
      ensures transport == old(transport)
    {
      if key.name !in services {
        return Fail(OutOfRange(key.name));
      }
      ghost var before := Services();
      var service := services[key.name];
      service.Send(data);
      r := Pass;
      forall n | n in services && n != key.name
        ensures Services()[n] == before[n]
      {
        assert services[n] != service;
      }
      assert Services() == before[key.name := Step(before[key.name], Event.Send(data))];
    }
  }

  /** `http_server`: owns a request handler and forwards to it. */
  class HttpServer {
    const handler: RequestHandler

    ghost predicate Valid()
      reads this, handler
    {
      handler.Valid()
    }

    constructor ()
      ensures Valid() && fresh(handler)
      ensures handler.Services() == map[] && handler.transport == []
    {
      handler := new RequestHandler();
    }

    method Init(name: string) returns (r: InitResult)
      requires Valid()
      modifies handler
      ensures Valid()
      ensures r == InitOf(old(handler.Services()), name)
      ensures handler.Services() == Initialized(old(handler.Services()), name)
      ensures handler.transport == old(handler.transport) + if r.success then [RegisterService(name)] else []
      ensures forall n :: n in old(handler.services) ==> n in handler.services && handler.services[n] == old(handler.services[n])
      ensures r.success ==> fresh(handler.services[name])
    {
      r := handler.Init(name);
    }

    method UniqueInit(name: string) returns (r: Result<WebsocketIdentifier, RegistryError>)
      requires Valid()
      modifies handler
      ensures Valid()
      ensures r == UniqueInitOf(old(handler.Services()), name)
      ensures handler.Services() == Initialized(old(handler.Services()), name)
      ensures handler.transport == old(handler.transport) + if r.Ok? then [RegisterService(name)] else []
      ensures forall n :: n in old(handler.services) ==> n in handler.services && handler.services[n] == old(handler.services[n])
      ensures r.Ok? ==> fresh(handler.services[name])
    {
      r := handler.UniqueInit(name);
    }

    method Uninit(key: WebsocketIdentifier)
      requires Valid()
      modifies handler
      ensures Valid()
      ensures handler.services == old(handler.services) - {key.name}
      ensures handler.Services() == Uninitialized(old(handler.Services()), key)
      ensures handler.transport == old(handler.transport) + [ShutdownService(key.name)]
    {
      handler.Uninit(key);
    }

    method Send(key: WebsocketIdentifier, data: Frame) returns (r: Outcome<RegistryError>)
      requires Valid()
      modifies if key.name in handler.services then {handler.services[key.name]} else {}
      ensures Valid()
      ensures handler.services == old(handler.services)
      ensures r.Pass? <==> key.name in old(handler.services)
      ensures r.Pass? ==> Sent(old(handler.Services()), key, data) == Ok(handler.Services())
      ensures r.Fail? ==> Sent(old(handler.Services()), key, data) == Err(r.error)
      ensures r.Fail? ==> handler.Services() == old(handler.Services())
    {
      r := handler.Send(key, data);
    }
  }
}
