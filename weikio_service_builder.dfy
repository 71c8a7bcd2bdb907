/** The two service builders: the fluent `WeikioServiceBuilder`, whose setters
    overwrite and whose `WithEndpoint` calls accumulate, and the
    attribute-driven `WeikioServiceBuilder<T>`, modelled over what reflection
    reports of `T` (its `ServiceAttribute` and its public methods). */
module ServiceBuilders {
  import opened Common
  import opened Endpoints
  import opened Services

  /** The text of the `ArgumentException` for a type without `ServiceAttribute`. */
  const MISSING_SERVICE_ATTRIBUTE: string := "Service must contain ServiceAttribute attribute"

  /** The factories `Build` adds for explicitly registered endpoints, one per
      endpoint, in registration order. */
  function ConstantFactories(es: seq<Endpoint>): seq<EndpointFactory> {
    seq(|es|, i requires 0 <= i < |es| => Constant(es[i]))
  }

  /** Invoking the factories of an explicitly built service gives back exactly
      the registered endpoints, in `WithEndpoint` order, whatever the provider. */
  lemma ConstantFactoriesInvoke(es: seq<Endpoint>, provider: Provider)
    ensures InvokeAll(ConstantFactories(es), provider) == Success(es)
  {
    var fs := ConstantFactories(es);
    forall i | 0 <= i < |fs| ensures Invoke(fs[i], provider).Success? {
    }
    var r := InvokeAll(fs, provider);
    assert r.Success?;
    assert r.value == es;
  }

  class WeikioServiceBuilder {
    var description: Option<string>
    var name: string
    var version: string
    var metadata: Option<Dict>
    var endpoints: seq<Endpoint>
    var configureBuilder: Option<Hook>
    var configureServices: Option<Hook>

    /** The private constructor: only name and version are set. */
    constructor (name: string, version: string)
      ensures this.name == name && this.version == version
      ensures description == None && metadata == None && endpoints == []
      ensures configureBuilder == None && configureServices == None
    {
      this.name := name;
      this.version := version;
      description := None;
      metadata := None;
      endpoints := [];
      configureBuilder := None;
      configureServices := None;
    }

    /** `WeikioServiceBuilder.Create(name, version)`. */
    static method Create(name: string, version: string) returns (b: WeikioServiceBuilder)
      ensures fresh(b)
      ensures b.name == name && b.version == version
      ensures b.description == None && b.metadata == None && b.endpoints == []
      ensures b.configureBuilder == None && b.configureServices == None
    {
      b := new WeikioServiceBuilder(name, version);
    }

    /** `WeikioServiceBuilder.Create<T>()`. */
    static method CreateFor(serviceType: ServiceType) returns (b: TypedServiceBuilder)
      ensures fresh(b)
      ensures b.serviceType == serviceType
      ensures b.configureBuilder == None && b.configureServices == None
    {
      b := new TypedServiceBuilder(serviceType);
    }

    method WithDescription(description: Option<string>) returns (self: WeikioServiceBuilder)
      modifies this`description
      ensures self == this && this.description == description
    {
      this.description := description;
      self := this;
    }

    /** `WithEndpoint(name, Action<EndpointMessage>, metadata)`: wraps the action
        and delegates to the `Func` overload with the same name and metadata. */
    method WithActionEndpoint(name: string, action: nat, metadata: Option<Dict> := None)
      returns (self: WeikioServiceBuilder)
      modifies this`endpoints
      ensures self == this
      ensures endpoints == old(endpoints) + [Endpoint(name, SyncAdapter(action), metadata, UNBOUNDED)]
    {
      var _ := WithEndpoint(name, SyncAdapter(action), metadata);
      self := this;
    }

    /** `WithEndpoint(name, Func<EndpointMessage, Task>, metadata)`: the endpoint
        gets the record's default, unbounded parallelism. */
    method WithEndpoint(name: string, handler: Handler, metadata: Option<Dict> := None)
      returns (self: WeikioServiceBuilder)
      modifies this`endpoints
      ensures self == this
      ensures endpoints == old(endpoints) + [Endpoint(name, handler, metadata, UNBOUNDED)]
    {
      var endpoint := Endpoint(name, handler, metadata);
      endpoints := endpoints + [endpoint];
      self := this;
    }

    method WithMetadata(metadata: Option<Dict>) returns (self: WeikioServiceBuilder)
      modifies this`metadata
      ensures self == this && this.metadata == metadata
    {
      this.metadata := metadata;
      self := this;
    }

    method Configure(builder: Option<Hook>) returns (self: WeikioServiceBuilder)
      modifies this`configureBuilder
      ensures self == this && configureBuilder == builder
    {
      configureBuilder := builder;
      self := this;
    }

    method Deps(services: Option<Hook>) returns (self: WeikioServiceBuilder)
      modifies this`configureServices
      ensures self == this && configureServices == services
    {
      configureServices := services;
      self := this;
    }

    /** A new service carrying the builder's current values, with no service
        type, and one constant factory per registered endpoint, in order. The
        builder itself is left as it was, so every call yields a new service
        with the same content. */
    method Build() returns (s: WeikioService)
      ensures fresh(s)
      ensures s.name == name && s.version == version && s.description == description
      ensures s.metadata == metadata.GetOr(map[])
      ensures s.serviceType == None
      ensures s.configureBuilder == configureBuilder && s.configureServices == configureServices
      ensures s.endpoints == ConstantFactories(endpoints)
    {
      s := new WeikioService(name, version, description, metadata, None, configureBuilder,
                             configureServices);
      var i := 0;
      while i < |endpoints|
        invariant 0 <= i <= |endpoints|
        invariant s.endpoints == ConstantFactories(endpoints[..i])
      {
        s.AddEndpoint(endpoints[i]);
        i := i + 1;
      }
      assert endpoints[..i] == endpoints;
    }
  }

  /** The factory the attribute-driven builder adds for one method: one when the
      method carries `EndpointAttribute`, none otherwise. */
  function MethodFactories(typeName: string, m: MethodInfo): seq<EndpointFactory> {
    match m.endpointAttribute
    case None => []
    case Some(attr) => [Reflected(typeName, m, attr)]
  }

  /** The methods that carry `EndpointAttribute`, in declaration order. */
  function Annotated(methods: seq<MethodInfo>): (ms: seq<MethodInfo>)
    ensures |ms| <= |methods|
    ensures forall m :: m in ms <==> m in methods && m.endpointAttribute.Some?
  {
    if |methods| == 0 then []
    else (if methods[0].endpointAttribute.Some? then [methods[0]] else []) + Annotated(methods[1..])
  }

  /** The factories of a reflected service type, in method order. */
  function ReflectedFactories(typeName: string, methods: seq<MethodInfo>): (fs: seq<EndpointFactory>)
    ensures |fs| <= |methods|
    ensures forall k :: 0 <= k < |fs| ==>
      && fs[k].Reflected? && fs[k].typeName == typeName && fs[k].member in methods
      && fs[k].member.endpointAttribute == Some(fs[k].attribute)
  {
    if |methods| == 0 then []
    else MethodFactories(typeName, methods[0]) + ReflectedFactories(typeName, methods[1..])
  }

  /** A reflected service type gets exactly one factory per method that
      carries `EndpointAttribute`, in method order, each made from that method
      and its attribute. */
  lemma {:induction false} ReflectedFactoriesExact(typeName: string, methods: seq<MethodInfo>)
    ensures var fs := ReflectedFactories(typeName, methods);
      && |fs| == |Annotated(methods)|
      && forall k :: 0 <= k < |fs| ==>
           && fs[k] == Reflected(typeName, Annotated(methods)[k], fs[k].attribute)
           && Annotated(methods)[k].endpointAttribute == Some(fs[k].attribute)
  {
    if |methods| > 0 {
      ReflectedFactoriesExact(typeName, methods[1..]);
      var m := methods[0];
      var fs := ReflectedFactories(typeName, methods);
      var rest := ReflectedFactories(typeName, methods[1..]);
      var ms := Annotated(methods);
      var ns := Annotated(methods[1..]);
      if m.endpointAttribute.None? {
        assert fs == rest && ms == ns;
      } else {
        assert fs == [Reflected(typeName, m, m.endpointAttribute.value)] + rest;
        assert ms == [m] + ns;
        forall k | 1 <= k < |fs| ensures fs[k] == rest[k - 1] && ms[k] == ns[k - 1] {
        }
      }
    }
  }

  /** Scanning two runs of methods one after the other adds their factories one
      after the other: the factories keep the methods' order. */
  lemma {:induction false} ReflectedFactoriesAppend(typeName: string, ms: seq<MethodInfo>,
                                                     ns: seq<MethodInfo>)
    ensures ReflectedFactories(typeName, ms + ns) ==
            ReflectedFactories(typeName, ms) + ReflectedFactories(typeName, ns)
  {
    if |ms| > 0 {
      assert (ms + ns)[1..] == ms[1..] + ns;
      ReflectedFactoriesAppend(typeName, ms[1..], ns);
    } else {
      assert ms + ns == ns;
    }
  }

  /** Scanning one more method adds that method's factory, if any, at the end. */
  lemma ReflectedFactoriesStep(typeName: string, methods: seq<MethodInfo>, i: nat)
    requires i < |methods|
    ensures ReflectedFactories(typeName, methods[..i + 1]) ==
            ReflectedFactories(typeName, methods[..i]) + MethodFactories(typeName, methods[i])
  {
    ReflectedFactoriesAppend(typeName, methods[..i], [methods[i]]);
    assert methods[..i + 1] == methods[..i] + [methods[i]];
    assert ReflectedFactories(typeName, [methods[i]]) == MethodFactories(typeName, methods[i]) by {
      assert [methods[i]][1..] == [];
    }
  }

  /** Every method that carries `EndpointAttribute` gets its factory. */
  lemma {:induction false} ReflectedFactoriesComplete(typeName: string, methods: seq<MethodInfo>,
                                                       i: nat)
    requires i < |methods| && methods[i].endpointAttribute.Some?
    ensures Reflected(typeName, methods[i], methods[i].endpointAttribute.value)
            in ReflectedFactories(typeName, methods)
  {
    if i > 0 {
      ReflectedFactoriesComplete(typeName, methods[1..], i - 1);
    }
  }

  /** A type none of whose methods carries `EndpointAttribute` gets no endpoint. */
  lemma {:induction false} ReflectedFactoriesNone(typeName: string, methods: seq<MethodInfo>)
    requires forall k :: 0 <= k < |methods| ==> methods[k].endpointAttribute.None?
    ensures ReflectedFactories(typeName, methods) == []
  {
    if |methods| > 0 {
      ReflectedFactoriesNone(typeName, methods[1..]);
    }
  }

  /** `WeikioServiceBuilder<T>`. */
  class TypedServiceBuilder {
    const serviceType: ServiceType
    var configureBuilder: Option<Hook>
    var configureServices: Option<Hook>

    constructor (serviceType: ServiceType)
      ensures this.serviceType == serviceType
      ensures configureBuilder == None && configureServices == None
    {
      this.serviceType := serviceType;
      configureBuilder := None;
      configureServices := None;
    }

    /** Throws `ArgumentException` when `T` has no `ServiceAttribute`; otherwise a
        new service named after the attribute, typed `T`, with one reflected
        factory per method that carries `EndpointAttribute`, in method order. */
    method Build() returns (r: Result<WeikioService>)
      ensures serviceType.serviceAttribute.None? ==>
        r == Failure(ArgumentException(MISSING_SERVICE_ATTRIBUTE))
      ensures serviceType.serviceAttribute.Some? ==>
        var attr := serviceType.serviceAttribute.value;
        && r.Success? && fresh(r.value)
        && r.value.name == attr.name && r.value.version == attr.version
        && r.value.description == Some(attr.description) && r.value.metadata == attr.metadata
        && r.value.serviceType == Some(serviceType.name)
        && r.value.configureBuilder == configureBuilder
        && r.value.configureServices == configureServices
        && r.value.endpoints == ReflectedFactories(serviceType.name, serviceType.methods)
    {
      if serviceType.serviceAttribute.None? {
        return Failure(ArgumentException(MISSING_SERVICE_ATTRIBUTE));
      }
      var attr := serviceType.serviceAttribute.value;
      var s := new WeikioService(attr.name, attr.version, Some(attr.description), Some(attr.metadata),
                                 Some(serviceType.name), configureBuilder, configureServices);
      var methods := serviceType.methods;
      var i := 0;
      while i < |methods|
        invariant 0 <= i <= |methods|
        invariant s.endpoints == ReflectedFactories(serviceType.name, methods[..i])
      {
        var m := methods[i];
        ReflectedFactoriesStep(serviceType.name, methods, i);
        if m.endpointAttribute.Some? {
          s.AddEndpointFactory(Reflected(serviceType.name, m, m.endpointAttribute.value));
        }
        i := i + 1;
      }
      assert methods[..i] == methods;
      r := Success(s);
    }

    method Configure(builder: Option<Hook>) returns (self: TypedServiceBuilder)
      modifies this`configureBuilder
      ensures self == this && configureBuilder == builder
    {
      configureBuilder := builder;
      self := this;
    }

    method Deps(services: Option<Hook>) returns (self: TypedServiceBuilder)
      modifies this`configureServices
      ensures self == this && configureServices == services
    {
      configureServices := services;
      self := this;
    }
  }
}
