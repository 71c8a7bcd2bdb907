/** Endpoint records, the two attributes the attribute-driven builder reads,
    the method descriptors that stand in for reflection, and endpoint
    factories with what invoking them yields. */
module Endpoints {
  import opened Common

  /** The handler delegate of an endpoint, identified by where it came from. */
  datatype Handler =
    | Delegate(id: nat)                                    // a `Func<EndpointMessage, Task>` given by the caller
    | SyncAdapter(action: nat)                             // an `Action<EndpointMessage>` wrapped to return a completed task
    | AwaitingInvoke(typeName: string, methodName: string) // a reflected Task-returning method, awaited
    | SyncInvoke(typeName: string, methodName: string)     // a reflected void method, called synchronously

  /** The `Endpoint` record; metadata may be null, parallelism defaults to unbounded. */
  datatype Endpoint = Endpoint(
    name: string,
    handler: Handler,
    metadata: Option<Dict> := None,
    maxDegreeOfParallelism: int := UNBOUNDED)

  /** `[Endpoint(name)]`: its metadata property starts as an empty dictionary. */
  datatype EndpointAttribute = EndpointAttribute(
    name: string,
    metadata: Dict := map[],
    maxDegreeOfParallelism: int := UNBOUNDED)

  /** `[Service(name, version, description)]`. */
  datatype ServiceAttribute = ServiceAttribute(
    name: string,
    version: string,
    description: string,
    metadata: Dict := map[])

  /** How a method's return type is classified by the attribute-driven builder. */
  datatype ReturnType =
    | TaskLike                 // a type `Task` is assignable from (`Task`, `Task<T>`)
    | VoidReturn
    | OtherReturn(name: string)

  /** What reflection reports of one public method. */
  datatype MethodInfo = MethodInfo(
    name: string,
    endpointAttribute: Option<EndpointAttribute>,
    returnType: ReturnType)

  /** What reflection reports of the service type `T`. */
  datatype ServiceType = ServiceType(
    name: string,
    serviceAttribute: Option<ServiceAttribute>,
    methods: seq<MethodInfo>)

  /** The services a dependency-injection provider can resolve, by type name. */
  datatype Provider = Provider(services: set<string>)

  /** A `Func<IServiceProvider, Endpoint>` as the SDK creates them. */
  datatype EndpointFactory =
    | Constant(endpoint: Endpoint)                 // `_ => endpoint`
    | Supplied(produces: Result<Endpoint>)         // a caller's own factory, known by its outcome
    | Reflected(typeName: string, member: MethodInfo, attribute: EndpointAttribute)

  /** Invoking a factory with a provider. A reflected factory resolves the
      service type, then picks a handler by the method's return type. */
  function Invoke(f: EndpointFactory, provider: Provider): (r: Result<Endpoint>)
    ensures f.Constant? ==> r == Success(f.endpoint)
    ensures f.Reflected? ==>
      (r.Success? <==> f.typeName in provider.services && !f.member.returnType.OtherReturn?)
    ensures f.Reflected? && f.typeName !in provider.services ==>
      r == Failure(ServiceNotRegistered(f.typeName))
    ensures f.Reflected? && r.Success? ==>
      && r.value.name == f.attribute.name
      && r.value.metadata == Some(f.attribute.metadata)
      && r.value.maxDegreeOfParallelism == f.attribute.maxDegreeOfParallelism
      && (r.value.handler.AwaitingInvoke? <==> f.member.returnType.TaskLike?)
      && (r.value.handler.SyncInvoke? <==> f.member.returnType.VoidReturn?)
  {
    match f
    case Constant(e) => Success(e)
    case Supplied(produces) => produces
    case Reflected(typeName, m, attr) =>
      if typeName !in provider.services then Failure(ServiceNotRegistered(typeName))
      else
        match m.returnType
        case TaskLike =>
          Success(Endpoint(attr.name, AwaitingInvoke(typeName, m.name), Some(attr.metadata),
                           attr.maxDegreeOfParallelism))
        case VoidReturn =>
          Success(Endpoint(attr.name, SyncInvoke(typeName, m.name), Some(attr.metadata),
                           attr.maxDegreeOfParallelism))
        case OtherReturn(t) => Failure(UnsupportedReturnType(m.name, t, typeName))
  }

  /** Invoking every factory in order; the first one that throws aborts the rest. */
  function InvokeAll(fs: seq<EndpointFactory>, provider: Provider): (r: Result<seq<Endpoint>>)
    ensures r.Success? ==>
      |r.value| == |fs| && forall i :: 0 <= i < |fs| ==> Invoke(fs[i], provider) == Success(r.value[i])
    ensures r.Failure? ==>
      exists i :: 0 <= i < |fs| && Invoke(fs[i], provider) == Failure(r.error)
        && forall j :: 0 <= j < i ==> Invoke(fs[j], provider).Success?
    ensures r.Success? <==> forall i :: 0 <= i < |fs| ==> Invoke(fs[i], provider).Success?
  {
    if |fs| == 0 then Success([])
    else
      match Invoke(fs[0], provider)
      case Failure(e) => Failure(e)
      case Success(e) =>
        match InvokeAll(fs[1..], provider)
        case Failure(e') =>
          ghost var i :| 0 <= i < |fs| - 1 && Invoke(fs[1..][i], provider) == Failure(e')
            && forall j :: 0 <= j < i ==> Invoke(fs[1..][j], provider).Success?;
          assert Invoke(fs[i + 1], provider) == Failure(e');
          Failure(e')
        case Success(rest) => Success([e] + rest)
  }
}
