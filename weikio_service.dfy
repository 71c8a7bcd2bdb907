/** `WeikioService`: the description of one service — identity, metadata and
    the ordered list of endpoint factories that its `AddEndpoint` overloads
    append to. */
module Services {
  import opened Common
  import opened Endpoints

  /** An `Action<IHostBuilder>` or `Action<IServiceCollection>` callback, by identity. */
  datatype Hook = Hook(id: nat)

  class WeikioService {
    const name: string
    const version: string
    const description: Option<string>
    const metadata: Dict
    /** The reflected service type (`typeof(T)`) by name; null for an explicitly built service. */
    const serviceType: Option<string>
    const configureBuilder: Option<Hook>
    const configureServices: Option<Hook>
    /** `Endpoints`: the factories, in the order they were added. */
    var endpoints: seq<EndpointFactory>

    /** The primary constructor; a null metadata dictionary becomes an empty one. */
    constructor (name: string, version: string, description: Option<string>,
                 metadata: Option<Dict> := None, serviceType: Option<string> := None,
                 configureBuilder: Option<Hook> := None, configureServices: Option<Hook> := None)
      ensures this.name == name && this.version == version && this.description == description
      ensures metadata.None? ==> this.metadata == map[]
      ensures metadata.Some? ==> this.metadata == metadata.value
      ensures this.serviceType == serviceType
      ensures this.configureBuilder == configureBuilder && this.configureServices == configureServices
      ensures endpoints == []
    {
      this.name := name;
      this.version := version;
      this.description := description;
      this.metadata := metadata.GetOr(map[]);
      this.serviceType := serviceType;
      this.configureBuilder := configureBuilder;
      this.configureServices := configureServices;
      endpoints := [];
    }

    /** `AddEndpoint(name, Action<EndpointMessage>, metadata, maxDegreeOfParallelism)`:
        wraps the action and delegates with the same name, metadata and bound. */
    method AddActionEndpoint(name: string, action: nat, metadata: Option<Dict> := None,
                             maxDegreeOfParallelism: int := UNBOUNDED)
      modifies this`endpoints
      ensures endpoints ==
        old(endpoints) + [Constant(Endpoint(name, SyncAdapter(action), metadata, maxDegreeOfParallelism))]
    {
      AddHandlerEndpoint(name, SyncAdapter(action), metadata, maxDegreeOfParallelism);
    }

    /** `AddEndpoint(name, Func<EndpointMessage, Task>, metadata, maxDegreeOfParallelism)`. */
    method AddHandlerEndpoint(name: string, handler: Handler, metadata: Option<Dict> := None,
                              maxDegreeOfParallelism: int := UNBOUNDED)
      modifies this`endpoints
      ensures endpoints ==
        old(endpoints) + [Constant(Endpoint(name, handler, metadata, maxDegreeOfParallelism))]
    {
      var endpoint := Endpoint(name, handler, metadata, maxDegreeOfParallelism);
      AddEndpoint(endpoint);
    }

    /** `AddEndpoint(Endpoint)`: appends a factory that yields `endpoint` for any provider. */
    method AddEndpoint(endpoint: Endpoint)
      modifies this`endpoints
      ensures endpoints == old(endpoints) + [Constant(endpoint)]
    {
      endpoints := endpoints + [Constant(endpoint)];
    }

    /** `AddEndpoint(Func<IServiceProvider, Endpoint>)`: appends the factory unchanged. */
    method AddEndpointFactory(factory: EndpointFactory)
      modifies this`endpoints
      ensures endpoints == old(endpoints) + [factory]
    {
      endpoints := endpoints + [factory];
    }
  }
}
