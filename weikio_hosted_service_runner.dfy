/** `WeikioHostedServiceRunner`: turns a `WeikioService` into a running NATS
    service. Construction opens the connection, invokes every endpoint
    factory in order and gives each endpoint its own action block (a queue of
    inbound messages) and a service endpoint in the group `external.<name>`.
    Each message is handled inside an enrichment scope, and a handler's
    exception is logged and swallowed. Stopping stops the service, then
    completes and drains each action block in registration order, and
    disposes of the connection last.

    The action blocks are modelled as FIFO queues processed one message at a
    time; whether a handler throws for a message is an oracle. */
module HostedRunner {
  import opened Common
  import opened Endpoints
  import opened Services
  import opened NatsConnections
  import opened EndpointMessages

  const GROUP_PREFIX: string := "external."

  /** The service group all endpoints of a service are registered in. */
  function Group(serviceName: string): (g: string)
    ensures |g| == |GROUP_PREFIX| + |serviceName| && g[..|GROUP_PREFIX|] == GROUP_PREFIX
    ensures g[|GROUP_PREFIX|..] == serviceName
  {
    GROUP_PREFIX + serviceName
  }

  /** What the runner's logger records and what it asks of NATS, in order. */
  datatype RunnerEvent =
    | HandlingLogged(endpoint: string, service: string, subject: string) // the debug entry before handling
    | ScopeEntered(header: Dict)               // `LogContext.Push` of an enricher over the message's headers
    | HandlerCalled(endpoint: string, msg: EndpointMessage)
    | ScopeExited                              // the pushed enricher is disposed of
    // "Failed to handle event"; the endpoint name only tags the trace entry and
    // is not part of the logged message
    | HandlerErrorLogged(endpoint: string)
    | StartingLogged(service: string, endpointCount: nat)
    | ServiceStarted
    | StoppingLogged(service: string)
    | ServiceStopped
    | ActionCompleted(endpoint: string)        // `Complete()` on an endpoint's action block
    | ConnectionDisposed

  /** A NATS `ServiceEndpoint` as the runner builds it; its handler posts to the
      action block at the same position. */
  datatype ServiceEndpoint = ServiceEndpoint(group: string, name: string, metadata: Dict)

  /** The NATS `Service` as the runner configures it. */
  datatype NatsServiceInfo = NatsServiceInfo(
    name: string,
    version: string,
    description: Option<string>,
    metadata: Dict,
    connection: Connection,
    endpoints: seq<ServiceEndpoint>)

  /** Whether a handler throws, or returns a faulted task, for a message. */
  type Failures = (Handler, ServiceMsg) -> bool

  /** `ExecutionDataflowBlockOptions.MaxDegreeOfParallelism` accepts a positive
      bound or `Unbounded` and throws for anything else. */
  predicate ValidParallelism(bound: int) {
    bound == UNBOUNDED || bound >= 1
  }

  /** The outcome of `NatsConnectionFactory.Create()` in the constructor of
      the `WeikioLogSink` built for the endpoint of each registration turn,
      numbered from 0. */
  type SinkConnects = nat -> Result<Connection>

  /** One turn of the registration loop: invoke the factory, build the
      endpoint's logger, whose sink opens a connection of its own, then
      configure the endpoint's action block. */
  function RegisterStep(f: EndpointFactory, provider: Provider, sinkConnect: Result<Connection>)
    : (r: Result<Endpoint>)
    ensures r.Success? <==>
      && Invoke(f, provider).Success? && sinkConnect.Success?
      && ValidParallelism(Invoke(f, provider).value.maxDegreeOfParallelism)
    ensures r.Success? ==> Invoke(f, provider) == r
    ensures Invoke(f, provider).Failure? ==> r == Invoke(f, provider)
    ensures Invoke(f, provider).Success? && sinkConnect.Failure? ==> r == Failure(sinkConnect.error)
    ensures Invoke(f, provider).Success? && sinkConnect.Success? && r.Failure? ==>
      r.error == ArgumentOutOfRange(Invoke(f, provider).value.maxDegreeOfParallelism)
  {
    match Invoke(f, provider)
    case Failure(e) => Failure(e)
    case Success(e) =>
      if sinkConnect.Failure? then Failure(sinkConnect.error)
      else if ValidParallelism(e.maxDegreeOfParallelism) then Success(e)
      else Failure(ArgumentOutOfRange(e.maxDegreeOfParallelism))
  }

  /** The endpoints the registration loop produces from the factories, or the
      exception of the first turn that throws. */
  function Register(fs: seq<EndpointFactory>, provider: Provider, sinks: SinkConnects): (r: Result<seq<Endpoint>>)
    ensures r.Success? <==> forall i :: 0 <= i < |fs| ==> RegisterStep(fs[i], provider, sinks(i)).Success?
    ensures r.Success? ==>
      |r.value| == |fs| && forall i :: 0 <= i < |fs| ==> RegisterStep(fs[i], provider, sinks(i)) == Success(r.value[i])
    ensures r.Failure? ==>
      exists i :: 0 <= i < |fs| && RegisterStep(fs[i], provider, sinks(i)) == Failure(r.error)
        && forall j :: 0 <= j < i ==> RegisterStep(fs[j], provider, sinks(j)).Success?
    decreases |fs|
  {
    if |fs| == 0 then Success([])
    else
      var init := fs[..|fs| - 1];
      assert forall i :: 0 <= i < |init| ==> init[i] == fs[i];
      match Register(init, provider, sinks)
      case Failure(e) => Failure(e)
      case Success(xs) =>
        match RegisterStep(fs[|fs| - 1], provider, sinks(|fs| - 1))
        case Failure(e) => Failure(e)
        case Success(x) => Success(xs + [x])
  }

  /** The first turn that throws decides registration's exception. */
  lemma RegisterFirstFailure(fs: seq<EndpointFactory>, provider: Provider, sinks: SinkConnects, i: nat)
    requires i < |fs| && RegisterStep(fs[i], provider, sinks(i)).Failure?
    requires forall j :: 0 <= j < i ==> RegisterStep(fs[j], provider, sinks(j)).Success?
    ensures Register(fs, provider, sinks) == Failure(RegisterStep(fs[i], provider, sinks(i)).error)
  {
    var r := Register(fs, provider, sinks);
    var k :| 0 <= k < |fs| && RegisterStep(fs[k], provider, sinks(k)) == Failure(r.error)
             && forall j :: 0 <= j < k ==> RegisterStep(fs[j], provider, sinks(j)).Success?;
    assert k == i;
  }

  /** Registration succeeds with the same endpoints as invoking every factory,
      when every endpoint's sink connects and every parallelism bound is
      acceptable. */
  lemma RegisterInvokeAll(fs: seq<EndpointFactory>, provider: Provider, sinks: SinkConnects)
    ensures Register(fs, provider, sinks).Success? <==>
      && InvokeAll(fs, provider).Success?
      && (forall i :: 0 <= i < |fs| ==> sinks(i).Success?)
      && forall i :: 0 <= i < |fs| ==> ValidParallelism(InvokeAll(fs, provider).value[i].maxDegreeOfParallelism)
    ensures Register(fs, provider, sinks).Success? ==> InvokeAll(fs, provider) == Register(fs, provider, sinks)
  {
    var r := Register(fs, provider, sinks);
    var a := InvokeAll(fs, provider);
    if r.Success? {
      assert a.Success?;
      assert a.value == r.value;
      forall i | 0 <= i < |fs| ensures sinks(i).Success? {
        assert RegisterStep(fs[i], provider, sinks(i)).Success?;
      }
    }
    if && a.Success? && (forall i :: 0 <= i < |fs| ==> sinks(i).Success?)
       && forall i :: 0 <= i < |fs| ==> ValidParallelism(a.value[i].maxDegreeOfParallelism)
    {
      forall i | 0 <= i < |fs| ensures RegisterStep(fs[i], provider, sinks(i)).Success? {
        assert Invoke(fs[i], provider) == Success(a.value[i]);
      }
    }
  }

  /** The events of handling one message: the debug entry, the handler call
      inside the enrichment scope, and an error entry when the handler threw. */
  function MessageEvents(endpoint: Endpoint, serviceName: string, msg: ServiceMsg, failed: bool): seq<RunnerEvent> {
    [HandlingLogged(endpoint.name, serviceName, msg.subject)] + [ScopeEntered(msg.header)]
      + [HandlerCalled(endpoint.name, EndpointMessage(msg))] + [ScopeExited]
      + (if failed then [HandlerErrorLogged(endpoint.name)] else [])
  }

  /** The events of an action block working through its queue, front first. */
  function DrainEvents(endpoint: Endpoint, serviceName: string, queue: seq<ServiceMsg>,
                       fails: Failures): seq<RunnerEvent>
  {
    if |queue| == 0 then []
    else
      var head := MessageEvents(endpoint, serviceName, queue[0], fails(endpoint.handler, queue[0]));
      head + DrainEvents(endpoint, serviceName, queue[1..], fails)
  }

  /** The messages handed to handlers, in order. */
  function Calls(es: seq<RunnerEvent>): seq<ServiceMsg> {
    if |es| == 0 then []
    else (if es[0].HandlerCalled? then [es[0].msg.msg] else []) + Calls(es[1..])
  }

  /** The number of handler failures logged. */
  function ErrorCount(es: seq<RunnerEvent>): nat {
    if |es| == 0 then 0
    else (if es[0].HandlerErrorLogged? then 1 else 0) + ErrorCount(es[1..])
  }

  /** The endpoints whose action blocks were completed, in order. */
  function Completions(es: seq<RunnerEvent>): seq<string> {
    if |es| == 0 then []
    else (if es[0].ActionCompleted? then [es[0].endpoint] else []) + Completions(es[1..])
  }

  /** The number of messages in `queue` the handler throws for. */
  function FailCount(handler: Handler, queue: seq<ServiceMsg>, fails: Failures): nat {
    if |queue| == 0 then 0
    else (if fails(handler, queue[0]) then 1 else 0) + FailCount(handler, queue[1..], fails)
  }

  /** Scopes never nest and every scope is closed again; a handler is called
      only inside a scope, and nothing else happens inside one. `open` says
      whether a scope is open before `es`. */
  predicate WellScoped(es: seq<RunnerEvent>, open: bool) {
    if |es| == 0 then !open
    else
      match es[0]
      case ScopeEntered(_) => !open && WellScoped(es[1..], true)
      case ScopeExited => open && WellScoped(es[1..], false)
      case HandlerCalled(_, _) => open && WellScoped(es[1..], true)
      case _ => !open && WellScoped(es[1..], false)
  }

  /** The service's lifecycle events: start, stop and disposal. */
  predicate IsLifecycle(e: RunnerEvent) {
    e.StartingLogged? || e.ServiceStarted? || e.StoppingLogged? || e.ServiceStopped? || e.ConnectionDisposed?
  }

  predicate NoLifecycle(es: seq<RunnerEvent>) {
    forall k :: 0 <= k < |es| ==> !IsLifecycle(es[k])
  }

  lemma {:induction false} CallsConcat(a: seq<RunnerEvent>, b: seq<RunnerEvent>)
    ensures Calls(a + b) == Calls(a) + Calls(b)
  {
    if |a| == 0 {
      assert a + b == b;
    } else {
      var head: seq<ServiceMsg> := if a[0].HandlerCalled? then [a[0].msg.msg] else [];
      assert (a + b)[0] == a[0] && (a + b)[1..] == a[1..] + b;
      CallsConcat(a[1..], b);
      assert Calls(a + b) == head + (Calls(a[1..]) + Calls(b));
      assert Calls(a) == head + Calls(a[1..]);
    }
  }

  lemma {:induction false} ErrorCountConcat(a: seq<RunnerEvent>, b: seq<RunnerEvent>)
    ensures ErrorCount(a + b) == ErrorCount(a) + ErrorCount(b)
  {
    if |a| == 0 {
      assert a + b == b;
    } else {
      assert (a + b)[1..] == a[1..] + b;
      ErrorCountConcat(a[1..], b);
    }
  }

  lemma {:induction false} CompletionsConcat(a: seq<RunnerEvent>, b: seq<RunnerEvent>)
    ensures Completions(a + b) == Completions(a) + Completions(b)
  {
    if |a| == 0 {
      assert a + b == b;
    } else {
      assert (a + b)[1..] == a[1..] + b;
      CompletionsConcat(a[1..], b);
    }
  }

  lemma SummariesConcat(a: seq<RunnerEvent>, b: seq<RunnerEvent>)
    ensures Calls(a + b) == Calls(a) + Calls(b)
    ensures ErrorCount(a + b) == ErrorCount(a) + ErrorCount(b)
    ensures Completions(a + b) == Completions(a) + Completions(b)
  {
    CallsConcat(a, b);
    ErrorCountConcat(a, b);
    CompletionsConcat(a, b);
  }

  lemma {:induction false} WellScopedConcat(a: seq<RunnerEvent>, b: seq<RunnerEvent>, open: bool)
    requires WellScoped(a, open) && WellScoped(b, false)
    ensures WellScoped(a + b, open)
  {
    if |a| == 0 {
      assert a + b == b;
    } else {
      assert (a + b)[0] == a[0] && (a + b)[1..] == a[1..] + b;
      match a[0]
      case ScopeEntered(_) => WellScopedConcat(a[1..], b, true);
      case ScopeExited => WellScopedConcat(a[1..], b, false);
      case HandlerCalled(_, _) => WellScopedConcat(a[1..], b, true);
      case _ => WellScopedConcat(a[1..], b, false);
    }
  }

  /** Handling one message calls its handler exactly once, inside one scope,
      and logs one error exactly when the handler threw. */
  lemma MessageFacts(endpoint: Endpoint, serviceName: string, msg: ServiceMsg, failed: bool)
    ensures var es := MessageEvents(endpoint, serviceName, msg, failed);
      && Calls(es) == [msg]
      && ErrorCount(es) == (if failed then 1 else 0)
      && Completions(es) == []
      && WellScoped(es, false)
      && NoLifecycle(es)
  {
    MessageSummaries(endpoint, serviceName, msg, failed);
    MessageScoped(endpoint, serviceName, msg, failed);
  }

  lemma MessageSummaries(endpoint: Endpoint, serviceName: string, msg: ServiceMsg, failed: bool)
    ensures var es := MessageEvents(endpoint, serviceName, msg, failed);
      && Calls(es) == [msg]
      && ErrorCount(es) == (if failed then 1 else 0)
      && Completions(es) == []
  {
    var tail: seq<RunnerEvent> := if failed then [HandlerErrorLogged(endpoint.name)] else [];
    var e0, e1, e2, e3 := HandlingLogged(endpoint.name, serviceName, msg.subject), ScopeEntered(msg.header),
                          HandlerCalled(endpoint.name, EndpointMessage(msg)), ScopeExited;
    SummariesConcat([e0] + [e1] + [e2] + [e3], tail);
    SummariesConcat([e0] + [e1] + [e2], [e3]);
    SummariesConcat([e0] + [e1], [e2]);
    SummariesConcat([e0], [e1]);
    assert Calls([e2]) == [msg];
  }

  lemma MessageScoped(endpoint: Endpoint, serviceName: string, msg: ServiceMsg, failed: bool)
    ensures var es := MessageEvents(endpoint, serviceName, msg, failed);
      WellScoped(es, false) && NoLifecycle(es)
  {
    var tail: seq<RunnerEvent> := if failed then [HandlerErrorLogged(endpoint.name)] else [];
    var e0, e1, e2, e3 := HandlingLogged(endpoint.name, serviceName, msg.subject), ScopeEntered(msg.header),
                          HandlerCalled(endpoint.name, EndpointMessage(msg)), ScopeExited;
    var es := [e0] + [e1] + [e2] + [e3] + tail;
    assert WellScoped(tail, false);
    assert es[4..] == tail && es[3..] == [e3] + tail && es[2..] == [e2] + es[3..] && es[1..] == [e1] + es[2..];
    assert WellScoped(es[3..], true);
    assert WellScoped(es[2..], true);
    assert WellScoped(es[1..], false);
  }

  /** An action block working through its queue calls the handler once per
      message, in queue order, logs one error per message the handler threw
      for, and keeps every scope balanced. */
  lemma {:induction false} DrainFacts(endpoint: Endpoint, serviceName: string, queue: seq<ServiceMsg>, fails: Failures)
    ensures var es := DrainEvents(endpoint, serviceName, queue, fails);
      && Calls(es) == queue
      && ErrorCount(es) == FailCount(endpoint.handler, queue, fails)
      && Completions(es) == []
      && WellScoped(es, false)
      && NoLifecycle(es)
  {
    if |queue| > 0 {
      var head := MessageEvents(endpoint, serviceName, queue[0], fails(endpoint.handler, queue[0]));
      var rest := DrainEvents(endpoint, serviceName, queue[1..], fails);
      MessageFacts(endpoint, serviceName, queue[0], fails(endpoint.handler, queue[0]));
      DrainFacts(endpoint, serviceName, queue[1..], fails);
      SummariesConcat(head, rest);
      WellScopedConcat(head, rest, false);
      NoLifecycleConcat(head, rest);
      assert queue == [queue[0]] + queue[1..];
    }
  }

  /** An action block's endpoint and the messages still queued in it. */
  datatype BlockState = BlockState(endpoint: Endpoint, queue: seq<ServiceMsg>)

  /** Completing one action block and waiting for its completion. */
  function BlockStop(serviceName: string, b: BlockState, fails: Failures): seq<RunnerEvent> {
    [ActionCompleted(b.endpoint.name)] + DrainEvents(b.endpoint, serviceName, b.queue, fails)
  }

  /** Completing and draining the blocks one after the other, first to last. */
  function DrainAll(serviceName: string, blocks: seq<BlockState>, fails: Failures): seq<RunnerEvent> {
    if |blocks| == 0 then []
    else DrainAll(serviceName, blocks[..|blocks| - 1], fails) + BlockStop(serviceName, blocks[|blocks| - 1], fails)
  }

  /** What `StopAsync` does, given the blocks' queues when it is called. */
  function StopTrace(serviceName: string, blocks: seq<BlockState>, fails: Failures): seq<RunnerEvent> {
    [StoppingLogged(serviceName), ServiceStopped] + DrainAll(serviceName, blocks, fails) + [ConnectionDisposed]
  }

  /** The messages queued in the blocks, block by block. */
  function Queued(blocks: seq<BlockState>): seq<ServiceMsg> {
    if |blocks| == 0 then [] else Queued(blocks[..|blocks| - 1]) + blocks[|blocks| - 1].queue
  }

  /** The blocks' endpoint names, in order. */
  function Names(blocks: seq<BlockState>): (names: seq<string>)
    ensures |names| == |blocks| && forall i :: 0 <= i < |blocks| ==> names[i] == blocks[i].endpoint.name
  {
    if |blocks| == 0 then [] else Names(blocks[..|blocks| - 1]) + [blocks[|blocks| - 1].endpoint.name]
  }

  lemma {:induction false} DrainAllCalls(serviceName: string, blocks: seq<BlockState>, fails: Failures)
    ensures Calls(DrainAll(serviceName, blocks, fails)) == Queued(blocks)
  {
    if |blocks| > 0 {
      var b := blocks[|blocks| - 1];
      var drained := DrainEvents(b.endpoint, serviceName, b.queue, fails);
      var prev := DrainAll(serviceName, blocks[..|blocks| - 1], fails);
      DrainAllCalls(serviceName, blocks[..|blocks| - 1], fails);
      DrainFacts(b.endpoint, serviceName, b.queue, fails);
      CallsConcat([ActionCompleted(b.endpoint.name)], drained);
      assert Calls([ActionCompleted(b.endpoint.name)]) == [];
      assert Calls(BlockStop(serviceName, b, fails)) == b.queue;
      CallsConcat(prev, BlockStop(serviceName, b, fails));
      assert DrainAll(serviceName, blocks, fails) == prev + BlockStop(serviceName, b, fails);
    }
  }

  lemma {:induction false} DrainAllCompletions(serviceName: string, blocks: seq<BlockState>, fails: Failures)
    ensures Completions(DrainAll(serviceName, blocks, fails)) == Names(blocks)
  {
    if |blocks| > 0 {
      var b := blocks[|blocks| - 1];
      var drained := DrainEvents(b.endpoint, serviceName, b.queue, fails);
      DrainAllCompletions(serviceName, blocks[..|blocks| - 1], fails);
      DrainFacts(b.endpoint, serviceName, b.queue, fails);
      CompletionsConcat([ActionCompleted(b.endpoint.name)], drained);
      CompletionsConcat(DrainAll(serviceName, blocks[..|blocks| - 1], fails), BlockStop(serviceName, b, fails));
    }
  }

  lemma {:induction false} DrainAllScoped(serviceName: string, blocks: seq<BlockState>, fails: Failures)
    ensures WellScoped(DrainAll(serviceName, blocks, fails), false)
  {
    if |blocks| > 0 {
      var b := blocks[|blocks| - 1];
      var stop := BlockStop(serviceName, b, fails);
      DrainAllScoped(serviceName, blocks[..|blocks| - 1], fails);
      DrainFacts(b.endpoint, serviceName, b.queue, fails);
      assert stop[1..] == DrainEvents(b.endpoint, serviceName, b.queue, fails);
      WellScopedConcat(DrainAll(serviceName, blocks[..|blocks| - 1], fails), stop, false);
    }
  }

  lemma NoLifecycleConcat(a: seq<RunnerEvent>, b: seq<RunnerEvent>)
    requires NoLifecycle(a) && NoLifecycle(b)
    ensures NoLifecycle(a + b)
  {
    forall k | 0 <= k < |a + b| ensures !IsLifecycle((a + b)[k]) {
      if k >= |a| {
        assert (a + b)[k] == b[k - |a|];
      }
    }
  }

  lemma {:induction false} DrainAllQuiet(serviceName: string, blocks: seq<BlockState>, fails: Failures)
    ensures NoLifecycle(DrainAll(serviceName, blocks, fails))
  {
    if |blocks| > 0 {
      var b := blocks[|blocks| - 1];
      var stop := BlockStop(serviceName, b, fails);
      DrainAllQuiet(serviceName, blocks[..|blocks| - 1], fails);
      DrainFacts(b.endpoint, serviceName, b.queue, fails);
      NoLifecycleConcat([ActionCompleted(b.endpoint.name)], DrainEvents(b.endpoint, serviceName, b.queue, fails));
      NoLifecycleConcat(DrainAll(serviceName, blocks[..|blocks| - 1], fails), stop);
    }
  }

  /** The stop order: the stopping entry and the service's stop come first, the
      connection's disposal comes last, and neither happens anywhere else, so
      every handler call falls between them. */
  lemma StopOrder(serviceName: string, blocks: seq<BlockState>, fails: Failures)
    ensures var t := StopTrace(serviceName, blocks, fails);
      && t[0] == StoppingLogged(serviceName) && t[1] == ServiceStopped && t[|t| - 1] == ConnectionDisposed
      && (forall k :: 0 <= k < |t| ==> (t[k].StoppingLogged? <==> k == 0))
      && (forall k :: 0 <= k < |t| ==> (t[k].ServiceStopped? <==> k == 1))
      && (forall k :: 0 <= k < |t| ==> (t[k].ConnectionDisposed? <==> k == |t| - 1))
      && (forall k :: 0 <= k < |t| && t[k].HandlerCalled? ==> 1 < k < |t| - 1)
  {
    var middle := DrainAll(serviceName, blocks, fails);
    var t := StopTrace(serviceName, blocks, fails);
    DrainAllQuiet(serviceName, blocks, fails);
    assert |t| == |middle| + 3;
    forall k | 2 <= k < |t| - 1 ensures t[k] == middle[k - 2] && !IsLifecycle(t[k]) {
    }
  }

  /** Between the service's stop and the disposal, every block is completed in
      registration order, and every message still queued is handed to its
      handler exactly once, block by block and in queue order. */
  lemma StopDrains(serviceName: string, blocks: seq<BlockState>, fails: Failures)
    ensures var t := StopTrace(serviceName, blocks, fails);
      Calls(t) == Queued(blocks) && Completions(t) == Names(blocks)
  {
    var middle := DrainAll(serviceName, blocks, fails);
    var start := [StoppingLogged(serviceName), ServiceStopped];
    DrainAllCalls(serviceName, blocks, fails);
    DrainAllCompletions(serviceName, blocks, fails);
    assert start == [StoppingLogged(serviceName)] + [ServiceStopped];
    CallsConcat(start + middle, [ConnectionDisposed]);
    CallsConcat(start, middle);
    CallsConcat([StoppingLogged(serviceName)], [ServiceStopped]);
    CompletionsConcat(start + middle, [ConnectionDisposed]);
    CompletionsConcat(start, middle);
    CompletionsConcat([StoppingLogged(serviceName)], [ServiceStopped]);
  }

  /** Stopping keeps the enrichment scopes balanced: a handler is only ever
      called inside a scope, and every scope is closed again. */
  lemma StopScoped(serviceName: string, blocks: seq<BlockState>, fails: Failures)
    ensures WellScoped(StopTrace(serviceName, blocks, fails), false)
  {
    var middle := DrainAll(serviceName, blocks, fails);
    var t := StopTrace(serviceName, blocks, fails);
    DrainAllScoped(serviceName, blocks, fails);
    WellScopedConcat(middle, [ConnectionDisposed], false);
    assert t[1..] == [ServiceStopped] + (middle + [ConnectionDisposed]);
    assert t[2..] == middle + [ConnectionDisposed];
  }

  /** Draining one more block extends the drained prefix. */
  lemma DrainAllExtend(start: seq<RunnerEvent>, t: seq<RunnerEvent>, serviceName: string,
                       blocks: seq<BlockState>, i: nat, fails: Failures)
    requires i < |blocks| && t == start + DrainAll(serviceName, blocks[..i], fails)
    ensures t + BlockStop(serviceName, blocks[i], fails) == start + DrainAll(serviceName, blocks[..i + 1], fails)
  {
    assert blocks[..i + 1][..i] == blocks[..i];
  }

  /** The blocks' state, one entry per block. */
  function States(blocks: seq<ActionBlock>): (r: seq<BlockState>)
    reads blocks
    ensures |r| == |blocks|
    ensures forall i :: 0 <= i < |blocks| ==> r[i] == BlockState(blocks[i].endpoint, blocks[i].queue)
  {
    seq(|blocks|, i requires 0 <= i < |blocks| reads blocks => BlockState(blocks[i].endpoint, blocks[i].queue))
  }

  /** An `ActionBlock<ServiceMsgHandlerEventArgs>` for one endpoint. */
  class ActionBlock {
    const endpoint: Endpoint
    const serviceName: string
    /** Messages posted and not yet processed, oldest first. */
    var queue: seq<ServiceMsg>
    /** Whether `Complete()` has been called; a completed block declines posts. */
    var completed: bool

    constructor (endpoint: Endpoint, serviceName: string)
      ensures this.endpoint == endpoint && this.serviceName == serviceName
      ensures queue == [] && !completed
    {
      this.endpoint := endpoint;
      this.serviceName := serviceName;
      queue := [];
      completed := false;
    }

    /** `Post`: queues the message unless the block is completed. */
    method Post(msg: ServiceMsg) returns (accepted: bool)
      modifies this`queue
      ensures accepted == !completed
      ensures queue == if completed then old(queue) else old(queue) + [msg]
    {
      accepted := !completed;
      if accepted {
        queue := queue + [msg];
      }
    }

    /** `Complete()`: no further posts are accepted. */
    method Complete()
      modifies this`completed
      ensures completed
    {
      completed := true;
    }

    /** The block's delegate run on the oldest queued message: a debug entry,
        the handler inside an enrichment scope over the message's headers, and
        an error entry instead of an exception when the handler throws. */
    method ProcessNext(fails: Failures) returns (events: seq<RunnerEvent>)
      requires |queue| > 0
      modifies this`queue
      ensures queue == old(queue)[1..]
      ensures events == MessageEvents(endpoint, serviceName, old(queue)[0], fails(endpoint.handler, old(queue)[0]))
    {
      var msg := queue[0];
      queue := queue[1..];
      events := [HandlingLogged(endpoint.name, serviceName, msg.subject)];
      var wrapped := EndpointMessage(msg);
      events := events + [ScopeEntered(msg.header)];
      events := events + [HandlerCalled(endpoint.name, wrapped)];
      var threw := fails(endpoint.handler, msg);
      events := events + [ScopeExited];
      if threw {
        events := events + [HandlerErrorLogged(endpoint.name)];
      }
    }

    /** Waiting for `Completion`: every queued message is processed in order. */
    method Drain(fails: Failures) returns (events: seq<RunnerEvent>)
      modifies this`queue
      ensures queue == []
      ensures events == DrainEvents(endpoint, serviceName, old(queue), fails)
    {
      events := [];
      while |queue| > 0
        invariant events + DrainEvents(endpoint, serviceName, queue, fails)
          == DrainEvents(endpoint, serviceName, old(queue), fails)
        decreases |queue|
      {
        ghost var q := queue;
        var more := ProcessNext(fails);
        assert DrainEvents(endpoint, serviceName, q, fails) == more + DrainEvents(endpoint, serviceName, queue, fails);
        events := events + more;
      }
    }
  }

  class WeikioHostedServiceRunner {
    const serviceName: string
    const connection: Connection
    const natsService: NatsServiceInfo
    /** `_endpointsAndActions`: the service endpoint and action block of each
        endpoint, at the same position in both sequences. */
    const serviceEndpoints: seq<ServiceEndpoint>
    const actions: seq<ActionBlock>
    /** What the runner has logged and asked of NATS so far. */
    var trace: seq<RunnerEvent>

    ghost predicate Valid() {
      && |serviceEndpoints| == |actions|
      && natsService.name == serviceName && natsService.endpoints == serviceEndpoints
      && (forall i, j :: 0 <= i < j < |actions| ==> actions[i] != actions[j])
      && (forall i :: 0 <= i < |actions| ==> actions[i].serviceName == serviceName)
    }

    constructor (serviceName: string, connection: Connection, natsService: NatsServiceInfo,
                 serviceEndpoints: seq<ServiceEndpoint>, actions: seq<ActionBlock>)
      requires |serviceEndpoints| == |actions|
      requires natsService.name == serviceName && natsService.endpoints == serviceEndpoints
      requires forall i, j :: 0 <= i < j < |actions| ==> actions[i] != actions[j]
      requires forall i :: 0 <= i < |actions| ==> actions[i].serviceName == serviceName
      ensures Valid()
      ensures this.serviceName == serviceName && this.connection == connection
      ensures this.natsService == natsService
      ensures this.serviceEndpoints == serviceEndpoints && this.actions == actions
      ensures trace == []
    {
      this.serviceName := serviceName;
      this.connection := connection;
      this.natsService := natsService;
      this.serviceEndpoints := serviceEndpoints;
      this.actions := actions;
      trace := [];
    }

    /** The constructor. `connection` is what `NatsConnectionFactory.Create()`
        yields; it is opened first, so its failure comes before any factory is
        invoked. Each factory is then invoked in order; the endpoint's logger
        is built with a `WeikioLogSink`, whose own connection `sinks(i)` must
        open; and the endpoint is given a fresh action block and a service endpoint in the service's group, with
        null metadata replaced by an empty dictionary. */
    static method Create(service: WeikioService, provider: Provider, connection: Result<Connection>,
                         sinks: SinkConnects)
      returns (r: Result<WeikioHostedServiceRunner>)
      ensures connection.Failure? ==> r == Failure(connection.error)
      ensures connection.Success? ==>
        (r.Success? <==> Register(service.endpoints, provider, sinks).Success?)
      ensures connection.Success? && Register(service.endpoints, provider, sinks).Failure? ==>
        r == Failure(Register(service.endpoints, provider, sinks).error)
      ensures r.Success? ==>
        var runner := r.value;
        var es := Register(service.endpoints, provider, sinks).value;
        && fresh(runner) && runner.Valid()
        && runner.serviceName == service.name && runner.connection == connection.value
        && runner.natsService == NatsServiceInfo(service.name, service.version, service.description,
                                                 service.metadata, connection.value, runner.serviceEndpoints)
        && runner.trace == []
        && |runner.actions| == |es|
        && (forall i :: 0 <= i < |es| ==>
              runner.serviceEndpoints[i] == ServiceEndpoint(Group(service.name), es[i].name, es[i].metadata.GetOr(map[])))
        && (forall i :: 0 <= i < |es| ==>
              && fresh(runner.actions[i]) && runner.actions[i].endpoint == es[i]
              && runner.actions[i].queue == [] && !runner.actions[i].completed)
    {
      if connection.Failure? {
        return Failure(connection.error);
      }
      var fs := service.endpoints;
      var group := Group(service.name);
      var endpoints: seq<ServiceEndpoint> := [];
      var blocks: seq<ActionBlock> := [];
      ghost var registered: seq<Endpoint> := [];
      var i := 0;
      while i < |fs|
        invariant 0 <= i <= |fs|
        invariant |registered| == |endpoints| == |blocks| == i
        invariant forall k :: 0 <= k < i ==> RegisterStep(fs[k], provider, sinks(k)) == Success(registered[k])
        invariant forall k :: 0 <= k < i ==>
          endpoints[k] == ServiceEndpoint(group, registered[k].name, registered[k].metadata.GetOr(map[]))
        invariant forall k :: 0 <= k < i ==>
          && fresh(blocks[k]) && blocks[k].endpoint == registered[k] && blocks[k].serviceName == service.name
          && blocks[k].queue == [] && !blocks[k].completed
        invariant forall k, l :: 0 <= k < l < i ==> blocks[k] != blocks[l]
      {
        var invoked := Invoke(fs[i], provider);
        if invoked.Failure? {
          RegisterFirstFailure(fs, provider, sinks, i);
          return Failure(invoked.error);
        }
        var endpoint := invoked.value;
        var sinkConnection := sinks(i);
        if sinkConnection.Failure? {
          RegisterFirstFailure(fs, provider, sinks, i);
          return Failure(sinkConnection.error);
        }
        if !ValidParallelism(endpoint.maxDegreeOfParallelism) {
          RegisterFirstFailure(fs, provider, sinks, i);
          return Failure(ArgumentOutOfRange(endpoint.maxDegreeOfParallelism));
        }
        var action := new ActionBlock(endpoint, service.name);
        var serviceEndpoint := ServiceEndpoint(group, endpoint.name, endpoint.metadata.GetOr(map[]));
        endpoints := endpoints + [serviceEndpoint];
        blocks := blocks + [action];
        registered := registered + [endpoint];
        i := i + 1;
      }
      assert registered == Register(fs, provider, sinks).value;
      var info := NatsServiceInfo(service.name, service.version, service.description, service.metadata,
                                  connection.value, endpoints);
      var runner := new WeikioHostedServiceRunner(service.name, connection.value, info, endpoints, blocks);
      return Success(runner);
    }

    /** `StartAsync`: logs the service name and endpoint count, then starts the
        NATS service. */
    method StartAsync()
      modifies this`trace
      ensures trace == old(trace) + [StartingLogged(natsService.name, |actions|), ServiceStarted]
    {
      trace := trace + [StartingLogged(natsService.name, |actions|)];
      trace := trace + [ServiceStarted];
    }

    /** The handler of service endpoint `i`: posts the message to that
        endpoint's action block, and to no other. */
    method OnMessage(i: nat, msg: ServiceMsg)
      requires Valid() && i < |actions|
      modifies actions[i]
      ensures actions[i].completed == old(actions[i].completed)
      ensures actions[i].queue ==
        if old(actions[i].completed) then old(actions[i].queue) else old(actions[i].queue) + [msg]
      ensures forall j :: 0 <= j < |actions| && j != i ==> actions[j].queue == old(actions[j].queue)
    {
      var _ := actions[i].Post(msg);
    }

    /** Action block `i` processes its oldest message. */
    method Process(i: nat, fails: Failures)
      requires Valid() && i < |actions| && |actions[i].queue| > 0
      modifies this`trace, actions[i]
      ensures actions[i].queue == old(actions[i].queue)[1..]
      ensures actions[i].completed == old(actions[i].completed)
      ensures trace == old(trace) + MessageEvents(actions[i].endpoint, serviceName, old(actions[i].queue)[0],
                                                  fails(actions[i].endpoint.handler, old(actions[i].queue)[0]))
    {
      var events := actions[i].ProcessNext(fails);
      trace := trace + events;
    }

    /** One turn of the stop loop: complete action block `i` and wait until it
        has processed its queue. */
    method StopAction(i: nat, fails: Failures)
      requires Valid() && i < |actions|
      modifies this`trace, actions[i]
      ensures trace == old(trace) + BlockStop(serviceName, BlockState(actions[i].endpoint, old(actions[i].queue)), fails)
      ensures actions[i].queue == [] && actions[i].completed
      ensures forall j :: 0 <= j < |actions| && j != i ==>
        actions[j].queue == old(actions[j].queue) && actions[j].completed == old(actions[j].completed)
    {
      var action := actions[i];
      action.Complete();
      var events := action.Drain(fails);
      trace := trace + ([ActionCompleted(action.endpoint.name)] + events);
    }

    /** `StopAsync`: stops the service, then completes each action block and
        waits for it to finish its queue, in registration order, and finally
        disposes of the connection. */
    method StopAsync(fails: Failures)
      requires Valid()
      modifies this`trace, actions
      ensures trace == old(trace) + StopTrace(serviceName, old(States(actions)), fails)
      ensures forall i :: 0 <= i < |actions| ==> actions[i].queue == [] && actions[i].completed
    {
      ghost var before := States(actions);
      trace := trace + [StoppingLogged(natsService.name)];
      trace := trace + [ServiceStopped];
      assert States(actions) == before;
      DrainActions(fails);
      trace := trace + [ConnectionDisposed];
    }

    /** The loop of `StopAsync`: each action block in turn is completed and
        waited for. */
    method DrainActions(fails: Failures)
      requires Valid()
      modifies this`trace, actions
      ensures trace == old(trace) + DrainAll(serviceName, old(States(actions)), fails)
      ensures forall i :: 0 <= i < |actions| ==> actions[i].queue == [] && actions[i].completed
    {
      ghost var before := States(actions);
      ghost var start := trace;
      var i := 0;
      while i < |actions|
        invariant 0 <= i <= |actions|
        invariant trace == start + DrainAll(serviceName, before[..i], fails)
        invariant forall j :: 0 <= j < i ==> actions[j].queue == [] && actions[j].completed
        invariant forall j :: i <= j < |actions| ==> actions[j].queue == before[j].queue
      {
        ghost var t0 := trace;
        assert BlockState(actions[i].endpoint, actions[i].queue) == before[i];
        StopAction(i, fails);
        DrainAllExtend(start, t0, serviceName, before, i, fails);
        i := i + 1;
      }
      assert before[..|actions|] == before;
    }
  }
}
