/** `WeikioLogSink`: forwards a log event that carries the integration-name
    property to NATS under `il.<yyyyMMdd>.<integration>.<agent>.<environment>.<corrId>.<Level>`.
    A failed publish is answered by one new connection from the sink's
    `NatsConnectionFactory` (which replaces the sink's own) and one more
    publish; a failure of either is written to the local log and swallowed.
    The local date, the NATS client's connect result and the outcome of each
    publish are inputs. */
module LogSink {
  import opened Common
  import opened Text
  import opened LogEvents
  import opened LogEnrichment
  import opened NatsConnections

  const PUBLISH_FAILED_MESSAGE: string := "Failed to write Log Message to NATS"

  datatype Date = Date(year: int, month: int, day: int)

  predicate IsLeapYear(year: int) {
    year % 4 == 0 && (year % 100 != 0 || year % 400 == 0)
  }

  function DaysInMonth(year: int, month: int): int {
    if month == 2 then (if IsLeapYear(year) then 29 else 28)
    else if month in {4, 6, 9, 11} then 30
    else 31
  }

  /** A `DateTime` calendar date: years 1 to 9999. */
  type LocalDate = d: Date |
    && 1 <= d.year <= 9999 && 1 <= d.month <= 12 && 1 <= d.day <= DaysInMonth(d.year, d.month)
    witness Date(1, 1, 1)

  /** `{date:yyyyMMdd}`. */
  function DateStamp(date: LocalDate): (s: string)
    ensures |s| == 8 && AllDigits(s)
  {
    PadDigits(date.year, 4) + PadDigits(date.month, 2) + PadDigits(date.day, 2)
  }

  /** Reading a `yyyyMMdd` stamp back into a date. */
  function ParseDateStamp(s: string): Date
    requires |s| == 8 && AllDigits(s)
  {
    Date(DigitsValue(s[..4]), DigitsValue(s[4..6]), DigitsValue(s[6..]))
  }

  /** The date stamp identifies the date: reading it back gives the date. */
  lemma DateStampRoundTrip(date: LocalDate)
    ensures ParseDateStamp(DateStamp(date)) == date
  {
    var s := DateStamp(date);
    assert s[..4] == PadDigits(date.year, 4);
    assert s[4..6] == PadDigits(date.month, 2);
    assert s[6..] == PadDigits(date.day, 2);
    PadDigitsValue(date.year, 4);
    PadDigitsValue(date.month, 2);
    PadDigitsValue(date.day, 2);
  }

  /** The subject a log event is published under,
      `il.<yyyyMMdd>.<integration>.<agent>.<environment>.<corrId>.<Level>`
      (grouped from the right, which concatenation does not notice). */
  function Subject(date: LocalDate, integration: string, agent: string, environment: string,
                   correlationId: string, level: Level): string
  {
    "il" + "." + (DateStamp(date) + "." + (integration + "." + (agent + "." + (environment + "."
      + (correlationId + "." + LevelName(level))))))
  }

  /** The subject is its seven tokens joined by dots. */
  lemma SubjectJoined(date: LocalDate, integration: string, agent: string, environment: string,
                      correlationId: string, level: Level)
    ensures JoinWithDots(["il", DateStamp(date), integration, agent, environment, correlationId, LevelName(level)])
            == Subject(date, integration, agent, environment, correlationId, level)
  {
    var parts := ["il", DateStamp(date), integration, agent, environment, correlationId, LevelName(level)];
    assert JoinWithDots(parts[6..]) == LevelName(level);
    assert JoinWithDots(parts[5..]) == correlationId + "." + LevelName(level);
    assert JoinWithDots(parts[4..]) == environment + "." + JoinWithDots(parts[5..]);
    assert JoinWithDots(parts[3..]) == agent + "." + JoinWithDots(parts[4..]);
    assert JoinWithDots(parts[2..]) == integration + "." + JoinWithDots(parts[3..]);
    assert JoinWithDots(parts[1..]) == DateStamp(date) + "." + JoinWithDots(parts[2..]);
    assert JoinWithDots(parts) == "il." + JoinWithDots(parts[1..]);
  }

  /** When no correlation value contains a dot, a subscriber splitting the subject
      into tokens recovers the prefix, the date, the four values and the level,
      in that order. */
  lemma SubjectTokens(date: LocalDate, integration: string, agent: string, environment: string,
                      correlationId: string, level: Level)
    requires '.' !in integration && '.' !in agent && '.' !in environment && '.' !in correlationId
    ensures SplitOnDot(Subject(date, integration, agent, environment, correlationId, level))
            == ["il", DateStamp(date), integration, agent, environment, correlationId, LevelName(level)]
  {
    var parts := ["il", DateStamp(date), integration, agent, environment, correlationId, LevelName(level)];
    assert '.' !in DateStamp(date) by {
      var s := DateStamp(date);
      forall i | 0 <= i < |s| ensures s[i] != '.' {
        assert IsDigit(s[i]);
      }
    }
    SubjectJoined(date, integration, agent, environment, correlationId, level);
    SplitJoin(parts);
  }

  /** `GetPropertyValue(name)`: the indexer throws for a missing property; a
      non-null scalar gives its text, anything else the empty string. */
  function GetPropertyValue(props: Properties, name: string): (r: Result<string>)
    ensures name !in props <==> r == Failure(KeyNotFound(name))
    ensures name in props && props[name].Scalar? && props[name].value.Some? ==>
      r == Success(props[name].value.value)
    ensures name in props && !(props[name].Scalar? && props[name].value.Some?) ==> r == Success("")
  {
    if name !in props then Failure(KeyNotFound(name))
    else
      match props[name]
      case Scalar(Some(text)) => Success(text)
      case _ => Success("")
  }

  /** The subject an event carrying the integration name is published under, or
      the `KeyNotFoundException` of the first of the other three properties it
      lacks (agent, then environment, then correlation id). */
  function ForwardSubject(props: Properties, level: Level, today: LocalDate): (r: Result<string>)
    requires INTEGRATION_NAME in props
    ensures r.Failure? <==> !(AGENT in props && ENVIRONMENT in props && CORRELATION_ID in props)
    ensures r.Failure? ==>
      r.error == KeyNotFound(if AGENT !in props then AGENT
                             else if ENVIRONMENT !in props then ENVIRONMENT
                             else CORRELATION_ID)
    ensures r.Success? ==>
      r.value == Subject(today, GetPropertyValue(props, INTEGRATION_NAME).value,
                         GetPropertyValue(props, AGENT).value, GetPropertyValue(props, ENVIRONMENT).value,
                         GetPropertyValue(props, CORRELATION_ID).value, level)
  {
    var integration := GetPropertyValue(props, INTEGRATION_NAME);
    var agent := GetPropertyValue(props, AGENT);
    var environment := GetPropertyValue(props, ENVIRONMENT);
    var correlationId := GetPropertyValue(props, CORRELATION_ID);
    if agent.Failure? then Failure(agent.error)
    else if environment.Failure? then Failure(environment.error)
    else if correlationId.Failure? then Failure(correlationId.error)
    else Success(Subject(today, integration.value, agent.value, environment.value,
                         correlationId.value, level))
  }

  /** One observable step of `Emit`. */
  datatype SinkEffect =
    | PublishAttempt(connection: Connection, subject: string, payload: seq<byte>)
    | CreateAttempt
    | ConnectErrorLogged(message: string)
    | FatalLogged(message: string)

  /** What the NATS side does during one `Emit`: whether the first publish
      succeeds, what the NATS client's connect call inside
      `NatsConnectionFactory.Create()` yields, and whether the second publish
      succeeds. */
  datatype BusBehaviour = BusBehaviour(firstPublishOk: bool, reconnectDial: Result<nat>,
                                       secondPublishOk: bool)

  /** The effects of one `Emit`, the sink's connection afterwards, and the
      exception that escapes it, if any. */
  datatype EmitOutcome = EmitOutcome(effects: seq<SinkEffect>, connection: Connection,
                                     thrown: Option<Error>)

  /** How many of `effects` are publishes, connection attempts, connect-error
      entries or fatal entries. */
  function Publishes(effects: seq<SinkEffect>): nat {
    if |effects| == 0 then 0 else (if effects[0].PublishAttempt? then 1 else 0) + Publishes(effects[1..])
  }

  function Creates(effects: seq<SinkEffect>): nat {
    if |effects| == 0 then 0 else (if effects[0].CreateAttempt? then 1 else 0) + Creates(effects[1..])
  }

  function ConnectErrors(effects: seq<SinkEffect>): nat {
    if |effects| == 0 then 0 else (if effects[0].ConnectErrorLogged? then 1 else 0) + ConnectErrors(effects[1..])
  }

  function Fatals(effects: seq<SinkEffect>): nat {
    if |effects| == 0 then 0 else (if effects[0].FatalLogged? then 1 else 0) + Fatals(effects[1..])
  }

  /** The connect error `Create()` logs when it fails to connect. */
  function ConnectLog(reconnect: ConnectOutcome): seq<SinkEffect> {
    if reconnect.errorLogged then [ConnectErrorLogged(CONNECT_ERROR_MESSAGE)] else []
  }

  /** What follows a failed first publish: the call of `Create()` and what it
      logs, then either the second publish on the new connection or, when no
      connection came back, the fatal entry; a failed second publish adds the
      fatal entry too. */
  function Retry(reconnect: ConnectOutcome, subject: string, payload: seq<byte>, secondPublishOk: bool)
    : seq<SinkEffect>
  {
    [CreateAttempt] + ConnectLog(reconnect) +
    match reconnect.result
    case Failure(_) => [FatalLogged(PUBLISH_FAILED_MESSAGE)]
    case Success(replacement) =>
      [PublishAttempt(replacement, subject, payload)] +
      (if secondPublishOk then [] else [FatalLogged(PUBLISH_FAILED_MESSAGE)])
  }

  /** The retry creates one connection, passes on the connect error the
      factory logs, publishes once more only on the connection the factory
      returned and with the same subject and payload, and logs one fatal entry exactly when there is
      no new connection or the second publish fails. */
  lemma RetryCounts(reconnect: ConnectOutcome, subject: string, payload: seq<byte>, secondPublishOk: bool)
    ensures var e := Retry(reconnect, subject, payload, secondPublishOk);
      && Creates(e) == 1
      && ConnectErrors(e) == (if reconnect.errorLogged then 1 else 0)
      && Publishes(e) == (if reconnect.result.Success? then 1 else 0)
      && Fatals(e) == (if reconnect.result.Failure? || !secondPublishOk then 1 else 0)
      && (forall i :: 0 <= i < |e| && e[i].PublishAttempt? ==>
            e[i].subject == subject && e[i].payload == payload)
      && (forall i :: 0 <= i < |e| && e[i].PublishAttempt? ==>
            reconnect.result.Success? && e[i].connection == reconnect.result.value)
  {
    var tail := match reconnect.result
      case Failure(_) => [FatalLogged(PUBLISH_FAILED_MESSAGE)]
      case Success(replacement) =>
        [PublishAttempt(replacement, subject, payload)] +
        (if secondPublishOk then [] else [FatalLogged(PUBLISH_FAILED_MESSAGE)]);
    CountsConcat([CreateAttempt], ConnectLog(reconnect));
    CountsConcat([CreateAttempt] + ConnectLog(reconnect), tail);
    if reconnect.result.Success? {
      CountsConcat([PublishAttempt(reconnect.result.value, subject, payload)],
                   if secondPublishOk then [] else [FatalLogged(PUBLISH_FAILED_MESSAGE)]);
    }
  }

  /** The `Emit` state machine; `configuration` is what the sink's
      `NatsConnectionFactory` reads when it reconnects. */
  function EmitSpec(props: Properties, level: Level, rendered: string, today: LocalDate,
                    configuration: Configuration, connection: Connection, bus: BusBehaviour): (o: EmitOutcome)
    // filtered out: no connection activity at all
    ensures INTEGRATION_NAME !in props ==> o == EmitOutcome([], connection, None)
    // a missing agent, environment or correlation id throws before anything is published
    ensures INTEGRATION_NAME in props && ForwardSubject(props, level, today).Failure? ==>
      o == EmitOutcome([], connection, Some(ForwardSubject(props, level, today).error))
    // otherwise nothing escapes, and the first step publishes on the current connection
    ensures INTEGRATION_NAME in props && ForwardSubject(props, level, today).Success? ==>
      && o.thrown == None && 1 <= |o.effects|
      && o.effects[0] == PublishAttempt(connection, ForwardSubject(props, level, today).value, Utf8(rendered))
  {
    var payload := Utf8(rendered);
    if INTEGRATION_NAME !in props then EmitOutcome([], connection, None)
    else
      match ForwardSubject(props, level, today)
      case Failure(e) => EmitOutcome([], connection, Some(e))
      case Success(subject) =>
        var first := PublishAttempt(connection, subject, payload);
        if bus.firstPublishOk then EmitOutcome([first], connection, None)
        else
          var reconnect := CreateOutcome(configuration, false, bus.reconnectDial);
          EmitOutcome([first] + Retry(reconnect, subject, payload, bus.secondPublishOk),
                      if reconnect.result.Success? then reconnect.result.value else connection, None)
  }

  /** A forwarded event is published at most twice, always with the same subject
      and payload; a first publish that succeeds is the only step; and a second
      publish goes over the connection the sink holds afterwards. */
  lemma EmitPublishes(props: Properties, level: Level, rendered: string, today: LocalDate,
                      configuration: Configuration, connection: Connection, bus: BusBehaviour)
    requires INTEGRATION_NAME in props && ForwardSubject(props, level, today).Success?
    ensures var o := EmitSpec(props, level, rendered, today, configuration, connection, bus);
      var subject := ForwardSubject(props, level, today).value;
      && (bus.firstPublishOk ==> o.effects == [PublishAttempt(connection, subject, Utf8(rendered))])
      && Publishes(o.effects) <= 2
      && (forall i :: 0 <= i < |o.effects| && o.effects[i].PublishAttempt? ==>
            o.effects[i].subject == subject && o.effects[i].payload == Utf8(rendered))
      && (forall i :: 1 <= i < |o.effects| && o.effects[i].PublishAttempt? ==>
            o.effects[i].connection == o.connection)
  {
    if !bus.firstPublishOk {
      var subject := ForwardSubject(props, level, today).value;
      var reconnect := CreateOutcome(configuration, false, bus.reconnectDial);
      var first := PublishAttempt(connection, subject, Utf8(rendered));
      var retry := Retry(reconnect, subject, Utf8(rendered), bus.secondPublishOk);
      RetryCounts(reconnect, subject, Utf8(rendered), bus.secondPublishOk);
      CountsConcat([first], retry);
      var e := EmitSpec(props, level, rendered, today, configuration, connection, bus).effects;
      assert e == [first] + retry;
      forall i | 1 <= i < |e| ensures e[i] == retry[i - 1] {
      }
    }
  }

  /** Reconnecting goes through `NatsConnectionFactory.Create()` at most once and
      only after a failed first publish; the connect error that call logs is
      passed through; the sink's connection is replaced by the factory's
      connection exactly when it returns one; and one fatal entry is logged
      exactly when reconnecting or republishing fails. */
  lemma EmitRetry(props: Properties, level: Level, rendered: string, today: LocalDate,
                  configuration: Configuration, connection: Connection, bus: BusBehaviour)
    requires INTEGRATION_NAME in props && ForwardSubject(props, level, today).Success?
    ensures var o := EmitSpec(props, level, rendered, today, configuration, connection, bus);
      var reconnect := CreateOutcome(configuration, false, bus.reconnectDial);
      && Creates(o.effects) == (if bus.firstPublishOk then 0 else 1)
      && ConnectErrors(o.effects) == (if !bus.firstPublishOk && reconnect.errorLogged then 1 else 0)
      && o.connection == (if !bus.firstPublishOk && reconnect.result.Success? then reconnect.result.value
                          else connection)
      && Fatals(o.effects) ==
           (if !bus.firstPublishOk && (reconnect.result.Failure? || !bus.secondPublishOk) then 1 else 0)
  {
    if !bus.firstPublishOk {
      var subject := ForwardSubject(props, level, today).value;
      var reconnect := CreateOutcome(configuration, false, bus.reconnectDial);
      var first := PublishAttempt(connection, subject, Utf8(rendered));
      var retry := Retry(reconnect, subject, Utf8(rendered), bus.secondPublishOk);
      RetryCounts(reconnect, subject, Utf8(rendered), bus.secondPublishOk);
      CountsConcat([first], retry);
    }
  }

  /** Counting distributes over concatenation. */
  lemma {:induction false} CountsConcat(a: seq<SinkEffect>, b: seq<SinkEffect>)
    ensures Publishes(a + b) == Publishes(a) + Publishes(b)
    ensures Creates(a + b) == Creates(a) + Creates(b)
    ensures ConnectErrors(a + b) == ConnectErrors(a) + ConnectErrors(b)
    ensures Fatals(a + b) == Fatals(a) + Fatals(b)
  {
    if |a| == 0 {
      assert a + b == b;
    } else {
      assert (a + b)[1..] == a[1..] + b;
      CountsConcat(a[1..], b);
    }
  }

  /** An event enriched from a message's headers, carrying none of the four
      properties before, is forwarded under a subject built from those header
      values (a missing header gives an empty token). */
  lemma EnrichedEventSubject(props: Properties, header: Dict, level: Level, today: LocalDate)
    requires forall k :: k in CORRELATION_KEYS ==> k !in props
    ensures var enriched := Enriched(props, header);
      INTEGRATION_NAME in enriched &&
      ForwardSubject(enriched, level, today) ==
        Success(Subject(today, Lookup(header, INTEGRATION_NAME).GetOr(""), Lookup(header, AGENT).GetOr(""),
                        Lookup(header, ENVIRONMENT).GetOr(""), Lookup(header, CORRELATION_ID).GetOr(""),
                        level))
  {
    var enriched := Enriched(props, header);
    assert enriched[INTEGRATION_NAME] == HeaderProperty(header, INTEGRATION_NAME);
    assert enriched[AGENT] == HeaderProperty(header, AGENT);
    assert enriched[ENVIRONMENT] == HeaderProperty(header, ENVIRONMENT);
    assert enriched[CORRELATION_ID] == HeaderProperty(header, CORRELATION_ID);
  }

  class WeikioLogSink {
    /** The `NatsConnectionFactory` the sink resolves from its service provider. */
    const factory: NatsConnectionFactory
    /** `_connection`: opened by `Create()` in the constructor and replaced by a
        successful reconnect. */
    var connection: Connection

    constructor (factory: NatsConnectionFactory, connection: Connection)
      ensures this.factory == factory && this.connection == connection
    {
      this.factory := factory;
      this.connection := connection;
    }

    /** `new WeikioLogSink(serviceProvider)`: the sink exists only when the
        factory's `Create()` returns a connection, and then holds that
        connection; otherwise its exception escapes the constructor. */
    static method Open(factory: NatsConnectionFactory, dial: Result<nat>)
      returns (sink: Result<WeikioLogSink>, errorLogged: bool)
      ensures var created := CreateOutcome(factory.configuration, false, dial);
        && errorLogged == created.errorLogged
        && (sink.Success? <==> created.result.Success?)
        && (sink.Failure? ==> sink.error == created.result.error)
        && (sink.Success? ==> fresh(sink.value) && sink.value.factory == factory
                              && sink.value.connection == created.result.value)
    {
      var r;
      r, errorLogged := factory.Create(dial);
      match r {
        case Failure(e) =>
          sink := Failure(e);
        case Success(c) =>
          var s := new WeikioLogSink(factory, c);
          sink := Success(s);
      }
    }

    method Emit(logEvent: LogEvent, today: LocalDate, bus: BusBehaviour)
      returns (effects: seq<SinkEffect>, thrown: Option<Error>)
      modifies this`connection
      ensures EmitOutcome(effects, connection, thrown) ==
        EmitSpec(logEvent.properties, logEvent.level, logEvent.rendered, today,
                 factory.configuration, old(connection), bus)
    {
      var logMessage := logEvent.rendered;
      var props := logEvent.properties;
      effects, thrown := [], None;
      if INTEGRATION_NAME !in props {
        return;
      }
      var integrationName := GetPropertyValue(props, INTEGRATION_NAME);
      var agent := GetPropertyValue(props, AGENT);
      if agent.Failure? {
        thrown := Some(agent.error);
        return;
      }
      // the second read of the environment property fails exactly when this one does
      var environment := GetPropertyValue(props, ENVIRONMENT);
      if environment.Failure? {
        thrown := Some(environment.error);
        return;
      }
      var correlationId := GetPropertyValue(props, CORRELATION_ID);
      if correlationId.Failure? {
        thrown := Some(correlationId.error);
        return;
      }
      var subject := Subject(today, integrationName.value, agent.value, environment.value,
                             correlationId.value, logEvent.level);
      assert ForwardSubject(props, logEvent.level, today) == Success(subject);
      var payload := Utf8(logMessage);
      var first := PublishAttempt(connection, subject, payload);
      effects := [first];
      if !bus.firstPublishOk {
        var retry := [CreateAttempt];
        var replacement, connectErrorLogged := factory.Create(bus.reconnectDial);
        if connectErrorLogged {
          retry := retry + [ConnectErrorLogged(CONNECT_ERROR_MESSAGE)];
        }
        match replacement {
          case Failure(_) =>
            retry := retry + [FatalLogged(PUBLISH_FAILED_MESSAGE)];
          case Success(c) =>
            connection := c;
            var tail := [PublishAttempt(connection, subject, payload)];
            if !bus.secondPublishOk {
              tail := tail + [FatalLogged(PUBLISH_FAILED_MESSAGE)];
            }
            retry := retry + tail;
        }
        assert retry == Retry(ConnectOutcome(replacement, connectErrorLogged), subject, payload,
                              bus.secondPublishOk);
        effects := effects + retry;
      }
    }
  }
}
