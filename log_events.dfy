/** The part of Serilog's `LogEvent` the SDK touches: its level, its rendered
    form, and its property map with `AddPropertyIfAbsent`; plus the four
    correlation property names the SDK agrees on. */
module LogEvents {
  import Common

  const INTEGRATION_NAME: string := "Weikio-Integration-Name"
  const AGENT: string := "Weikio-Agent"
  const ENVIRONMENT: string := "Weikio-Environment"
  const CORRELATION_ID: string := "Weikio-CorrId"

  /** The correlation properties. */
  const CORRELATION_KEYS: set<string> := {INTEGRATION_NAME, AGENT, ENVIRONMENT, CORRELATION_ID}

  /** `LogEventLevel`. */
  datatype Level = Verbose | Debug | Information | Warning | Error | Fatal

  /** `level.ToString()`: the enum member's name. */
  function LevelName(level: Level): (name: string)
    ensures ParseLevel(name) == Common.Some(level)
    ensures |name| > 0 && '.' !in name
  {
    match level
    case Verbose => "Verbose"
    case Debug => "Debug"
    case Information => "Information"
    case Warning => "Warning"
    case Error => "Error"
    case Fatal => "Fatal"
  }

  /** `Enum.Parse<LogEventLevel>(name)` on exact member names: what a reader of
      the subject's last token recovers. */
  function ParseLevel(name: string): Common.Option<Level> {
    if name == "Verbose" then Common.Some(Verbose)
    else if name == "Debug" then Common.Some(Debug)
    else if name == "Information" then Common.Some(Information)
    else if name == "Warning" then Common.Some(Warning)
    else if name == "Error" then Common.Some(Error)
    else if name == "Fatal" then Common.Some(Fatal)
    else Common.None
  }

  /** `LogEventPropertyValue`: a scalar (whose value may be null, rendered with
      `ToString()`), or a sequence, structure or dictionary value. */
  datatype PropertyValue = Scalar(value: Common.Option<string>) | NonScalar(rendered: string)

  type Properties = map<string, PropertyValue>

  /** The property map after `AddPropertyIfAbsent(name, value)`. */
  function AddIfAbsent(props: Properties, name: string, value: PropertyValue): (r: Properties)
    ensures r.Keys == props.Keys + {name}
    ensures name in props ==> r == props
    ensures name !in props ==> r[name] == value && forall k :: k in props ==> r[k] == props[k]
  {
    if name in props then props else props[name := value]
  }

  class LogEvent {
    const level: Level
    /** What `CompactJsonFormatter` writes for the event; treated as opaque. */
    const rendered: string
    var properties: Properties

    constructor (level: Level, rendered: string, properties: Properties)
      ensures this.level == level && this.rendered == rendered && this.properties == properties
    {
      this.level := level;
      this.rendered := rendered;
      this.properties := properties;
    }

    method AddPropertyIfAbsent(name: string, value: PropertyValue)
      modifies this`properties
      ensures properties == AddIfAbsent(old(properties), name, value)
    {
      if name !in properties {
        properties := properties[name := value];
      }
    }
  }
}
