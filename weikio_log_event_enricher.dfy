/** `WeikioLogEventEnricher`: copies the four correlation headers of an inbound
    message into a log event's properties, never overwriting one that is
    already there. A header the message lacks reads as null and is added as a
    null scalar. */
module LogEnrichment {
  import opened Common
  import opened LogEvents

  /** `propertyFactory.CreateProperty(key, header[key])`. */
  function HeaderProperty(header: Dict, key: string): PropertyValue {
    Scalar(Lookup(header, key))
  }

  /** The names `Enrich` copies, in the order it copies them. */
  const ENRICHED_NAMES: seq<string> := [INTEGRATION_NAME, AGENT, ENVIRONMENT, CORRELATION_ID]

  /** `AddPropertyIfAbsent(name, header[name])` for each of `names` in turn. */
  function AddAllFromHeader(props: Properties, names: seq<string>, header: Dict): (r: Properties)
    ensures r.Keys == props.Keys + set n | n in names
    ensures forall k :: k in props ==> r[k] == props[k]
    ensures forall k :: k in r && k !in props ==> r[k] == HeaderProperty(header, k)
    decreases |names|
  {
    if names == [] then props
    else
      var last := names[|names| - 1];
      AddIfAbsent(AddAllFromHeader(props, names[..|names| - 1], header), last, HeaderProperty(header, last))
  }

  /** The property map after `Enrich`: the four add-if-absent steps in order. */
  function Enriched(props: Properties, header: Dict): (r: Properties)
    ensures r.Keys == props.Keys + CORRELATION_KEYS
    ensures forall k :: k in props ==> r[k] == props[k]
    ensures forall k :: k in r && k !in props ==> r[k] == HeaderProperty(header, k)
  {
    assert (set n | n in ENRICHED_NAMES) == CORRELATION_KEYS;
    AddAllFromHeader(props, ENRICHED_NAMES, header)
  }

  /** Enriching twice with the same header is enriching once. */
  lemma EnrichIdempotent(props: Properties, header: Dict)
    ensures Enriched(Enriched(props, header), header) == Enriched(props, header)
  {
    var once := Enriched(props, header);
    var twice := Enriched(once, header);
    assert twice.Keys == once.Keys;
    assert forall k :: k in once ==> twice[k] == once[k];
  }

  class WeikioLogEventEnricher {
    const header: Dict

    constructor (header: Dict)
      ensures this.header == header
    {
      this.header := header;
    }

    method Enrich(logEvent: LogEvent)
      modifies logEvent`properties
      ensures logEvent.properties == Enriched(old(logEvent.properties), header)
    {
      ghost var start := logEvent.properties;
      logEvent.AddPropertyIfAbsent(INTEGRATION_NAME, HeaderProperty(header, INTEGRATION_NAME));
      assert ENRICHED_NAMES[..1][..0] == [];
      assert logEvent.properties == AddAllFromHeader(start, ENRICHED_NAMES[..1], header);
      logEvent.AddPropertyIfAbsent(AGENT, HeaderProperty(header, AGENT));
      assert ENRICHED_NAMES[..2][..1] == ENRICHED_NAMES[..1];
      assert logEvent.properties == AddAllFromHeader(start, ENRICHED_NAMES[..2], header);
      logEvent.AddPropertyIfAbsent(ENVIRONMENT, HeaderProperty(header, ENVIRONMENT));
      assert ENRICHED_NAMES[..3][..2] == ENRICHED_NAMES[..2];
      assert logEvent.properties == AddAllFromHeader(start, ENRICHED_NAMES[..3], header);
      logEvent.AddPropertyIfAbsent(CORRELATION_ID, HeaderProperty(header, CORRELATION_ID));
      assert ENRICHED_NAMES[..3] == ENRICHED_NAMES[..|ENRICHED_NAMES| - 1];
    }
  }
}
