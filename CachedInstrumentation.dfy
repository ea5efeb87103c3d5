/**
 * A named instrumentation handle that asks the registry for the current
 * tracer, meter and logger provider at every call, and remembers per kind the
 * last provider it asked and the instance that provider produced, so that a
 * provider is asked again only when the current provider has changed.
 */
module CachedInstrumentations {
  import opened Wrappers
  import opened ScopeStorage
  import opened Globals

  /** The identity forwarded verbatim to whichever provider is asked. */
  datatype Identity = Identity(
    name: string,
    version: Option<string>,
    schemaUrl: Option<string>,
    attributes: map<string, string>)

  /** A tracer, meter or logger: the no-op instance or one a configured provider produced. */
  datatype Instance = NoopInstance | Instance(id: nat)

  /**
   * How the configured providers answer getTracer, getMeter and getLogger:
   * each is an arbitrary function of the provider id and the identity, about
   * which nothing else is known.
   */
  datatype ProviderTable = ProviderTable(
    getTracer: (nat, Identity) -> Instance,
    getMeter: (nat, Identity) -> Instance,
    getLogger: (nat, Identity) -> Instance)

  /** The kinds this handle resolves instances of (the propagator has none). */
  predicate HasInstances(kind: Kind) {
    kind != PropagatorKind
  }

  /** What asking `provider` for an instance of `kind` gives; a no-op provider gives the no-op instance. */
  function Produce(table: ProviderTable, kind: Kind, provider: ProviderRef, identity: Identity): Instance
    requires HasInstances(kind)
  {
    match provider
    case NoopProvider => NoopInstance
    case ConfiguredProvider(p) =>
      match kind
      case TracerKind => table.getTracer(p, identity)
      case MeterKind => table.getMeter(p, identity)
      case LoggerKind => table.getLogger(p, identity)
  }

  /** A remembered answer: the provider that was asked and the instance it gave. */
  datatype CacheEntry = CacheEntry(provider: ProviderRef, instance: Instance)

  /** A lookup hits when the remembered provider is the one that is current now. */
  predicate Hit(entry: Option<CacheEntry>, provider: ProviderRef) {
    entry.Some? && entry.value.provider == provider
  }

  class CachedInstrumentation {
    const identity: Identity
    const table: ProviderTable
    var tracerEntry: Option<CacheEntry>
    var meterEntry: Option<CacheEntry>
    var loggerEntry: Option<CacheEntry>
    /** How many times a provider has been asked for an instance. */
    var providerCalls: nat

    /** A remembered instance is what its provider gives for this identity. */
    ghost predicate EntryValid(entry: Option<CacheEntry>, kind: Kind)
      reads this
      requires HasInstances(kind)
    {
      entry.Some? ==> entry.value.instance == Produce(table, kind, entry.value.provider, identity)
    }

    ghost predicate Valid()
      reads this
    {
      EntryValid(tracerEntry, TracerKind) && EntryValid(meterEntry, MeterKind) && EntryValid(loggerEntry, LoggerKind)
    }

    /** Nothing is resolved at construction: resolution is lazy. */
    constructor (name: string, version: Option<string>, schemaUrl: Option<string>, attributes: map<string, string>, table: ProviderTable)
      ensures Valid()
      ensures identity == Identity(name, version, schemaUrl, attributes) && this.table == table
      ensures tracerEntry == None && meterEntry == None && loggerEntry == None && providerCalls == 0
    {
      this.identity := Identity(name, version, schemaUrl, attributes);
      this.table := table;
      tracerEntry, meterEntry, loggerEntry := None, None, None;
      providerCalls := 0;
    }

    /** The remembered instance when `provider` was the last one asked, otherwise a fresh answer from it. */
    method Lookup(entry: Option<CacheEntry>, kind: Kind, provider: ProviderRef) returns (inst: Instance, entry': CacheEntry)
      requires HasInstances(kind) && EntryValid(entry, kind)
      modifies this`providerCalls
      ensures inst == Produce(table, kind, provider, identity)
      ensures entry' == CacheEntry(provider, inst)
      ensures providerCalls == old(providerCalls) + (if Hit(entry, provider) then 0 else 1)
    {
      if entry.Some? && entry.value.provider == provider {
        inst := entry.value.instance;
      } else {
        inst := Produce(table, kind, provider, identity);
        providerCalls := providerCalls + 1;
      }
      entry' := CacheEntry(provider, inst);
    }

    /** The tracer the current tracer provider gives for this identity. */
    method Tracer(storage: ContextStorage) returns (t: Instance)
      requires Valid()
      modifies this
      ensures Valid()
      ensures t == Produce(table, TracerKind, TracerProvider(storage), identity)
      ensures tracerEntry == Some(CacheEntry(TracerProvider(storage), t))
      ensures meterEntry == old(meterEntry) && loggerEntry == old(loggerEntry)
      ensures providerCalls == old(providerCalls) + (if Hit(old(tracerEntry), TracerProvider(storage)) then 0 else 1)
    {
      var entry;
      t, entry := Lookup(tracerEntry, TracerKind, TracerProvider(storage));
      tracerEntry := Some(entry);
    }

    /** The meter the current meter provider gives for this identity. */
    method Meter(storage: ContextStorage) returns (m: Instance)
      requires Valid()
      modifies this
      ensures Valid()
      ensures m == Produce(table, MeterKind, MeterProvider(storage), identity)
      ensures meterEntry == Some(CacheEntry(MeterProvider(storage), m))
      ensures tracerEntry == old(tracerEntry) && loggerEntry == old(loggerEntry)
      ensures providerCalls == old(providerCalls) + (if Hit(old(meterEntry), MeterProvider(storage)) then 0 else 1)
    {
      var entry;
      m, entry := Lookup(meterEntry, MeterKind, MeterProvider(storage));
      meterEntry := Some(entry);
    }

    /** The logger the current logger provider gives for this identity. */
    method Logger(storage: ContextStorage) returns (l: Instance)
      requires Valid()
      modifies this
      ensures Valid()
      ensures l == Produce(table, LoggerKind, LoggerProvider(storage), identity)
      ensures loggerEntry == Some(CacheEntry(LoggerProvider(storage), l))
      ensures tracerEntry == old(tracerEntry) && meterEntry == old(meterEntry)
      ensures providerCalls == old(providerCalls) + (if Hit(old(loggerEntry), LoggerProvider(storage)) then 0 else 1)
    {
      var entry;
      l, entry := Lookup(loggerEntry, LoggerKind, LoggerProvider(storage));
      loggerEntry := Some(entry);
    }
  }
}
