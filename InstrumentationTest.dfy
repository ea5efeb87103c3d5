/**
 * The registry scenarios, each run against a fresh storage: no-op defaults,
 * configured providers returned by identity until their scope is detached,
 * and a handle built before configuration resolving through the providers
 * that are current when it is asked.
 */
module InstrumentationTest {
  import opened Wrappers
  import opened Contexts
  import opened ScopeModel
  import opened ScopeStorage
  import opened Globals
  import opened Configurators
  import opened CachedInstrumentations

  /** Nothing configured: all four accessors give the no-op provider. */
  method GlobalsNotConfiguredReturnsNoopInstances() returns (t: ProviderRef, m: ProviderRef, x: ProviderRef, l: ProviderRef)
    ensures t == NoopProvider && m == NoopProvider && x == NoopProvider && l == NoopProvider
  {
    var storage := new ContextStorage();
    NothingConfiguredGivesNoop(storage);
    t, m, x, l := TracerProvider(storage), MeterProvider(storage), Propagator(storage), LoggerProvider(storage);
  }

  /**
   * After create()->withTracerProvider(p)->withMeterProvider(m)
   * ->withPropagator(x)->withLoggerProvider(l)->activate(), each accessor
   * gives exactly its provider; after detaching the scope they are no-op again.
   */
  method GlobalsReturnsConfiguredInstances(p: nat, m: nat, x: nat, l: nat) returns (during: seq<ProviderRef>, err: Option<Diagnostic>, after: seq<ProviderRef>)
    ensures during == [ConfiguredProvider(p), ConfiguredProvider(m), ConfiguredProvider(x), ConfiguredProvider(l)]
    ensures err == None
    ensures after == [NoopProvider, NoopProvider, NoopProvider, NoopProvider]
  {
    var storage := new ContextStorage();
    var c := Configurator.Create().WithTracerProvider(p).WithMeterProvider(m).WithPropagator(x).WithLoggerProvider(l);
    var scope := c.Activate(storage, true, None);
    during := [TracerProvider(storage), MeterProvider(storage), Propagator(storage), LoggerProvider(storage)];
    err := storage.Detach(scope);
    assert storage.Current() == Root;
    after := [TracerProvider(storage), MeterProvider(storage), Propagator(storage), LoggerProvider(storage)];
  }

  /** An unconfigured handle gives the no-op tracer and the no-op meter. */
  method InstrumentationNotConfiguredReturnsNoopInstances(table: ProviderTable) returns (t: Instance, m: Instance)
    ensures t == NoopInstance && m == NoopInstance
  {
    var storage := new ContextStorage();
    var instrumentation := new CachedInstrumentation("", None, None, map[], table);
    t := instrumentation.Tracer(storage);
    m := instrumentation.Meter(storage);
  }

  /**
   * A handle built before the configurator is activated gives, afterwards,
   * exactly what the configured providers' getTracer, getMeter and getLogger
   * produce for its identity.
   */
  method InstrumentationReturnsConfiguredInstances(table: ProviderTable, p: nat, m: nat, l: nat, x: nat)
    returns (tracer: Instance, meter: Instance, logger: Instance, err: Option<Diagnostic>)
    ensures tracer == table.getTracer(p, Identity("", None, None, map[]))
    ensures meter == table.getMeter(m, Identity("", None, None, map[]))
    ensures logger == table.getLogger(l, Identity("", None, None, map[]))
    ensures err == None
  {
    var storage := new ContextStorage();
    var instrumentation := new CachedInstrumentation("", None, None, map[], table);
    var c := Configurator.Create().WithTracerProvider(p).WithMeterProvider(m).WithLoggerProvider(l).WithPropagator(x);
    ActivateThenDetachRestores(storage.Model(), c, true);
    var scope := c.Activate(storage, true, None);
    assert TracerProvider(storage) == ConfiguredProvider(p);
    assert MeterProvider(storage) == ConfiguredProvider(m);
    assert LoggerProvider(storage) == ConfiguredProvider(l);
    tracer := instrumentation.Tracer(storage);
    meter := instrumentation.Meter(storage);
    logger := instrumentation.Logger(storage);
    err := storage.Detach(scope);
  }

  /**
   * Asking twice while the configuration is stable asks the provider once;
   * after a new configurator is activated the next call asks the new provider.
   */
  method ReconfigurationIsObserved(table: ProviderTable, p: nat, q: nat)
    returns (first: Instance, again: Instance, afterChange: Instance, calls: nat)
    requires p != q
    ensures first == again == table.getTracer(p, Identity("", None, None, map[]))
    ensures afterChange == table.getTracer(q, Identity("", None, None, map[]))
    ensures calls == 2
  {
    var storage := new ContextStorage();
    var instrumentation := new CachedInstrumentation("", None, None, map[], table);
    var outer := Configurator.Create().WithTracerProvider(p).Activate(storage, true, None);
    first := instrumentation.Tracer(storage);
    again := instrumentation.Tracer(storage);
    var inner := Configurator.Create().WithTracerProvider(q).Activate(storage, true, None);
    afterChange := instrumentation.Tracer(storage);
    calls := instrumentation.providerCalls;
  }
}
