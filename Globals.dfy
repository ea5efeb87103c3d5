/**
 * The read side of the provider registry: each accessor looks its provider up
 * in the current context and falls back to the no-op provider of its kind.
 * Nothing is cached here; the answer always follows the live current context.
 */
module Globals {
  import opened Wrappers
  import opened Contexts
  import opened ScopeStorage

  /** The four provider kinds the registry resolves. */
  datatype Kind = TracerKind | MeterKind | PropagatorKind | LoggerKind

  /**
   * What an accessor returns: the shared no-op provider of the kind asked for,
   * or a configured provider, identified by the id it is stored under.
   */
  datatype ProviderRef = NoopProvider | ConfiguredProvider(id: nat)

  /** The well-known context keys of the four kinds (the first key ids are reserved for them). */
  function KeyOf(kind: Kind): Key {
    match kind
    case TracerKind => Key(0)
    case MeterKind => Key(1)
    case PropagatorKind => Key(2)
    case LoggerKind => Key(3)
  }

  /** Distinct kinds have distinct keys, so no override can land under another kind. */
  lemma KeysDistinct(a: Kind, b: Kind)
    requires a != b
    ensures KeyOf(a) != KeyOf(b)
  {
  }

  /** The provider of `kind` that `ctx` carries, or the no-op provider when it carries none. */
  function ProviderIn(ctx: Context, kind: Kind): (r: ProviderRef)
    ensures r == NoopProvider <==> KeyOf(kind) !in ctx.Keys()
    ensures r.ConfiguredProvider? ==> ctx.Get(KeyOf(kind)) == Some(r.id)
  {
    match ctx.Get(KeyOf(kind))
    case Some(p) => ConfiguredProvider(p)
    case None => NoopProvider
  }

  /** The tracerProvider accessor: the configured one in the current context, else the no-op one. */
  function TracerProvider(storage: ContextStorage): (r: ProviderRef)
    reads storage
    ensures r == NoopProvider <==> KeyOf(TracerKind) !in storage.Current().Keys()
    ensures r.ConfiguredProvider? ==> storage.Current().Get(KeyOf(TracerKind)) == Some(r.id)
  {
    ProviderIn(storage.Current(), TracerKind)
  }

  /** The meterProvider accessor: the configured one in the current context, else the no-op one. */
  function MeterProvider(storage: ContextStorage): (r: ProviderRef)
    reads storage
    ensures r == NoopProvider <==> KeyOf(MeterKind) !in storage.Current().Keys()
    ensures r.ConfiguredProvider? ==> storage.Current().Get(KeyOf(MeterKind)) == Some(r.id)
  {
    ProviderIn(storage.Current(), MeterKind)
  }

  /** The propagator accessor: the configured one in the current context, else the no-op one. */
  function Propagator(storage: ContextStorage): (r: ProviderRef)
    reads storage
    ensures r == NoopProvider <==> KeyOf(PropagatorKind) !in storage.Current().Keys()
    ensures r.ConfiguredProvider? ==> storage.Current().Get(KeyOf(PropagatorKind)) == Some(r.id)
  {
    ProviderIn(storage.Current(), PropagatorKind)
  }

  /** The loggerProvider accessor: the configured one in the current context, else the no-op one. */
  function LoggerProvider(storage: ContextStorage): (r: ProviderRef)
    reads storage
    ensures r == NoopProvider <==> KeyOf(LoggerKind) !in storage.Current().Keys()
    ensures r.ConfiguredProvider? ==> storage.Current().Get(KeyOf(LoggerKind)) == Some(r.id)
  {
    ProviderIn(storage.Current(), LoggerKind)
  }

  /** With nothing configured (the root context is current) every accessor gives the no-op provider. */
  lemma NothingConfiguredGivesNoop(storage: ContextStorage)
    requires storage.Current() == Root
    ensures TracerProvider(storage) == NoopProvider
    ensures MeterProvider(storage) == NoopProvider
    ensures Propagator(storage) == NoopProvider
    ensures LoggerProvider(storage) == NoopProvider
  {
  }

  /** Binding a key other than `kind`'s own leaves what `kind` resolves to unchanged. */
  lemma OtherKeysDoNotMatter(ctx: Context, k: Key, v: Value, kind: Kind)
    requires k != KeyOf(kind)
    ensures ProviderIn(ctx.With(k, v), kind) == ProviderIn(ctx, kind)
  {
  }
}
