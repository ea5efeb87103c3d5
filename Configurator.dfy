/**
 * The write side of the provider registry: an immutable builder whose with*
 * calls each override one provider kind, and whose activation makes a context
 * carrying the overrides current until the returned scope is detached.
 */
module Configurators {
  import opened Wrappers
  import opened Contexts
  import opened ScopeModel
  import opened ScopeStorage
  import opened Globals
  import ScopeLemmas

  datatype Configurator = Configurator(
    tracerProvider: Option<nat>,
    meterProvider: Option<nat>,
    propagator: Option<nat>,
    loggerProvider: Option<nat>)
  {
    /** The override of `kind`, if one was given. */
    function Get(kind: Kind): Option<nat> {
      match kind
      case TracerKind => tracerProvider
      case MeterKind => meterProvider
      case PropagatorKind => propagator
      case LoggerKind => loggerProvider
    }

    /** A configurator that overrides nothing. */
    static function Create(): (c: Configurator)
      ensures forall kind :: c.Get(kind) == None
    {
      Configurator(None, None, None, None)
    }

    /** A copy of this configurator with `kind` overridden by `p`; the four with* calls are its instances. */
    function WithProvider(kind: Kind, p: nat): (c: Configurator)
      ensures c.Get(kind) == Some(p)
      ensures forall other :: other != kind ==> c.Get(other) == Get(other)
    {
      match kind
      case TracerKind => this.(tracerProvider := Some(p))
      case MeterKind => this.(meterProvider := Some(p))
      case PropagatorKind => this.(propagator := Some(p))
      case LoggerKind => this.(loggerProvider := Some(p))
    }

    function WithTracerProvider(p: nat): (c: Configurator)
      ensures c.Get(TracerKind) == Some(p)
      ensures forall kind :: kind != TracerKind ==> c.Get(kind) == Get(kind)
    {
      WithProvider(TracerKind, p)
    }

    function WithMeterProvider(p: nat): (c: Configurator)
      ensures c.Get(MeterKind) == Some(p)
      ensures forall kind :: kind != MeterKind ==> c.Get(kind) == Get(kind)
    {
      WithProvider(MeterKind, p)
    }

    function WithPropagator(p: nat): (c: Configurator)
      ensures c.Get(PropagatorKind) == Some(p)
      ensures forall kind :: kind != PropagatorKind ==> c.Get(kind) == Get(kind)
    {
      WithProvider(PropagatorKind, p)
    }

    function WithLoggerProvider(p: nat): (c: Configurator)
      ensures c.Get(LoggerKind) == Some(p)
      ensures forall kind :: kind != LoggerKind ==> c.Get(kind) == Get(kind)
    {
      WithProvider(LoggerKind, p)
    }

    /** `ctx` extended with one binding per override, a kind without override inherited from `ctx`. */
    function StoreInContext(ctx: Context): (r: Context)
      ensures forall kind :: ProviderIn(r, kind) == Overridden(this, ctx, kind)
      ensures forall k :: k !in {KeyOf(TracerKind), KeyOf(MeterKind), KeyOf(PropagatorKind), KeyOf(LoggerKind)} ==> r.Get(k) == ctx.Get(k)
    {
      var c1 := BindIfGiven(ctx, TracerKind, tracerProvider);
      var c2 := BindIfGiven(c1, MeterKind, meterProvider);
      var c3 := BindIfGiven(c2, PropagatorKind, propagator);
      BindIfGiven(c3, LoggerKind, loggerProvider)
    }

    /**
     * Configurator activate: stores the overrides in the current context and
     * activates the result, returning the scope that ends the override.
     */
    method Activate(storage: ContextStorage, assertionsEnabled: bool, env: Option<string>) returns (sc: Scope)
      requires storage.Valid()
      modifies storage
      ensures storage.Valid()
      ensures (storage.Model(), sc) ==
        ScopeModel.Activate(old(storage.Model()), StoreInContext(old(storage.Current())), UseDebugScope(assertionsEnabled, env))
      ensures forall kind :: ProviderIn(storage.Current(), kind) == Overridden(this, old(storage.Current()), kind)
    {
      var ctx := StoreInContext(storage.Current());
      sc := storage.Activate(ctx, assertionsEnabled, env);
    }
  }

  /** `ctx` with `kind`'s key bound to the override, or `ctx` itself when there is none. */
  function BindIfGiven(ctx: Context, kind: Kind, p: Option<nat>): (r: Context)
    ensures ProviderIn(r, kind) == (if p.Some? then ConfiguredProvider(p.value) else ProviderIn(ctx, kind))
    ensures forall k :: k != KeyOf(kind) ==> r.Get(k) == ctx.Get(k)
  {
    match p
    case Some(v) => ctx.With(KeyOf(kind), v)
    case None => ctx
  }

  /** The override a configurator makes of `kind`, resolved over what `ctx` already gives. */
  function Overridden(c: Configurator, ctx: Context, kind: Kind): ProviderRef {
    if c.Get(kind).Some? then ConfiguredProvider(c.Get(kind).value) else ProviderIn(ctx, kind)
  }

  /**
   * After create() and the four with* calls, in both orders InstrumentationTest
   * uses (lines 48-53 and 88-93), each accessor gives exactly the provider
   * configured for it.
   */
  lemma ConfiguredProvidersReturned(ctx: Context, p: nat, m: nat, x: nat, l: nat)
    ensures var c := Configurator.Create().WithTracerProvider(p).WithMeterProvider(m).WithPropagator(x).WithLoggerProvider(l);
      && ProviderIn(c.StoreInContext(ctx), TracerKind) == ConfiguredProvider(p)
      && ProviderIn(c.StoreInContext(ctx), MeterKind) == ConfiguredProvider(m)
      && ProviderIn(c.StoreInContext(ctx), PropagatorKind) == ConfiguredProvider(x)
      && ProviderIn(c.StoreInContext(ctx), LoggerKind) == ConfiguredProvider(l)
      && c == Configurator.Create().WithTracerProvider(p).WithMeterProvider(m).WithLoggerProvider(l).WithPropagator(x)
  {
  }

  /** Configurators that agree on every kind are the same configurator. */
  lemma SameOverridesSameConfigurator(c: Configurator, d: Configurator)
    requires forall kind :: c.Get(kind) == d.Get(kind)
    ensures c == d
  {
    assert c.Get(TracerKind) == d.Get(TracerKind) && c.Get(MeterKind) == d.Get(MeterKind);
    assert c.Get(PropagatorKind) == d.Get(PropagatorKind) && c.Get(LoggerKind) == d.Get(LoggerKind);
  }

  /**
   * For every kind, the later of two overrides of it wins; for every two
   * different kinds, their overrides commute.
   */
  lemma WithCallsCompose(c: Configurator, k1: Kind, k2: Kind, p: nat, q: nat)
    ensures c.WithProvider(k1, p).WithProvider(k1, q) == c.WithProvider(k1, q)
    ensures k1 != k2 ==> c.WithProvider(k1, p).WithProvider(k2, q) == c.WithProvider(k2, q).WithProvider(k1, p)
  {
    SameOverridesSameConfigurator(c.WithProvider(k1, p).WithProvider(k1, q), c.WithProvider(k1, q));
    if k1 != k2 {
      SameOverridesSameConfigurator(c.WithProvider(k1, p).WithProvider(k2, q), c.WithProvider(k2, q).WithProvider(k1, p));
    }
  }

  /**
   * Activating a configurator makes every accessor report its override (and
   * the previous answer for kinds it does not override); detaching the
   * returned scope succeeds and brings the previous current context back.
   */
  lemma ActivateThenDetachRestores(s: Storage, c: Configurator, debug: bool)
    requires ScopeModel.Valid(s)
    ensures var (s1, sc) := ScopeModel.Activate(s, c.StoreInContext(ScopeModel.Current(s)), debug);
      && (forall kind :: ProviderIn(ScopeModel.Current(s1), kind) == Overridden(c, ScopeModel.Current(s), kind))
      && Detach(s1, sc).1 == None
      && ScopeModel.Current(Detach(s1, sc).0) == ScopeModel.Current(s)
  {
    var (s1, sc) := ScopeModel.Activate(s, c.StoreInContext(ScopeModel.Current(s)), debug);
    ScopeLemmas.DetachAfterRestoredBody(s, c.StoreInContext(ScopeModel.Current(s)), debug, s1);
  }

  /**
   * Configurators activated one inside the other, each over the context its
   * predecessor made current, and detached in reverse order.
   */
  function NestConfigurators(s: Storage, cs: seq<Configurator>, debug: bool): (r: (Storage, bool))
    ensures |s.scopes| <= |r.0.scopes|
    decreases |cs|
  {
    if cs == [] then (s, true)
    else
      var (s1, sc) := ScopeModel.Activate(s, cs[0].StoreInContext(ScopeModel.Current(s)), debug);
      var (s2, innerOk) := NestConfigurators(s1, cs[1..], debug);
      var (s3, err) := Detach(s2, sc);
      (s3, innerOk && err.None?)
  }

  /**
   * Detaching nested configurator scopes in reverse order succeeds at every
   * level and restores exactly the configuration current before the first.
   */
  lemma {:induction false} NestedConfiguratorsRestore(s: Storage, cs: seq<Configurator>, debug: bool)
    requires ScopeModel.Valid(s)
    ensures NestConfigurators(s, cs, debug).1
    ensures ScopeLemmas.SameStacks(s, NestConfigurators(s, cs, debug).0)
    ensures ScopeModel.Valid(NestConfigurators(s, cs, debug).0)
    ensures forall kind :: ProviderIn(ScopeModel.Current(NestConfigurators(s, cs, debug).0), kind) == ProviderIn(ScopeModel.Current(s), kind)
    decreases |cs|
  {
    if cs != [] {
      var ctx := cs[0].StoreInContext(ScopeModel.Current(s));
      var (s1, sc) := ScopeModel.Activate(s, ctx, debug);
      NestedConfiguratorsRestore(s1, cs[1..], debug);
      var s2 := NestConfigurators(s1, cs[1..], debug).0;
      ScopeLemmas.DetachAfterRestoredBody(s, ctx, debug, s2);
    }
  }
}
