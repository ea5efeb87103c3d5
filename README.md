# Context scopes, debug scopes and the provider registry of opentelemetry-php

This project models the context-propagation core of the OpenTelemetry PHP API and proves properties of that model in Dafny. The model covers:

- **Context storage.** Each execution-context id (an int) has its own stack of activated contexts. One id is selected. For every scope it hands out, the storage remembers the id the scope was created on and whether the scope is detached. For every debug handle it remembers whether that handle's detach has been called.
- **Activation and detachment.** `activate` pushes a context. `detach` pops it again and makes the previous context current. `fork`, `switch` and `destroy` create, select and discard stacks. `scope()` returns the storage's own scope for the top of the selected stack.
- **DebugScope.** Activation returns this diagnostic wrapper by default. Its detach reports misuse as a `Diagnostic` value: already detached, another scope above it, a different execution context selected, or an empty stack. Dropping a debug scope whose detach was never called reports the missing call to detach. A detach that itself reported a misuse still counts as called.
- **Debug selection.** Activation returns the wrapper only when assertions are on and `OTEL_PHP_DEBUG_SCOPES_DISABLED` holds no true-like value.
- **Globals.** The `tracerProvider`, `meterProvider`, `propagator` and `loggerProvider` accessors read the current context. Each falls back to its kind's no-op provider.
- **Configurator.** An immutable builder. Its `activate()` stores the configured providers in a new context and activates that context.
- **CachedInstrumentation.** Holds an identity (name, version, schema URL, attributes). It resolves its tracer, meter and logger through whichever provider is current at call time. It keeps the last (provider, instance) pair per kind.

The model follows what `tests/Unit/Context/DebugScopeTest.php` and `tests/Unit/API/Instrumentation/InstrumentationTest.php` assert. Where they are silent, it makes these choices:

- `fork` gives the id a new, empty stack and discards any stack the id already had, even the selected one. The scopes on a discarded stack stay live, with no frame, as after `destroy`.
- A failed debug check changes nothing in the storage except the debug handle's record that its detach was called.
- `switch` to an id with no stack selects an empty stack.

## Layout

- `Wrappers.dfy`: `Option`.
- `Context.dfy` (module `Contexts`): the immutable context chain, with `Get` and `With`.
- `ScopeModel.dfy`: the storage as a value. It defines the storage invariant `Valid` and one function per operation, states each operation's contract, and shows that each operation keeps the invariant.
- `ScopeLemmas.dfy`: properties spanning several operations:
  - strict-LIFO round trip over arbitrarily nested blocks;
  - a detached scope stays detached;
  - a destroyed scope never detaches again;
  - the misuse scenarios.
- `ScopeStorage.dfy`: the storage as a class whose fields change in place. Every method is proved against the value model. The file also holds the debug-scope selection.
- `Globals.dfy`, `Configurator.dfy` (module `Configurators`), `CachedInstrumentation.dfy` (module `CachedInstrumentations`): the registry layered on the storage.
- `DebugScopeTest.dfy` and `InstrumentationTest.dfy`: each test method of `DebugScopeTest.php` and `InstrumentationTest.php` as a verified client method. Each method runs on a fresh storage, and its postcondition is what the test asserts, plus the restored state that the test's `try`/`finally` and the end of the method imply: the current context after the last detach, the providers after the scope ends, and the handle drops at the end. `InstrumentationTest.ReconfigurationIsObserved` is an added scenario about CachedInstrumentation's cache, not one of those tests.

## Model

| member | source | states |
|---|---|---|
| Contexts.Context.Get | tests/Unit/API/Instrumentation/InstrumentationTest.php:56-59 | a key has a value exactly when it is bound somewhere on the chain |
| Contexts.Context.With | tests/Unit/API/Instrumentation/InstrumentationTest.php:48-53 | the new context binds the key to the value and agrees with the old one on every other key |
| ScopeModel.Activate | tests/Unit/Context/DebugScopeTest.php:36 | pushes the context on the selected stack only, hands out a fresh scope created on the selected id, makes the context current, keeps the invariant |
| ScopeModel.DebugDetach | tests/Unit/Context/DebugScopeTest.php:78-118 | each diagnostic is reported exactly when its condition holds and the earlier checks pass (already detached, then another scope on top, then a foreign execution context, then an empty stack); a report leaves the storage unchanged; success pops the frame and makes the context below it current |
| ScopeModel.PlainDetach | tests/Unit/Context/DebugScopeTest.php:126-129 | the undiagnosed detach takes the scope's frames off its own stack, touches no other stack, marks it detached, keeps the invariant |
| ScopeModel.Detach | tests/Unit/Context/DebugScopeTest.php:78-118 | a debug handle records that its detach was called, whatever the outcome; a plain scope never reports; a report changes nothing but that record; success means the scope's frames are gone and it is detached |
| ScopeModel.Fork | tests/Unit/Context/DebugScopeTest.php:107 | the forked id gets an empty stack, replacing any stack it had, so the root context is current on it; other stacks are unchanged |
| ScopeModel.Switch | tests/Unit/Context/DebugScopeTest.php:108 | only the selection changes; the current context becomes that of the switched-to id |
| ScopeModel.Destroy | tests/Unit/Context/DebugScopeTest.php:116 | the id's stack is gone; other stacks are unchanged |
| ScopeModel.TopScope | tests/Unit/Context/DebugScopeTest.php:128 | returns a plain, issued scope for the top of the selected stack, and returns none exactly when that stack is empty |
| ScopeModel.Drop | tests/Unit/Context/DebugScopeTest.php:120-125 | only a debug handle can report on drop, and only the missing call; it reports exactly when its detach was never called |
| ScopeModel.CurrentOf | tests/Unit/Context/DebugScopeTest.php:107-115 | an id's current context is the context of the newest frame on its stack, or the root context when the stack is empty or absent |
| ScopeModel.Current | tests/Unit/Context/DebugScopeTest.php:36 | Context::getCurrent: the newest frame's context on the selected id's stack, or the root context |
| ScopeModel.MarkCalled | tests/Unit/Context/DebugScopeTest.php:89-118 | records the detach call of one debug handle and changes no stack, selection or scope state |
| ScopeModel.PhrasesDistinct | tests/Unit/Context/DebugScopeTest.php:85-124 | no diagnostic's phrase occurs as a substring of another's, so each substring match on an expected message singles out one diagnostic; in particular the phrases differ pairwise |
| ScopeLemmas.RunKeepsValid | tests/Unit/Context/DebugScopeTest.php:103-118 | the storage invariant holds after any sequence of activate, detach, fork, switch and destroy calls |
| ScopeLemmas.RunExtendsScopes | tests/Unit/Context/DebugScopeTest.php:78-118 | over any sequence of calls a scope keeps its creation id, a detached scope stays detached, and a recorded detach call stays recorded |
| ScopeLemmas.SecondDetachReportsAlreadyDetached | tests/Unit/Context/DebugScopeTest.php:78-87 | after a successful detach and any later calls, detaching the same debug scope again reports already detached and changes nothing |
| ScopeLemmas.DetachCallSilencesDrop | tests/Unit/Context/DebugScopeTest.php:89-118 | once a debug handle's detach has been called, whatever it reported and whatever calls follow, dropping the handle reports nothing |
| ScopeLemmas.UncalledDetachReportsOnDrop | tests/Unit/Context/DebugScopeTest.php:120-130 | a debug handle whose detach is never called reports the missing call on drop after any sequence of other calls, detaches through other handles included |
| ScopeLemmas.FreshDebugScopeReportsOnDrop | tests/Unit/Context/DebugScopeTest.php:120-125 | a freshly activated debug scope reports the missing call on drop until its own detach is called |
| ScopeLemmas.NestedScopesRestore | tests/Unit/Context/DebugScopeTest.php:89-101 | for arbitrarily nested activate/detach blocks in strict LIFO order, every detach succeeds and every stack, and so the current context, is as before |
| ScopeLemmas.DetachAfterRestoredBody | tests/Unit/Context/DebugScopeTest.php:89-101 | if the calls between an activation and its detach restore the stacks, the detach succeeds and the stacks are as before the activation |
| ScopeLemmas.OrderMismatchThenReverseOrder | tests/Unit/Context/DebugScopeTest.php:89-101 | detaching scope1 under scope2 reports another scope and changes nothing but the call record; scope2 then detaches and scope1's context is current; dropping either handle reports nothing; a later detach of scope1 restores the context from before it |
| ScopeLemmas.ForeignExecutionContextThenSwitchBack | tests/Unit/Context/DebugScopeTest.php:103-118 | after fork and switch to another id the detach reports a different execution context and changes nothing but the call record; after switch back and destroy, dropping the handle reports nothing, and (beyond the test) a new detach succeeds and restores the context |
| ScopeLemmas.AbsentScopeNeverDetaches | tests/Unit/Context/DebugScopeTest.php:116 | a debug scope with no frame on any stack cannot detach successfully |
| ScopeLemmas.DestroyedScopeStaysInvalid | tests/Unit/Context/DebugScopeTest.php:116 | once the stack a debug scope was created on is destroyed, no sequence of later calls lets it detach successfully |
| ScopeLemmas.DestroyedStackUnderflows | tests/Unit/Context/DebugScopeTest.php:116 | a debug scope whose stack was destroyed reports the empty stack when detached on its own id, changing nothing but the call record |
| ScopeLemmas.DroppedScopeStillDetachable | tests/Unit/Context/DebugScopeTest.php:120-130 | dropping an undetached debug scope reports the missing call; the storage's top scope is that scope's plain form, detaches without report and restores the context; that plain detach is not a call of the debug handle's detach |
| ScopeLemmas.PlainScopesNeverReport | tests/Unit/Context/DebugScopeTest.php:48-59 | plain scopes detach out of order and twice without any report |
| ScopeStorage.Lower | tests/Unit/Context/DebugScopeTest.php:68 | same length, ASCII letters lowered position by position |
| ScopeStorage.LowerIdempotent | tests/Unit/Context/DebugScopeTest.php:68 | lowering a lowered value changes nothing |
| ScopeStorage.TrueLike | tests/Unit/Context/DebugScopeTest.php:66-76 | true-like values are one to four characters long, and case does not matter: the verdict on a value and on its lowered form agree |
| ScopeStorage.DebugScopesDisabled | tests/Unit/Context/DebugScopeTest.php:61-76 | the variable disables debug scopes exactly when it is set to '1', 'true', 'on' or 'yes' after ASCII lower-casing; an unset or empty variable never does |
| ScopeStorage.UseDebugScope | tests/Unit/Context/DebugScopeTest.php:30-59 | the debug wrapper only with assertions on; a true-like variable always gives the plain scope; an unset variable, or one set to any value that is not true-like, leaves the assertion setting in charge |
| ScopeStorage.DebugScopeByDefault | tests/Unit/Context/DebugScopeTest.php:34-43 | with assertions on and the variable unset, activation gives a debug scope |
| ScopeStorage.AssertionsOffGivesPlainScope | tests/Unit/Context/DebugScopeTest.php:48-59 | with assertions off, activation gives a plain scope whatever the variable holds |
| ScopeStorage.EnvironmentVariableDecides | tests/Unit/Context/DebugScopeTest.php:66-76 | 'true', 'TRUE' and 'yes' give a plain scope even with assertions on; 'false' and '' leave the assertion setting in charge |
| ScopeStorage.ContextStorage.constructor | tests/Unit/Context/DebugScopeTest.php:36 | a new storage is empty, valid, has id 0 selected and has the root context current |
| ScopeStorage.ContextStorage.Activate | tests/Unit/Context/DebugScopeTest.php:36 | the new state is the model's activation with the debug choice of the two toggles; the activated context is current |
| ScopeStorage.ContextStorage.Detach | tests/Unit/Context/DebugScopeTest.php:78-118 | the new state and the report are the model's detach; a report changes nothing but the debug handle's call record |
| ScopeStorage.ContextStorage.Fork | tests/Unit/Context/DebugScopeTest.php:107 | the new state is the model's fork |
| ScopeStorage.ContextStorage.Switch | tests/Unit/Context/DebugScopeTest.php:108 | the new state is the model's switch; the switched-to id's context is current |
| ScopeStorage.ContextStorage.Destroy | tests/Unit/Context/DebugScopeTest.php:116 | the new state is the model's destroy |
| ScopeStorage.ContextStorage.Scope | tests/Unit/Context/DebugScopeTest.php:128 | returns the model's top scope, a plain and issued handle |
| ScopeStorage.ContextStorage.Drop | tests/Unit/Context/DebugScopeTest.php:120-125 | the report is the model's drop report: present exactly for a debug handle whose detach was never called |
| ScopeStorage.ContextStorage.Current | tests/Unit/Context/DebugScopeTest.php:36 | Context::getCurrent on the object: the newest frame's context on the selected id's stack, or the root context |
| Globals.KeysDistinct | tests/Unit/API/Instrumentation/InstrumentationTest.php:56-59 | the four provider kinds are stored under four different context keys |
| Globals.ProviderIn | tests/Unit/API/Instrumentation/InstrumentationTest.php:35-38 | the no-op provider exactly when the kind's key is unbound, otherwise the stored provider |
| Globals.TracerProvider | tests/Unit/API/Instrumentation/InstrumentationTest.php:35 | Globals::tracerProvider: no-op exactly when the current context binds no tracer provider, otherwise the bound one |
| Globals.MeterProvider | tests/Unit/API/Instrumentation/InstrumentationTest.php:36 | Globals::meterProvider: no-op exactly when the current context binds no meter provider, otherwise the bound one |
| Globals.Propagator | tests/Unit/API/Instrumentation/InstrumentationTest.php:37 | Globals::propagator: no-op exactly when the current context binds no propagator, otherwise the bound one |
| Globals.LoggerProvider | tests/Unit/API/Instrumentation/InstrumentationTest.php:38 | Globals::loggerProvider: no-op exactly when the current context binds no logger provider, otherwise the bound one |
| Globals.NothingConfiguredGivesNoop | tests/Unit/API/Instrumentation/InstrumentationTest.php:33-39 | with the root context current all four accessors give the no-op provider |
| Globals.OtherKeysDoNotMatter | tests/Unit/API/Instrumentation/InstrumentationTest.php:56-59 | binding any other key leaves what a kind resolves to unchanged |
| Configurators.Configurator.Create | tests/Unit/API/Instrumentation/InstrumentationTest.php:48 | a new configurator overrides no kind |
| Configurators.Configurator.WithProvider | tests/Unit/API/Instrumentation/InstrumentationTest.php:48-53 | a copy with one kind overridden and every other kind as it was |
| Configurators.Configurator.WithTracerProvider | tests/Unit/API/Instrumentation/InstrumentationTest.php:49 | overrides the tracer provider and keeps every other kind as it was |
| Configurators.Configurator.WithMeterProvider | tests/Unit/API/Instrumentation/InstrumentationTest.php:50 | overrides the meter provider and keeps every other kind as it was |
| Configurators.Configurator.WithPropagator | tests/Unit/API/Instrumentation/InstrumentationTest.php:51 | overrides the propagator and keeps every other kind as it was |
| Configurators.Configurator.WithLoggerProvider | tests/Unit/API/Instrumentation/InstrumentationTest.php:52 | overrides the logger provider and keeps every other kind as it was |
| Configurators.BindIfGiven | tests/Unit/API/Instrumentation/InstrumentationTest.php:48-53 | a kind resolves to its override if one is given, otherwise as before; keys of other kinds are untouched |
| Configurators.Configurator.StoreInContext | tests/Unit/API/Instrumentation/InstrumentationTest.php:48-53 | each kind resolves to its override, or to what the extended context gave; keys outside the four are untouched |
| Configurators.Configurator.Activate | tests/Unit/API/Instrumentation/InstrumentationTest.php:53 | the storage activates the current context extended with the overrides; every accessor then gives the override or its previous answer |
| Configurators.ConfiguredProvidersReturned | tests/Unit/API/Instrumentation/InstrumentationTest.php:41-59 | after the four with-calls each accessor gives exactly its configured provider; the order used at lines 88-93 builds the same configurator |
| Configurators.WithCallsCompose | tests/Unit/API/Instrumentation/InstrumentationTest.php:88-93 | for every kind a second override replaces the first; for every two different kinds their overrides commute |
| Configurators.ActivateThenDetachRestores | tests/Unit/API/Instrumentation/InstrumentationTest.php:55-62 | under activation every kind reports its override; the detach succeeds and the previous current context is back |
| Configurators.NestedConfiguratorsRestore | tests/Unit/API/Instrumentation/InstrumentationTest.php:55-62 | nested configurator activations detached in reverse order all succeed and restore exactly the providers from before the first |
| CachedInstrumentations.CachedInstrumentation.constructor | tests/Unit/API/Instrumentation/InstrumentationTest.php:67 | records the identity and resolves nothing yet |
| CachedInstrumentations.CachedInstrumentation.Lookup | tests/Unit/API/Instrumentation/InstrumentationTest.php:96-98 | the remembered instance when the same provider is current, otherwise one new provider call; either way what the current provider gives for the identity |
| CachedInstrumentations.CachedInstrumentation.Tracer | tests/Unit/API/Instrumentation/InstrumentationTest.php:69 | the tracer the current tracer provider gives for the identity; a provider call only when the provider changed; the other caches are untouched |
| CachedInstrumentations.CachedInstrumentation.Meter | tests/Unit/API/Instrumentation/InstrumentationTest.php:70 | the meter the current meter provider gives for the identity; a provider call only when the provider changed; the other caches are untouched |
| CachedInstrumentations.CachedInstrumentation.Logger | tests/Unit/API/Instrumentation/InstrumentationTest.php:98 | the logger the current logger provider gives for the identity; a provider call only when the provider changed; the other caches are untouched |
| DebugScopeTest.DebugScopeEnabledByDefault | tests/Unit/Context/DebugScopeTest.php:34-43 | the activation gives a debug scope, which detaches without report |
| DebugScopeTest.DisableDebugScopeUsingAssertionMode | tests/Unit/Context/DebugScopeTest.php:48-59 | with assertions off the scope is plain |
| DebugScopeTest.DisableDebugScopeUsingEnvironment | tests/Unit/Context/DebugScopeTest.php:66-76 | with the variable 'true' the scope is plain |
| DebugScopeTest.DetachedScopeDetach | tests/Unit/Context/DebugScopeTest.php:78-87 | the first detach succeeds, the second reports already detached, and dropping the handle at the end reports nothing |
| DebugScopeTest.OrderMismatchScopeDetach | tests/Unit/Context/DebugScopeTest.php:89-101 | detaching scope1 first reports another scope; scope2 then detaches; dropping both handles at the end reports nothing |
| DebugScopeTest.InactiveScopeDetach | tests/Unit/Context/DebugScopeTest.php:103-118 | the detach on id 1 reports a different execution context; after switch(0) and destroy(1), dropping the handle at the end reports nothing |
| DebugScopeTest.MissingScopeDetach | tests/Unit/Context/DebugScopeTest.php:120-130 | the dropped scope reports the missing call; the storage's top scope then detaches and the root context is current |
| InstrumentationTest.GlobalsNotConfiguredReturnsNoopInstances | tests/Unit/API/Instrumentation/InstrumentationTest.php:33-39 | all four accessors give the no-op provider |
| InstrumentationTest.GlobalsReturnsConfiguredInstances | tests/Unit/API/Instrumentation/InstrumentationTest.php:41-63 | during the scope each accessor gives exactly its configured provider; after the detach all four are no-op again |
| InstrumentationTest.InstrumentationNotConfiguredReturnsNoopInstances | tests/Unit/API/Instrumentation/InstrumentationTest.php:65-71 | an unconfigured handle gives the no-op tracer and meter |
| InstrumentationTest.InstrumentationReturnsConfiguredInstances | tests/Unit/API/Instrumentation/InstrumentationTest.php:73-102 | a handle built before activation gives exactly what the configured getTracer, getMeter and getLogger return for its identity |
| InstrumentationTest.ReconfigurationIsObserved | tests/Unit/API/Instrumentation/InstrumentationTest.php:96-98 | an added scenario about CachedInstrumentation's cache, not one of the file's tests: two calls under one configuration ask the provider once; after a new activation the next call asks the new provider |

## Left out

- PHP error-handler plumbing (`set_error_handler`, `E_USER_NOTICE` turned into exceptions) is left out. Diagnostics are `Diagnostic` values returned by detach and drop.
- Destructor timing is left out. The "missing call" report is an explicit `Drop` of a handle.
- `ini_set('zend.assertions', …)` and `$_SERVER['OTEL_PHP_DEBUG_SCOPES_DISABLED']` are not read. Both are parameters of every activation, and the choice is made at each activation, because the tests flip them between activations.
- A true-like value is '1', 'true', 'on' or 'yes', in any ASCII case. Surrounding whitespace is not trimmed, and non-ASCII case folding is not modelled.
- PHPUnit mocks and the real tracer, meter, logger and propagator classes are left out. Providers and instances are ids. `getTracer`, `getMeter` and `getLogger` are arbitrary functions in a `ProviderTable`, supplied when the handle is built.
- Propagator inject and extract are left out.
- Real fiber or thread concurrency is left out. `fork`, `switch` and `destroy` are sequential map updates. The storage object is passed explicitly, not reached through a process-wide singleton.
- Message text beyond each diagnostic's distinguishing phrase is left out. So are backtraces, "created at" locations and the stack depth a debug scope records at creation. None of them affects behaviour.
- Context keys are ids; ids 0 to 3 are reserved for the four provider keys. Context values are opaque numbers.
- CachedInstrumentation keeps one (provider, instance) pair per kind. It does not keep a map of every provider ever seen.
