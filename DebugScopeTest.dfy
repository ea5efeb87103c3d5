/**
 * The debug-scope scenarios, each run against a fresh storage: which kind of
 * scope an activation returns under each toggle, and the report each misuse
 * of a debug scope produces.
 */
module DebugScopeTest {
  import opened Wrappers
  import opened Contexts
  import opened ScopeModel
  import opened ScopeStorage

  /** With assertions on and the variable unset, activating the current context gives a debug scope. */
  method DebugScopeEnabledByDefault() returns (debug: bool, err: Option<Diagnostic>)
    ensures debug && err == None
  {
    var storage := new ContextStorage();
    var scope := storage.Activate(storage.Current(), true, None);
    debug := scope.debug;
    err := storage.Detach(scope);
  }

  /** With zend.assertions = 0 the activation gives a plain scope. */
  method DisableDebugScopeUsingAssertionMode() returns (debug: bool, err: Option<Diagnostic>)
    ensures !debug && err == None
  {
    var storage := new ContextStorage();
    var scope := storage.Activate(storage.Current(), false, None);
    debug := scope.debug;
    err := storage.Detach(scope);
  }

  /** With OTEL_PHP_DEBUG_SCOPES_DISABLED = 'true' the activation gives a plain scope. */
  method DisableDebugScopeUsingEnvironment() returns (debug: bool, err: Option<Diagnostic>)
    ensures !debug && err == None
  {
    EnvironmentVariableDecides(true);
    var storage := new ContextStorage();
    var scope := storage.Activate(storage.Current(), true, Some("true"));
    debug := scope.debug;
    err := storage.Detach(scope);
  }

  /**
   * Detaching the same scope twice: the second detach reports that it is
   * already detached, and dropping the handle when the test ends reports nothing.
   */
  method DetachedScopeDetach() returns (first: Option<Diagnostic>, second: Option<Diagnostic>, dropped: Option<Diagnostic>)
    ensures first == None && second == Some(AlreadyDetached) && dropped == None
  {
    var storage := new ContextStorage();
    var scope1 := storage.Activate(storage.Current(), true, None);
    first := storage.Detach(scope1);
    second := storage.Detach(scope1);
    dropped := storage.Drop(scope1);
  }

  /**
   * Detaching scope1 while scope2 is above it reports another scope; scope2
   * then detaches. Dropping both handles when the test ends reports nothing:
   * scope1's detach was called, even though it reported.
   */
  method OrderMismatchScopeDetach() returns (outOfOrder: Option<Diagnostic>, inOrder: Option<Diagnostic>, dropped1: Option<Diagnostic>, dropped2: Option<Diagnostic>)
    ensures outOfOrder == Some(OrderMismatch) && inOrder == None
    ensures dropped1 == None && dropped2 == None
  {
    var storage := new ContextStorage();
    var scope1 := storage.Activate(storage.Current(), true, None);
    var scope2 := storage.Activate(storage.Current(), true, None);
    outOfOrder := storage.Detach(scope1);
    inOrder := storage.Detach(scope2);
    dropped1 := storage.Drop(scope1);
    dropped2 := storage.Drop(scope2);
  }

  /**
   * A scope created on id 0, detached after fork(1) and switch(1), reports the
   * different execution context. After switch(0) and destroy(1), dropping the
   * handle when the test ends reports nothing, its detach having been called.
   */
  method InactiveScopeDetach() returns (foreign: Option<Diagnostic>, dropped: Option<Diagnostic>)
    ensures foreign == Some(ExecutionContextMismatch) && dropped == None
  {
    var storage := new ContextStorage();
    var scope1 := storage.Activate(storage.Current(), true, None);
    storage.Fork(1);
    storage.Switch(1);
    foreign := storage.Detach(scope1);
    storage.Switch(0);
    storage.Destroy(1);
    dropped := storage.Drop(scope1);
  }

  /**
   * An activation whose scope is dropped without a detach reports the missing
   * call; the storage's own top scope is still there and detaches silently.
   */
  method MissingScopeDetach() returns (dropped: Option<Diagnostic>, err: Option<Diagnostic>, current: Context)
    ensures dropped == Some(MissingDetach) && err == None && current == Root
  {
    var storage := new ContextStorage();
    var abandoned := storage.Activate(storage.Current(), true, None);
    dropped := storage.Drop(abandoned);
    var top := storage.Scope();
    err := storage.Detach(top.value);
    current := storage.Current();
  }
}
