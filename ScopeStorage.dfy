/**
 * The process-wide context storage as an object whose fields change in place,
 * proved against the value model of ScopeModel.dfy, and the choice between a
 * debug scope and a plain scope that every activation makes.
 */
module ScopeStorage {
  import opened Wrappers
  import opened Contexts
  import opened ScopeModel

  function AsciiLower(c: char): char {
    if 'A' <= c <= 'Z' then (c as int + 32) as char else c
  }

  function Lower(v: string): (r: string)
    ensures |r| == |v|
    ensures forall i :: 0 <= i < |v| ==> r[i] == AsciiLower(v[i])
  {
    if v == [] then [] else [AsciiLower(v[0])] + Lower(v[1..])
  }

  /** Lowering is idempotent: a lowered value has no upper-case letter left. */
  lemma LowerIdempotent(v: string)
    ensures Lower(Lower(v)) == Lower(v)
  {
    assert forall i :: 0 <= i < |v| ==> Lower(Lower(v))[i] == Lower(v)[i];
  }

  /**
   * The spellings of "true" that PHP's boolean filter accepts, in any ASCII
   * case: the verdict on a value and on its lowered form is the same.
   */
  predicate TrueLike(v: string): (r: bool)
    ensures r ==> 1 <= |v| <= 4
    ensures r == (Lower(Lower(v)) in {"1", "true", "on", "yes"})
  {
    LowerIdempotent(v);
    Lower(v) in {"1", "true", "on", "yes"}
  }

  /** OTEL_PHP_DEBUG_SCOPES_DISABLED, given as the value it has (None when unset). */
  predicate DebugScopesDisabled(env: Option<string>): (r: bool)
    ensures env.None? ==> !r
    ensures r ==> |env.value| > 0
    ensures env.Some? && Lower(env.value) == "true" ==> r
    ensures r <==> env.Some? && Lower(env.value) in {"1", "true", "on", "yes"}
  {
    env.Some? && TrueLike(env.value)
  }

  /**
   * Whether an activation hands back the debug wrapper: only when assertions
   * are enabled (zend.assertions) and the environment variable does not
   * disable debug scopes.
   */
  predicate UseDebugScope(assertionsEnabled: bool, env: Option<string>): (r: bool)
    ensures r ==> assertionsEnabled
    ensures env.None? ==> r == assertionsEnabled
    ensures env.Some? && TrueLike(env.value) ==> !r
    ensures env.Some? && !TrueLike(env.value) ==> r == assertionsEnabled
  {
    assertionsEnabled && !DebugScopesDisabled(env)
  }

  /** By default (assertions on, variable unset) activations return debug scopes. */
  lemma DebugScopeByDefault()
    ensures UseDebugScope(true, None)
  {
  }

  /** With assertions off the plain scope is returned, whatever the variable says. */
  lemma AssertionsOffGivesPlainScope(env: Option<string>)
    ensures !UseDebugScope(false, env)
  {
  }

  /**
   * A true-like value of the variable gives plain scopes even with assertions
   * on; any other value leaves the assertion setting in charge.
   */
  lemma EnvironmentVariableDecides(assertionsEnabled: bool)
    ensures !UseDebugScope(assertionsEnabled, Some("true"))
    ensures !UseDebugScope(assertionsEnabled, Some("TRUE"))
    ensures !UseDebugScope(assertionsEnabled, Some("yes"))
    ensures UseDebugScope(assertionsEnabled, Some("false")) == assertionsEnabled
    ensures UseDebugScope(assertionsEnabled, Some("")) == assertionsEnabled
  {
    assert Lower("true") == "true";
    assert Lower("TRUE") == "true";
    assert Lower("yes") == "yes";
    assert Lower("false") == "false";
  }

  class ContextStorage {
    var stacks: map<int, seq<Frame>>
    var selected: int
    var scopes: seq<ScopeState>
    /** The tokens of the debug handles whose detach has been called. */
    var detachCalls: set<nat>

    /** The storage's state as a value. */
    function Model(): Storage
      reads this
    {
      Storage(stacks, selected, scopes, detachCalls)
    }

    ghost predicate Valid()
      reads this
    {
      ScopeModel.Valid(Model())
    }

    /** The current context of the selected execution context (Context::getCurrent). */
    function Current(): (r: Context)
      reads this
      ensures (selected !in stacks || stacks[selected] == []) ==> r == Root
      ensures selected in stacks && stacks[selected] != [] ==> r == stacks[selected][|stacks[selected]| - 1].context
    {
      ScopeModel.Current(Model())
    }

    constructor ()
      ensures Valid() && Model() == Empty()
      ensures Current() == Root
    {
      stacks := map[];
      selected := MainExecutionContext;
      scopes := [];
      detachCalls := {};
    }

    /**
     * Context activate: pushes `ctx` on the selected stack and returns a scope,
     * the debug wrapper when UseDebugScope says so.
     */
    method Activate(ctx: Context, assertionsEnabled: bool, env: Option<string>) returns (sc: Scope)
      requires Valid()
      modifies this
      ensures Valid()
      ensures (Model(), sc) == ScopeModel.Activate(old(Model()), ctx, UseDebugScope(assertionsEnabled, env))
      ensures Current() == ctx && sc.debug == UseDebugScope(assertionsEnabled, env)
    {
      ghost var after := ScopeModel.Activate(Model(), ctx, UseDebugScope(assertionsEnabled, env));
      var token := |scopes|;
      var st := if selected in stacks then stacks[selected] else [];
      stacks := stacks[selected := st + [Frame(token, ctx)]];
      scopes := scopes + [ScopeState(selected, false)];
      sc := ScopeModel.Scope(token, UseDebugScope(assertionsEnabled, env));
      assert (Model(), sc) == after;
    }

    /**
     * Scope detach. A debug scope records that its detach was called, then
     * runs its checks and reports the first misuse it finds without changing
     * anything else; a plain scope detaches without checking.
     */
    method Detach(sc: Scope) returns (err: Option<Diagnostic>)
      requires Valid() && Issued(Model(), sc)
      modifies this
      ensures Valid()
      ensures (Model(), err) == ScopeModel.Detach(old(Model()), sc)
      ensures err.Some? ==> Model() == MarkCalled(old(Model()), sc.token)
    {
      var own := scopes[sc.token].executionContext;
      var st := if own in stacks then stacks[own] else [];
      if sc.debug {
        detachCalls := detachCalls + {sc.token};
      }
      ghost var before := Model();
      if sc.debug {
        if scopes[sc.token].detached {
          return Some(AlreadyDetached);
        }
        if st != [] && st[|st| - 1].scope != sc.token {
          return Some(OrderMismatch);
        }
        if selected != own {
          return Some(ExecutionContextMismatch);
        }
        if st == [] {
          return Some(StackUnderflow);
        }
      }
      if own in stacks {
        stacks := stacks[own := Without(stacks[own], sc.token)];
      }
      scopes := scopes[sc.token := ScopeState(own, true)];
      assert Model() == PlainDetach(before, sc.token);
      err := None;
    }

    /** Gives `id` a new, empty stack. */
    method Fork(id: int)
      requires Valid()
      modifies this
      ensures Valid() && Model() == ScopeModel.Fork(old(Model()), id)
    {
      stacks := stacks[id := []];
    }

    /** Selects `id` for the following calls. */
    method Switch(id: int)
      requires Valid()
      modifies this
      ensures Valid() && Model() == ScopeModel.Switch(old(Model()), id)
      ensures Current() == CurrentOf(old(Model()), id)
    {
      selected := id;
    }

    /** Discards the stack of `id`. */
    method Destroy(id: int)
      requires Valid()
      modifies this
      ensures Valid() && Model() == ScopeModel.Destroy(old(Model()), id)
    {
      stacks := stacks - {id};
    }

    /** The storage's own (plain) scope for the top of the selected stack, if any. */
    method Scope() returns (r: Option<Scope>)
      requires Valid()
      ensures r == TopScope(Model())
      ensures r.Some? ==> Issued(Model(), r.value) && !r.value.debug
    {
      var st := if selected in stacks then stacks[selected] else [];
      if st == [] {
        r := None;
      } else {
        r := Some(ScopeModel.Scope(st[|st| - 1].scope, false));
      }
    }

    /** The report made when the handle `sc` is dropped. */
    method Drop(sc: Scope) returns (d: Option<Diagnostic>)
      ensures d == ScopeModel.Drop(Model(), sc)
      ensures d.Some? <==> sc.debug && sc.token !in detachCalls
    {
      if sc.debug && sc.token !in detachCalls {
        d := Some(MissingDetach);
      } else {
        d := None;
      }
    }
  }
}
