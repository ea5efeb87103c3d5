/**
 * Properties of the scope storage that relate several operations: the storage
 * invariant is kept by every operation, strictly nested activate/detach pairs
 * leave every stack as it was, a detached scope stays detached, a scope whose
 * stack was destroyed never detaches again, and the misuse scenarios report
 * the diagnostic they are about.
 */
module ScopeLemmas {
  import opened Wrappers
  import opened Contexts
  import opened ScopeModel

  /** One call on the storage. A detach names the handle it is made through. */
  datatype Op =
    | ActivateOp(context: Context, debug: bool)
    | DetachOp(scope: Scope)
    | ForkOp(id: int)
    | SwitchOp(id: int)
    | DestroyOp(id: int)

  /** One call's effect on the storage. A handle the storage never issued cannot be written, so it changes nothing. */
  function Step(s: Storage, op: Op): Storage {
    match op
    case ActivateOp(ctx, debug) => Activate(s, ctx, debug).0
    case DetachOp(sc) => if Issued(s, sc) then Detach(s, sc).0 else s
    case ForkOp(id) => Fork(s, id)
    case SwitchOp(id) => Switch(s, id)
    case DestroyOp(id) => Destroy(s, id)
  }

  function Run(s: Storage, ops: seq<Op>): Storage
    decreases |ops|
  {
    if ops == [] then s else Run(Step(s, ops[0]), ops[1..])
  }

  /** The storage invariant holds after any sequence of calls. */
  lemma {:induction false} RunKeepsValid(s: Storage, ops: seq<Op>)
    requires Valid(s)
    ensures Valid(Run(s, ops))
    decreases |ops|
  {
    if ops != [] {
      RunKeepsValid(Step(s, ops[0]), ops[1..]);
    }
  }

  /**
   * Every scope keeps the execution context it was created on, a detached
   * scope stays detached, and a recorded detach call stays recorded.
   */
  ghost predicate ScopesExtend(s: Storage, s': Storage) {
    && |s.scopes| <= |s'.scopes|
    && s.detachCalls <= s'.detachCalls
    && (forall t :: 0 <= t < |s.scopes| ==> s'.scopes[t].executionContext == s.scopes[t].executionContext)
    && (forall t :: 0 <= t < |s.scopes| && s.scopes[t].detached ==> s'.scopes[t].detached)
  }

  lemma {:induction false} RunExtendsScopes(s: Storage, ops: seq<Op>)
    ensures ScopesExtend(s, Run(s, ops))
    decreases |ops|
  {
    if ops != [] {
      var s1 := Step(s, ops[0]);
      assert ScopesExtend(s, s1);
      RunExtendsScopes(s1, ops[1..]);
    }
  }

  /**
   * Detaching a debug scope a second time reports AlreadyDetached, whatever
   * happened to the storage in between, and changes nothing.
   */
  lemma SecondDetachReportsAlreadyDetached(s: Storage, sc: Scope, between: seq<Op>)
    requires Issued(s, sc) && sc.debug
    requires Detach(s, sc).1 == None
    ensures var s' := Run(Detach(s, sc).0, between);
      Issued(s', sc) && Detach(s', sc) == (s', Some(AlreadyDetached))
  {
    var s' := Run(Detach(s, sc).0, between);
    RunExtendsScopes(Detach(s, sc).0, between);
    assert s'.detachCalls + {sc.token} == s'.detachCalls;
  }

  /**
   * Once the detach of a debug handle has been called, whatever it reported
   * and whatever happens afterwards, dropping the handle reports nothing.
   */
  lemma DetachCallSilencesDrop(s: Storage, sc: Scope, later: seq<Op>)
    requires Issued(s, sc) && sc.debug
    ensures Drop(Run(Detach(s, sc).0, later), sc) == None
  {
    RunExtendsScopes(Detach(s, sc).0, later);
  }

  /**
   * Conversely, a debug handle whose detach is never called reports the
   * missing call when dropped, whatever else happened since its activation,
   * detaches through other handles included.
   */
  lemma {:induction false} UncalledDetachReportsOnDrop(s: Storage, sc: Scope, ops: seq<Op>)
    requires sc.debug && sc.token !in s.detachCalls
    requires forall i :: 0 <= i < |ops| ==> ops[i] != DetachOp(sc)
    ensures Drop(Run(s, ops), sc) == Some(MissingDetach)
    decreases |ops|
  {
    if ops != [] {
      var s1 := Step(s, ops[0]);
      assert sc.token !in s1.detachCalls by {
        if ops[0].DetachOp? && Issued(s, ops[0].scope) {
          assert ops[0].scope != sc;
        }
      }
      UncalledDetachReportsOnDrop(s1, sc, ops[1..]);
    }
  }

  /** A fresh debug handle reports the missing call until its own detach is called. */
  lemma FreshDebugScopeReportsOnDrop(s: Storage, ctx: Context, ops: seq<Op>)
    requires (forall t :: t in s.detachCalls ==> t < |s.scopes|)
    requires forall i :: 0 <= i < |ops| ==> ops[i] != DetachOp(Activate(s, ctx, true).1)
    ensures Drop(Run(Activate(s, ctx, true).0, ops), Activate(s, ctx, true).1) == Some(MissingDetach)
  {
    UncalledDetachReportsOnDrop(Activate(s, ctx, true).0, Activate(s, ctx, true).1, ops);
  }

  /** No frame of scope `t` is on any stack. */
  ghost predicate Absent(s: Storage, t: nat) {
    forall id, i :: id in s.stacks && 0 <= i < |s.stacks[id]| ==> s.stacks[id][i].scope != t
  }

  lemma StepKeepsAbsent(s: Storage, op: Op, t: nat)
    requires t < |s.scopes| && Absent(s, t)
    ensures Absent(Step(s, op), t)
  {
    match op
    case ActivateOp(ctx, debug) =>
      var s' := Step(s, op);
      forall id, i | id in s'.stacks && 0 <= i < |s'.stacks[id]| ensures s'.stacks[id][i].scope != t {
        assert s'.stacks[id] == StackOf(s', id);
        if id != s.selected || i < |StackOf(s, id)| {
          assert id in s.stacks;
        }
      }
    case DetachOp(sc) =>
      if Issued(s, sc) {
        var s' := Step(s, op);
        var own := s.scopes[sc.token].executionContext;
        forall id, i | id in s'.stacks && 0 <= i < |s'.stacks[id]| ensures s'.stacks[id][i].scope != t {
          assert s'.stacks[id] == StackOf(s', id);
          if Detach(s, sc).1 == None {
            if id == own {
              assert s'.stacks[id][i] in StackOf(s, own);
            } else {
              assert s'.stacks[id] == StackOf(s, id);
            }
          }
        }
      }
    case ForkOp(id) =>
    case SwitchOp(id) =>
    case DestroyOp(id) =>
  }

  lemma {:induction false} RunKeepsAbsent(s: Storage, ops: seq<Op>, t: nat)
    requires t < |s.scopes| && Absent(s, t)
    ensures Absent(Run(s, ops), t)
    decreases |ops|
  {
    if ops != [] {
      StepKeepsAbsent(s, ops[0], t);
      RunExtendsScopes(s, [ops[0]]);
      RunKeepsAbsent(Step(s, ops[0]), ops[1..], t);
    }
  }

  /** A debug scope with no frame on any stack cannot be detached successfully. */
  lemma AbsentScopeNeverDetaches(s: Storage, sc: Scope)
    requires Issued(s, sc) && sc.debug && Absent(s, sc.token)
    ensures Detach(s, sc).1.Some?
  {
    var own := s.scopes[sc.token].executionContext;
    var st := StackOf(s, own);
    if st != [] {
      assert st == s.stacks[own];
      assert st[|st| - 1].scope != sc.token;
    }
  }

  /**
   * Once the stack a debug scope was created on is destroyed, no later call
   * can make detaching that scope succeed.
   */
  lemma DestroyedScopeStaysInvalid(s: Storage, sc: Scope, later: seq<Op>)
    requires Valid(s) && Issued(s, sc) && sc.debug
    ensures var s' := Run(Destroy(s, s.scopes[sc.token].executionContext), later);
      Issued(s', sc) && Detach(s', sc).1.Some?
  {
    var own := s.scopes[sc.token].executionContext;
    var d := Destroy(s, own);
    forall id, i | id in d.stacks && 0 <= i < |d.stacks[id]| ensures d.stacks[id][i].scope != sc.token {
      assert StackValid(s.scopes, id, s.stacks[id]);
    }
    RunKeepsAbsent(d, later, sc.token);
    RunExtendsScopes(d, later);
    AbsentScopeNeverDetaches(Run(d, later), sc);
  }

  /**
   * A well-nested use of scopes: activate `context`, run the nested blocks,
   * then detach the scope the activation returned.
   */
  datatype Block = Block(context: Context, debug: bool, body: seq<Block>)

  /** Runs blocks one after the other; the flag says whether every detach succeeded. */
  function RunBlocks(s: Storage, bs: seq<Block>): (r: (Storage, bool))
    ensures |s.scopes| <= |r.0.scopes|
    decreases bs
  {
    if bs == [] then (s, true)
    else
      var (s1, sc) := Activate(s, bs[0].context, bs[0].debug);
      var (s2, innerOk) := RunBlocks(s1, bs[0].body);
      var (s3, err) := Detach(s2, sc);
      var (s4, restOk) := RunBlocks(s3, bs[1..]);
      (s4, innerOk && err.None? && restOk)
  }

  /** `s'` has the same stacks and selection as `s`, and every scope of `s` is as it was. */
  ghost predicate SameStacks(s: Storage, s': Storage) {
    && s'.selected == s.selected
    && (forall id :: StackOf(s', id) == StackOf(s, id))
    && s.scopes <= s'.scopes
  }

  lemma SameStacksTrans(s1: Storage, s2: Storage, s3: Storage)
    requires SameStacks(s1, s2) && SameStacks(s2, s3)
    ensures SameStacks(s1, s3)
  {
  }

  /**
   * Round trip: when every activation is detached in strict reverse order,
   * every detach succeeds (debug or not) and every stack, and so every current
   * context, is what it was before.
   */
  lemma {:induction false} NestedScopesRestore(s: Storage, bs: seq<Block>)
    requires Valid(s)
    ensures RunBlocks(s, bs).1
    ensures SameStacks(s, RunBlocks(s, bs).0)
    ensures Valid(RunBlocks(s, bs).0)
    ensures Current(RunBlocks(s, bs).0) == Current(s)
    decreases bs
  {
    if bs != [] {
      var b := bs[0];
      var (s1, sc) := Activate(s, b.context, b.debug);
      NestedScopesRestore(s1, b.body);
      var s2 := RunBlocks(s1, b.body).0;
      DetachAfterRestoredBody(s, b.context, b.debug, s2);
      var s3 := Detach(s2, sc).0;
      assert Valid(s3);
      NestedScopesRestore(s3, bs[1..]);
      SameStacksTrans(s, s3, RunBlocks(s3, bs[1..]).0);
    }
  }

  /**
   * One block: if what ran between the activation and the detach left the
   * stacks as the activation made them, the detach succeeds and the stacks
   * are as they were before the activation.
   */
  lemma DetachAfterRestoredBody(s: Storage, ctx: Context, debug: bool, s2: Storage)
    requires Valid(s)
    requires SameStacks(Activate(s, ctx, debug).0, s2) && Valid(s2)
    ensures var sc := Activate(s, ctx, debug).1;
      Issued(s2, sc) && Detach(s2, sc).1 == None && SameStacks(s, Detach(s2, sc).0)
  {
    var (s1, sc) := Activate(s, ctx, debug);
    var t := sc.token;
    var sel := s.selected;
    assert s2.scopes[t] == s1.scopes[t] == ScopeState(sel, false);
    var below := StackOf(s, sel);
    assert StackOf(s2, sel) == below + [Frame(t, ctx)];
    DetachTop(s2, sc, below, ctx);
    var s3 := Detach(s2, sc).0;
    assert s.scopes <= s3.scopes by {
      assert s3.scopes[..|s.scopes|] == s2.scopes[..|s.scopes|];
    }
  }

  /** Detaching the scope on top of the selected stack, created there: it succeeds and pops exactly its frame. */
  lemma DetachTop(s: Storage, sc: Scope, below: seq<Frame>, ctx: Context)
    requires Valid(s) && Issued(s, sc)
    requires s.scopes[sc.token] == ScopeState(s.selected, false)
    requires StackOf(s, s.selected) == below + [Frame(sc.token, ctx)]
    ensures var r := Detach(s, sc);
      && r.1 == None && Valid(r.0) && r.0.selected == s.selected
      && StackOf(r.0, s.selected) == below
      && (forall id :: id != s.selected ==> StackOf(r.0, id) == StackOf(s, id))
      && r.0.scopes == s.scopes[sc.token := ScopeState(s.selected, true)]
      && r.0.detachCalls == (if sc.debug then s.detachCalls + {sc.token} else s.detachCalls)
  {
    assert (below + [Frame(sc.token, ctx)])[..|below|] == below;
    if !sc.debug {
      var st := s.stacks[s.selected];
      assert StackValid(s.scopes, s.selected, st);
      forall i | 0 <= i < |below| ensures below[i].scope != sc.token {
        assert st[i] == below[i] && st[|below|] == Frame(sc.token, ctx);
      }
      WithoutLast(below, Frame(sc.token, ctx));
    }
  }

  /**
   * Scope order: with scope1 and then scope2 activated, detaching scope1 first
   * reports OrderMismatch and changes nothing but the record of the call;
   * detaching scope2 then succeeds and makes scope1's context current, and
   * dropping either handle reports nothing. Detaching scope1 afterwards
   * succeeds and restores the context current before scope1.
   */
  lemma OrderMismatchThenReverseOrder(s: Storage, a: Context, b: Context)
    requires Valid(s)
    ensures var (s1, scope1) := Activate(s, a, true);
      var (s2, scope2) := Activate(s1, b, true);
      var s3 := Detach(s2, scope1).0;
      var s4 := Detach(s3, scope2).0;
      && Detach(s2, scope1) == (MarkCalled(s2, scope1.token), Some(OrderMismatch))
      && Detach(s3, scope2).1 == None
      && Current(s4) == a
      && Drop(s4, scope1) == None && Drop(s4, scope2) == None
      && Detach(s4, scope1).1 == None
      && Current(Detach(s4, scope1).0) == Current(s)
  {
    var (s1, scope1) := Activate(s, a, true);
    var (s2, scope2) := Activate(s1, b, true);
    var sel := s.selected;
    var below := StackOf(s, sel);
    var mid := below + [Frame(scope1.token, a)];
    assert StackOf(s2, sel) == mid + [Frame(scope2.token, b)];
    var s3 := Detach(s2, scope1).0;
    DetachTop(s3, scope2, mid, b);
    var s4 := Detach(s3, scope2).0;
    DetachTop(s4, scope1, below, a);
  }

  /**
   * Execution context: a debug scope created on the selected id, then detached
   * after forking and switching to another id, reports ExecutionContextMismatch
   * and changes nothing but the record of the call. After switching back and
   * destroying the other id, dropping the handle reports nothing, and a new
   * detach succeeds and restores the context current before it.
   */
  lemma ForeignExecutionContextThenSwitchBack(s: Storage, a: Context, other: int)
    requires Valid(s) && other != s.selected
    ensures var (s1, sc) := Activate(s, a, true);
      var s2 := Switch(Fork(s1, other), other);
      var s3 := Destroy(Switch(Detach(s2, sc).0, s.selected), other);
      && Detach(s2, sc) == (MarkCalled(s2, sc.token), Some(ExecutionContextMismatch))
      && Drop(s3, sc) == None
      && Detach(s3, sc).1 == None
      && Current(Detach(s3, sc).0) == Current(s)
  {
  }

  /** A debug scope whose stack has been destroyed, detached on its own id, reports StackUnderflow. */
  lemma DestroyedStackUnderflows(s: Storage, a: Context)
    ensures var (s1, sc) := Activate(s, a, true);
      var s2 := Destroy(s1, s.selected);
      Detach(s2, sc) == (MarkCalled(s2, sc.token), Some(StackUnderflow))
  {
  }

  /**
   * A debug scope dropped without a detach reports the missing call; the
   * storage's own scope for the top of the stack is still there, detaches
   * without a report and restores the previous context. That detach goes
   * through the plain handle, so it is not a call of the debug handle's
   * detach: the debug handle would still report the missing call.
   */
  lemma DroppedScopeStillDetachable(s: Storage, a: Context)
    requires Valid(s)
    ensures var (s1, sc) := Activate(s, a, true);
      && Drop(s1, sc) == Some(MissingDetach)
      && TopScope(s1) == Some(Scope(sc.token, false))
      && Detach(s1, Scope(sc.token, false)).1 == None
      && Current(Detach(s1, Scope(sc.token, false)).0) == Current(s)
      && Drop(Detach(s1, Scope(sc.token, false)).0, sc) == Some(MissingDetach)
  {
    var (s1, sc) := Activate(s, a, true);
    var below := StackOf(s, s.selected);
    assert forall i :: 0 <= i < |below| ==> below[i].scope != sc.token by {
      if below != [] {
        assert s.selected in s.stacks && StackValid(s.scopes, s.selected, s.stacks[s.selected]);
      }
    }
    WithoutLast(below, Frame(sc.token, a));
  }

  /** Plain scopes never report: detaching one twice, or out of order, is silent. */
  lemma PlainScopesNeverReport(s: Storage, a: Context, b: Context)
    ensures var (s1, scope1) := Activate(s, a, false);
      var (s2, scope2) := Activate(s1, b, false);
      && Detach(s2, scope1).1 == None
      && Detach(Detach(s2, scope1).0, scope1).1 == None
      && Detach(Detach(s2, scope1).0, scope2).1 == None
  {
  }
}
