/**
 * The execution-context-aware scope storage as a value: one stack of activated
 * contexts per execution-context id, the selected id, and for every scope ever
 * handed out the id it was created on and whether it has been detached, and
 * for every debug handle whether its detach has been called.
 *
 * A stack's last element is its top. Every operation is a function from the old
 * storage to the new one; the class in ScopeStorage.dfy is proved against them.
 */
module ScopeModel {
  import opened Wrappers
  import opened Contexts

  /** One activation on a stack: the scope that owns it and the context it made current. */
  datatype Frame = Frame(scope: nat, context: Context)

  /** What the storage remembers of a scope: where it was created and whether it is detached. */
  datatype ScopeState = ScopeState(executionContext: int, detached: bool)

  /**
   * `detachCalls` holds the tokens of the debug handles whose detach has been
   * called, whether or not that detach reported a misuse: a debug handle
   * remembers the call itself, not its outcome.
   */
  datatype Storage = Storage(stacks: map<int, seq<Frame>>, selected: int, scopes: seq<ScopeState>, detachCalls: set<nat>)

  /**
   * The handle `activate` returns. `debug` says whether it is the diagnostic
   * wrapper (DebugScope) or the plain storage scope.
   */
  datatype Scope = Scope(token: nat, debug: bool)

  /** The misuses a debug scope reports. */
  datatype Diagnostic =
    | AlreadyDetached
    | OrderMismatch
    | ExecutionContextMismatch
    | StackUnderflow
    | MissingDetach

  /** The id selected before any switch. */
  const MainExecutionContext: int := 0

  /** The distinguishing phrase of each diagnostic's message. */
  function Phrase(d: Diagnostic): string {
    match d
    case AlreadyDetached => "already detached"
    case OrderMismatch => "another scope"
    case ExecutionContextMismatch => "different execution context"
    case StackUnderflow => "missing preceding activation"
    case MissingDetach => "missing call"
  }

  /** Whether p occurs as a contiguous part of s, as a substring match checks. */
  predicate Occurs(p: string, s: string) {
    exists i :: 0 <= i <= |s| && p <= s[i..]
  }

  /** A character of p that s lacks keeps p from occurring in s. */
  lemma AbsentCharBlocks(p: string, s: string, k: nat)
    requires k < |p| && p[k] !in s
    ensures !Occurs(p, s)
  {
  }

  /** "missing call" occurs in no other phrase. */
  lemma MissingCallNotContained(e: Diagnostic)
    requires e != MissingDetach
    ensures !Occurs(Phrase(MissingDetach), Phrase(e))
  {
    match e
    case AlreadyDetached => AbsentCharBlocks("missing call", "already detached", 0);
    case OrderMismatch => AbsentCharBlocks("missing call", "another scope", 10);
    case ExecutionContextMismatch => AbsentCharBlocks("missing call", "different execution context", 0);
    case StackUnderflow => AbsentCharBlocks("missing call", "missing preceding activation", 10);
  }

  /** "another scope" occurs in no other phrase. */
  lemma AnotherScopeNotContained(e: Diagnostic)
    requires e != OrderMismatch
    ensures !Occurs(Phrase(OrderMismatch), Phrase(e))
  {
    match e
    case AlreadyDetached => AbsentCharBlocks("another scope", "already detached", 2);
    case ExecutionContextMismatch => AbsentCharBlocks("another scope", "different execution context", 0);
    case StackUnderflow => AbsentCharBlocks("another scope", "missing preceding activation", 4);
    case MissingDetach => assert |Phrase(OrderMismatch)| > |Phrase(e)|;
  }

  /** "already detached" occurs in no other phrase. */
  lemma AlreadyDetachedNotContained(e: Diagnostic)
    requires e != AlreadyDetached
    ensures !Occurs(Phrase(AlreadyDetached), Phrase(e))
  {
    match e
    case ExecutionContextMismatch => AbsentCharBlocks("already detached", "different execution context", 0);
    case StackUnderflow => AbsentCharBlocks("already detached", "missing preceding activation", 1);
    case OrderMismatch => assert |Phrase(AlreadyDetached)| > |Phrase(e)|;
    case MissingDetach => assert |Phrase(AlreadyDetached)| > |Phrase(e)|;
  }

  /** "different execution context" occurs in no other phrase. */
  lemma DifferentContextNotContained(e: Diagnostic)
    requires e != ExecutionContextMismatch
    ensures !Occurs(Phrase(ExecutionContextMismatch), Phrase(e))
  {
    if e == StackUnderflow {
      AbsentCharBlocks("different execution context", "missing preceding activation", 2);
    }
  }

  /** Every phrase occurs in itself, at offset 0. */
  lemma OccursInItself(p: string)
    ensures Occurs(p, p)
  {
    assert p <= p[0..];
  }

  /**
   * No diagnostic's phrase occurs inside another's message phrase, so a
   * substring match on one phrase singles out one diagnostic.
   */
  lemma PhrasesDistinct(d: Diagnostic, e: Diagnostic)
    requires d != e
    ensures !Occurs(Phrase(d), Phrase(e))
    ensures Phrase(d) != Phrase(e)
  {
    OccursInItself(Phrase(d));
    match d
    case MissingDetach => MissingCallNotContained(e);
    case OrderMismatch => AnotherScopeNotContained(e);
    case AlreadyDetached => AlreadyDetachedNotContained(e);
    case ExecutionContextMismatch => DifferentContextNotContained(e);
    case StackUnderflow => assert |Phrase(d)| > |Phrase(e)|;
  }

  function StackOf(s: Storage, id: int): seq<Frame> {
    if id in s.stacks then s.stacks[id] else []
  }

  /** The current context of an execution context: the context of its newest activation, or the root. */
  function CurrentOf(s: Storage, id: int): (r: Context)
    ensures StackOf(s, id) == [] ==> r == Root
    ensures StackOf(s, id) != [] ==> r == StackOf(s, id)[|StackOf(s, id)| - 1].context
  {
    var st := StackOf(s, id);
    if st == [] then Root else st[|st| - 1].context
  }

  /** The current context as seen from the selected execution context (Context::getCurrent). */
  function Current(s: Storage): (r: Context)
    ensures StackOf(s, s.selected) == [] ==> r == Root
    ensures StackOf(s, s.selected) != [] ==> r == StackOf(s, s.selected)[|StackOf(s, s.selected)| - 1].context
  {
    CurrentOf(s, s.selected)
  }

  /** `sc` was handed out by this storage. */
  predicate Issued(s: Storage, sc: Scope) {
    sc.token < |s.scopes|
  }

  ghost predicate Increasing(st: seq<Frame>) {
    forall i, j :: 0 <= i < j < |st| ==> st[i].scope < st[j].scope
  }

  /** Every frame on the stack of `id` belongs to a live scope created on `id`, newest on top. */
  ghost predicate StackValid(scopes: seq<ScopeState>, id: int, st: seq<Frame>) {
    && (forall i :: 0 <= i < |st| ==> st[i].scope < |scopes| && scopes[st[i].scope] == ScopeState(id, false))
    && Increasing(st)
  }

  /** Every stack is valid, and only handed-out scopes have a recorded detach call. */
  ghost predicate Valid(s: Storage) {
    && (forall id :: id in s.stacks ==> StackValid(s.scopes, id, s.stacks[id]))
    && (forall t :: t in s.detachCalls ==> t < |s.scopes|)
  }

  /** A storage in which nothing has been activated. */
  function Empty(): (s: Storage)
    ensures Valid(s) && s.selected == MainExecutionContext
    ensures forall id :: CurrentOf(s, id) == Root
  {
    Storage(map[], MainExecutionContext, [], {})
  }

  lemma StackValidExtend(scopes: seq<ScopeState>, more: seq<ScopeState>, id: int, st: seq<Frame>)
    requires StackValid(scopes, id, st)
    ensures StackValid(scopes + more, id, st)
  {
  }

  /**
   * Pushes `ctx` onto the selected stack and hands out a new scope for it.
   * `debug` is the debug-scope selection made at the call.
   */
  function Activate(s: Storage, ctx: Context, debug: bool): (r: (Storage, Scope))
    ensures r.1 == Scope(|s.scopes|, debug) && Issued(r.0, r.1)
    ensures r.0.selected == s.selected
    ensures r.0.scopes == s.scopes + [ScopeState(s.selected, false)]
    ensures r.0.detachCalls == s.detachCalls
    ensures StackOf(r.0, s.selected) == StackOf(s, s.selected) + [Frame(r.1.token, ctx)]
    ensures forall id :: id != s.selected ==> StackOf(r.0, id) == StackOf(s, id)
    ensures Current(r.0) == ctx
    ensures Valid(s) ==> Valid(r.0)
  {
    var t := |s.scopes|;
    var st := StackOf(s, s.selected);
    var s' := s.(stacks := s.stacks[s.selected := st + [Frame(t, ctx)]], scopes := s.scopes + [ScopeState(s.selected, false)]);
    assert Valid(s) ==> Valid(s') by {
      if Valid(s) {
        forall id | id in s'.stacks
          ensures StackValid(s'.scopes, id, s'.stacks[id])
        {
          if id == s.selected {
            if id in s.stacks { StackValidExtend(s.scopes, [ScopeState(s.selected, false)], id, st); }
          } else {
            StackValidExtend(s.scopes, [ScopeState(s.selected, false)], id, s.stacks[id]);
          }
        }
      }
    }
    (s', Scope(t, debug))
  }

  /** `st` with every frame of scope `t` taken out and every other frame kept. */
  function Without(st: seq<Frame>, t: nat): (r: seq<Frame>)
    ensures |r| <= |st|
    ensures forall i :: 0 <= i < |r| ==> r[i].scope != t && r[i] in st
    ensures (forall i :: 0 <= i < |st| ==> st[i].scope != t) ==> r == st
  {
    if st == [] then []
    else (if st[0].scope == t then [] else [st[0]]) + Without(st[1..], t)
  }

  /** Only the frames of `t` go: every other frame of `st` is still there. */
  lemma {:induction false} WithoutKeepsOthers(st: seq<Frame>, t: nat)
    ensures forall i :: 0 <= i < |st| && st[i].scope != t ==> st[i] in Without(st, t)
  {
    if st != [] {
      WithoutKeepsOthers(st[1..], t);
      forall i | 0 <= i < |st| && st[i].scope != t ensures st[i] in Without(st, t) {
        if i > 0 {
          assert st[i] == st[1..][i - 1];
        }
      }
    }
  }

  lemma IncreasingTail(st: seq<Frame>)
    requires Increasing(st) && st != []
    ensures Increasing(st[1..])
    ensures forall k :: 0 <= k < |st[1..]| ==> st[0].scope < st[1..][k].scope
  {
    var tail := st[1..];
    forall i, j | 0 <= i < j < |tail| ensures tail[i].scope < tail[j].scope {
      assert tail[i] == st[i + 1] && tail[j] == st[j + 1];
    }
    forall k | 0 <= k < |tail| ensures st[0].scope < tail[k].scope {
      assert tail[k] == st[k + 1];
    }
  }

  /** Taking frames out keeps every bound the remaining frames obeyed. */
  lemma {:induction false} WithoutAbove(st: seq<Frame>, t: nat, b: int)
    requires forall k :: 0 <= k < |st| ==> b < st[k].scope
    ensures forall k :: 0 <= k < |Without(st, t)| ==> b < Without(st, t)[k].scope
  {
    if st != [] {
      WithoutAbove(st[1..], t, b);
    }
  }

  lemma IncreasingCons(f: Frame, rest: seq<Frame>)
    requires Increasing(rest)
    requires forall k :: 0 <= k < |rest| ==> f.scope < rest[k].scope
    ensures Increasing([f] + rest)
  {
    var r := [f] + rest;
    forall i, j | 0 <= i < j < |r| ensures r[i].scope < r[j].scope {
      assert r[j] == rest[j - 1];
      if i > 0 {
        assert r[i] == rest[i - 1];
      }
    }
  }

  lemma {:induction false} WithoutIncreasing(st: seq<Frame>, t: nat)
    requires Increasing(st)
    ensures Increasing(Without(st, t))
  {
    if st != [] {
      IncreasingTail(st);
      WithoutIncreasing(st[1..], t);
      WithoutAbove(st[1..], t, st[0].scope);
      if st[0].scope != t {
        IncreasingCons(st[0], Without(st[1..], t));
      }
    }
  }

  lemma {:induction false} WithoutLast(st: seq<Frame>, f: Frame)
    requires forall i :: 0 <= i < |st| ==> st[i].scope != f.scope
    ensures Without(st + [f], f.scope) == st
  {
    if st == [] {
      assert Without([f], f.scope) == [] + Without([], f.scope);
    } else {
      assert (st + [f])[1..] == st[1..] + [f];
      WithoutLast(st[1..], f);
    }
  }

  /** Taking the top scope's frames out of a valid stack pops exactly the top frame. */
  lemma PopTop(st: seq<Frame>)
    requires Increasing(st) && st != []
    ensures Without(st, st[|st| - 1].scope) == st[..|st| - 1]
  {
    var p := st[..|st| - 1];
    assert st == p + [st[|st| - 1]];
    forall i | 0 <= i < |p| ensures p[i].scope != st[|st| - 1].scope {
      assert p[i] == st[i];
    }
    WithoutLast(p, st[|st| - 1]);
  }

  /**
   * The undiagnosed detach of the plain storage scope: the scope's frame leaves
   * the stack it was created on, wherever it sits, and the scope is marked detached.
   * It never reports anything.
   */
  function PlainDetach(s: Storage, t: nat): (r: Storage)
    requires t < |s.scopes|
    ensures r.selected == s.selected && |r.scopes| == |s.scopes|
    ensures r.scopes == s.scopes[t := ScopeState(s.scopes[t].executionContext, true)]
    ensures r.detachCalls == s.detachCalls
    ensures var own := s.scopes[t].executionContext;
      && StackOf(r, own) == Without(StackOf(s, own), t)
      && forall id :: id != own ==> StackOf(r, id) == StackOf(s, id)
    ensures Valid(s) ==> Valid(r)
  {
    var own := s.scopes[t].executionContext;
    var stacks := if own in s.stacks then s.stacks[own := Without(s.stacks[own], t)] else s.stacks;
    var r := s.(stacks := stacks, scopes := s.scopes[t := ScopeState(own, true)]);
    assert Valid(s) ==> Valid(r) by {
      if Valid(s) {
        forall id | id in r.stacks
          ensures StackValid(r.scopes, id, r.stacks[id])
        {
          assert StackValid(s.scopes, id, s.stacks[id]);
          if id == own {
            WithoutIncreasing(s.stacks[id], t);
            var w := Without(s.stacks[id], t);
            forall i | 0 <= i < |w| ensures w[i].scope < |r.scopes| && r.scopes[w[i].scope] == ScopeState(id, false) {
              var k :| 0 <= k < |s.stacks[id]| && s.stacks[id][k] == w[i];
            }
          } else {
            forall i | 0 <= i < |r.stacks[id]| ensures r.stacks[id][i].scope != t {
              assert s.scopes[r.stacks[id][i].scope].executionContext == id;
            }
          }
        }
      }
    }
    r
  }

  /**
   * The checked detach of a debug scope. The checks run in this order and the
   * first that fails is reported with the storage left as it was: already
   * detached; another scope on top of the scope's own stack; a different
   * execution context selected than the one the scope was created on; nothing
   * on the stack to pop. When all pass, the scope's frame is popped and the
   * context below it is current again.
   */
  function DebugDetach(s: Storage, t: nat): (r: (Storage, Option<Diagnostic>))
    requires t < |s.scopes|
    ensures var own := s.scopes[t].executionContext;
      var st := StackOf(s, own);
      && (r.1 == None <==> !s.scopes[t].detached && st != [] && st[|st| - 1].scope == t && s.selected == own)
      && (r.1 == Some(AlreadyDetached) <==> s.scopes[t].detached)
      && (r.1 == Some(OrderMismatch) <==> !s.scopes[t].detached && st != [] && st[|st| - 1].scope != t)
      && (r.1 == Some(ExecutionContextMismatch) <==>
            !s.scopes[t].detached && (st == [] || st[|st| - 1].scope == t) && s.selected != own)
      && (r.1 == Some(StackUnderflow) <==> !s.scopes[t].detached && st == [] && s.selected == own)
      && (Valid(s) && r.1 == None ==>
            && StackOf(r.0, own) == st[..|st| - 1]
            && Current(r.0) == (if |st| == 1 then Root else st[|st| - 2].context))
    ensures r.1 != None ==> r.0 == s
    ensures r.1 == None ==> r.0 == PlainDetach(s, t)
    ensures Valid(s) ==> Valid(r.0)
  {
    var own := s.scopes[t].executionContext;
    var st := StackOf(s, own);
    if s.scopes[t].detached then (s, Some(AlreadyDetached))
    else if st != [] && st[|st| - 1].scope != t then (s, Some(OrderMismatch))
    else if s.selected != own then (s, Some(ExecutionContextMismatch))
    else if st == [] then (s, Some(StackUnderflow))
    else
      var r := PlainDetach(s, t);
      assert Valid(s) ==> StackOf(r, own) == st[..|st| - 1] by {
        if Valid(s) {
          assert StackValid(s.scopes, own, s.stacks[own]);
          PopTop(st);
        }
      }
      (r, None)
  }

  /** Records that the detach of the debug handle for `t` has been called; nothing else changes. */
  function MarkCalled(s: Storage, t: nat): (r: Storage)
    requires t < |s.scopes|
    ensures t in r.detachCalls && r.detachCalls - {t} == s.detachCalls - {t}
    ensures r.stacks == s.stacks && r.selected == s.selected && r.scopes == s.scopes
    ensures Valid(s) ==> Valid(r)
  {
    s.(detachCalls := s.detachCalls + {t})
  }

  /**
   * Detaching through a handle. The debug wrapper first records that its
   * detach was called, then runs its checks; the plain scope does not check.
   */
  function Detach(s: Storage, sc: Scope): (r: (Storage, Option<Diagnostic>))
    requires Issued(s, sc)
    ensures !sc.debug ==> r.1 == None
    ensures r.1 != Some(MissingDetach)
    ensures r.0.detachCalls == (if sc.debug then s.detachCalls + {sc.token} else s.detachCalls)
    ensures r.1 != None ==> r.0 == MarkCalled(s, sc.token)
    ensures r.1 == None ==> r.0 == PlainDetach(s, sc.token).(detachCalls := r.0.detachCalls) && r.0.scopes[sc.token].detached
    ensures r.0.selected == s.selected && |r.0.scopes| == |s.scopes|
    ensures Valid(s) ==> Valid(r.0)
  {
    if sc.debug then DebugDetach(MarkCalled(s, sc.token), sc.token) else (PlainDetach(s, sc.token), None)
  }

  /** A fresh, empty stack for `id`, seeded from the root; any stack `id` had is dropped. */
  function Fork(s: Storage, id: int): (r: Storage)
    ensures StackOf(r, id) == [] && CurrentOf(r, id) == Root
    ensures forall other :: other != id ==> StackOf(r, other) == StackOf(s, other)
    ensures r.selected == s.selected && r.scopes == s.scopes && r.detachCalls == s.detachCalls
    ensures Valid(s) ==> Valid(r)
  {
    s.(stacks := s.stacks[id := []])
  }

  /** Selects `id`; no stack is touched. */
  function Switch(s: Storage, id: int): (r: Storage)
    ensures r.selected == id && r.stacks == s.stacks && r.scopes == s.scopes && r.detachCalls == s.detachCalls
    ensures Current(r) == CurrentOf(s, id)
    ensures Valid(s) ==> Valid(r)
  {
    s.(selected := id)
  }

  /** Discards the stack of `id`; the scopes that were on it can never detach again. */
  function Destroy(s: Storage, id: int): (r: Storage)
    ensures id !in r.stacks && CurrentOf(r, id) == Root
    ensures forall other :: other != id ==> StackOf(r, other) == StackOf(s, other)
    ensures r.selected == s.selected && r.scopes == s.scopes && r.detachCalls == s.detachCalls
    ensures Valid(s) ==> Valid(r)
  {
    s.(stacks := s.stacks - {id})
  }

  /**
   * The storage's own scope for the top of the selected stack (the plain scope,
   * not a debug wrapper), or None when that stack is empty.
   */
  function TopScope(s: Storage): (r: Option<Scope>)
    ensures r.None? <==> StackOf(s, s.selected) == []
    ensures r.Some? ==> !r.value.debug && r.value.token == StackOf(s, s.selected)[|StackOf(s, s.selected)| - 1].scope
    ensures Valid(s) && r.Some? ==> Issued(s, r.value)
  {
    var st := StackOf(s, s.selected);
    if st == [] then None
    else
      assert Valid(s) ==> StackValid(s.scopes, s.selected, s.stacks[s.selected]);
      Some(Scope(st[|st| - 1].scope, false))
  }

  /**
   * What is reported when a handle is dropped: a debug handle whose detach was
   * never called reports the missing call. A detach that itself reported a
   * misuse still counts as called, and a plain handle never reports.
   */
  function Drop(s: Storage, sc: Scope): (r: Option<Diagnostic>)
    ensures r.Some? ==> r == Some(MissingDetach) && sc.debug
    ensures !sc.debug ==> r == None
    ensures sc.debug ==> (r == None <==> sc.token in s.detachCalls)
  {
    if sc.debug && sc.token !in s.detachCalls then Some(MissingDetach) else None
  }
}
