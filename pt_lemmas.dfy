/**
 * Properties of the protothread semantics of module Protothreads: what a
 * single invocation can return, where a resumed invocation lands, and how the
 * derived macros (PT_WAIT_WHILE, PT_WAIT_THREAD, PT_SPAWN) relate to
 * PT_WAIT_UNTIL.
 */
module ProtothreadLemmas {
  import opened Wrappers
  import opened Protothreads

  /**
   * `mem` is what PT_WAIT_THREAD leaves when child `child` on block `kid`
   * returned WAITING: the state of some invocation of the child that returned
   * WAITING, with the child's new marker stored back in its block, and that
   * marker LC_NULL or one of the child's own sites.
   */
  ghost predicate ChildSuspended<S(!new), I(!new)>(kid: nat, child: Body<S, I>, mem: Mem<S>, input: I)
  {
    kid in mem.kids && (mem.kids[kid] == LC_NULL || IsSite(child.stmts, mem.kids[kid])) &&
    exists m0: Mem<S> :: kid in m0.kids &&
      var r := Run(child, m0.kids[kid], m0, input);
      r.Returned? && r.status == WAITING && mem == r.mem.(kids := r.mem.kids[kid := r.lc])
  }

  /**
   * Blocking statement `s`, tested on state `mem`, leaves the thread waiting:
   * the condition of PT_WAIT_UNTIL is false, that of PT_WAIT_WHILE is true, or
   * the child of PT_WAIT_THREAD/PT_SPAWN returned WAITING (`ChildSuspended`).
   */
  ghost predicate SuspendsOn<S(!new), I(!new)>(s: Stmt<S, I>, mem: Mem<S>, input: I)
  {
    match s
    case WaitUntil(_, cond) => !cond(mem.user, input)
    case WaitWhile(_, cond) => cond(mem.user, input)
    case WaitThread(_, kid, child) => ChildSuspended(kid, child, mem, input)
    case Spawn(_, kid, child) => ChildSuspended(kid, child, mem, input)
    case _ => false
  }

  /**
   * Code of `b` run from `pc` that returns WAITING stopped at a statement at or
   * after `pc`: either a PT_RESTART, leaving LC_NULL, or a blocking statement
   * whose site is the returned marker and which suspends on the returned state.
   */
  lemma {:induction false} ExecReturns<S(!new), I(!new)>(b: Body<S, I>, pc: Pc, lc: nat, m: Mem<S>, input: I)
    requires PcOk(b.stmts, pc)
    requires pc.Test? ==> b.stmts[pc.i].HasSite(lc)
    ensures var r := Exec(b, pc, lc, m, input);
            r.Returned? && r.status == WAITING ==>
              (r.lc == LC_NULL && exists t :: pc.i <= t < |b.stmts| && b.stmts[t].Restart?) ||
              (exists t :: pc.i <= t < |b.stmts| && b.stmts[t].HasSite(r.lc) &&
                           SuspendsOn(b.stmts[t], r.mem, input))
    decreases b, Measure(|b.stmts|, pc)
  {
    match pc
    case At(i) =>
      if i < |b.stmts| {
        var s := b.stmts[i];
        match s
        case Do(effect) => ExecReturns(b, At(i + 1), lc, m.(user := effect(m.user, input)), input);
        case InitChild(kid) => ExecReturns(b, At(i + 1), lc, m.(kids := m.kids[kid := LC_NULL]), input);
        case Restart =>
        case Exit =>
        case _ => ExecReturns(b, Test(i), s.site, m, input);
      }
    case Test(i) =>
      var s := b.stmts[i];
      if s.WaitUntil? || s.WaitWhile? {
        ExecReturns(b, At(i + 1), lc, m, input);
      } else if s.kid in m.kids {
        var r := Run(s.child, m.kids[s.kid], m, input);
        if r.Returned? {
          var m2 := r.mem.(kids := r.mem.kids[s.kid := r.lc]);
          if r.status == WAITING {
            InvocationOutcome(s.child, m.kids[s.kid], m, input);
            assert ChildSuspended(s.kid, s.child, m2, input) by {
              assert s.kid in m.kids && m2 == r.mem.(kids := r.mem.kids[s.kid := r.lc]);
            }
            assert SuspendsOn(s, m2, input);
          } else {
            ExecReturns(b, At(i + 1), lc, m2, input);
          }
        }
      }
  }

  /**
   * An invocation that returns WAITING stopped at or after the point where it
   * resumed: at a PT_RESTART, leaving LC_NULL, or at a blocking statement whose
   * site is the new marker and which suspends on the returned state.
   */
  lemma InvocationOutcome<S(!new), I(!new)>(b: Body<S, I>, lc: nat, m: Mem<S>, input: I)
    ensures var r := Run(b, lc, m, input);
            r.Returned? && r.status == WAITING ==>
              var start := Dispatch(b.stmts, lc).value.i;
              (r.lc == LC_NULL && exists t :: start <= t < |b.stmts| && b.stmts[t].Restart?) ||
              (exists t :: start <= t < |b.stmts| && b.stmts[t].HasSite(r.lc) &&
                           SuspendsOn(b.stmts[t], r.mem, input))
    decreases b, 2 * |b.stmts| + 2
  {
    var pc := Dispatch(b.stmts, lc);
    if pc.Some? {
      ExecReturns(b, pc.value, lc, m.(user := b.prologue(m.user, input)), input);
    }
  }

  /** PT_SCHEDULE holds of an invocation's result exactly when it did not exit. */
  lemma ScheduleMeansNotExited<S, I>(b: Body<S, I>, lc: nat, m: Mem<S>, input: I)
    requires Run(b, lc, m, input).Returned?
    ensures Schedule(Run(b, lc, m, input).status) <==> Run(b, lc, m, input).status != EXITED
  {
  }

  /**
   * After PT_INIT the next invocation starts at PT_BEGIN, and so does the next
   * invocation after one that exited: PT_EXIT already reset the marker, so a
   * re-invocation runs the body again from the top.
   */
  lemma ExitedRestartsAtBegin<S, I>(b: Body<S, I>, lc: nat, m: Mem<S>, input: I, m': Mem<S>, input': I)
    requires Run(b, lc, m, input).Returned? && Run(b, lc, m, input).status == EXITED
    ensures Run(b, Run(b, lc, m, input).lc, m', input') ==
            Exec(b, At(0), LC_NULL, m'.(user := b.prologue(m'.user, input')), input')
  {
  }

  /**
   * Resuming on the marker of blocking statement `i` lands right after that
   * statement's LC_SET: after the code above PT_BEGIN has run again, execution
   * continues with the test of statement `i`.
   */
  lemma ResumeAtSite<S, I>(b: Body<S, I>, i: nat, m: Mem<S>, input: I)
    requires WellFormed(b) && i < |b.stmts| && b.stmts[i].Blocks()
    ensures Dispatch(b.stmts, b.stmts[i].site) == Some(Test(i))
    ensures Run(b, b.stmts[i].site, m, input) ==
            Exec(b, Test(i), b.stmts[i].site, m.(user := b.prologue(m.user, input)), input)
  {
  }

  /**
   * A resumed PT_WAIT_UNTIL re-tests its condition on the state as the code
   * above PT_BEGIN left it: if it is still false the invocation returns WAITING
   * with the marker unchanged, otherwise it runs on past the site.
   */
  lemma ResumedWaitRetests<S, I>(b: Body<S, I>, i: nat, m: Mem<S>, input: I)
    requires WellFormed(b) && i < |b.stmts| && b.stmts[i].WaitUntil?
    ensures var site := b.stmts[i].site;
            var m1 := m.(user := b.prologue(m.user, input));
            Run(b, site, m, input) ==
            if !b.stmts[i].cond(m1.user, input) then Returned(WAITING, site, m1)
            else Exec(b, At(i + 1), site, m1, input)
  {
  }

  /** Two statements that behave identically: equal, PT_WAIT_WHILE(c) against PT_WAIT_UNTIL(!c), or PT_SPAWN against PT_WAIT_THREAD. */
  ghost predicate Equivalent<S, I>(s1: Stmt<S, I>, s2: Stmt<S, I>)
  {
    s1 == s2 ||
    (s1.WaitWhile? && s2 == WaitUntil(s1.site, Negate(s1.cond))) ||
    (s1.Spawn? && s2 == WaitThread(s1.site, s1.kid, s1.child))
  }

  /** `s1` and `s2` have the same length and equivalent statements from `lo` on. */
  ghost predicate AgreeFrom<S, I>(s1: seq<Stmt<S, I>>, s2: seq<Stmt<S, I>>, lo: nat)
  {
    |s1| == |s2| && forall t :: lo <= t < |s1| ==> Equivalent(s1[t], s2[t])
  }

  /** Execution from `pc` reads only the statements at and after `pc`, up to equivalence. */
  lemma {:induction false} ExecAgree<S, I>(b1: Body<S, I>, b2: Body<S, I>, pc: Pc, lc: nat, m: Mem<S>, input: I)
    requires PcOk(b1.stmts, pc) && AgreeFrom(b1.stmts, b2.stmts, pc.i)
    ensures PcOk(b2.stmts, pc)
    ensures Exec(b1, pc, lc, m, input) == Exec(b2, pc, lc, m, input)
    decreases Measure(|b1.stmts|, pc)
  {
    match pc
    case At(i) =>
      if i < |b1.stmts| {
        assert Equivalent(b1.stmts[i], b2.stmts[i]);
        var s := b1.stmts[i];
        match s
        case Do(effect) => ExecAgree(b1, b2, At(i + 1), lc, m.(user := effect(m.user, input)), input);
        case InitChild(kid) => ExecAgree(b1, b2, At(i + 1), lc, m.(kids := m.kids[kid := LC_NULL]), input);
        case Restart =>
        case Exit =>
        case _ => ExecAgree(b1, b2, Test(i), s.site, m, input);
      }
    case Test(i) =>
      assert Equivalent(b1.stmts[i], b2.stmts[i]);
      var s := b1.stmts[i];
      if s.WaitUntil? || s.WaitWhile? {
        ExecAgree(b1, b2, At(i + 1), lc, m, input);
      } else if s.kid in m.kids {
        var r := Run(s.child, m.kids[s.kid], m, input);
        if r.Returned? {
          ExecAgree(b1, b2, At(i + 1), lc, r.mem.(kids := r.mem.kids[s.kid := r.lc]), input);
        }
      }
  }

  /** LC_RESUME finds the same landing place in bodies whose blocking sites agree. */
  lemma {:induction false} FindSiteAgree<S, I>(s1: seq<Stmt<S, I>>, s2: seq<Stmt<S, I>>, lc: nat, from: nat)
    requires from <= |s1| && AgreeFrom(s1, s2, from)
    ensures FindSite(s1, lc, from) == FindSite(s2, lc, from)
    decreases |s1| - from
  {
    if from < |s1| {
      assert Equivalent(s1[from], s2[from]);
      FindSiteAgree(s1, s2, lc, from + 1);
    }
  }

  /** Replacing statements by equivalent ones does not change any invocation. */
  lemma RunAgree<S, I>(b1: Body<S, I>, b2: Body<S, I>, lc: nat, m: Mem<S>, input: I)
    requires b1.prologue == b2.prologue && AgreeFrom(b1.stmts, b2.stmts, 0)
    ensures Run(b1, lc, m, input) == Run(b2, lc, m, input)
  {
    FindSiteAgree(b1.stmts, b2.stmts, lc, 0);
    assert Dispatch(b1.stmts, lc) == Dispatch(b2.stmts, lc);
    var pc := Dispatch(b1.stmts, lc);
    if pc.Some? {
      ExecAgree(b1, b2, pc.value, lc, m.(user := b1.prologue(m.user, input)), input);
    }
  }

  /** PT_WAIT_WHILE(pt, c) behaves as PT_WAIT_UNTIL(pt, !c) at the same site: same statuses, markers and state on every invocation. */
  lemma WaitWhileIsWaitUntilNot<S, I>(b: Body<S, I>, j: nat, lc: nat, m: Mem<S>, input: I)
    requires j < |b.stmts| && b.stmts[j].WaitWhile?
    ensures Run(b, lc, m, input) ==
            Run(b.(stmts := b.stmts[j := WaitUntil(b.stmts[j].site, Negate(b.stmts[j].cond))]), lc, m, input)
  {
    var b2 := b.(stmts := b.stmts[j := WaitUntil(b.stmts[j].site, Negate(b.stmts[j].cond))]);
    assert AgreeFrom(b.stmts, b2.stmts, 0) by {
      forall t | 0 <= t < |b.stmts| ensures Equivalent(b.stmts[t], b2.stmts[t]) {
      }
    }
    RunAgree(b, b2, lc, m, input);
  }

  /**
   * PT_SPAWN as written behaves as PT_WAIT_THREAD at the same site: its PT_INIT
   * of the calling thread's own block is overwritten by the LC_SET, and the
   * child's block is not initialised by it.
   */
  lemma SpawnIsWaitThread<S, I>(b: Body<S, I>, j: nat, lc: nat, m: Mem<S>, input: I)
    requires j < |b.stmts| && b.stmts[j].Spawn?
    ensures Run(b, lc, m, input) ==
            Run(b.(stmts := b.stmts[j := WaitThread(b.stmts[j].site, b.stmts[j].kid, b.stmts[j].child)]), lc, m, input)
  {
    var b2 := b.(stmts := b.stmts[j := WaitThread(b.stmts[j].site, b.stmts[j].kid, b.stmts[j].child)]);
    assert AgreeFrom(b.stmts, b2.stmts, 0) by {
      forall t | 0 <= t < |b.stmts| ensures Equivalent(b.stmts[t], b2.stmts[t]) {
      }
    }
    RunAgree(b, b2, lc, m, input);
  }

  /**
   * A resumed invocation does not run the statements between PT_BEGIN and the
   * resumed site: replacing all of them by any statements that do not carry the
   * same site leaves the invocation unchanged.
   */
  lemma ResumeSkipsEarlierStatements<S, I>(b: Body<S, I>, i: nat, pre: seq<Stmt<S, I>>, m: Mem<S>, input: I)
    requires WellFormed(b) && i < |b.stmts| && b.stmts[i].Blocks()
    requires |pre| == i && NoSiteIn(pre, b.stmts[i].site, 0, i)
    ensures Run(b, b.stmts[i].site, m, input) ==
            Run(Body(b.prologue, pre + b.stmts[i..]), b.stmts[i].site, m, input)
  {
    var lc := b.stmts[i].site;
    var b2 := Body(b.prologue, pre + b.stmts[i..]);
    ResumeAtSite(b, i, m, input);
    assert b2.stmts[i] == b.stmts[i];
    assert NoSiteIn(b2.stmts, lc, 0, i) by {
      forall t | 0 <= t < i ensures !b2.stmts[t].HasSite(lc) {
        assert b2.stmts[t] == pre[t];
      }
    }
    assert FindSite(b2.stmts, lc, 0) == Some(i);
    assert AgreeFrom(b.stmts, b2.stmts, i) by {
      forall t | i <= t < |b.stmts| ensures Equivalent(b.stmts[t], b2.stmts[t]) {
        assert b2.stmts[t] == b.stmts[t];
      }
    }
    ExecAgree(b, b2, Test(i), lc, m.(user := b.prologue(m.user, input)), input);
  }

  /**
   * PT_WAIT_THREAD (and PT_SPAWN) at a site being tested: because a child
   * returns only 0 or 1, the parent returns WAITING at its own site exactly when
   * the child returned WAITING, and runs on past the site in the same invocation
   * when the child returned EXITED.
   */
  lemma WaitThreadFollowsChild<S, I>(b: Body<S, I>, i: nat, lc: nat, m: Mem<S>, input: I)
    requires i < |b.stmts| && (b.stmts[i].WaitThread? || b.stmts[i].Spawn?)
    requires b.stmts[i].kid in m.kids
    requires Run(b.stmts[i].child, m.kids[b.stmts[i].kid], m, input).Returned?
    ensures var s := b.stmts[i];
            var r := Run(s.child, m.kids[s.kid], m, input);
            var m2 := r.mem.(kids := r.mem.kids[s.kid := r.lc]);
            (r.status == WAITING || r.status == EXITED) &&
            (r.status == WAITING ==> Exec(b, Test(i), lc, m, input) == Returned(WAITING, lc, m2)) &&
            (r.status == EXITED ==> Exec(b, Test(i), lc, m, input) == Exec(b, At(i + 1), lc, m2, input))
  {
  }

  /**
   * The driver loop: it invokes at least once when there is an event; every
   * status but the last keeps PT_SCHEDULE true; and the loop stops before the
   * events run out only on an EXITED status, which leaves LC_NULL.
   */
  lemma {:induction false} TraceShape<S, I>(b: Body<S, I>, lc: nat, m: Mem<S>, events: seq<I>)
    requires Trace(b, lc, m, events).History?
    ensures var h := Trace(b, lc, m, events);
            (|h.statuses| == 0 <==> events == []) &&
            (forall j :: 0 <= j < |h.statuses| - 1 ==> Schedule(h.statuses[j])) &&
            (|h.statuses| < |events| ==> h.statuses[|h.statuses| - 1] == EXITED && h.lc == LC_NULL)
    decreases |events|
  {
    if events != [] {
      var r := Run(b, lc, m, events[0]);
      if Schedule(r.status) {
        TraceShape(b, r.lc, r.mem, events[1..]);
        var rest := Trace(b, r.lc, r.mem, events[1..]);
        assert Trace(b, lc, m, events).statuses == [r.status] + rest.statuses;
      }
    }
  }
}
