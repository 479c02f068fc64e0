/**
 * Protothreads: stackless cooperative threads whose only saved state is one
 * resume marker (the local continuation `lc`) kept in a control block.
 *
 * A protothread function is modelled as a `Body`: the statements written above
 * PT_BEGIN (`prologue`), then a straight-line list of statements between PT_BEGIN
 * and PT_END.  Ordinary C statements are effects on state owned by the caller,
 * since C locals do not survive a suspension.  The local continuation of lc.h is
 * abstract: LC_INIT stores 0, LC_SET stores the site id of a blocking statement,
 * LC_RESUME dispatches on the stored value.
 */
module Protothreads {
  import opened Wrappers

  /** Status values returned by a protothread function. */
  const WAITING: int := 0
  const EXITED: int := 1

  /** The local continuation that means "no saved point, start at PT_BEGIN". */
  const LC_NULL: nat := 0

  /** PT_SCHEDULE: the caller keeps invoking while this holds. */
  function Schedule(status: int): (running: bool)
    ensures status == WAITING || status == EXITED ==> (running <==> status != EXITED)
  {
    status == WAITING
  }

  /** C truth of a `char` used as a condition: of the two statuses, only EXITED is true. */
  function Truthy(x: int): (truth: bool)
    ensures x == WAITING || x == EXITED ==> (truth <==> x == EXITED)
  {
    x != 0
  }

  /** The `!(cond)` that PT_WAIT_WHILE hands to PT_WAIT_UNTIL. */
  function Negate<S, I>(cond: (S, I) -> bool): (not: (S, I) -> bool)
  {
    (s, i) => !cond(s, i)
  }

  /** One statement of a protothread body, between PT_BEGIN and PT_END. */
  datatype Stmt<!S, !I> =
    | Do(effect: (S, I) -> S)                              // plain C code
    | InitChild(kid: nat)                                  // PT_INIT(child_pt)
    | WaitUntil(site: nat, cond: (S, I) -> bool)           // PT_WAIT_UNTIL(pt, cond)
    | WaitWhile(site: nat, cond: (S, I) -> bool)           // PT_WAIT_WHILE(pt, cond)
    | WaitThread(site: nat, kid: nat, child: Body<S, I>)   // PT_WAIT_THREAD(pt, child(kid, ...))
    | Spawn(site: nat, kid: nat, child: Body<S, I>)        // PT_SPAWN(pt, child(kid, ...))
    | Restart                                              // PT_RESTART(pt)
    | Exit                                                 // PT_EXIT(pt)
  {
    /** The statement records a resume marker and may suspend. */
    predicate Blocks()
    {
      WaitUntil? || WaitWhile? || WaitThread? || Spawn?
    }

    /** The statement is a blocking site whose marker is `lc`. */
    predicate HasSite(lc: nat)
    {
      Blocks() && site == lc
    }
  }

  /**
   * A protothread function: `prologue` is the code above PT_BEGIN, run on every
   * invocation; `stmts` is the code between PT_BEGIN and PT_END.
   */
  datatype Body<!S, !I> = Body(prologue: (S, I) -> S, stmts: seq<Stmt<S, I>>)

  /**
   * The state the caller owns and passes in on every invocation: its own data
   * and the control blocks (`struct pt`, here just the marker) of child threads.
   */
  datatype Mem<S> = Mem(user: S, kids: map<nat, nat>)

  /** What one invocation produces: the status returned, the new marker, the new state. */
  datatype Outcome<S> =
    | Returned(status: int, lc: nat, mem: Mem<S>)
    | Undefined   // resume on a marker naming no site, or a child block never initialised

  /**
   * The blocking sites of a body are all different from LC_NULL and from each
   * other, so that LC_RESUME lands on exactly the site that set the marker.
   */
  predicate WellFormed<S, I>(b: Body<S, I>): (ok: bool)
    ensures ok ==> forall t :: 0 <= t < |b.stmts| && b.stmts[t].Blocks() ==>
                     Dispatch(b.stmts, b.stmts[t].site) == Some(Test(t))
  {
    (forall t :: 0 <= t < |b.stmts| && b.stmts[t].Blocks() ==> b.stmts[t].site != LC_NULL) &&
    (forall t, u :: 0 <= t < u < |b.stmts| && b.stmts[t].Blocks() && b.stmts[u].Blocks() ==>
      b.stmts[t].site != b.stmts[u].site)
  }

  /** `lc` is a marker that some blocking statement of `stmts` records. */
  predicate IsSite<S, I>(stmts: seq<Stmt<S, I>>, lc: nat)
  {
    exists t :: 0 <= t < |stmts| && stmts[t].HasSite(lc)
  }

  /** No statement in `stmts[lo..hi]` has site `lc`. */
  predicate NoSiteIn<S, I>(stmts: seq<Stmt<S, I>>, lc: nat, lo: nat, hi: nat)
    requires hi <= |stmts|
  {
    forall t :: lo <= t < hi ==> !stmts[t].HasSite(lc)
  }

  /**
   * A point of control inside a body: `At(i)` is just before statement `i`
   * (`At(|stmts|)` is PT_END); `Test(i)` is just after the LC_SET of blocking
   * statement `i`, where its condition is tested.
   */
  datatype Pc = At(i: nat) | Test(i: nat)

  predicate PcOk<S, I>(stmts: seq<Stmt<S, I>>, pc: Pc)
  {
    match pc
    case At(i) => i <= |stmts|
    case Test(i) => i < |stmts| && stmts[i].Blocks()
  }

  /** Distance to the end of the body, for termination. */
  function Measure(n: nat, pc: Pc): nat
    requires pc.i <= n
  {
    match pc
    case At(i) => 2 * (n - i) + 1
    case Test(i) => 2 * (n - i)
  }

  /** The first index at or after `from` whose statement has site `lc`. */
  function FindSite<S, I>(stmts: seq<Stmt<S, I>>, lc: nat, from: nat): (r: Option<nat>)
    requires from <= |stmts|
    ensures r.Some? ==> from <= r.value < |stmts| && stmts[r.value].HasSite(lc) &&
                        NoSiteIn(stmts, lc, from, r.value)
    ensures r.None? ==> NoSiteIn(stmts, lc, from, |stmts|)
    decreases |stmts| - from
  {
    if from == |stmts| then None
    else if stmts[from].HasSite(lc) then Some(from)
    else FindSite(stmts, lc, from + 1)
  }

  /**
   * LC_RESUME, as used by PT_BEGIN: LC_NULL enters at the top of the body; a
   * site marker enters right after that site's LC_SET; any other marker has no
   * landing place.
   */
  function Dispatch<S, I>(stmts: seq<Stmt<S, I>>, lc: nat): (pc: Option<Pc>)
    ensures pc.Some? ==> PcOk(stmts, pc.value)
    ensures lc == LC_NULL ==> pc == Some(At(0))
    ensures lc != LC_NULL ==> (pc.Some? <==> IsSite(stmts, lc))
    ensures lc != LC_NULL && pc.Some? ==> pc.value.Test? && stmts[pc.value.i].HasSite(lc)
  {
    if lc == LC_NULL then Some(At(0))
    else
      match FindSite(stmts, lc, 0)
      case None => None
      case Some(i) => Some(Test(i))
  }

  /**
   * One invocation of protothread `b` whose control block holds `lc`: run the
   * code above PT_BEGIN, resume at the marker, run until a blocking condition is
   * false, PT_RESTART, PT_EXIT or PT_END.
   */
  function Run<S, I>(b: Body<S, I>, lc: nat, m: Mem<S>, input: I): (r: Outcome<S>)
    ensures r.Returned? ==> Dispatch(b.stmts, lc).Some?
    ensures r.Returned? ==> (r.status == WAITING || r.status == EXITED) &&
                            (r.status == EXITED ==> r.lc == LC_NULL)
    decreases b, 2 * |b.stmts| + 2
  {
    var m1 := m.(user := b.prologue(m.user, input));
    match Dispatch(b.stmts, lc)
    case None => Undefined
    case Some(pc) => Exec(b, pc, lc, m1, input)
  }

  /** Execution of `b` from control point `pc` with marker `lc` until the invocation returns. */
  function Exec<S, I>(b: Body<S, I>, pc: Pc, lc: nat, m: Mem<S>, input: I): (r: Outcome<S>)
    requires PcOk(b.stmts, pc)
    ensures r.Returned? ==> (r.status == WAITING || r.status == EXITED) &&
                            (r.status == EXITED ==> r.lc == LC_NULL)
    decreases b, Measure(|b.stmts|, pc)
  {
    match pc
    case At(i) =>
      if i == |b.stmts| then
        // PT_END: LC_END, then PT_EXIT resets the marker and returns EXITED
        Returned(EXITED, LC_NULL, m)
      else
        var s := b.stmts[i];
        (match s
         case Do(effect) => Exec(b, At(i + 1), lc, m.(user := effect(m.user, input)), input)
         case InitChild(kid) => Exec(b, At(i + 1), lc, m.(kids := m.kids[kid := LC_NULL]), input)
         case Restart => Returned(WAITING, LC_NULL, m)
         case Exit => Returned(EXITED, LC_NULL, m)
         // LC_SET (for PT_SPAWN preceded by PT_INIT of the same block, which it overwrites)
         case _ => Exec(b, Test(i), s.site, m, input))
    case Test(i) =>
      var s := b.stmts[i];
      if s.WaitUntil? then
        if !s.cond(m.user, input) then Returned(WAITING, lc, m)
        else Exec(b, At(i + 1), lc, m, input)
      else if s.WaitWhile? then
        if !Negate(s.cond)(m.user, input) then Returned(WAITING, lc, m)
        else Exec(b, At(i + 1), lc, m, input)
      else if s.kid !in m.kids then Undefined
      else
        // the condition of PT_WAIT_THREAD is the child's invocation itself
        match Run(s.child, m.kids[s.kid], m, input)
        case Undefined => Undefined
        case Returned(status, childLc, m1) =>
          var m2 := m1.(kids := m1.kids[s.kid := childLc]);
          if !Truthy(status) then Returned(WAITING, lc, m2)
          else Exec(b, At(i + 1), lc, m2, input)
  }

  /** The outcome of driving a protothread with a sequence of events. */
  datatype History<S> = History(statuses: seq<int>, lc: nat, mem: Mem<S>) | Stuck

  /**
   * The driver loop `while(PT_SCHEDULE(f(&p, event))) event = get_event();`:
   * invocation `j` sees `events[j]`; the loop stops at the first non-WAITING
   * status or when the events run out.
   */
  function Trace<S, I>(b: Body<S, I>, lc: nat, m: Mem<S>, events: seq<I>): (h: History<S>)
    ensures h.History? ==> |h.statuses| <= |events|
    ensures h.History? ==> forall j :: 0 <= j < |h.statuses| ==>
                             h.statuses[j] == WAITING || h.statuses[j] == EXITED
    decreases |events|
  {
    if events == [] then History([], lc, m)
    else
      match Run(b, lc, m, events[0])
      case Undefined => Stuck
      case Returned(status, lc1, m1) =>
        if !Schedule(status) then History([status], lc1, m1)
        else
          match Trace(b, lc1, m1, events[1..])
          case Stuck => Stuck
          case History(rest, lc2, m2) => History([status] + rest, lc2, m2)
  }

  /** `h` with `done` in front of its statuses. */
  function After<S>(done: seq<int>, h: History<S>): (h': History<S>)
  {
    match h
    case Stuck => Stuck
    case History(rest, lc, m) => History(done + rest, lc, m)
  }

  /** `struct pt`: the control block of one protothread. */
  class Pt {
    var lc: nat

    /** A control block as allocated: its marker is whatever the memory held. */
    constructor (garbage: nat)
      ensures lc == garbage
    {
      lc := garbage;
    }

    /** PT_INIT: LC_INIT of the block. */
    method Init()
      modifies this
      ensures lc == LC_NULL
    {
      lc := LC_NULL;
    }

    /** PT_WAIT_UNTIL: LC_SET to this site, then return WAITING if the condition is false. */
    method WaitUntil(site: nat, condition: bool) returns (ret: Option<int>)
      modifies this
      ensures lc == site
      ensures ret.Some? <==> !condition
      ensures ret.Some? ==> ret.value == WAITING
    {
      lc := site;
      if !condition {
        return Some(WAITING);
      }
      return None;
    }

    /** PT_WAIT_WHILE: PT_WAIT_UNTIL on the negated condition. */
    method WaitWhile(site: nat, condition: bool) returns (ret: Option<int>)
      modifies this
      ensures lc == site
      ensures ret.Some? <==> condition
      ensures ret.Some? ==> ret.value == WAITING
    {
      ret := WaitUntil(site, !condition);
    }

    /** PT_WAIT_THREAD: PT_WAIT_UNTIL whose condition is the child call's status. */
    method WaitThread(site: nat, childStatus: int) returns (ret: Option<int>)
      modifies this
      ensures lc == site
      ensures ret.Some? <==> childStatus == WAITING
      ensures ret.Some? ==> ret.value == WAITING
    {
      ret := WaitUntil(site, Truthy(childStatus));
    }

    /**
     * PT_SPAWN as written: PT_INIT of this block (not the child's), then
     * PT_WAIT_THREAD, whose LC_SET overwrites the reset.
     */
    method Spawn(site: nat, childStatus: int) returns (ret: Option<int>)
      modifies this
      ensures lc == site
      ensures ret.Some? <==> childStatus == WAITING
      ensures ret.Some? ==> ret.value == WAITING
    {
      Init();
      ret := WaitThread(site, childStatus);
    }

    /** PT_RESTART: reset the marker and return WAITING. */
    method Restart() returns (ret: int)
      modifies this
      ensures lc == LC_NULL && ret == WAITING
    {
      Init();
      return WAITING;
    }

    /** PT_EXIT: reset the marker and return EXITED. */
    method Exit() returns (ret: int)
      modifies this
      ensures lc == LC_NULL && ret == EXITED
    {
      Init();
      return EXITED;
    }

    /** PT_END: LC_END (no effect on the marker) followed by PT_EXIT. */
    method End() returns (ret: int)
      modifies this
      ensures lc == LC_NULL && ret == EXITED
    {
      ret := Exit();
    }

    /**
     * Call the protothread function `b` on this control block with the caller's
     * state `m0` and this invocation's `input`.
     */
    method Invoke<S, I>(b: Body<S, I>, m0: Mem<S>, input: I) returns (status: int, m: Mem<S>)
      requires Run(b, lc, m0, input).Returned?
      modifies this
      ensures Run(b, old(lc), m0, input) == Returned(status, lc, m)
      decreases b, 0
    {
      ghost var goal := Run(b, lc, m0, input);
      m := m0.(user := b.prologue(m0.user, input));   // the code above PT_BEGIN
      var pc := Dispatch(b.stmts, lc).value;          // PT_BEGIN
      while true
        invariant PcOk(b.stmts, pc)
        invariant goal.Returned? && Exec(b, pc, lc, m, input) == goal
        decreases Measure(|b.stmts|, pc)
      {
        match pc
        case At(i) =>
          if i == |b.stmts| {
            status := End();
            return;
          }
          var r: Option<int>;
          match b.stmts[i] {
          case Do(effect) =>
            m := m.(user := effect(m.user, input));
            r := None;
          case InitChild(kid) =>
            m := m.(kids := m.kids[kid := LC_NULL]);
            r := None;
          case Restart =>
            status := Restart();
            return;
          case Exit =>
            status := Exit();
            return;
          case WaitUntil(site, cond) =>
            r := WaitUntil(site, cond(m.user, input));
          case WaitWhile(site, cond) =>
            r := WaitWhile(site, cond(m.user, input));
          case WaitThread(site, kid, child) =>
            // the child call is the condition; it touches only the child's block
            var childStatus;
            childStatus, m := InvokeChild(kid, child, m, input);
            r := WaitThread(site, childStatus);
          case Spawn(site, kid, child) =>
            var childStatus;
            childStatus, m := InvokeChild(kid, child, m, input);
            r := Spawn(site, childStatus);
          }
          if r.Some? {
            status := r.value;
            return;
          }
          pc := At(i + 1);
        case Test(i) =>
          // resumed right after the LC_SET of statement i: only its test runs
          var s := b.stmts[i];
          var go: bool;
          if s.WaitUntil? {
            go := s.cond(m.user, input);
          } else if s.WaitWhile? {
            go := Negate(s.cond)(m.user, input);
          } else {
            var childStatus;
            childStatus, m := InvokeChild(s.kid, s.child, m, input);
            go := Truthy(childStatus);
          }
          if !go {
            status := WAITING;
            return;
          }
          pc := At(i + 1);
      }
    }

    /**
     * The driver of pt.h's examples: PT_INIT, then invoke while PT_SCHEDULE
     * holds, with the next event each time.
     */
    method Drive<S, I>(b: Body<S, I>, m0: Mem<S>, events: seq<I>) returns (statuses: seq<int>, m: Mem<S>)
      requires Trace(b, LC_NULL, m0, events).History?
      modifies this
      ensures Trace(b, LC_NULL, m0, events) == History(statuses, lc, m)
    {
      Init();
      statuses, m := [], m0;
      var j := 0;
      while j < |events|
        invariant j <= |events|
        invariant Trace(b, lc, m, events[j..]).History?
        invariant Trace(b, LC_NULL, m0, events) == After(statuses, Trace(b, lc, m, events[j..]))
      {
        assert events[j..][0] == events[j] && events[j..][1..] == events[j + 1..];
        ghost var rest := Trace(b, lc, m, events[j..]);
        var status;
        status, m := Invoke(b, m, events[j]);
        j := j + 1;
        statuses := statuses + [status];
        if !Schedule(status) {
          assert rest == History([status], lc, m);
          return;
        }
        assert rest == After([status], Trace(b, lc, m, events[j..]));
      }
      assert events[j..] == [];
      assert statuses + [] == statuses;
    }
  }

  /**
   * Evaluate the `thread` argument of PT_WAIT_THREAD / PT_SPAWN: call the child
   * on its control block `kid`, kept in the caller's state, and store the
   * child's new marker back there.
   */
  method InvokeChild<S, I>(kid: nat, child: Body<S, I>, m: Mem<S>, input: I) returns (status: int, m': Mem<S>)
    requires kid in m.kids && Run(child, m.kids[kid], m, input).Returned?
    ensures var r := Run(child, m.kids[kid], m, input);
            status == r.status && m' == r.mem.(kids := r.mem.kids[kid := r.lc])
    decreases child, 1
  {
    var c := new Pt(m.kids[kid]);
    status, m' := c.Invoke(child, m, input);
    m' := m'.(kids := m'.kids[kid := c.lc]);
  }
}
