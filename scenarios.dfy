/**
 * Concrete protothreads run through the semantics: a counter wait, a driver
 * loop, a parent waiting on a child, and a restart.
 */
module Scenarios {
  import opened Protothreads

  /** Code that leaves the state alone: nothing above PT_BEGIN. */
  function Keep<S, I>(): (S, I) -> S
  {
    (s, x) => s
  }

  /** `PT_WAIT_UNTIL(pt, counter >= n); PT_END(pt);` with the counter as the input. */
  function CounterThread(n: int): Body<int, int>
  {
    Body(Keep(), [WaitUntil(1, (s: int, counter: int) => counter >= n)])
  }

  /** Invoked with counter = 0, 1, 2, 3 the thread returns WAITING three times, then EXITED. */
  lemma CounterWait()
    ensures Trace(CounterThread(3), LC_NULL, Mem(0, map[]), [0, 1, 2, 3]) ==
            History([WAITING, WAITING, WAITING, EXITED], LC_NULL, Mem(0, map[]))
  {
  }

  /** A driver that gets WAITING, WAITING, EXITED sees PT_SCHEDULE true, true, false. */
  lemma DriverSchedule()
    ensures var h := Trace(CounterThread(2), LC_NULL, Mem(0, map[]), [0, 1, 2, 5]);
            h == History([WAITING, WAITING, EXITED], LC_NULL, Mem(0, map[])) &&
            Schedule(h.statuses[0]) && Schedule(h.statuses[1]) && !Schedule(h.statuses[2])
  {
  }

  /** The child: `PT_WAIT_UNTIL(pt, flag); PT_END(pt);`. */
  function FlagChild(): Body<int, bool>
  {
    Body(Keep(), [WaitUntil(1, (s: int, flag: bool) => flag)])
  }

  /** The parent: `PT_SPAWN(pt, child(child_pt, flag)); PT_END(pt);`, the child's block being number 7. */
  function SpawningParent(): Body<int, bool>
  {
    Body(Keep(), [Spawn(1, 7, FlagChild())])
  }

  /**
   * While the flag is false both child and parent report WAITING; on the call
   * where it becomes true the child exits and the parent reaches its PT_END in
   * that same call.
   */
  lemma ParentFollowsChild()
    ensures Run(FlagChild(), LC_NULL, Mem(0, map[7 := LC_NULL]), false).status == WAITING
    ensures Run(SpawningParent(), LC_NULL, Mem(0, map[7 := LC_NULL]), false) ==
            Returned(WAITING, 1, Mem(0, map[7 := 1]))
    ensures Run(SpawningParent(), 1, Mem(0, map[7 := 1]), false) ==
            Returned(WAITING, 1, Mem(0, map[7 := 1]))
    ensures Run(FlagChild(), 1, Mem(0, map[7 := 1]), true).status == EXITED
    ensures Run(SpawningParent(), 1, Mem(0, map[7 := 1]), true) ==
            Returned(EXITED, LC_NULL, Mem(0, map[7 := LC_NULL]))
  {
  }

  /** The pattern of PT_WAIT_THREAD's documentation: `PT_INIT(child_pt); PT_WAIT_THREAD(pt, child(child_pt, flag));`. */
  function WaitingParent(): Body<int, bool>
  {
    Body(Keep(), [InitChild(7), WaitThread(1, 7, FlagChild())])
  }

  /** The parent initialises the child's block itself, so it needs no block from its caller; it then waits on the child as PT_SPAWN does. */
  lemma ParentInitialisesChild()
    ensures Run(WaitingParent(), LC_NULL, Mem(0, map[]), false) == Returned(WAITING, 1, Mem(0, map[7 := 1]))
    ensures Run(WaitingParent(), 1, Mem(0, map[7 := 1]), true) ==
            Returned(EXITED, LC_NULL, Mem(0, map[7 := LC_NULL]))
  {
  }

  /** A child that counts its starts: `counter++; PT_WAIT_UNTIL(pt, flag); PT_END(pt);`. */
  function CountingChild(): Body<int, bool>
  {
    Body(Keep(), [Do((s: int, flag: bool) => s + 1), WaitUntil(1, (s: int, flag: bool) => flag)])
  }

  /**
   * PT_SPAWN as written does not initialise the child's block: spawned on a
   * block still holding the child's site 1, the child resumes there and its
   * first statement is not run; with PT_INIT(child_pt) before it, it is.
   */
  lemma SpawnResumesStaleChild()
    ensures Run(Body(Keep(), [Spawn(1, 7, CountingChild())]), LC_NULL, Mem(0, map[7 := 1]), false) ==
            Returned(WAITING, 1, Mem(0, map[7 := 1]))
    ensures Run(Body(Keep(), [InitChild(7), Spawn(1, 7, CountingChild())]), LC_NULL, Mem(0, map[7 := 1]), false) ==
            Returned(WAITING, 1, Mem(1, map[7 := 1]))
  {
  }

  /** `counter = 0; PT_WAIT_UNTIL(pt, flag); counter += 5; PT_RESTART(pt);`. */
  function RestartingThread(): Body<int, bool>
  {
    Body(Keep(), [Do((s: int, flag: bool) => 0), WaitUntil(1, (s: int, flag: bool) => flag),
                  Do((s: int, flag: bool) => s + 5), Restart])
  }

  /**
   * PT_RESTART drops the pending marker and returns WAITING; the next
   * invocation runs the first statement again, resetting the counter.
   */
  lemma RestartRerunsFirstStatement()
    ensures Run(RestartingThread(), LC_NULL, Mem(9, map[]), false) == Returned(WAITING, 1, Mem(0, map[]))
    ensures Run(RestartingThread(), 1, Mem(0, map[]), true) == Returned(WAITING, LC_NULL, Mem(5, map[]))
    ensures Run(RestartingThread(), LC_NULL, Mem(5, map[]), false) == Returned(WAITING, 1, Mem(0, map[]))
  {
  }
}
