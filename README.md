# Protothreads control layer, modelled in Dafny

This project models `pt.h` of the protothreads library. Protothreads are stackless
cooperative threads. Each thread's only saved state is one resume marker, the local
continuation `lc`, held in its control block `struct pt`. A protothread function
resumes at the marker and runs until a blocking condition is false (it returns
`PT_THREAD_WAITING`, 0) or until it reaches `PT_EXIT`/`PT_END` (it returns
`PT_THREAD_EXITED`, 1).

Files:

- `wrappers.dfy`: an `Option` type.
- `pt.dfy` (module `Protothreads`):
  - the status constants `WAITING`/`EXITED` and the marker `LC_NULL`;
  - the `PT_SCHEDULE` predicate (`Schedule`);
  - a small body language. A `Body` has a `prologue`, the code above `PT_BEGIN`. Its
    `stmts` are what lies between `PT_BEGIN` and `PT_END`: plain effects (`Do`),
    `PT_INIT` of a child block (`InitChild`), `WaitUntil`, `WaitWhile`, `WaitThread`,
    `Spawn`, `Restart` and `Exit`. Each blocking statement carries its site id.
  - the pure semantics of one invocation, `Run`/`Exec`. `Dispatch` is `LC_RESUME`.
  - the class `Pt`, which is `struct pt`. Its field `lc` is changed in place by the
    macro methods (`Init`, `WaitUntil`, `WaitWhile`, `WaitThread`, `Spawn`,
    `Restart`, `Exit`, `End`).
  - `Pt.Invoke`, the protothread function as a loop that calls those macro methods.
    It is proved to compute `Run`.
  - `Pt.Drive`, the driver loop of the header's examples. It is proved to compute
    `Trace`.
- `pt_lemmas.dfy` (module `ProtothreadLemmas`): the properties of the semantics.
- `scenarios.dfy` (module `Scenarios`): concrete threads run through the semantics.

How the model works:

- The marker is a `nat`. `LC_NULL` (0) means "start at `PT_BEGIN`". A value k ≥ 1
  names the blocking statement whose site id is k. `lc.h` is not part of this model,
  so its details are abstract:
  - `LC_INIT` stores 0;
  - `LC_SET` stores the site id;
  - `LC_RESUME` jumps to just after that site's `LC_SET`.

  A marker that names no site has no defined landing place, and `Run` yields
  `Undefined` for it. `Pt.Invoke` requires a defined outcome. This matches the header's
  demand that a control block be initialised before its first use (pt.h:88-92).
- A body is well formed (`WellFormed`) when its site ids are non-zero and distinct.
  This is a requirement on whoever writes a protothread: depending on `lc.h` (pt.h:52,
  not part of this model), two blocking macros that share a marker value, for instance
  two on one source line, would resume at the same place.
- State that must survive a suspension belongs to the caller (`Mem`). `Mem` holds the
  caller's data (`user`) and the markers of child control blocks (`kids`).
- A child is invoked as the condition of `PT_WAIT_THREAD`/`PT_SPAWN`. Its marker is
  loaded from `kids` into a fresh `Pt`, the child body runs, and the new marker is
  stored back.

Where the macro definitions do more or less than their comments in pt.h suggest, the
model follows the definitions:

- `PT_SPAWN` is documented as spawning a child protothread (pt.h:236-238), but its
  definition (pt.h:246-250) runs `PT_INIT` on the calling thread's own block, not on
  the child's. The `LC_SET` that follows overwrites that reset, so `PT_SPAWN` behaves
  exactly like `PT_WAIT_THREAD`, and the child's block is not initialised by it. A
  child whose block still holds an old marker therefore resumes there
  (`SpawnIsWaitThread`, `SpawnResumesStaleChild`).
- pt.h asks for `PT_INIT` before a protothread is executed (pt.h:91-92) and says
  nothing about running one again after it has exited. `PT_EXIT` (pt.h:279-283) has
  already reset the marker, so a re-invocation without a new `PT_INIT` simply starts
  again at `PT_BEGIN` (`ExitedRestartsAtBegin`).

## Model

| member | source | states |
|---|---|---|
| `Protothreads.Schedule` | pt.h:298-303 | of the two statuses a protothread returns, `PT_SCHEDULE` is non-zero ("running") exactly for the one that is not `PT_THREAD_EXITED`, and zero once the thread has exited |
| `Protothreads.Truthy` | pt.h:232-233 | the C truth test `PT_WAIT_THREAD` applies to a child's status: of the two statuses, `PT_THREAD_EXITED` is true and `PT_THREAD_WAITING` is false |
| `Protothreads.Negate` | pt.h:193-194 | the `!(cond)` that `PT_WAIT_WHILE` hands to `PT_WAIT_UNTIL`; the expansion itself is `Pt.WaitWhile`, which calls `Pt.WaitUntil` on the negated condition at the same site and, through `Pt.Invoke`'s proof, gives the `WaitWhile` test of `Exec`; `ProtothreadLemmas.WaitWhileIsWaitUntilNot` then states that the two statements are interchangeable in a body |
| `Protothreads.WellFormed` | pt.h:143 | when the blocking sites of a body are non-zero and distinct, `LC_RESUME` on the marker of any blocking statement lands on the test of that very statement |
| `Protothreads.FindSite` | pt.h:143 | the search behind `LC_RESUME` returns the first statement at or after `from` whose site is the marker, with no such statement before it; it returns none only when no statement has that site |
| `Protothreads.Dispatch` | pt.h:143 | `PT_BEGIN` resumes at the top when the marker is `LC_NULL`; otherwise it resumes at the test of a blocking statement whose site is the marker, and it finds a landing place exactly when such a site exists |
| `Protothreads.Run` | pt.h:119-143 | one invocation (code above `PT_BEGIN`, then resume at the marker) is defined only when the marker has a landing place; it returns only `PT_THREAD_WAITING` or `PT_THREAD_EXITED`, and EXITED leaves the marker at `LC_NULL` |
| `Protothreads.Exec` | pt.h:174-295 | running the body from any control point returns only WAITING or EXITED; every path to EXITED goes through `PT_EXIT`/`PT_END`, which reset the marker to `LC_NULL` |
| `Protothreads.Trace` | pt.h:307-315 | the driver loop performs at most one invocation per event and sees only WAITING and EXITED statuses |
| `Protothreads.Pt.constructor` | pt.h:54-56 | a control block holds one marker, indeterminate until `PT_INIT` |
| `Protothreads.Pt.Init` | pt.h:112-113 | `PT_INIT` sets the marker to `LC_NULL` |
| `Protothreads.Pt.WaitUntil` | pt.h:174-180 | the marker is set to this site whatever the condition; the macro returns WAITING exactly when the condition is false and falls through otherwise |
| `Protothreads.Pt.WaitWhile` | pt.h:193-194 | same marker as `PT_WAIT_UNTIL`; returns WAITING exactly when the condition is true |
| `Protothreads.Pt.WaitThread` | pt.h:232-233 | marker set to this site; returns WAITING exactly when the child's status is `PT_THREAD_WAITING` (0, false in C), falls through when it is non-zero |
| `Protothreads.Pt.Spawn` | pt.h:246-250 | after the `PT_INIT` of the caller's own block and the `PT_WAIT_THREAD`, the marker and return are those of `PT_WAIT_THREAD` at the same site; only the caller's block is modified |
| `Protothreads.Pt.Restart` | pt.h:262-266 | marker reset to `LC_NULL`, returns WAITING |
| `Protothreads.Pt.Exit` | pt.h:279-283 | marker reset to `LC_NULL`, returns EXITED |
| `Protothreads.Pt.End` | pt.h:295 | `LC_END` then `PT_EXIT`: marker `LC_NULL`, returns EXITED |
| `Protothreads.Pt.Invoke` | pt.h:119-143 | calling a protothread function (code above `PT_BEGIN`, resume at the marker, then run the body through the macros) gives exactly the status, new marker and new caller state of `Run` |
| `Protothreads.Pt.Drive` | pt.h:307-315 | the loop `PT_INIT; while(PT_SCHEDULE(f(&p, event))) event = get_event();` over a sequence of events yields exactly the statuses, marker and state of `Trace` |
| `Protothreads.InvokeChild` | pt.h:219-227 | invoking a child on its block held by the caller returns the child's status and stores the child's new marker back in that block |
| `ProtothreadLemmas.ExecReturns` | pt.h:174-266 | execution from a control point that returns WAITING stopped at a statement at or after that point: a `PT_RESTART`, leaving `LC_NULL`, or a blocking statement whose site is the new marker and which suspends on the returned state (`PT_WAIT_UNTIL`'s condition false, `PT_WAIT_WHILE`'s true, or the waited-on child returned WAITING on an invocation whose new state, with the child's new marker (`LC_NULL` or one of the child's sites) stored back in its block, is the returned state) |
| `ProtothreadLemmas.InvocationOutcome` | pt.h:143-266 | an invocation that returns WAITING stopped at or after the statement where it resumed: at a `PT_RESTART` with the marker `LC_NULL`, or at a blocking statement whose site the new marker names and which suspends on the returned state in the sense of `ExecReturns` (a false `PT_WAIT_UNTIL` condition, a true `PT_WAIT_WHILE` condition, or a waited-on child that itself returned WAITING) |
| `ProtothreadLemmas.ScheduleMeansNotExited` | pt.h:298-303 | `PT_SCHEDULE` of an invocation's result holds exactly when the thread did not exit |
| `ProtothreadLemmas.ExitedRestartsAtBegin` | pt.h:279-283 | after an invocation that returned EXITED, the next invocation starts at `PT_BEGIN`, as after `PT_INIT` |
| `ProtothreadLemmas.ResumeAtSite` | pt.h:119-122 | in a well-formed body, resuming on the marker of blocking statement i lands right after its `LC_SET`, once the code above `PT_BEGIN` has run again |
| `ProtothreadLemmas.ResumedWaitRetests` | pt.h:174-180 | a resumed `PT_WAIT_UNTIL` re-tests its condition: if false, WAITING with the marker unchanged and only the code above `PT_BEGIN` applied; if true, execution goes on past the site |
| `ProtothreadLemmas.ResumeSkipsEarlierStatements` | pt.h:143 | a resumed invocation does not run the statements between `PT_BEGIN` and the resumed site: replacing them all by any statements not carrying that site changes nothing |
| `ProtothreadLemmas.RunAgree` | pt.h:193-250 | a body whose statements are replaced by equivalent ones (`PT_WAIT_WHILE(c)` by `PT_WAIT_UNTIL(!c)`, `PT_SPAWN` by `PT_WAIT_THREAD`) gives the same result on every invocation |
| `ProtothreadLemmas.WaitWhileIsWaitUntilNot` | pt.h:193-194 | `PT_WAIT_WHILE(pt, c)` gives the same status, marker and state as `PT_WAIT_UNTIL(pt, !c)` at the same site, on every invocation |
| `ProtothreadLemmas.SpawnIsWaitThread` | pt.h:246-250 | `PT_SPAWN` gives the same status, marker and state as `PT_WAIT_THREAD` at the same site, on every invocation |
| `ProtothreadLemmas.WaitThreadFollowsChild` | pt.h:197-233 | the child returns 0 or 1; if 0, the parent returns WAITING at its own site; if 1, the parent goes on past the site in the same invocation |
| `ProtothreadLemmas.TraceShape` | pt.h:298-316 | the driver invokes at least once when there is an event; every status but the last keeps `PT_SCHEDULE` true; stopping before the events run out means the last status was EXITED and the marker is `LC_NULL` |
| `Scenarios.CounterWait` | pt.h:162-180 | `PT_WAIT_UNTIL(counter >= 3)` invoked with counter 0, 1, 2, 3 returns WAITING, WAITING, WAITING, EXITED |
| `Scenarios.DriverSchedule` | pt.h:307-315 | a driver receiving WAITING, WAITING, EXITED sees `PT_SCHEDULE` true, true, false and stops |
| `Scenarios.ParentFollowsChild` | pt.h:235-250 | with a spawned child waiting on a flag, child and parent both report WAITING while the flag is false; when it becomes true, the child exits and the parent reaches `PT_END` in the same call |
| `Scenarios.ParentInitialisesChild` | pt.h:211-227 | the documented pattern `PT_INIT(child_pt); PT_WAIT_THREAD(...)` waits on the child and completes with it |
| `Scenarios.SpawnResumesStaleChild` | pt.h:246-250 | `PT_SPAWN` as written does not reset the child's block: a child whose block holds an old marker resumes there and skips its first statement, unlike a child reset with `PT_INIT(child_pt)` |
| `Scenarios.RestartRerunsFirstStatement` | pt.h:252-266 | `PT_RESTART` returns WAITING and drops the marker; the next invocation runs the first statement again (the counter is reset) |

## Left out

- `lc.h`, the switch-based or label-address implementation of local continuations, is not part of this model. The marker is an abstract `nat`, and resuming on a marker that names no site is `Undefined`.
- The `char` return type of `PT_THREAD` (pt.h:86): statuses are modelled as `int`, and the lemmas show that only 0 and 1 occur.
- Preprocessor mechanics: the `do { } while(0)` wrappers and the commented-out variant of `PT_BEGIN` (pt.h:144-149).
- Control flow inside a body beyond straight-line code, such as the `while(1)` of the documentation examples or branches. A body is a list of statements; repetition comes from `PT_RESTART` or from the driver re-invoking.
- C local variables, which do not survive a suspension. Bodies read and write only caller-owned state (`Mem`) and the invocation's input. Plain effects change only the caller's data, not child blocks; `InitChild` is the one statement that writes a child block, apart from the child's own invocation inside `PT_WAIT_THREAD`/`PT_SPAWN`, whose new marker is stored back in its block.
- The domain code of the documentation examples (`consume`, `produce`, `printf`, `get_event`, the wall-clock `time`). The events the driver receives are a finite sequence given as a parameter.
- Aliasing between control blocks. A child's block is a value in the caller's state, loaded before the child runs and stored back after it. A child sharing its block with the parent or with one of its own descendants is not modelled.
- Evaluation order inside `PT_WAIT_THREAD`/`PT_SPAWN` in `Pt.Invoke`: the child is called just before the parent's `LC_SET`, where C calls it just after. The two touch different blocks, so the results are the same, and `Run` keeps the C order.
- Conditions of `PT_WAIT_UNTIL`/`PT_WAIT_WHILE` are side-effect-free functions of the caller's data and the input (`(S, I) -> bool`). In C the condition is any expression (pt.h:177), evaluated again each time the test runs, and may have effects; those effects are not modelled.
- The call inside `PT_WAIT_THREAD`/`PT_SPAWN`: in C it is any call `child(child_pt, args)` (pt.h:224). In the model the child always receives the parent's own input and its caller state; different arguments per child are not modelled.
- Concurrency: there is none. Execution is single-threaded and cooperative.
