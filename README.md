# A verified model of the time-travel engine

This project models the runtime engine of a small language (`engine.py`). In
this language a variable is an append-only history of versions. A statement
does one of three things:

- a Mutation `x@i = e` appends the next version;
- a Prophecy about a future version of a variable is checked once both of its
  sides are known;
- a Revision of a past version forks the rest of the run into a new
  "universe". The new universe replays the later statements against the
  revised history.

The model is written in Dafny and has five modules:

- `History` (history.dfy) is the data model:
  - the versions;
  - the statement ledger, one entry per executed statement, each holding a
    snapshot `variable -> index of its latest version`, the prophecies still
    pending and the revisions still deferred;
  - the `Environment` class, whose methods change the histories and the
    ledger in place;
  - the invariant `Valid`, which ties versions to ledger entries. It is what
    makes forking back to a past statement possible.
- `Timeline` (timeline.dfy) models `Environment.fork` as a pure function on
  the environment's value. It proves that the child is the world as of the fork
  point, that the child is valid again, and that exactly one version is rewritten.
- `Naming` (naming.dfy) covers universe identifiers: `u-k` for the `k`-th child
  of `u`, with `k` in decimal. It proves that an identifier determines both
  its parent and its position.
- `Resolution` (resolution.dfy) is the resolver that runs between statements.
  It has two passes:
  - the prophecy pass, a recursive specification function with a loop
    method proved equal to it;
  - the fork pass, also a specification function with a loop proved equal
    to it.

  Around them sit the spawn ceiling `MAX_SPAWN = 10024` and the spawn counters.
- `Runner` (runner.dfy) has the statement loop of `run_code`:
  - each statement's assertion, modelled as a crash fate;
  - the per-kind effect;
  - one ledger entry per statement, which keeps `Valid`;
  - the final settlement and the output decision.

  Each of these steps is a method proved equal to a ghost reference
  definition (`EffectOf`, `SettleOf`, `StepOf`, `FinishOf`, and `RunFrom`
  for the whole universe), and the properties that `run_code` promises are
  lemmas about those definitions. A sequential driver, `RunAll`, works
  through a queue of the spawned universes; its contract is about the root
  universe and the identifiers (see "Left out").

The expression evaluator belongs to the `objects` module, which is not part
of this model. It is a parameter `Evaluator(eval, defined)`: `eval` gives
a value (itself an expression) or `None` when the value is not yet known, and
`defined` says whether a value is fully defined.

## Model

| member | source | states |
|---|---|---|
| History.Stored | engine.py:162-168 | A Mutation stores the evaluated value when it is known and fully defined, and otherwise the right-hand side unevaluated. |
| History.InOrder | engine.py:148-150 | The Mutation assertion: version 0 of a variable with no history, or exactly the next version of one that has a history. `Runner.EffectFaults` proves that a Mutation fails exactly when this does not hold. |
| History.SnapshotOf | engine.py:199-200 | The snapshot maps exactly the existing variables, each to the index of its latest version. |
| History.SnapshotIsUnique | engine.py:199-200 | Any map with that property is `SnapshotOf` of the histories, so the snapshot is determined by the histories. |
| History.Appended | engine.py:164-168 | After a Mutation, the histories have one more variable at most. The target's history is its old history plus exactly one version at the statement's index. Every other variable's history is unchanged. |
| History.AppendedExtends | engine.py:164-168 | A Mutation only extends histories (each old history is a prefix of the new one), and the one version it adds is the stored version. |
| History.CommitPreservesValid | engine.py:198-201 | Appending a ledger entry keeps the environment invariant. The entry's snapshot must be of the new histories, and the new versions must name that entry. The invariant says that: every version's entry exists and shows it, every snapshot names existing versions produced no later than its entry, and snapshots only grow. |
| History.Environment.constructor | engine.py:26-32 | A new environment has no variables and an empty ledger. |
| History.Environment.FromState | engine.py:44-50 | A spawned universe's environment holds exactly the state the fork built. |
| History.Environment.Snapshot | engine.py:199-200 | The snapshot returned is `SnapshotOf` the current histories: exactly the existing variables, each with the index of its latest version. |
| History.Environment.Mutate | engine.py:164-168 | The histories become `Appended` of the old ones, and the ledger is untouched. |
| History.Environment.Commit | engine.py:198-201 | The ledger gains exactly one entry at its end. That entry carries the given line, prophecies and deferred revisions, plus a snapshot of the current histories. The histories are unchanged. |
| Timeline.Prefix | engine.py:45-48 | Python's `s[:n]`: a prefix of `s` whose length is `n`, clamped to `|s|`. |
| Timeline.TruncatedTo | engine.py:47-48 | Each variable shown in the snapshot is kept with as many versions as the snapshot shows. Variables the snapshot does not show are dropped. |
| Timeline.Fork | engine.py:34-51 | There is no fork exactly when the variable has no history or the index is negative. Otherwise the ledger is cut after entry K, the entry that produced the version, and the fork reports K and K's source line. |
| Timeline.ForkHistories | engine.py:47-50 | The forked histories keep the variables shown at K, each truncated as K shows. Version `idx` holds the new value with its original statement index, and every other version is the parent's. |
| Timeline.ValidForkDefined | engine.py:40-49 | In a valid environment, forking any existing version passes both of fork's assertions and its snapshot lookup. |
| Timeline.ForkResumesAfterPoint | engine.py:41-51 | A fork of an existing version succeeds, and the child's ledger ends at the fork point, so the child starts at K+1 with a ledger of K+1 entries. |
| Timeline.ForkIsTruncation | engine.py:45-48 | The child is the parent cut back to entry K: the first K+1 entries, and exactly the versions K shows, each with its statement index kept. |
| Timeline.ForkKeepsPast | engine.py:45-48 | A variable survives the fork exactly when its first version was produced no later than K. A version survives exactly when it was produced no later than K. |
| Timeline.ForkPreservesValid | engine.py:34-51 | The child environment satisfies the environment invariant again. |
| Timeline.ForkRewritesOneVersion | engine.py:49-50 | In the child, version `idx` reads back as the new value, and the versions before it are the parent's. |
| Naming.Decimal | engine.py:112 | Python's `str` of a natural number: a non-empty string of digits, one digit exactly below 10, no leading zero. |
| Naming.DecimalInjective | engine.py:112 | Different numbers have different decimal renderings. |
| Naming.DecimalValue | engine.py:112 | Read back as decimal digits, the rendering of `n` is `n`. |
| Naming.ChildName | engine.py:112 | The identifier `f"{universe}-{spawn_count}"` of a spawned universe, the same at engine.py:184 for an immediate revision. Its parts are stated by `Naming.ChildNameParts`. |
| Naming.ChildNameParts | engine.py:112 | `u-k` is the parent identifier, a dash, then the decimal of `k`. |
| Naming.ChildNameInjective | engine.py:184 | A child identifier determines both the parent and the child's position among the parent's children. |
| Naming.ChildIsNotRoot | engine.py:80 | No child identifier is `root`. |
| Resolution.AttemptSpawn | engine.py:104-119 | A known revision spawns a child exactly when the fork exists and fewer than `MAX_SPAWN` universes were started. The child gets the fork's environment, starts at K+1 and is named `universe-spawnCount`. Both counters then rise by one. Otherwise nothing changes. |
| Resolution.AttemptSpawnReady | engine.py:176-190 | A revision of an existing version of a valid environment spawns only children that are valid and start at the end of their own ledger. |
| Resolution.PyIndex | engine.py:90 | Python indexing: a negative index counts from the end, and one out of range raises. |
| Resolution.TargetValue | engine.py:89-90 | The value of a prophecy's target: known only when the variable exists, the index reaches one of its versions, and that version's expression evaluates. `Resolution.CheckProphecy`'s contract is stated with it. |
| Resolution.CheckProphecy | engine.py:87-98 | A prophecy is violated exactly when its value and its target's value are both known and differ. It is consumed exactly when they are known and equal. It raises exactly when its value is known and a negative index reaches before the first version. Otherwise it is kept, with its value in place of its expression once known. |
| Resolution.ResolveProphecies | engine.py:86-98 | With no next entry the pass carries nothing, and it never carries more prophecies than it was given. |
| Resolution.ProphecyPassFails | engine.py:86-95 | The universe fails exactly when some prophecy is violated and every prophecy before it survives. |
| Resolution.ProphecyPassCarries | engine.py:86-98 | The pass goes on exactly when every prophecy survives. It then carries exactly the kept prophecies into the next entry. |
| Resolution.ProphecyPassOrder | engine.py:97-98 | With a next entry, a pass that goes on carries the kept prophecies in their original order (`KeptProphecies`), so the next pass checks them in the order they were written. |
| Resolution.CarryProphecies | engine.py:86-98 | The prophecy loop computes `ResolveProphecies`. |
| Resolution.FireOne | engine.py:102-121 | One deferred revision is carried exactly when its value is unknown and there is a next entry. Once its value is known, its children and counters are exactly `AttemptSpawn`'s: one child, from the fork's environment at the fork point plus one and named `universe-spawnCount`, exactly when the fork exists and fewer than `MAX_SPAWN` universes were started. It spawns nothing while its value is unknown. Both counters rise by the number spawned. |
| Resolution.FirePending | engine.py:101-121 | The fork pass raises both counters by the number of children it spawns. It never crosses `MAX_SPAWN`, and it spawns nothing once the ceiling is reached. |
| Resolution.FirePendingNames | engine.py:112 | The `k`-th child the pass spawns is named after the universe and its own position among the universe's children. |
| Resolution.FirePendingCarries | engine.py:120-121 | With no next entry nothing is carried. Otherwise a deferred revision is carried exactly when its right-hand side is still unknown. |
| Resolution.FirePendingOrder | engine.py:120-121 | With a next entry, the pass carries the still-unknown revisions in their original order (`StillDeferred`). |
| Resolution.FirePendingReady | engine.py:104-119 | In a valid environment every deferred revision can be attempted, and every child spawned is ready to run. |
| Resolution.FirePendingForked | engine.py:103-112 | Every child the fork pass spawns is the fork of one of its deferred revisions whose value is known: it has that fork's environment and starts right after the fork point. |
| Resolution.FirePendingCount | engine.py:103-119 | When the ceiling is at least as many universes away as there are deferred revisions, the pass spawns exactly one child per revision whose value is known and whose fork exists (`ReachesSpawn`). |
| Resolution.FireNext | engine.py:102-121 | One iteration of the fork loop adds `FireOne`'s carried revision and child to what was gathered, and takes its counters. |
| Resolution.FireForks | engine.py:101-121 | The fork loop computes `FirePending`. |
| Resolution.ReachesSpawn | engine.py:103-107 | A deferred revision whose value is known and whose fork exists, because the variable has a history and the index is not negative: the pass as written reaches the ceiling test for it. |
| Resolution.FirePendingRaises | engine.py:101-119 | The fork pass as written raises exactly when some deferred revision reaches the ceiling test (`ReachesSpawn`). |
| Resolution.RaisesExactlyWhenSpawning | engine.py:108-119 | Below the ceiling, the pass as written raises exactly when the intended pass would spawn a child. |
| Resolution.DeferredRevisionRaises | engine.py:101-119 | An instance: a revision of `x@0` to `y@0`, deferred because `y` had no version yet, becomes known after `y` is assigned. At the last settlement the pass as written raises, where the intended pass spawns a child. |
| Resolution.Resolve | engine.py:84-134 | A violated prophecy fails the universe, and a prophecy index error raises. In both cases no deferred revision is processed. Otherwise the universe goes on, carrying what the two passes carry and spawning what the fork pass spawns. |
| Runner.RevisionInRange | engine.py:170 | The Revision assertion: the variable has a history and the index is below its length, so a negative index passes. `Runner.EffectFaults` proves that a Revision fails exactly when this does not hold. |
| Runner.ProphecyInFuture | engine.py:192-193 | The Prophecy assertion: the variable has no history, or the index is at or past its length. `Runner.EffectFaults` proves that a Prophecy fails exactly when this does not hold. |
| Runner.ValueOr | engine.py:194 | `e.eval(env) or e`: the value when known, and otherwise the expression. |
| Runner.EffectOf | engine.py:146-196 | The reference definition of one statement: its assertion fails, or it gives the new histories, the entry being built, the children and the counters. A Mutation appends the stored version with the entry's index. A Revision is deferred while its value is unknown and otherwise attempted. A Prophecy joins the entry's pending prophecies, with its value in place once known. |
| Runner.EffectFaults | engine.py:148-193 | A statement fails exactly when its kind's assertion fails: an out-of-order Mutation, a Revision into the future, or a Prophecy about the past. A statement never fails with a prophecy index error. |
| Runner.EffectFacts | engine.py:172-190 | A statement that takes effect keeps the entry's line. Its children are ready, named by position, and counted, and none is spawned past the ceiling. |
| Runner.EffectGrows | engine.py:162-174 | A statement that takes effect only extends histories, by versions that name the entry being built. Every deferred revision of the entry still targets an existing version. |
| Runner.Revise | engine.py:172-190 | A revision whose value is unknown is deferred to the next entry. One whose value is known is attempted at once with `AttemptSpawn`. At most one child results; it is ready to run and named by position, and the counters are accounted. |
| Runner.Apply | engine.py:146-196 | Each statement's assertion fails exactly as the source's does (out-of-order Mutation, Revision into the future, Prophecy about the past), and a failure changes nothing. Otherwise the new histories, the entry, the children and the counters are exactly `EffectOf`'s, and the ledger is left alone. A Mutation records the index of the entry being built, which is the same whichever of the two source branches records it. |
| Runner.Record | engine.py:198-201 | The ledger grows by exactly the built entry plus a snapshot of the current histories, the histories are unchanged, and the environment stays valid. |
| Runner.SettleFacts | engine.py:142-143 | In a valid environment, the last entry's deferred revisions can all be attempted. The children spawned are ready and named by position, and what is carried still targets existing versions. |
| Runner.SettleOf | engine.py:137-144 | The reference definition of a settlement: nothing to settle at the first entry. Otherwise a violated prophecy or an index error halts the universe, and if neither happens the entry for the statement starts with what both passes carry. |
| Runner.SettleOfFacts | engine.py:137-144 | A settlement halts only for a reason `Halted` names. One that proceeds found the prophecy pass passing, spawned its children in order and counted them, and starts the entry for the given line with deferred revisions that target existing versions. |
| Runner.Values | engine.py:209-212 | The values of a list of versions are known exactly when every version's value is known and fully defined. They then come one per version, in order. |
| Runner.Outcome | engine.py:209-217 | No output exactly when the output variable was never assigned. Recorded exactly when it exists and every version is known and defined, with one value per version in version order. Indeterminate otherwise. |
| Runner.DecideOutput | engine.py:209-217 | The output loop computes `Outcome`. |
| Runner.SettleBefore | engine.py:137-144 | The settlement before statement `k` stops exactly when `SettleOf` halts, with its fate. Otherwise the next entry, the children and the counters are `SettleOf`'s. A stop is for a reason `Halted` names. |
| Runner.Execute | engine.py:146-201 | Statement `k` fails exactly when `EffectOf` fails, with that fault at index `k`, and then nothing changes. Otherwise the histories, the children and the counters are `EffectOf`'s, and the ledger gains the built entry with the snapshot of the new histories. |
| Runner.StepOf | engine.py:136-201 | The reference definition of one loop iteration: the settlement, then the statement's effect, then its ledger entry. |
| Runner.StepOfFacts | engine.py:136-201 | An iteration stops only for a reason `Halted` names, and its children are spawned in order and counted. |
| Runner.StepOfGrows | engine.py:136-201 | An iteration that continues leaves a valid state with exactly one more ledger entry, for the statement's line. Histories and ledger only grow. |
| Runner.StepOfProceeds | engine.py:142-201 | Once the settlement proceeds, the iteration is the statement's effect on what the settlement carried. |
| Runner.Step | engine.py:136-201 | One loop iteration is exactly `StepOf`. It stops exactly when `StepOf` stops, with its fate and the state unchanged. Otherwise the new state is `StepOf`'s. Either way its children are appended in order and the counters are `StepOf`'s. |
| Runner.FinishOf | engine.py:203-217 | The reference definition of the end of a run: the last settlement, with no entry to carry into, then the output decision. |
| Runner.FinishOfFacts | engine.py:203-217 | After the last statement, the run ends as `Ended` says, on the state reached, with its children counted. |
| Runner.Finish | engine.py:203-217 | The end of a run is exactly `FinishOf`: its fate, its children and its counters. |
| Runner.RunFrom | engine.py:136-217 | The reference definition of a universe's run from statement `k`: one iteration at a time until a stop or the end of the code, then the last settlement and the output decision. |
| Runner.RunFromFacts | engine.py:136-217 | A run from a valid state ends valid, having only added versions and ledger entries. It ends as `Ended` says, with its children spawned in order and counted. |
| Runner.RunFromStep | engine.py:136-201 | A run whose first iteration stops is that iteration's fate. One whose first iteration continues is the run from the state it left, after its children. |
| Runner.RunFromEnds | engine.py:203-217 | A run past the last statement is `FinishOf` on the state reached. |
| Runner.RunStatements | engine.py:136-201 | The statement loop computes `RunFrom`: the final state is `RunFrom`'s. A stop is `RunFrom`'s fate with the same children. Otherwise every statement ran and the rest of the run is `FinishOf`. |
| Runner.RunCodeFacts | engine.py:80-217 | A run from a fresh count of children ends valid and only extends the environment. It ends as `Ended` says, its children are ready and named `universe-0`, `universe-1`, … in order, and the run-wide count rises by their number without crossing `MAX_SPAWN`. |
| Runner.RunCode | engine.py:80-217 | A universe's run is exactly the reference run `RunFrom` from its entry state: the fate, the final environment, the children and the new count. It ends crashed with the failing condition at the ledger index reached, or failed on a prophecy. Otherwise the ledger has one entry per statement, the last settlement passed, and the output is `Outcome`. Its children are ready and named `universe-0`, `universe-1`, … in order, and the run-wide count rises by their number without crossing `MAX_SPAWN`. |
| Runner.SpawnRun | engine.py:111-113 | The reference run of a queued universe: `RunFrom` its own environment and start index under its own identifier. |
| Runner.SpawnRunEnds | engine.py:111-113 | A queued universe's run ends valid, only extends its environment, and ends as `Ended` says. |
| Runner.RootRun | engine.py:63-67 | The root universe's run: an empty environment at statement 0, with a count of one universe started. |
| Runner.RunSpawn | engine.py:111-113 | A queued universe's fate, children and new count are `SpawnRun`'s. Its children are ready and named by position, and the count is accounted. |
| Runner.QueueStep | engine.py:116-117 | Running the head of the queue and queueing its children keeps every queued universe ready and in step with the identifiers started. |
| Runner.LineageGrows | engine.py:184 | Every started universe is the root or a child of a universe already run, and no two share an identifier; queueing a universe's children keeps both facts. |
| Runner.NameIsFresh | engine.py:184 | A child of a universe already started gets an identifier no universe started so far has. |
| Runner.RunAll | engine.py:63-78 | A whole run starts the root universe with a count of one, and runs at most `MAX_SPAWN` universes. Their identifiers are all different, so no universe's outputs overwrite another's, and only universes that ran have outputs. The run raises exactly when the root's run (`RootRun`) crashes, and then no outputs are printed. Otherwise the root has outputs exactly when `RootRun` records them, and they are its outputs. |

## Left out

- Threads (`threading.Thread`, `start`, `join`): universes run one after another in `RunAll`, and a spawn is a recorded `Spawn(env, startIndex, universe)`.
- The order in which threads write to the shared output dictionary, and the atomicity of `total_spawned` across threads: the counter is threaded through as an in/out value, so the model runs one universe at a time.
- `spawn_count` and `total_spawned`: the rest of the model uses their evident intent (a per-universe counter and a run-wide one) rather than the resolver's accidental locals. The resolver's locals are covered under Findings.
- The debug channel: the `dbg_name` branch of a Mutation, `pending_dbgs`, and every `sys.stderr` write. These are side-channel output; a Mutation of the debug variable is still stored like any other.
- `run`'s printing of the outputs, `str` of each output value, the `__str__` methods, the `__main__` demonstration and `var_count`, which is never read.
- The evaluator and `defined` (the `objects` module is not part of this model): they are a parameter, modelled as pure, deterministic functions of the environment. Where the source evaluates the same expression twice (`stmt.right` at engine.py:172 and again at 176), the model uses one value for both. Python's `x or e` fallbacks are modelled as "the value when known, else `e`", not as truthiness. Value equality is structural equality of expressions.
- The `assert False` for an invalid statement kind: the kind is a three-valued datatype, so that case cannot arise.
- Runner.Apply: the `KeyError` that a Revision of a never-assigned variable raises from its assertion is folded into the Revision-into-the-future fault.
- Runner.RunCode: requires the ledger length to equal the start index and the environment to be valid. Both call sites (the root, and a child started right after its fork point) guarantee this, and the fork assertions depend on it.
- Runner.RunAll: runs each universe to completion before the next starts. Its contract states the root's fate and outputs through `RootRun`, that the identifiers of the universes it ran are all different, and that only those universes have outputs. It does not state that every spawned universe is run, nor any non-root universe's fate or outputs; in the body each queued universe is run by `Runner.RunSpawn`, whose fate is `SpawnRun`'s.
- Universes a crashed root spawned before it crashed still run in `RunAll`, as the source's `finally` joins them; their outputs are dropped with the rest.
- The outputs of `RunAll` are the recorded values themselves, not their `str` renderings.

## Findings

| source | as written | input that shows it | evidently intended | confidence | as-written member | corrected member |
|---|---|---|---|---|---|---|
| engine.py:108-119 | The nested resolver assigns `spawn_count` and `total_spawned` without `nonlocal` or `global`. Python therefore makes both local to the resolver, and the read of `total_spawned` at line 108 raises UnboundLocalError. | `x = 1`, then a revision of `x@0` to a value that becomes known only after the next statement. Once it is known, the pass reaches line 108 and raises instead of spawning `root-0`. | The deferred revision spawns a child under the same counters as an immediate revision: the universe's `spawn_count` and the run-wide `total_spawned`. | high (Python's scoping rule); not executed | Resolution.FirePendingRaises, with Resolution.RaisesExactlyWhenSpawning and Resolution.DeferredRevisionRaises | Resolution.FirePending, with Resolution.FirePendingNames and Resolution.FireForks |
