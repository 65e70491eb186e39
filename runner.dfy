/**
  `run_code` (engine.py:80-217): one universe runs the program from a start
  index.  Before each statement it settles what the previous ledger entry
  left pending, then executes the statement, then appends a new ledger entry;
  at the end it settles once more and decides the universe's output.
*/
module Runner {
  import opened History
  import opened Timeline
  import opened Naming
  import opened Resolution

  /** The failed assertions and lookups of `run_code`, each of which ends the universe with an exception. */
  datatype Fault =
    | MutationOutOfOrder       // engine.py:148-150
    | RevisionIntoFuture       // engine.py:170 (the failed assertion, or the KeyError of an unknown variable)
    | ProphecyAboutPast        // engine.py:192-193
    | ProphecyIndexOutOfRange  // engine.py:90, a negative index before the first version

  /** How one universe ends. */
  datatype Fate =
    | Crashed(fault: Fault, at: nat)  // an exception while handling ledger index `at`
    | ProphecyViolated                // engine.py:143-144, 205-206
    | OutputIndeterminate             // engine.py:212-216
    | NoOutput                        // the output variable was never assigned
    | Recorded(outputs: seq<Expr>)    // engine.py:217

  // ---------------------------------------------------------------------------
  // The assertions on a statement's target

  /** engine.py:170: the revised version already exists (or the index is negative). */
  predicate RevisionInRange(h: Histories, left: VarRef) {
    left.name in h && left.index < |h[left.name]|
  }

  /** engine.py:192: a prophecy speaks of a version that does not exist yet. */
  predicate ProphecyInFuture(h: Histories, left: VarRef) {
    left.name !in h || |h[left.name]| <= left.index
  }

  /** Every deferred revision in `forks` names an existing version (or a negative index). */
  ghost predicate TargetsExist(h: Histories, forks: seq<Stmt>) {
    forall f :: f in forks ==> RevisionInRange(h, f.left)
  }

  /** Python's `x.eval(env) or x`: the value when known, else the expression itself. */
  function ValueOr(st: EnvState, ev: Evaluator, e: Expr): (r: Expr)
    ensures ev.eval(st, e).Some? ==> r == ev.eval(st, e).value
    ensures ev.eval(st, e).None? ==> r == e
  {
    match ev.eval(st, e)
    case Some(v) => v
    case None => e
  }

  // ---------------------------------------------------------------------------
  // One statement

  /** A revision of an existing version, with its value known, attempts a spawn (engine.py:176-190). */
  ghost function RevisionAttempt(st: EnvState, left: VarRef, value: Expr, b: Budget, universe: string): Attempt
    requires Valid(st) && RevisionInRange(st.histories, left)
  {
    ValidForkDefined(st, left.name, left.index);
    AttemptSpawn(st, left, value, b, universe)
  }

  /**
    What a statement does: its assertion fails, or it takes effect, giving the
    new histories, the entry for the next ledger slot (before its snapshot is
    taken), the children spawned and the new counters.
  */
  datatype Effect =
    | Fails(fault: Fault)
    | Takes(histories: Histories, entry: LedgerEntry, spawned: seq<Spawn>, budget: Budget)

  /**
    Executing `stmt` against `st` (engine.py:146-196), where `next` holds
    what the resolver carried forward: a Mutation appends one version naming
    the entry being built, a Revision is deferred or attempted, a Prophecy is
    added to the entry's pending prophecies.
  */
  ghost function EffectOf(st: EnvState, ev: Evaluator, stmt: Stmt, next: LedgerEntry, b: Budget, universe: string): (r: Effect)
    requires Valid(st)
  {
    var H, L := st.histories, st.ledger;
    match stmt.kind
    case Mutation =>
      if !InOrder(H, stmt.left) then Fails(MutationOutOfOrder)
      else Takes(Appended(H, stmt.left, Version(Stored(st, ev, stmt.right), |L|)), next, [], b)
    case Revision =>
      if !RevisionInRange(H, stmt.left) then Fails(RevisionIntoFuture)
      else if ev.eval(st, stmt.right).None? then Takes(H, next.(pendingForks := next.pendingForks + [stmt]), [], b)
      else
        var a := RevisionAttempt(st, stmt.left, ev.eval(st, stmt.right).value, b, universe);
        Takes(H, next, if a.child.Some? then [a.child.value] else [], a.budget)
    case Prophecy =>
      if !ProphecyInFuture(H, stmt.left) then Fails(ProphecyAboutPast)
      else Takes(H, next.(prophecies := next.prophecies + [PendingProphecy(stmt.left, ValueOr(st, ev, stmt.right), stmt.line)]), [], b)
  }

  /** The state after a statement took effect and its entry was recorded with the snapshot of `h`. */
  ghost function Committed(st: EnvState, h: Histories, e: LedgerEntry): EnvState
    requires NonEmpty(h)
  {
    EnvState(h, st.ledger + [e.(snapshot := SnapshotOf(h))])
  }

  /** `h` grows `st`'s histories, and every version it adds names the next ledger entry. */
  ghost predicate Grown(st: EnvState, h: Histories) {
    && Extends(st.histories, h) && NonEmpty(h)
    && forall v, j :: v in h && 0 <= j < |h[v]| && (v in st.histories ==> j >= |st.histories[v]|) ==>
         h[v][j].codeIndex == |st.ledger|
  }

  /**
    A Revision whose target exists (engine.py:172-190): deferred to the next
    entry while its value is unknown, otherwise attempted at once.
  */
  method Revise(st: EnvState, ev: Evaluator, stmt: Stmt, next: LedgerEntry, b: Budget, universe: string)
    returns (entry: LedgerEntry, spawned: seq<Spawn>, b': Budget)
    requires Valid(st) && RevisionInRange(st.histories, stmt.left)
    ensures entry.line == next.line && entry.snapshot == next.snapshot && entry.prophecies == next.prophecies
    ensures ev.eval(st, stmt.right).None? ==>
      entry.pendingForks == next.pendingForks + [stmt] && spawned == [] && b' == b
    ensures ev.eval(st, stmt.right).Some? ==>
      var a := RevisionAttempt(st, stmt.left, ev.eval(st, stmt.right).value, b, universe);
      && entry.pendingForks == next.pendingForks
      && spawned == (if a.child.Some? then [a.child.value] else [])
      && b' == a.budget
    ensures forall c :: c in spawned ==> ChildReady(c)
    ensures forall k :: 0 <= k < |spawned| ==> spawned[k].universe == ChildName(universe, b.spawnCount + k)
    ensures b'.spawnCount == b.spawnCount + |spawned| && b'.totalSpawned == b.totalSpawned + |spawned|
    ensures b.totalSpawned <= MAX_SPAWN ==> b'.totalSpawned <= MAX_SPAWN
    ensures b.totalSpawned >= MAX_SPAWN ==> spawned == []
  {
    entry, spawned, b' := next, [], b;
    var forkValue := ev.eval(st, stmt.right);
    if forkValue.None? {
      entry := entry.(pendingForks := entry.pendingForks + [stmt]);
    } else {
      AttemptSpawnReady(st, stmt.left, forkValue.value, b, universe);
      var a := AttemptSpawn(st, stmt.left, forkValue.value, b, universe);
      if a.child.Some? {
        spawned := [a.child.value];
      }
      b' := a.budget;
    }
  }

  /**
    The statement itself (engine.py:146-196): check its assertion, then apply
    its kind.  Only a Mutation changes the environment; the ledger is not
    touched yet.
  */
  method Apply(env: Environment, ghost st: EnvState, ev: Evaluator, stmt: Stmt, at: nat, next: LedgerEntry, b: Budget, universe: string)
    returns (crash: Option<Fault>, entry: LedgerEntry, spawned: seq<Spawn>, b': Budget)
    requires env.varHistories == st.histories && env.codeHistory == st.ledger
    requires Valid(st) && |st.ledger| == at
    requires TargetsExist(env.varHistories, next.pendingForks)
    modifies env
    ensures env.codeHistory == old(env.codeHistory)
    ensures crash == Some(MutationOutOfOrder) <==> stmt.kind.Mutation? && !InOrder(old(env.varHistories), stmt.left)
    ensures crash == Some(RevisionIntoFuture) <==> stmt.kind.Revision? && !RevisionInRange(old(env.varHistories), stmt.left)
    ensures crash == Some(ProphecyAboutPast) <==> stmt.kind.Prophecy? && !ProphecyInFuture(old(env.varHistories), stmt.left)
    ensures crash != Some(ProphecyIndexOutOfRange)
    ensures crash.Some? ==> env.varHistories == old(env.varHistories) && spawned == [] && b' == b
    ensures crash.Some? ==> EffectOf(st, ev, stmt, next, b, universe) == Fails(crash.value)
    ensures crash.None? ==> EffectOf(st, ev, stmt, next, b, universe) == Takes(env.varHistories, entry, spawned, b')
    ensures crash.None? ==> Grown(st, env.varHistories) && TargetsExist(env.varHistories, entry.pendingForks)
    ensures forall c :: c in spawned ==> ChildReady(c)
    ensures forall k :: 0 <= k < |spawned| ==> spawned[k].universe == ChildName(universe, b.spawnCount + k)
    ensures b'.spawnCount == b.spawnCount + |spawned| && b'.totalSpawned == b.totalSpawned + |spawned|
    ensures b.totalSpawned <= MAX_SPAWN ==> b'.totalSpawned <= MAX_SPAWN
    ensures b.totalSpawned >= MAX_SPAWN ==> spawned == []
  {
    var now, H := env.State(), env.varHistories;
    crash, entry, spawned, b' := None, next, [], b;
    match stmt.kind {
      case Mutation =>
        if !InOrder(H, stmt.left) {
          return Some(MutationOutOfOrder), next, [], b;
        }
        var codeIndex := if stmt.left.index == 0 then |env.codeHistory| else at;
        env.Mutate(stmt.left, Stored(now, ev, stmt.right), codeIndex);
        AppendedExtends(H, stmt.left, Version(Stored(now, ev, stmt.right), codeIndex));
        forall f | f in entry.pendingForks ensures RevisionInRange(env.varHistories, f.left) {
          assert RevisionInRange(H, f.left);
        }
      case Revision =>
        if !RevisionInRange(H, stmt.left) {
          return Some(RevisionIntoFuture), next, [], b;
        }
        entry, spawned, b' := Revise(now, ev, stmt, next, b, universe);
      case Prophecy =>
        if !ProphecyInFuture(H, stmt.left) {
          return Some(ProphecyAboutPast), next, [], b;
        }
        entry := entry.(prophecies := entry.prophecies + [PendingProphecy(stmt.left, ValueOr(now, ev, stmt.right), stmt.line)]);
    }
  }

  /**
    The snapshot and the new ledger entry (engine.py:198-201), which keep the
    environment valid.
  */
  method Record(env: Environment, ghost st: EnvState, entry: LedgerEntry)
    requires Valid(st) && env.codeHistory == st.ledger
    requires Grown(st, env.varHistories) && TargetsExist(env.varHistories, entry.pendingForks)
    modifies env
    ensures env.varHistories == old(env.varHistories)
    ensures env.codeHistory == Committed(st, env.varHistories, entry).ledger
    ensures Valid(Committed(st, env.varHistories, entry))
  {
    env.Commit(entry);
    CommitPreservesValid(st, env.varHistories, entry.(snapshot := SnapshotOf(env.varHistories)));
  }

  // ---------------------------------------------------------------------------
  // Settling pending work

  /** The entries' deferred revisions target existing versions, so the resolver can attempt them all. */
  lemma SettleFacts(st: EnvState, ev: Evaluator, hasNext: bool, b: Budget, universe: string)
    requires Valid(st) && |st.ledger| > 0
    ensures ForksDefined(st, st.ledger[|st.ledger| - 1].pendingForks)
    ensures var fp := FirePending(st, ev, st.ledger[|st.ledger| - 1].pendingForks, hasNext, b, universe);
      && (forall c :: c in fp.spawned ==> ChildReady(c))
      && (forall k :: 0 <= k < |fp.spawned| ==> fp.spawned[k].universe == ChildName(universe, b.spawnCount + k))
      && TargetsExist(st.histories, fp.carried)
      && (!hasNext ==> fp.carried == [])
  {
    var last := st.ledger[|st.ledger| - 1];
    forall f | f in last.pendingForks ensures RevisionInRange(st.histories, f.left) {
      assert f.left.name in last.snapshot;
    }
    FirePendingReady(st, ev, last.pendingForks, hasNext, b, universe);
    FirePendingNames(st, ev, last.pendingForks, hasNext, b, universe);
    FirePendingCarries(st, ev, last.pendingForks, hasNext, b, universe);
  }

  /** What settling the last entry gives: the universe halts, or the next entry starts with what was carried. */
  datatype Settlement =
    | Halts(fate: Fate)
    | Proceeds(next: LedgerEntry, spawned: seq<Spawn>, budget: Budget)

  /**
    Settling the last entry of `st` (engine.py:137-144 before a statement,
    engine.py:203-207 after the last one, where `hasNext` is false): nothing
    to settle at the first entry; otherwise a violated prophecy or a fault of
    its index halts the universe, and the prophecies and revisions still
    undecided start the entry for line `line`.
  */
  ghost function SettleOf(st: EnvState, ev: Evaluator, line: int, hasNext: bool, b: Budget, universe: string): (r: Settlement)
    requires Valid(st)
  {
    if |st.ledger| == 0 then Proceeds(LedgerEntry(line, map[], [], []), [], b)
    else
      var last := st.ledger[|st.ledger| - 1];
      SettleFacts(st, ev, hasNext, b, universe);
      match ResolveProphecies(st, ev, last.prophecies, hasNext)
      case Violation => Halts(ProphecyViolated)
      case Fault => Halts(Crashed(ProphecyIndexOutOfRange, |st.ledger|))
      case Pass(ps) =>
        var fp := FirePending(st, ev, last.pendingForks, hasNext, b, universe);
        Proceeds(LedgerEntry(line, map[], ps, fp.carried), fp.spawned, fp.budget)
  }

  // ---------------------------------------------------------------------------
  // The output

  /** The values of the versions `vs`, when every one of them is known and fully defined. */
  function Values(st: EnvState, ev: Evaluator, vs: seq<Version>): (r: Option<seq<Expr>>)
    ensures r.Some? <==> forall j :: 0 <= j < |vs| ==> KnownDefined(st, ev, vs[j].expression)
    ensures r.Some? ==> |r.value| == |vs| && forall j :: 0 <= j < |vs| ==> ev.eval(st, vs[j].expression) == Some(r.value[j])
    decreases |vs|
  {
    if vs == [] then Some([])
    else if !KnownDefined(st, ev, vs[0].expression) then None
    else
      match Values(st, ev, vs[1..])
      case None => None
      case Some(rest) => Some([ev.eval(st, vs[0].expression).value] + rest)
  }

  /**
    The output decision (engine.py:209-217): no output when the output
    variable was never assigned, the values of all its versions when every one
    is known and fully defined, and an indeterminate universe otherwise.
  */
  function Outcome(st: EnvState, ev: Evaluator, outName: string): (f: Fate)
    ensures f.NoOutput? || f.OutputIndeterminate? || f.Recorded?
    ensures f.NoOutput? <==> outName !in st.histories
    ensures f.Recorded? <==> (outName in st.histories &&
      forall j :: 0 <= j < |st.histories[outName]| ==> KnownDefined(st, ev, st.histories[outName][j].expression))
    ensures f.Recorded? ==>
      && |f.outputs| == |st.histories[outName]|
      && forall j :: 0 <= j < |f.outputs| ==> ev.eval(st, st.histories[outName][j].expression) == Some(f.outputs[j])
  {
    if outName !in st.histories then NoOutput
    else
      match Values(st, ev, st.histories[outName])
      case None => OutputIndeterminate
      case Some(outputs) => Recorded(outputs)
  }

  /** The output loop (engine.py:209-217): the first version that is unknown or not fully defined fails the universe. */
  method DecideOutput(st: EnvState, ev: Evaluator, outName: string) returns (fate: Fate)
    ensures fate == Outcome(st, ev, outName)
  {
    if outName !in st.histories {
      return NoOutput;
    }
    var hist := st.histories[outName];
    var outputs: seq<Expr> := [];
    var i := 0;
    while i < |hist|
      invariant 0 <= i <= |hist| && |outputs| == i
      invariant forall j :: 0 <= j < i ==>
        KnownDefined(st, ev, hist[j].expression) && ev.eval(st, hist[j].expression) == Some(outputs[j])
    {
      var out := ev.eval(st, hist[i].expression);
      if out.None? || !ev.defined(st, out.value) {
        assert !KnownDefined(st, ev, hist[i].expression);
        return OutputIndeterminate;
      }
      outputs := outputs + [out.value];
      i := i + 1;
    }
    var expected := Outcome(st, ev, outName);
    assert expected.Recorded?;
    assert expected.outputs == outputs;
    return Recorded(outputs);
  }

  // ---------------------------------------------------------------------------
  // A universe's run

  function Max(a: nat, b: nat): nat {
    if a < b then b else a
  }

  /**
    A universe stopped early in state `st`: a crash names the ledger index it
    happened at and the condition that failed; a violated prophecy is one the
    last entry carried.
  */
  ghost predicate Halted(code: seq<Stmt>, st: EnvState, ev: Evaluator, fate: Fate) {
    var H, L := st.histories, st.ledger;
    match fate
    case Crashed(fault, at) =>
      && at == |L|
      && (match fault
          case MutationOutOfOrder =>
            at < |code| && code[at].kind.Mutation? && !InOrder(H, code[at].left)
          case RevisionIntoFuture =>
            at < |code| && code[at].kind.Revision? && !RevisionInRange(H, code[at].left)
          case ProphecyAboutPast =>
            at < |code| && code[at].kind.Prophecy? && !ProphecyInFuture(H, code[at].left)
          case ProphecyIndexOutOfRange =>
            |L| > 0 && ResolveProphecies(st, ev, L[|L| - 1].prophecies, at < |code|).Fault?)
    case ProphecyViolated =>
      |L| > 0 && ResolveProphecies(st, ev, L[|L| - 1].prophecies, |L| < |code|).Violation?
    case _ => false
  }

  /** The last settlement found no violated prophecy and no fault. */
  ghost predicate SettledLast(st: EnvState, ev: Evaluator) {
    |st.ledger| > 0 ==> ResolveProphecies(st, ev, st.ledger[|st.ledger| - 1].prophecies, false).Pass?
  }

  /**
    How a run that reached state `st` ended: stopped early, or with every
    statement executed, the last settlement passed and the output decided by
    `Outcome`.
  */
  ghost predicate Ended(code: seq<Stmt>, st: EnvState, ev: Evaluator, startIndex: nat, outName: string, fate: Fate) {
    if fate.Crashed? || fate.ProphecyViolated? then Halted(code, st, ev, fate)
    else |st.ledger| == Max(startIndex, |code|) && SettledLast(st, ev) && fate == Outcome(st, ev, outName)
  }

  /**
    The settlement before statement `k` (engine.py:137-144): nothing to do at
    the very first entry; otherwise the resolver runs on the last entry and
    either stops the universe or fills the entry for statement `k`.
  */
  method SettleBefore(code: seq<Stmt>, st: EnvState, ev: Evaluator, k: nat, b: Budget, universe: string)
    returns (stop: Option<Fate>, next: LedgerEntry, spawned: seq<Spawn>, b': Budget)
    requires Valid(st) && |st.ledger| == k < |code|
    ensures stop.Some? ==> Halted(code, st, ev, stop.value)
    ensures stop.None? ==> next.line == code[k].line && TargetsExist(st.histories, next.pendingForks)
    ensures SpawnedBetween(spawned, b, b', universe)
    ensures var s := SettleOf(st, ev, code[k].line, true, b, universe);
      && (stop.Some? <==> s.Halts?)
      && (s.Halts? ==> stop == Some(s.fate) && spawned == [] && b' == b)
      && (s.Proceeds? ==> next == s.next && spawned == s.spawned && b' == s.budget)
  {
    SettleOfFacts(code, st, ev, code[k].line, true, b, universe);
    stop, next, spawned, b' := None, LedgerEntry(code[k].line, map[], [], []), [], b;
    if |st.ledger| != 0 {
      SettleFacts(st, ev, true, b, universe);
      var r;
      r, spawned, b' := Resolve(st, ev, st.ledger[|st.ledger| - 1], true, b, universe);
      match r {
        case ProphecyFailed =>
          stop := Some(ProphecyViolated);
        case IndexFailed =>
          stop := Some(Crashed(ProphecyIndexOutOfRange, k));
        case Survived(ps, fs) =>
          next := LedgerEntry(code[k].line, map[], ps, fs);
      }
    }
  }

  /** The children of a universe, in spawn order, are ready to run and named by their position. */
  ghost predicate Brood(children: seq<Spawn>, universe: string) {
    && (forall c :: c in children ==> ChildReady(c))
    && (forall j :: 0 <= j < |children| ==> children[j].universe == ChildName(universe, j))
  }

  /**
    The children `sp` were spawned, in order, while the counters went from `b`
    to `b'`: each is ready to run and named by its position among the
    universe's children, every spawn is counted, and none passes the ceiling.
  */
  ghost predicate SpawnedBetween(sp: seq<Spawn>, b: Budget, b': Budget, universe: string) {
    && (forall c :: c in sp ==> ChildReady(c))
    && (forall j :: 0 <= j < |sp| ==> sp[j].universe == ChildName(universe, b.spawnCount + j))
    && b'.spawnCount == b.spawnCount + |sp| && b'.totalSpawned == b.totalSpawned + |sp|
    && (b.totalSpawned <= MAX_SPAWN ==> b'.totalSpawned <= MAX_SPAWN)
    && (b.totalSpawned >= MAX_SPAWN ==> sp == [])
  }

  lemma SpawnedJoin(sp: seq<Spawn>, sp': seq<Spawn>, b0: Budget, b1: Budget, b2: Budget, universe: string)
    requires SpawnedBetween(sp, b0, b1, universe) && SpawnedBetween(sp', b1, b2, universe)
    ensures SpawnedBetween(sp + sp', b0, b2, universe)
  {
    var all := sp + sp';
    forall j | 0 <= j < |all| ensures all[j].universe == ChildName(universe, b0.spawnCount + j) {
      if j >= |sp| {
        assert all[j] == sp'[j - |sp|];
      }
    }
  }

  /** A statement fails exactly when its kind's assertion does (engine.py:148, 170, 192). */
  lemma EffectFaults(st: EnvState, ev: Evaluator, stmt: Stmt, next: LedgerEntry, b: Budget, universe: string)
    requires Valid(st)
    ensures var r := EffectOf(st, ev, stmt, next, b, universe);
      && (r == Fails(MutationOutOfOrder) <==> stmt.kind.Mutation? && !InOrder(st.histories, stmt.left))
      && (r == Fails(RevisionIntoFuture) <==> stmt.kind.Revision? && !RevisionInRange(st.histories, stmt.left))
      && (r == Fails(ProphecyAboutPast) <==> stmt.kind.Prophecy? && !ProphecyInFuture(st.histories, stmt.left))
      && r != Fails(ProphecyIndexOutOfRange)
  {
  }

  /** When a statement takes effect, the entry keeps the line it was given and every child it spawns is counted. */
  lemma EffectFacts(st: EnvState, ev: Evaluator, stmt: Stmt, next: LedgerEntry, b: Budget, universe: string)
    requires Valid(st)
    ensures var r := EffectOf(st, ev, stmt, next, b, universe);
      r.Takes? ==> r.entry.line == next.line && SpawnedBetween(r.spawned, b, r.budget, universe)
  {
    if stmt.kind.Revision? && RevisionInRange(st.histories, stmt.left) && ev.eval(st, stmt.right).Some? {
      AttemptSpawnReady(st, stmt.left, ev.eval(st, stmt.right).value, b, universe);
    }
  }

  /**
    When a statement takes effect, the histories only grow, by versions that
    name the next entry, and every deferred revision still targets an
    existing version.
  */
  lemma EffectGrows(st: EnvState, ev: Evaluator, stmt: Stmt, next: LedgerEntry, b: Budget, universe: string)
    requires Valid(st) && TargetsExist(st.histories, next.pendingForks)
    ensures var r := EffectOf(st, ev, stmt, next, b, universe);
      r.Takes? ==> Grown(st, r.histories) && TargetsExist(r.histories, r.entry.pendingForks)
  {
    if stmt.kind.Mutation? && InOrder(st.histories, stmt.left) {
      var ver := Version(Stored(st, ev, stmt.right), |st.ledger|);
      AppendedExtends(st.histories, stmt.left, ver);
      assert forall f :: f in next.pendingForks ==> RevisionInRange(st.histories, f.left);
    }
  }

  /**
    A settlement halts only for a reason `Halted` names, and one that
    proceeds found every prophecy of the last entry satisfied or carried and
    spawned its children in order.
  */
  lemma SettleOfFacts(code: seq<Stmt>, st: EnvState, ev: Evaluator, line: int, hasNext: bool, b: Budget, universe: string)
    requires Valid(st) && hasNext == (|st.ledger| < |code|)
    ensures var r := SettleOf(st, ev, line, hasNext, b, universe);
      && (r.Halts? ==> Halted(code, st, ev, r.fate))
      && (r.Proceeds? ==> SpawnedBetween(r.spawned, b, r.budget, universe))
      && (r.Proceeds? && |st.ledger| > 0 ==> ResolveProphecies(st, ev, st.ledger[|st.ledger| - 1].prophecies, hasNext).Pass?)
      && (r.Proceeds? ==> r.next.line == line && r.next.snapshot == map[] && TargetsExist(st.histories, r.next.pendingForks))
  {
    if |st.ledger| > 0 {
      SettleFacts(st, ev, hasNext, b, universe);
    }
  }

  /**
    Statement `k` itself, then its ledger entry (engine.py:146-201); `stop`
    is the fate when its assertion fails.
  */
  method Execute(code: seq<Stmt>, env: Environment, ghost st: EnvState, ev: Evaluator, k: nat, next: LedgerEntry,
                 b: Budget, universe: string)
    returns (stop: Option<Fate>, spawned: seq<Spawn>, b': Budget)
    requires env.varHistories == st.histories && env.codeHistory == st.ledger
    requires Valid(st) && |st.ledger| == k < |code|
    requires TargetsExist(st.histories, next.pendingForks)
    modifies env
    ensures var s := EffectOf(st, ev, code[k], next, b, universe);
      && (stop.Some? <==> s.Fails?)
      && (s.Fails? ==> stop == Some(Crashed(s.fault, k)) && spawned == [] && b' == b &&
                       env.varHistories == st.histories && env.codeHistory == st.ledger)
      && (s.Takes? ==> Grown(st, s.histories) && spawned == s.spawned && b' == s.budget &&
                       env.varHistories == s.histories && env.codeHistory == Committed(st, s.histories, s.entry).ledger)
  {
    var crash, entry;
    crash, entry, spawned, b' := Apply(env, st, ev, code[k], k, next, b, universe);
    if crash.Some? {
      return Some(Crashed(crash.value, k)), [], b;
    }
    Record(env, st, entry);
    stop := None;
  }

  /** What one iteration of the statement loop gives: the universe stops, or continues from the new state. */
  datatype Stepped =
    | Stops(fate: Fate, spawned: seq<Spawn>, budget: Budget)
    | Continues(st: EnvState, spawned: seq<Spawn>, budget: Budget)

  /**
    One iteration of the statement loop (engine.py:136-201): settle the last
    entry, then apply statement `k`, then record its entry with the snapshot
    taken after it.
  */
  ghost function StepOf(code: seq<Stmt>, st: EnvState, ev: Evaluator, k: nat, b: Budget, universe: string): (r: Stepped)
    requires Valid(st) && |st.ledger| == k < |code|
  {
    match SettleOf(st, ev, code[k].line, true, b, universe)
    case Halts(f) => Stops(f, [], b)
    case Proceeds(next, sp, b1) =>
      SettleOfFacts(code, st, ev, code[k].line, true, b, universe);
      match EffectOf(st, ev, code[k], next, b1, universe)
      case Fails(fault) => Stops(Crashed(fault, k), sp, b1)
      case Takes(h, e, sp2, b2) =>
        EffectGrows(st, ev, code[k], next, b1, universe);
        Continues(Committed(st, h, e), sp + sp2, b2)
  }

  /**
    An iteration stops only for a reason `Halted` names; one that continues
    only adds versions and appends one ledger entry, for line `k`; either way
    its children are spawned in order and counted.
  */
  lemma StepOfFacts(code: seq<Stmt>, st: EnvState, ev: Evaluator, k: nat, b: Budget, universe: string)
    requires Valid(st) && |st.ledger| == k < |code|
    ensures var r := StepOf(code, st, ev, k, b, universe);
      && SpawnedBetween(r.spawned, b, r.budget, universe)
      && (r.Stops? ==> Halted(code, st, ev, r.fate))
  {
    var s := SettleOf(st, ev, code[k].line, true, b, universe);
    SettleOfFacts(code, st, ev, code[k].line, true, b, universe);
    if s.Proceeds? {
      EffectFaults(st, ev, code[k], s.next, s.budget, universe);
      EffectFacts(st, ev, code[k], s.next, s.budget, universe);
      var e := EffectOf(st, ev, code[k], s.next, s.budget, universe);
      if e.Takes? {
        SpawnedJoin(s.spawned, e.spawned, b, s.budget, e.budget, universe);
      }
    }
  }

  /**
    An iteration that continues leaves a valid state that only adds versions
    and appends one ledger entry, for line `k`.
  */
  lemma StepOfGrows(code: seq<Stmt>, st: EnvState, ev: Evaluator, k: nat, b: Budget, universe: string)
    requires Valid(st) && |st.ledger| == k < |code|
    ensures var r := StepOf(code, st, ev, k, b, universe);
      r.Continues? ==> && Valid(r.st) && |r.st.ledger| == k + 1
                       && Extends(st.histories, r.st.histories) && st.ledger <= r.st.ledger
                       && r.st.ledger[k].line == code[k].line
  {
    var s := SettleOf(st, ev, code[k].line, true, b, universe);
    SettleOfFacts(code, st, ev, code[k].line, true, b, universe);
    if s.Proceeds? {
      EffectFacts(st, ev, code[k], s.next, s.budget, universe);
      EffectGrows(st, ev, code[k], s.next, s.budget, universe);
      var e := EffectOf(st, ev, code[k], s.next, s.budget, universe);
      if e.Takes? {
        CommitPreservesValid(st, e.histories, e.entry.(snapshot := SnapshotOf(e.histories)));
      }
    }
  }

  /** An iteration whose settlement proceeds is the statement's effect on what the settlement carried. */
  lemma StepOfProceeds(code: seq<Stmt>, st: EnvState, ev: Evaluator, k: nat, b: Budget, universe: string,
                       next: LedgerEntry, spawned: seq<Spawn>, b1: Budget)
    requires Valid(st) && |st.ledger| == k < |code|
    requires SettleOf(st, ev, code[k].line, true, b, universe) == Proceeds(next, spawned, b1)
    ensures TargetsExist(st.histories, next.pendingForks)
    ensures var e := EffectOf(st, ev, code[k], next, b1, universe);
      && (e.Fails? ==> StepOf(code, st, ev, k, b, universe) == Stops(Crashed(e.fault, k), spawned, b1))
      && (e.Takes? ==> StepOf(code, st, ev, k, b, universe) == Continues(Committed(st, e.histories, e.entry), spawned + e.spawned, e.budget))
  {
    SettleOfFacts(code, st, ev, code[k].line, true, b, universe);
  }

  /**
    One iteration of the statement loop (engine.py:136-201): settle the last
    entry, then execute statement `k` and record its entry.  `stop` is the
    fate when the universe ends here; the children spawned are appended to
    `children`.
  */
  method Step(code: seq<Stmt>, env: Environment, ghost st: EnvState, ev: Evaluator, k: nat, children: seq<Spawn>,
              b: Budget, universe: string)
    returns (stop: Option<Fate>, children': seq<Spawn>, b': Budget)
    requires env.varHistories == st.histories && env.codeHistory == st.ledger
    requires Valid(st) && |st.ledger| == k < |code|
    modifies env
    ensures var s := StepOf(code, st, ev, k, b, universe);
      && (stop.Some? <==> s.Stops?)
      && (s.Stops? ==> stop == Some(s.fate) && env.varHistories == st.histories && env.codeHistory == st.ledger)
      && (s.Continues? ==> env.varHistories == s.st.histories && env.codeHistory == s.st.ledger)
      && children' == children + s.spawned && b' == s.budget
  {
    var next, spawned;
    var now := EnvState(env.varHistories, env.codeHistory);
    stop, next, spawned, b' := SettleBefore(code, now, ev, k, b, universe);
    children' := children + spawned;
    if stop.Some? {
      return;
    }
    ghost var b1 := b';
    StepOfProceeds(code, st, ev, k, b, universe, next, spawned, b1);
    var more;
    stop, more, b' := Execute(code, env, st, ev, k, next, b', universe);
    children' := children + (spawned + more);
  }

  /** A universe's run from some state on: its fate, its final state, the children it spawned and the counters. */
  datatype Run = Run(fate: Fate, final: EnvState, children: seq<Spawn>, budget: Budget)

  /** The run with `children` spawned before it. */
  function JoinRun(children: seq<Spawn>, r: Run): Run {
    r.(children := children + r.children)
  }

  /**
    After the last statement (engine.py:203-217): the last settlement, with
    no entry to carry into, then the output decision.
  */
  ghost function FinishOf(st: EnvState, ev: Evaluator, b: Budget, universe: string, outName: string): Run
    requires Valid(st)
  {
    match SettleOf(st, ev, 0, false, b, universe)
    case Halts(f) => Run(f, st, [], b)
    case Proceeds(_, sp, b') => Run(Outcome(st, ev, outName), st, sp, b')
  }

  /** The last settlement and the output decision end the run as `Ended` says. */
  lemma FinishOfFacts(code: seq<Stmt>, st: EnvState, ev: Evaluator, k: nat, b: Budget, universe: string, outName: string)
    requires Valid(st) && |st.ledger| == k >= |code|
    ensures var r := FinishOf(st, ev, b, universe, outName);
      && r.final == st && SpawnedBetween(r.children, b, r.budget, universe)
      && Ended(code, st, ev, k, outName, r.fate)
  {
    SettleOfFacts(code, st, ev, 0, false, b, universe);
  }

  /**
    The statements from `k` on, run from `st` (engine.py:136-217): one
    iteration at a time until a stop or the end of the code, then the last
    settlement.
  */
  ghost function RunFrom(code: seq<Stmt>, st: EnvState, ev: Evaluator, k: nat, b: Budget, universe: string, outName: string): Run
    requires Valid(st) && |st.ledger| == k
    decreases |code| - k
  {
    if k >= |code| then FinishOf(st, ev, b, universe, outName)
    else
      match StepOf(code, st, ev, k, b, universe)
      case Stops(f, sp, b') => Run(f, st, sp, b')
      case Continues(st', sp, b') =>
        StepOfGrows(code, st, ev, k, b, universe);
        JoinRun(sp, RunFrom(code, st', ev, k + 1, b', universe, outName))
  }

  /**
    A run from a valid state ends valid, having only added versions and
    appended ledger entries, in a way `Ended` describes, with its children
    spawned in order and counted.
  */
  lemma {:induction false} RunFromFacts(code: seq<Stmt>, st: EnvState, ev: Evaluator, k: nat, b: Budget, universe: string, outName: string)
    requires Valid(st) && |st.ledger| == k
    ensures var r := RunFrom(code, st, ev, k, b, universe, outName);
      && Valid(r.final) && Extends(st.histories, r.final.histories) && st.ledger <= r.final.ledger
      && Ended(code, r.final, ev, k, outName, r.fate)
      && SpawnedBetween(r.children, b, r.budget, universe)
    decreases |code| - k
  {
    if k >= |code| {
      FinishOfFacts(code, st, ev, k, b, universe, outName);
    } else {
      StepOfFacts(code, st, ev, k, b, universe);
      StepOfGrows(code, st, ev, k, b, universe);
      var s := StepOf(code, st, ev, k, b, universe);
      if s.Continues? {
        RunFromFacts(code, s.st, ev, k + 1, s.budget, universe, outName);
        var r := RunFrom(code, s.st, ev, k + 1, s.budget, universe, outName);
        ExtendsTransitive(st.histories, s.st.histories, r.final.histories);
        SpawnedJoin(s.spawned, r.children, b, s.budget, r.budget, universe);
      }
    }
  }

  /** One iteration peeled off a run. */
  lemma RunFromStep(code: seq<Stmt>, st: EnvState, ev: Evaluator, k: nat, b: Budget, universe: string, outName: string,
                    children: seq<Spawn>, whole: Run)
    requires Valid(st) && |st.ledger| == k < |code|
    requires whole == JoinRun(children, RunFrom(code, st, ev, k, b, universe, outName))
    ensures var s := StepOf(code, st, ev, k, b, universe);
      && (s.Stops? ==> whole == Run(s.fate, st, children + s.spawned, s.budget))
      && (s.Continues? ==> Valid(s.st) && |s.st.ledger| == k + 1 &&
                           whole == JoinRun(children + s.spawned, RunFrom(code, s.st, ev, k + 1, s.budget, universe, outName)))
  {
    StepOfGrows(code, st, ev, k, b, universe);
    var s := StepOf(code, st, ev, k, b, universe);
    if s.Continues? {
      var r := RunFrom(code, s.st, ev, k + 1, s.budget, universe, outName);
      assert children + (s.spawned + r.children) == (children + s.spawned) + r.children;
    }
  }

  /** What a run from a fresh count of children promises, stated on its parts. */
  lemma RunCodeFacts(code: seq<Stmt>, st: EnvState, ev: Evaluator, startIndex: nat, universe: string, outName: string,
                     totalSpawned: nat, fate: Fate, final: EnvState, children: seq<Spawn>, total: nat)
    requires Valid(st) && |st.ledger| == startIndex
    requires var r := RunFrom(code, st, ev, startIndex, Budget(0, totalSpawned), universe, outName);
      fate == r.fate && final == r.final && children == r.children && total == r.budget.totalSpawned
    ensures Valid(final)
    ensures Extends(st.histories, final.histories) && st.ledger <= final.ledger
    ensures startIndex <= |final.ledger|
    ensures Ended(code, final, ev, startIndex, outName, fate)
    ensures Brood(children, universe)
    ensures total == totalSpawned + |children|
    ensures totalSpawned <= MAX_SPAWN ==> total <= MAX_SPAWN
    ensures totalSpawned >= MAX_SPAWN ==> children == []
  {
    RunFromFacts(code, st, ev, startIndex, Budget(0, totalSpawned), universe, outName);
  }

  /** A run past the last statement is the last settlement and the output decision, on the state reached. */
  lemma RunFromEnds(code: seq<Stmt>, st: EnvState, ev: Evaluator, k: nat, b: Budget, universe: string, outName: string,
                    children: seq<Spawn>, whole: Run)
    requires Valid(st) && |st.ledger| == k >= |code|
    requires whole == JoinRun(children, RunFrom(code, st, ev, k, b, universe, outName))
    ensures whole.final == st && whole == JoinRun(children, FinishOf(st, ev, b, universe, outName))
  {
  }

  /** `whole` is the run from `st` at statement `k`, after `children` were spawned. */
  ghost predicate Resumes(code: seq<Stmt>, ev: Evaluator, universe: string, outName: string, whole: Run,
                          children: seq<Spawn>, st: EnvState, k: nat, b: Budget)
    requires Valid(st) && |st.ledger| == k
  {
    whole == JoinRun(children, RunFrom(code, st, ev, k, b, universe, outName))
  }

  /** A run whose first iteration continues goes on from the state that iteration left. */
  lemma RunContinues(code: seq<Stmt>, st: EnvState, ev: Evaluator, k: nat, b: Budget, universe: string, outName: string,
                     children: seq<Spawn>, whole: Run, st': EnvState, k': nat, children': seq<Spawn>, b': Budget)
    requires Valid(st) && |st.ledger| == k < |code|
    requires whole == JoinRun(children, RunFrom(code, st, ev, k, b, universe, outName))
    requires var s := StepOf(code, st, ev, k, b, universe);
      s.Continues? && st' == s.st && children' == children + s.spawned && b' == s.budget
    requires k' == k + 1
    ensures Valid(st') && |st'.ledger| == k'
    ensures Resumes(code, ev, universe, outName, whole, children', st', k', b')
  {
    RunFromStep(code, st, ev, k, b, universe, outName, children, whole);
  }

  /**
    After the last statement (engine.py:203-217): settle the last entry with
    nothing to carry into, then decide the output.
  */
  method Finish(st: EnvState, ev: Evaluator, outName: string, children: seq<Spawn>, b: Budget, universe: string)
    returns (fate: Fate, children': seq<Spawn>, b': Budget)
    requires Valid(st)
    ensures var r := FinishOf(st, ev, b, universe, outName);
      fate == r.fate && children' == children + r.children && b' == r.budget
  {
    children', b' := children, b;
    if |st.ledger| != 0 {
      SettleFacts(st, ev, false, b, universe);
      var r, spawned;
      r, spawned, b' := Resolve(st, ev, st.ledger[|st.ledger| - 1], false, b, universe);
      children' := children + spawned;
      match r {
        case ProphecyFailed =>
          return ProphecyViolated, children', b';
        case IndexFailed =>
          return Crashed(ProphecyIndexOutOfRange, |st.ledger|), children', b';
        case Survived(_, _) =>
      }
    }
    fate := DecideOutput(st, ev, outName);
  }

  /**
    The statement loop of `run_code` (engine.py:136-201), from statement
    `startIndex` on: `stop` is the fate of a universe that ended inside the
    loop; otherwise every statement ran and the last settlement is left.
  */
  method RunStatements(code: seq<Stmt>, env: Environment, ghost st: EnvState, ev: Evaluator, startIndex: nat,
                       universe: string, ghost outName: string, b0: Budget)
    returns (stop: Option<Fate>, children: seq<Spawn>, b: Budget)
    requires env.varHistories == st.histories && env.codeHistory == st.ledger
    requires Valid(st) && |st.ledger| == startIndex
    modifies env
    ensures var r := RunFrom(code, st, ev, startIndex, b0, universe, outName);
      && env.varHistories == r.final.histories && env.codeHistory == r.final.ledger && Valid(r.final)
      && (stop.Some? ==> r == Run(stop.value, r.final, children, b))
      && (stop.None? ==> |code| <= |r.final.ledger| && r == JoinRun(children, FinishOf(r.final, ev, b, universe, outName)))
  {
    b, children := b0, [];
    var k := startIndex;
    ghost var cur := st;
    ghost var whole := RunFrom(code, cur, ev, k, b, universe, outName);
    while k < |code|
      invariant env.varHistories == cur.histories && env.codeHistory == cur.ledger
      invariant startIndex <= k && |cur.ledger| == k && Valid(cur)
      invariant Resumes(code, ev, universe, outName, whole, children, cur, k, b)
    {
      ghost var s := StepOf(code, cur, ev, k, b, universe);
      ghost var children0, b1 := children, b;
      stop, children, b := Step(code, env, cur, ev, k, children, b, universe);
      if stop.Some? {
        RunFromStep(code, cur, ev, k, b1, universe, outName, children0, whole);
        return;
      }
      assert s.Continues? && children == children0 + s.spawned && b == s.budget;
      assert env.varHistories == s.st.histories && env.codeHistory == s.st.ledger;
      ghost var cur0, k0 := cur, k;
      cur := s.st;
      k := k + 1;
      RunContinues(code, cur0, ev, k0, b1, universe, outName, children0, whole, cur, k, children, b);
    }
    RunFromEnds(code, cur, ev, k, b, universe, outName, children, whole);
    stop := None;
  }

  /**
    `run_code(code, env, start_index, universe)` (engine.py:80-217): runs the
    statements from `startIndex` on, settling the previous entry before each
    one, then settles a last time and decides the output.  It returns the
    universe's fate, the children it spawned in order, and the new count of
    universes started in the whole run; all of it is the reference run
    `RunFrom`.
  */
  method RunCode(code: seq<Stmt>, env: Environment, ev: Evaluator, startIndex: nat, universe: string,
                 outName: string, totalSpawned: nat)
    returns (fate: Fate, children: seq<Spawn>, total: nat)
    requires Valid(env.State()) && |env.codeHistory| == startIndex
    modifies env
    ensures var r := RunFrom(code, old(env.State()), ev, startIndex, Budget(0, totalSpawned), universe, outName);
      fate == r.fate && env.State() == r.final && children == r.children && total == r.budget.totalSpawned
    ensures Valid(env.State())
    ensures Extends(old(env.varHistories), env.varHistories) && old(env.codeHistory) <= env.codeHistory
    ensures startIndex <= |env.codeHistory|
    ensures Ended(code, env.State(), ev, startIndex, outName, fate)
    ensures Brood(children, universe)
    ensures total == totalSpawned + |children|
    ensures totalSpawned <= MAX_SPAWN ==> total <= MAX_SPAWN
    ensures totalSpawned >= MAX_SPAWN ==> children == []
  {
    var stop, b;
    stop, children, b := RunStatements(code, env, env.State(), ev, startIndex, universe, outName, Budget(0, totalSpawned));
    if stop.Some? {
      fate := stop.value;
    } else {
      fate, children, b := Finish(env.State(), ev, outName, children, b, universe);
    }
    total := b.totalSpawned;
    RunCodeFacts(code, old(env.State()), ev, startIndex, universe, outName, totalSpawned, fate, env.State(), children, total);
  }

  // ---------------------------------------------------------------------------
  // The whole run

  /** The run of a queued universe from its own environment and start index, `total` universes having started. */
  ghost function SpawnRun(code: seq<Stmt>, ev: Evaluator, s: Spawn, total: nat, outName: string): Run
    requires ChildReady(s)
  {
    RunFrom(code, s.env, ev, s.startIndex, Budget(0, total), s.universe, outName)
  }

  /** A queued universe's run ends as a run ends, its environment only growing. */
  lemma SpawnRunEnds(code: seq<Stmt>, ev: Evaluator, s: Spawn, total: nat, outName: string)
    requires ChildReady(s)
    ensures var r := SpawnRun(code, ev, s, total, outName);
      Valid(r.final) && Extends(s.env.histories, r.final.histories) && s.env.ledger <= r.final.ledger
      && Ended(code, r.final, ev, s.startIndex, outName, r.fate)
  {
    var r := SpawnRun(code, ev, s, total, outName);
    RunCodeFacts(code, s.env, ev, s.startIndex, s.universe, outName, total, r.fate, r.final, r.children, r.budget.totalSpawned);
  }

  /** The root universe: an empty environment at statement 0, the only universe started so far. */
  const RootSpawn := Spawn(EnvState(map[], []), 0, "root")

  /** The root universe's run. */
  ghost function RootRun(code: seq<Stmt>, ev: Evaluator, outName: string): Run {
    assert ChildReady(RootSpawn);
    SpawnRun(code, ev, RootSpawn, 1, outName)
  }

  /**
    `run` (engine.py:63-70), with the universes run one after another
    instead of on threads: the root universe starts with an empty
    environment and a count of one, and every spawned universe is queued and
    later run from its own environment and start index.  `universes` lists
    the universes run, in order; `outputs` holds each one that recorded its
    outputs.  A crash of the root universe is not caught (engine.py:67,
    74-78): `raised` reports it, and then nothing is printed.
  */
  method RunAll(code: seq<Stmt>, ev: Evaluator, outName: string)
    returns (outputs: map<string, seq<Expr>>, universes: seq<string>, raised: bool)
    ensures 1 <= |universes| <= MAX_SPAWN && universes[0] == "root"
    ensures forall i, j :: 0 <= i < j < |universes| ==> universes[i] != universes[j]
    ensures forall u :: u in outputs ==> u in universes
    ensures raised <==> RootRun(code, ev, outName).fate.Crashed?
    ensures raised ==> outputs == map[]
    ensures !raised ==> ("root" in outputs <==> RootRun(code, ev, outName).fate.Recorded?)
    ensures "root" in outputs ==> outputs["root"] == RootRun(code, ev, outName).fate.outputs
  {
    var total, run := 1, 0;
    var pending := [RootSpawn];
    assert ChildReady(pending[0]);
    outputs, universes, raised := map[], ["root"], false;
    ghost var parent: seq<nat> := [0];
    ghost var rank: seq<nat> := [0];
    ghost var root := RootRun(code, ev, outName).fate;
    while pending != []
      invariant total == |universes| <= MAX_SPAWN
      invariant Queued(universes, pending, run)
      invariant Lineage(universes, parent, rank, run)
      invariant forall u :: u in outputs ==> u in universes
      invariant run == 0 ==> pending == [RootSpawn] && total == 1 && outputs == map[]
      invariant run > 0 ==> (raised <==> root.Crashed?) && ("root" in outputs <==> root.Recorded?)
      invariant "root" in outputs ==> outputs["root"] == root.outputs
      decreases MAX_SPAWN - total, |pending|
    {
      var s := pending[0];
      assert s in pending;
      var fate, children, total' := RunSpawn(code, ev, s, outName, total);
      var named := seq(|children|, j requires 0 <= j < |children| => children[j].universe);
      QueueStep(universes, pending, run, children, named);
      LineageGrows(universes, parent, rank, run, named);
      if run == 0 {
        assert s == RootSpawn && total == 1;
        assert fate == root;
        raised := fate.Crashed?;
      } else {
        assert universes[0] != universes[run];
      }
      if fate.Recorded? {
        outputs := outputs[s.universe := fate.outputs];
      }
      pending, universes, run, total := pending[1..] + children, universes + named, run + 1, total';
      parent, rank := parent + Repeat(|named|, run - 1), rank + Upto(|named|);
    }
    if raised {
      outputs := map[];
    }
  }

  /**
    The queue of universes still to run: the last `|pending|` of the
    identifiers started so far, each ready to run.
  */
  ghost predicate Queued(names: seq<string>, pending: seq<Spawn>, run: nat) {
    && run + |pending| == |names|
    && (forall j :: 0 <= j < |pending| ==> pending[j].universe == names[run + j])
    && (forall c :: c in pending ==> ChildReady(c))
  }

  /** Running the head of the queue and queueing its children keeps the queue in step with the identifiers. */
  lemma QueueStep(names: seq<string>, pending: seq<Spawn>, run: nat, children: seq<Spawn>, named: seq<string>)
    requires Queued(names, pending, run) && pending != []
    requires forall c :: c in children ==> ChildReady(c)
    requires |named| == |children| && forall j :: 0 <= j < |children| ==> named[j] == children[j].universe
    ensures Queued(names + named, pending[1..] + children, run + 1)
  {
    var pending', names' := pending[1..] + children, names + named;
    forall j | 0 <= j < |pending'| ensures pending'[j].universe == names'[run + 1 + j] {
      if j < |pending| - 1 {
        assert pending'[j] == pending[j + 1];
      } else {
        assert pending'[j] == children[j - |pending| + 1];
      }
    }
    forall c | c in pending' ensures ChildReady(c) {
      if c !in children {
        assert c in pending[1..];
      }
    }
  }

  /** One queued universe, run from a fresh environment holding its start state. */
  method RunSpawn(code: seq<Stmt>, ev: Evaluator, s: Spawn, outName: string, total: nat)
    returns (fate: Fate, children: seq<Spawn>, total': nat)
    requires ChildReady(s)
    ensures var r := SpawnRun(code, ev, s, total, outName);
      fate == r.fate && children == r.children && total' == r.budget.totalSpawned
    ensures forall c :: c in children ==> ChildReady(c)
    ensures forall j :: 0 <= j < |children| ==> children[j].universe == ChildName(s.universe, j)
    ensures total' == total + |children|
    ensures total <= MAX_SPAWN ==> total' <= MAX_SPAWN
    ensures total >= MAX_SPAWN ==> children == []
  {
    var env := new Environment.FromState(s.env);
    fate, children, total' := RunCode(code, env, ev, s.startIndex, s.universe, outName, total);
  }

  /**
    The identifiers started so far: the root first, then each one the
    `rank[i]`-th child of an earlier universe `parent[i]` among the first `r`
    (those already run), and no two alike.
  */
  ghost predicate Lineage(started: seq<string>, parent: seq<nat>, rank: seq<nat>, r: nat) {
    && |started| > 0 && started[0] == "root" && |parent| == |rank| == |started| && r <= |started|
    && (forall i :: 0 < i < |started| ==> parent[i] < r && started[i] == ChildName(started[parent[i]], rank[i]))
    && (forall i, j :: 0 <= i < j < |started| ==> started[i] != started[j])
  }

  /** `n` copies of `x`. */
  ghost function Repeat(n: nat, x: nat): (s: seq<nat>)
    ensures |s| == n && forall i :: 0 <= i < n ==> s[i] == x
  {
    seq(n, _ => x)
  }

  /** The numbers below `n`, in order. */
  ghost function Upto(n: nat): (s: seq<nat>)
    ensures |s| == n && forall i :: 0 <= i < n ==> s[i] == i
  {
    seq(n, i => i)
  }

  /** Running universe `started[r]` and queueing its children keeps identifiers unique. */
  lemma LineageGrows(started: seq<string>, parent: seq<nat>, rank: seq<nat>, r: nat, named: seq<string>)
    requires Lineage(started, parent, rank, r) && r < |started|
    requires forall j :: 0 <= j < |named| ==> named[j] == ChildName(started[r], j)
    ensures Lineage(started + named, parent + Repeat(|named|, r), rank + Upto(|named|), r + 1)
  {
    var started', parent', rank' := started + named, parent + Repeat(|named|, r), rank + Upto(|named|);
    forall i | 0 < i < |started'|
      ensures parent'[i] < r + 1 && started'[i] == ChildName(started'[parent'[i]], rank'[i])
    {
      if i >= |started| {
        assert parent'[i] == r && rank'[i] == i - |started|;
      }
    }
    forall i, j | 0 <= i < j < |started'| ensures started'[i] != started'[j] {
      if j >= |started| {
        if i < |started| {
          NameIsFresh(started, parent, rank, r, i, j - |started|);
        } else if started'[i] == started'[j] {
          ChildNameInjective(started[r], i - |started|, started[r], j - |started|);
        }
      }
    }
  }

  /** A child of universe `started[r]` gets an identifier no universe started so far has. */
  lemma NameIsFresh(started: seq<string>, parent: seq<nat>, rank: seq<nat>, r: nat, i: nat, k: nat)
    requires Lineage(started, parent, rank, r) && r < |started| && i < |started|
    ensures started[i] != ChildName(started[r], k)
  {
    if i == 0 {
      ChildIsNotRoot(started[r], k);
    } else if started[i] == ChildName(started[r], k) {
      ChildNameInjective(started[parent[i]], rank[i], started[r], k);
      assert false;
    }
  }
}
