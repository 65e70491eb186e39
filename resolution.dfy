/**
  `resolve_prophecies_and_pending_forks` (engine.py:84-134), run between
  statements: it checks the prophecies whose two sides are now known, fires
  the deferred revisions whose right-hand side is now known, and carries the
  rest into the entry being built for the next statement.
*/
module Resolution {
  import opened History
  import opened Timeline
  import opened Naming

  /** The ceiling on the number of universes started in one run (engine.py:60). */
  const MAX_SPAWN: nat := 10024

  /**
    `spawnCount`: the children this universe has spawned so far (engine.py:83);
    `totalSpawned`: the universes started in the whole run (engine.py:61, 65).
  */
  datatype Budget = Budget(spawnCount: nat, totalSpawned: nat)

  /** A request to run a new universe: its environment, its first statement and its identifier. */
  datatype Spawn = Spawn(env: EnvState, startIndex: nat, universe: string)

  datatype Attempt = Attempt(child: Option<Spawn>, budget: Budget)

  /**
    One revision `target ::= value` whose value is known (engine.py:104-119
    and 176-190): fork; if the fork exists and the ceiling is not reached,
    spawn one child that starts right after the fork point.
  */
  function AttemptSpawn(st: EnvState, target: VarRef, value: Expr, b: Budget, universe: string): (r: Attempt)
    requires ForkDefined(st, target.name, target.index)
    ensures r.child.Some? <==> Fork(st, target.name, target.index, value).Some? && b.totalSpawned < MAX_SPAWN
    ensures r.child.Some? ==>
      && r.child.value.env == Fork(st, target.name, target.index, value).value.env
      && r.child.value.startIndex == Fork(st, target.name, target.index, value).value.codeIndex + 1
      && r.child.value.universe == ChildName(universe, b.spawnCount)
      && r.budget == Budget(b.spawnCount + 1, b.totalSpawned + 1)
    ensures r.child.None? ==> r.budget == b
  {
    match Fork(st, target.name, target.index, value)
    case None => Attempt(None, b)
    case Some(f) =>
      if b.totalSpawned >= MAX_SPAWN then Attempt(None, b)
      else Attempt(Some(Spawn(f.env, f.codeIndex + 1, ChildName(universe, b.spawnCount))),
                   Budget(b.spawnCount + 1, b.totalSpawned + 1))
  }

  /** A spawned child starts from a valid environment, at the end of its own ledger. */
  ghost predicate ChildReady(c: Spawn) {
    Valid(c.env) && |c.env.ledger| == c.startIndex
  }

  /** A revision of an existing version in a valid environment spawns a child that is ready to run. */
  lemma AttemptSpawnReady(st: EnvState, target: VarRef, value: Expr, b: Budget, universe: string)
    requires Valid(st)
    requires target.name in st.histories && 0 <= target.index ==> target.index < |st.histories[target.name]|
    ensures ForkDefined(st, target.name, target.index)
    ensures var r := AttemptSpawn(st, target, value, b, universe);
      r.child.Some? ==> ChildReady(r.child.value)
  {
    ValidForkDefined(st, target.name, target.index);
    if target.name in st.histories && 0 <= target.index {
      ForkPreservesValid(st, target.name, target.index, value);
      ForkResumesAfterPoint(st, target.name, target.index, value);
    }
  }

  // ---------------------------------------------------------------------------
  // Prophecies

  /** Python's `s[i]`: negative indices count from the end; anything else raises IndexError. */
  function PyIndex<T>(s: seq<T>, i: int): (r: Option<T>)
    ensures r.Some? <==> -|s| <= i < |s|
    ensures 0 <= i < |s| ==> r == Some(s[i])
    ensures -|s| <= i < 0 ==> r == Some(s[|s| + i])
  {
    if 0 <= i < |s| then Some(s[i])
    else if -|s| <= i < 0 then Some(s[|s| + i])
    else None
  }

  /** The value of a prophecy's target version: known when the version exists and its expression evaluates. */
  function TargetValue(st: EnvState, ev: Evaluator, t: VarRef): Option<Expr> {
    if t.name in st.histories then
      match PyIndex(st.histories[t.name], t.index)
      case Some(ver) => ev.eval(st, ver.expression)
      case None => None
    else None
  }

  /** What becomes of one pending prophecy. */
  datatype Verdict = Violated | Consumed | Carry(kept: PendingProphecy) | IndexFault

  /** Keeps the universe alive. */
  predicate Survives(v: Verdict) {
    v.Consumed? || v.Carry?
  }

  /**
    One pending prophecy (engine.py:86-98): violated when its value and the
    target's value are both known and differ, consumed when they agree, an
    IndexError when a negative index reaches before the first version, and
    otherwise kept, with its value in place of its expression once known.
  */
  function CheckProphecy(st: EnvState, ev: Evaluator, p: PendingProphecy): (v: Verdict)
    ensures v.Violated? <==>
      ev.eval(st, p.expected).Some? && TargetValue(st, ev, p.target).Some? &&
      TargetValue(st, ev, p.target).value != ev.eval(st, p.expected).value
    ensures v.Consumed? <==>
      ev.eval(st, p.expected).Some? && TargetValue(st, ev, p.target) == ev.eval(st, p.expected)
    ensures v.IndexFault? <==>
      ev.eval(st, p.expected).Some? && p.target.name in st.histories &&
      p.target.index < -|st.histories[p.target.name]|
    ensures v.Carry? ==>
      v.kept == PendingProphecy(p.target, if ev.eval(st, p.expected).Some? then ev.eval(st, p.expected).value else p.expected, p.line)
  {
    var pv := ev.eval(st, p.expected);
    var t := p.target;
    if pv.Some? && t.name in st.histories && |st.histories[t.name]| > t.index then
      match PyIndex(st.histories[t.name], t.index)
      case None => IndexFault
      case Some(ver) =>
        match ev.eval(st, ver.expression)
        case Some(fv) => if fv != pv.value then Violated else Consumed
        case None => Carry(PendingProphecy(t, pv.value, p.line))
    else Carry(PendingProphecy(t, if pv.Some? then pv.value else p.expected, p.line))
  }

  /** The outcome of the prophecy pass: the universe fails, raises, or goes on with the prophecies it carries. */
  datatype ProphecyPass = Violation | Fault | Pass(carried: seq<PendingProphecy>)

  /** The prophecy pass over `ps`, in order; the first failing prophecy decides. */
  function ResolveProphecies(st: EnvState, ev: Evaluator, ps: seq<PendingProphecy>, hasNext: bool): (r: ProphecyPass)
    ensures r.Pass? && !hasNext ==> r.carried == []
    ensures r.Pass? ==> |r.carried| <= |ps|
    decreases |ps|
  {
    if ps == [] then Pass([])
    else
      match CheckProphecy(st, ev, ps[0])
      case Violated => Violation
      case IndexFault => Fault
      case Consumed => ResolveProphecies(st, ev, ps[1..], hasNext)
      case Carry(q) =>
        match ResolveProphecies(st, ev, ps[1..], hasNext)
        case Pass(c) => Pass((if hasNext then [q] else []) + c)
        case Violation => Violation
        case Fault => Fault
  }

  /** The pass fails exactly when some prophecy is violated and every one before it survives. */
  lemma {:induction false} ProphecyPassFails(st: EnvState, ev: Evaluator, ps: seq<PendingProphecy>, hasNext: bool)
    ensures ResolveProphecies(st, ev, ps, hasNext).Violation? <==>
      exists i :: 0 <= i < |ps| && CheckProphecy(st, ev, ps[i]).Violated? &&
        forall j :: 0 <= j < i ==> Survives(CheckProphecy(st, ev, ps[j]))
    decreases |ps|
  {
    if ps != [] {
      ProphecyPassFails(st, ev, ps[1..], hasNext);
      var r := ResolveProphecies(st, ev, ps, hasNext);
      if r.Violation? && !CheckProphecy(st, ev, ps[0]).Violated? {
        var i :| 0 <= i < |ps[1..]| && CheckProphecy(st, ev, ps[1..][i]).Violated? &&
          forall j :: 0 <= j < i ==> Survives(CheckProphecy(st, ev, ps[1..][j]));
        assert ps[i + 1] == ps[1..][i];
        forall j | 0 <= j < i + 1 ensures Survives(CheckProphecy(st, ev, ps[j])) {
          if j > 0 { assert ps[j] == ps[1..][j - 1]; }
        }
      }
      if exists i :: 0 <= i < |ps| && CheckProphecy(st, ev, ps[i]).Violated? &&
          forall j :: 0 <= j < i ==> Survives(CheckProphecy(st, ev, ps[j])) {
        var i :| 0 <= i < |ps| && CheckProphecy(st, ev, ps[i]).Violated? &&
          forall j :: 0 <= j < i ==> Survives(CheckProphecy(st, ev, ps[j]));
        if i > 0 {
          assert ps[1..][i - 1] == ps[i];
          forall j | 0 <= j < i - 1 ensures Survives(CheckProphecy(st, ev, ps[1..][j])) {
            assert ps[1..][j] == ps[j + 1];
          }
        }
      }
    }
  }

  /**
    The pass goes on exactly when every prophecy survives, and then it carries
    (when there is a next entry) exactly the prophecies that are kept.
  */
  lemma {:induction false} ProphecyPassCarries(st: EnvState, ev: Evaluator, ps: seq<PendingProphecy>, hasNext: bool)
    ensures ResolveProphecies(st, ev, ps, hasNext).Pass? <==>
      forall i :: 0 <= i < |ps| ==> Survives(CheckProphecy(st, ev, ps[i]))
    ensures ResolveProphecies(st, ev, ps, hasNext).Pass? && hasNext ==>
      forall q :: q in ResolveProphecies(st, ev, ps, hasNext).carried <==>
        exists i :: 0 <= i < |ps| && CheckProphecy(st, ev, ps[i]) == Carry(q)
    decreases |ps|
  {
    if ps != [] {
      var tail := ps[1..];
      ProphecyPassCarries(st, ev, tail, hasNext);
      assert forall i :: 0 <= i < |tail| ==> tail[i] == ps[i + 1];
      var r := ResolveProphecies(st, ev, ps, hasNext);
      if forall i :: 0 <= i < |ps| ==> Survives(CheckProphecy(st, ev, ps[i])) {
        assert Survives(CheckProphecy(st, ev, ps[0]));
        assert forall i :: 0 <= i < |tail| ==> Survives(CheckProphecy(st, ev, tail[i]));
      }
      if r.Pass? {
        forall i | 0 <= i < |ps| ensures Survives(CheckProphecy(st, ev, ps[i])) {
          if i > 0 { assert ps[i] == tail[i - 1]; }
        }
        if hasNext {
          var rt := ResolveProphecies(st, ev, tail, hasNext);
          forall q ensures q in r.carried <==> exists i :: 0 <= i < |ps| && CheckProphecy(st, ev, ps[i]) == Carry(q) {
            if q in r.carried {
              if CheckProphecy(st, ev, ps[0]) != Carry(q) {
                assert q in rt.carried;
                var i :| 0 <= i < |tail| && CheckProphecy(st, ev, tail[i]) == Carry(q);
                assert CheckProphecy(st, ev, ps[i + 1]) == Carry(q);
              }
            }
            if exists i :: 0 <= i < |ps| && CheckProphecy(st, ev, ps[i]) == Carry(q) {
              var i :| 0 <= i < |ps| && CheckProphecy(st, ev, ps[i]) == Carry(q);
              if i > 0 {
                assert CheckProphecy(st, ev, tail[i - 1]) == Carry(q);
                assert q in rt.carried;
              }
            }
          }
        }
      }
    }
  }

  /** The prophecies a pass keeps, in their original order, each with its value in place once known. */
  function KeptProphecies(st: EnvState, ev: Evaluator, ps: seq<PendingProphecy>): seq<PendingProphecy>
    decreases |ps|
  {
    if ps == [] then []
    else
      (if CheckProphecy(st, ev, ps[0]).Carry? then [CheckProphecy(st, ev, ps[0]).kept] else []) +
      KeptProphecies(st, ev, ps[1..])
  }

  /**
    A pass that goes on carries the kept prophecies in their original order,
    so the next pass checks them in the order they were written.
  */
  lemma {:induction false} ProphecyPassOrder(st: EnvState, ev: Evaluator, ps: seq<PendingProphecy>, hasNext: bool)
    ensures ResolveProphecies(st, ev, ps, hasNext).Pass? && hasNext ==>
      ResolveProphecies(st, ev, ps, hasNext).carried == KeptProphecies(st, ev, ps)
    decreases |ps|
  {
    if ps != [] {
      ProphecyPassOrder(st, ev, ps[1..], hasNext);
    }
  }

  /** `c` followed by what the rest of the pass gives. */
  function PrependCarried(c: seq<PendingProphecy>, r: ProphecyPass): ProphecyPass {
    match r
    case Pass(d) => Pass(c + d)
    case Violation => Violation
    case Fault => Fault
  }

  /** The prophecy loop's invariant survives one more prophecy, by its verdict. */
  lemma CarryStep(st: EnvState, ev: Evaluator, ps: seq<PendingProphecy>, hasNext: bool,
                  whole: ProphecyPass, carried: seq<PendingProphecy>)
    requires ps != [] && whole == PrependCarried(carried, ResolveProphecies(st, ev, ps, hasNext))
    ensures CheckProphecy(st, ev, ps[0]).Violated? ==> whole == Violation
    ensures CheckProphecy(st, ev, ps[0]).IndexFault? ==> whole == Fault
    ensures CheckProphecy(st, ev, ps[0]).Consumed? ==>
      whole == PrependCarried(carried, ResolveProphecies(st, ev, ps[1..], hasNext))
    ensures CheckProphecy(st, ev, ps[0]).Carry? ==>
      whole == PrependCarried(carried + (if hasNext then [CheckProphecy(st, ev, ps[0]).kept] else []),
                              ResolveProphecies(st, ev, ps[1..], hasNext))
  {
    if CheckProphecy(st, ev, ps[0]).Carry? {
      var q := CheckProphecy(st, ev, ps[0]).kept;
      var rest := ResolveProphecies(st, ev, ps[1..], hasNext);
      if rest.Pass? {
        var k: seq<PendingProphecy> := if hasNext then [q] else [];
        assert carried + (k + rest.carried) == (carried + k) + rest.carried;
      }
    }
  }

  /** The prophecy loop of the resolver (engine.py:86-98). */
  method CarryProphecies(st: EnvState, ev: Evaluator, ps: seq<PendingProphecy>, hasNext: bool) returns (r: ProphecyPass)
    ensures r == ResolveProphecies(st, ev, ps, hasNext)
  {
    var carried: seq<PendingProphecy> := [];
    var i := 0;
    ghost var whole := ResolveProphecies(st, ev, ps, hasNext);
    assert ps[0..] == ps;
    while i < |ps|
      invariant 0 <= i <= |ps|
      invariant whole == PrependCarried(carried, ResolveProphecies(st, ev, ps[i..], hasNext))
    {
      CarryStep(st, ev, ps[i..], hasNext, whole, carried);
      assert ps[i..][0] == ps[i] && ps[i..][1..] == ps[i + 1..];
      var p := ps[i];
      var t := p.target;
      var pv := ev.eval(st, p.expected);
      if pv.Some? && t.name in st.histories && |st.histories[t.name]| > t.index {
        var hist := st.histories[t.name];
        if t.index < -|hist| {
          assert CheckProphecy(st, ev, p).IndexFault?;
          return Fault;
        }
        var ver := if t.index >= 0 then hist[t.index] else hist[|hist| + t.index];
        var fv := ev.eval(st, ver.expression);
        if fv.Some? {
          if fv.value != pv.value {
            assert CheckProphecy(st, ev, p).Violated?;
            return Violation;
          }
          assert CheckProphecy(st, ev, p).Consumed?;
          i := i + 1;
          continue;
        }
      }
      assert CheckProphecy(st, ev, p) == Carry(PendingProphecy(t, if pv.Some? then pv.value else p.expected, p.line));
      if hasNext {
        carried := carried + [PendingProphecy(t, if pv.Some? then pv.value else p.expected, p.line)];
      }
      i := i + 1;
    }
    assert ps[i..] == [];
    r := Pass(carried);
  }

  // ---------------------------------------------------------------------------
  // Deferred revisions

  /** The outcome of the fork pass: the revisions still deferred, the children spawned and the new budget. */
  datatype ForkPass = ForkPass(carried: seq<Stmt>, spawned: seq<Spawn>, budget: Budget)

  /** Every deferred revision in `forks` can be attempted without a failure. */
  ghost predicate ForksDefined(st: EnvState, forks: seq<Stmt>) {
    forall f :: f in forks ==> ForkDefined(st, f.left.name, f.left.index)
  }

  /**
    One deferred revision of the fork pass (engine.py:102-121): attempted
    when its value is known, kept for the next entry when it is not and there
    is one, dropped otherwise.
  */
  function FireOne(st: EnvState, ev: Evaluator, f: Stmt, hasNext: bool, b: Budget, universe: string): (r: ForkPass)
    requires ForkDefined(st, f.left.name, f.left.index)
    ensures r.carried == (if hasNext && ev.eval(st, f.right).None? then [f] else [])
    ensures |r.spawned| <= 1 && (r.spawned != [] ==> ev.eval(st, f.right).Some? && b.totalSpawned < MAX_SPAWN)
    ensures r.spawned != [] ==> r.spawned[0].universe == ChildName(universe, b.spawnCount)
    ensures r.budget == Budget(b.spawnCount + |r.spawned|, b.totalSpawned + |r.spawned|)
    ensures ev.eval(st, f.right).Some? ==>
      var a := AttemptSpawn(st, f.left, ev.eval(st, f.right).value, b, universe);
      r.spawned == (if a.child.Some? then [a.child.value] else []) && r.budget == a.budget
  {
    match ev.eval(st, f.right)
    case None => ForkPass(if hasNext then [f] else [], [], b)
    case Some(v) =>
      var a := AttemptSpawn(st, f.left, v, b, universe);
      ForkPass([], if a.child.Some? then [a.child.value] else [], a.budget)
  }

  /**
    The fork pass over the deferred revisions (engine.py:101-121), in order:
    one whose value is known is attempted, one whose value is unknown is
    kept for the next entry.
  */
  function FirePending(st: EnvState, ev: Evaluator, forks: seq<Stmt>, hasNext: bool, b: Budget, universe: string): (r: ForkPass)
    requires ForksDefined(st, forks)
    ensures r.budget.spawnCount == b.spawnCount + |r.spawned|
    ensures r.budget.totalSpawned == b.totalSpawned + |r.spawned|
    ensures b.totalSpawned <= MAX_SPAWN ==> r.budget.totalSpawned <= MAX_SPAWN
    ensures b.totalSpawned >= MAX_SPAWN ==> r.spawned == []
    decreases |forks|
  {
    if forks == [] then ForkPass([], [], b)
    else
      assert forks[0] in forks;
      assert forall g :: g in forks[1..] ==> g in forks;
      var one := FireOne(st, ev, forks[0], hasNext, b, universe);
      JoinForks(one.carried, one.spawned, FirePending(st, ev, forks[1..], hasNext, one.budget, universe))
  }

  /** The `k`-th child of the pass is named after the universe and its position among the universe's children. */
  lemma {:induction false} FirePendingNames(st: EnvState, ev: Evaluator, forks: seq<Stmt>, hasNext: bool, b: Budget, universe: string)
    requires ForksDefined(st, forks)
    ensures var r := FirePending(st, ev, forks, hasNext, b, universe);
      forall k :: 0 <= k < |r.spawned| ==> r.spawned[k].universe == ChildName(universe, b.spawnCount + k)
    decreases |forks|
  {
    if forks != [] {
      FirePendingStep(st, ev, forks, hasNext, b, universe);
      var one := FireOne(st, ev, forks[0], hasNext, b, universe);
      FirePendingNames(st, ev, forks[1..], hasNext, one.budget, universe);
    }
  }

  /**
    The pass carries nothing when there is no next entry; otherwise it carries
    exactly the deferred revisions whose right-hand side is still unknown.
  */
  lemma {:induction false} FirePendingCarries(st: EnvState, ev: Evaluator, forks: seq<Stmt>, hasNext: bool, b: Budget, universe: string)
    requires ForksDefined(st, forks)
    ensures var r := FirePending(st, ev, forks, hasNext, b, universe);
      && (!hasNext ==> r.carried == [])
      && (forall f :: f in r.carried ==> f in forks)
      && (hasNext ==> forall f :: f in forks ==> (f in r.carried <==> ev.eval(st, f.right).None?))
    decreases |forks|
  {
    if forks != [] {
      FirePendingStep(st, ev, forks, hasNext, b, universe);
      var f := forks[0];
      assert forall g :: g in forks <==> g == f || g in forks[1..];
      match ev.eval(st, f.right)
      case None =>
        FirePendingCarries(st, ev, forks[1..], hasNext, b, universe);
      case Some(v) =>
        var a := AttemptSpawn(st, f.left, v, b, universe);
        FirePendingCarries(st, ev, forks[1..], hasNext, a.budget, universe);
    }
  }

  /** The deferred revisions whose right-hand side is still unknown, in their original order. */
  function StillDeferred(st: EnvState, ev: Evaluator, forks: seq<Stmt>): seq<Stmt>
    decreases |forks|
  {
    if forks == [] then []
    else (if ev.eval(st, forks[0].right).None? then [forks[0]] else []) + StillDeferred(st, ev, forks[1..])
  }

  /** With a next entry, the pass carries the still-unknown revisions in their original order. */
  lemma {:induction false} FirePendingOrder(st: EnvState, ev: Evaluator, forks: seq<Stmt>, hasNext: bool, b: Budget, universe: string)
    requires ForksDefined(st, forks)
    ensures hasNext ==> FirePending(st, ev, forks, hasNext, b, universe).carried == StillDeferred(st, ev, forks)
    decreases |forks|
  {
    if forks != [] {
      FirePendingStep(st, ev, forks, hasNext, b, universe);
      match ev.eval(st, forks[0].right)
      case None =>
        FirePendingOrder(st, ev, forks[1..], hasNext, b, universe);
      case Some(v) =>
        var a := AttemptSpawn(st, forks[0].left, v, b, universe);
        FirePendingOrder(st, ev, forks[1..], hasNext, a.budget, universe);
    }
  }

  /** In a valid environment, every child the fork pass spawns is ready to run. */
  lemma {:induction false} FirePendingReady(st: EnvState, ev: Evaluator, forks: seq<Stmt>, hasNext: bool, b: Budget, universe: string)
    requires Valid(st)
    requires forall f :: f in forks ==>
      f.left.name in st.histories && 0 <= f.left.index ==> f.left.index < |st.histories[f.left.name]|
    ensures ForksDefined(st, forks)
    ensures forall c :: c in FirePending(st, ev, forks, hasNext, b, universe).spawned ==> ChildReady(c)
    decreases |forks|
  {
    forall f | f in forks ensures ForkDefined(st, f.left.name, f.left.index) {
      ValidForkDefined(st, f.left.name, f.left.index);
    }
    if forks != [] {
      var f := forks[0];
      assert f in forks;
      assert forall g :: g in forks[1..] ==> g in forks;
      match ev.eval(st, f.right)
      case None =>
        FirePendingReady(st, ev, forks[1..], hasNext, b, universe);
      case Some(v) =>
        AttemptSpawnReady(st, f.left, v, b, universe);
        var a := AttemptSpawn(st, f.left, v, b, universe);
        FirePendingReady(st, ev, forks[1..], hasNext, a.budget, universe);
    }
  }

  /**
    `c` is the fork of one of the deferred revisions in `forks` whose value is
    known, started right after the fork point.
  */
  ghost predicate ForkedFrom(st: EnvState, ev: Evaluator, forks: seq<Stmt>, c: Spawn)
    requires ForksDefined(st, forks)
  {
    exists f :: f in forks && ev.eval(st, f.right).Some? &&
      var fk := Fork(st, f.left.name, f.left.index, ev.eval(st, f.right).value);
      fk.Some? && c.env == fk.value.env && c.startIndex == fk.value.codeIndex + 1
  }

  /** Every child the fork pass spawns is the fork of one of its deferred revisions (engine.py:103-112). */
  lemma {:induction false} FirePendingForked(st: EnvState, ev: Evaluator, forks: seq<Stmt>, hasNext: bool, b: Budget, universe: string)
    requires ForksDefined(st, forks)
    ensures forall c :: c in FirePending(st, ev, forks, hasNext, b, universe).spawned ==> ForkedFrom(st, ev, forks, c)
    decreases |forks|
  {
    if forks != [] {
      FirePendingStep(st, ev, forks, hasNext, b, universe);
      var one := FireOne(st, ev, forks[0], hasNext, b, universe);
      FirePendingForked(st, ev, forks[1..], hasNext, one.budget, universe);
      var rest := FirePending(st, ev, forks[1..], hasNext, one.budget, universe);
      forall c | c in FirePending(st, ev, forks, hasNext, b, universe).spawned ensures ForkedFrom(st, ev, forks, c) {
        if c in one.spawned {
          assert forks[0] in forks;
        } else {
          assert c in rest.spawned;
          var f :| f in forks[1..] && ev.eval(st, f.right).Some? &&
            var fk := Fork(st, f.left.name, f.left.index, ev.eval(st, f.right).value);
            fk.Some? && c.env == fk.value.env && c.startIndex == fk.value.codeIndex + 1;
          assert f in forks;
        }
      }
    }
  }

  /** The number of deferred revisions in `forks` that reach the ceiling test. */
  function CountReaching(st: EnvState, ev: Evaluator, forks: seq<Stmt>): nat
    decreases |forks|
  {
    if forks == [] then 0
    else (if ReachesSpawn(st, ev, forks[0]) then 1 else 0) + CountReaching(st, ev, forks[1..])
  }

  /**
    Far enough below the ceiling, the fork pass spawns one child for every
    deferred revision whose value is known and whose fork exists.
  */
  lemma {:induction false} FirePendingCount(st: EnvState, ev: Evaluator, forks: seq<Stmt>, hasNext: bool, b: Budget, universe: string)
    requires ForksDefined(st, forks) && b.totalSpawned + |forks| <= MAX_SPAWN
    ensures |FirePending(st, ev, forks, hasNext, b, universe).spawned| == CountReaching(st, ev, forks)
    decreases |forks|
  {
    if forks != [] {
      FirePendingStep(st, ev, forks, hasNext, b, universe);
      var one := FireOne(st, ev, forks[0], hasNext, b, universe);
      assert |one.spawned| == if ReachesSpawn(st, ev, forks[0]) then 1 else 0;
      FirePendingCount(st, ev, forks[1..], hasNext, one.budget, universe);
    }
  }

  /** What the pass so far has gathered, followed by the rest of the pass. */
  function JoinForks(carried: seq<Stmt>, spawned: seq<Spawn>, r: ForkPass): ForkPass {
    ForkPass(carried + r.carried, spawned + r.spawned, r.budget)
  }

  /** One step of the fork pass, as the loop takes it. */
  lemma FirePendingStep(st: EnvState, ev: Evaluator, forks: seq<Stmt>, hasNext: bool, b: Budget, universe: string)
    requires ForksDefined(st, forks) && forks != []
    ensures ForksDefined(st, forks[1..]) && ForkDefined(st, forks[0].left.name, forks[0].left.index)
    ensures var one := FireOne(st, ev, forks[0], hasNext, b, universe);
      FirePending(st, ev, forks, hasNext, b, universe) ==
        JoinForks(one.carried, one.spawned, FirePending(st, ev, forks[1..], hasNext, one.budget, universe))
  {
    assert forks[0] in forks;
    assert forall g :: g in forks[1..] ==> g in forks;
  }

  /** `whole` is the fork pass over `forks`, after `carried` and `spawned` were gathered. */
  ghost predicate PassResumes(st: EnvState, ev: Evaluator, hasNext: bool, universe: string, whole: ForkPass,
                              carried: seq<Stmt>, spawned: seq<Spawn>, forks: seq<Stmt>, b: Budget)
    requires ForksDefined(st, forks)
  {
    whole == JoinForks(carried, spawned, FirePending(st, ev, forks, hasNext, b, universe))
  }

  /** The fork loop's invariant survives one more deferred revision. */
  lemma FireForksStep(st: EnvState, ev: Evaluator, forks: seq<Stmt>, i: nat, hasNext: bool, universe: string,
                      whole: ForkPass, carried: seq<Stmt>, spawned: seq<Spawn>, b: Budget,
                      i': nat, carried': seq<Stmt>, spawned': seq<Spawn>, b': Budget)
    requires ForksDefined(st, forks) && i < |forks| && i' == i + 1
    requires PassResumes(st, ev, hasNext, universe, whole, carried, spawned, forks[i..], b)
    requires var one := FireOne(st, ev, forks[i], hasNext, b, universe);
      carried' == carried + one.carried && spawned' == spawned + one.spawned && b' == one.budget
    ensures ForksDefined(st, forks[i'..])
    ensures PassResumes(st, ev, hasNext, universe, whole, carried', spawned', forks[i'..], b')
  {
    assert forks[i..][0] == forks[i] && forks[i..][1..] == forks[i'..];
    FirePendingStep(st, ev, forks[i..], hasNext, b, universe);
    var one := FireOne(st, ev, forks[i], hasNext, b, universe);
    JoinForksJoin(carried, spawned, one.carried, one.spawned, FirePending(st, ev, forks[i'..], hasNext, one.budget, universe));
  }

  /** Gathering in two rounds is gathering once. */
  lemma JoinForksJoin(carried: seq<Stmt>, spawned: seq<Spawn>, carried': seq<Stmt>, spawned': seq<Spawn>, r: ForkPass)
    ensures JoinForks(carried, spawned, JoinForks(carried', spawned', r)) == JoinForks(carried + carried', spawned + spawned', r)
  {
    assert carried + (carried' + r.carried) == (carried + carried') + r.carried;
    assert spawned + (spawned' + r.spawned) == (spawned + spawned') + r.spawned;
  }

  /** One iteration of the fork loop (engine.py:102-121): the revision `f` is attempted, carried or dropped. */
  method FireNext(st: EnvState, ev: Evaluator, f: Stmt, hasNext: bool, carried: seq<Stmt>, spawned: seq<Spawn>,
                  b: Budget, universe: string)
    returns (carried': seq<Stmt>, spawned': seq<Spawn>, b': Budget)
    requires ForkDefined(st, f.left.name, f.left.index)
    ensures var one := FireOne(st, ev, f, hasNext, b, universe);
      carried' == carried + one.carried && spawned' == spawned + one.spawned && b' == one.budget
  {
    carried', spawned', b' := carried, spawned, b;
    var fv := ev.eval(st, f.right);
    if fv.Some? {
      var a := AttemptSpawn(st, f.left, fv.value, b, universe);
      if a.child.Some? {
        spawned' := spawned + [a.child.value];
      } else {
        assert spawned + [] == spawned;
      }
      b' := a.budget;
    } else if hasNext {
      carried' := carried + [f];
    } else {
      assert carried + [] == carried;
    }
  }

  /** The fork loop of the resolver (engine.py:101-121). */
  method FireForks(st: EnvState, ev: Evaluator, forks: seq<Stmt>, hasNext: bool, b0: Budget, universe: string)
    returns (r: ForkPass)
    requires ForksDefined(st, forks)
    ensures r == FirePending(st, ev, forks, hasNext, b0, universe)
  {
    var carried: seq<Stmt> := [];
    var spawned: seq<Spawn> := [];
    var b := b0;
    var i := 0;
    ghost var whole := FirePending(st, ev, forks, hasNext, b0, universe);
    assert forks[0..] == forks;
    while i < |forks|
      invariant 0 <= i <= |forks|
      invariant ForksDefined(st, forks[i..])
      invariant PassResumes(st, ev, hasNext, universe, whole, carried, spawned, forks[i..], b)
    {
      assert forks[i] in forks;
      ghost var i0, carried0, spawned0, b1 := i, carried, spawned, b;
      carried, spawned, b := FireNext(st, ev, forks[i], hasNext, carried, spawned, b, universe);
      i := i + 1;
      FireForksStep(st, ev, forks, i0, hasNext, universe, whole, carried0, spawned0, b1, i, carried, spawned, b);
    }
    assert forks[i..] == [];
    r := ForkPass(carried, spawned, b);
  }

  // ---------------------------------------------------------------------------
  // The fork pass as written

  /** A deferred revision whose value is now known and whose fork exists: the pass reaches the ceiling test for it. */
  predicate ReachesSpawn(st: EnvState, ev: Evaluator, f: Stmt) {
    ev.eval(st, f.right).Some? && f.left.name in st.histories && 0 <= f.left.index
  }

  /**
    The fork pass as written.  The resolver assigns `spawn_count` and
    `total_spawned` (engine.py:118-119) without declaring them `nonlocal` or
    `global`, so both are local to it and reading `total_spawned` at
    engine.py:108 raises UnboundLocalError.  `raises` says whether the pass
    reaches that read: the first deferred revision whose value is known and
    whose fork exists ends the universe with that exception.
  */
  function FirePendingRaises(st: EnvState, ev: Evaluator, forks: seq<Stmt>): (raises: bool)
    requires ForksDefined(st, forks)
    ensures raises <==> exists i :: 0 <= i < |forks| && ReachesSpawn(st, ev, forks[i])
    decreases |forks|
  {
    if forks == [] then false
    else
      var f := forks[0];
      assert f in forks;
      assert forall g :: g in forks[1..] ==> g in forks;
      assert forall i :: 0 < i < |forks| ==> forks[i] == forks[1..][i - 1];
      match ev.eval(st, f.right)
      case None => FirePendingRaises(st, ev, forks[1..])
      case Some(v) => Fork(st, f.left.name, f.left.index, v).Some? || FirePendingRaises(st, ev, forks[1..])
  }

  /**
    Below the ceiling, the pass as written raises exactly when the intended
    pass (`FirePending`) spawns a child.
  */
  lemma {:induction false} RaisesExactlyWhenSpawning(st: EnvState, ev: Evaluator, forks: seq<Stmt>, hasNext: bool, b: Budget, universe: string)
    requires ForksDefined(st, forks) && b.totalSpawned < MAX_SPAWN
    ensures FirePendingRaises(st, ev, forks) <==> FirePending(st, ev, forks, hasNext, b, universe).spawned != []
    decreases |forks|
  {
    if forks != [] {
      FirePendingStep(st, ev, forks, hasNext, b, universe);
      var f := forks[0];
      match ev.eval(st, f.right)
      case None =>
        RaisesExactlyWhenSpawning(st, ev, forks[1..], hasNext, b, universe);
      case Some(v) =>
        var a := AttemptSpawn(st, f.left, v, b, universe);
        if a.child.None? {
          RaisesExactlyWhenSpawning(st, ev, forks[1..], hasNext, a.budget, universe);
        }
    }
  }

  /** An evaluator that knows literals and the versions that exist, and nothing else. */
  function LiteralEvaluator(): Evaluator {
    Evaluator(
      (s: EnvState, e: Expr) =>
        if e.Literal? then Some(e)
        else if e.Variable? && e.ref.name in s.histories && 0 <= e.ref.index < |s.histories[e.ref.name]|
        then Some(s.histories[e.ref.name][e.ref.index].expression)
        else None,
      (s: EnvState, e: Expr) => true)
  }

  /**
    An instance: `x = 1`, then `x@0 ::= y@0` while `y` has no version, so
    the revision is deferred, then `y = 2`.  At the settlement after the last
    statement the revision's value is known: the pass as written raises,
    where the intended pass spawns a child.
  */
  lemma DeferredRevisionRaises()
    ensures var ev := LiteralEvaluator();
      var rev := Stmt(VarRef("x", 0), Variable(VarRef("y", 0)), Revision, 1);
      var before := EnvState(map["x" := [Version(Literal(1, "int"), 0)]], [LedgerEntry(0, map["x" := 0], [], [])]);
      var after := EnvState(
        map["x" := [Version(Literal(1, "int"), 0)], "y" := [Version(Literal(2, "int"), 2)]],
        [LedgerEntry(0, map["x" := 0], [], []), LedgerEntry(1, map["x" := 0], [], [rev]),
         LedgerEntry(2, map["x" := 0, "y" := 0], [], [rev])]);
      && ev.eval(before, rev.right).None?
      && ForksDefined(after, after.ledger[2].pendingForks)
      && FirePendingRaises(after, ev, after.ledger[2].pendingForks)
      && FirePending(after, ev, after.ledger[2].pendingForks, false, Budget(0, 1), "root").spawned != []
  {
    var ev := LiteralEvaluator();
    var rev := Stmt(VarRef("x", 0), Variable(VarRef("y", 0)), Revision, 1);
    var after := EnvState(
      map["x" := [Version(Literal(1, "int"), 0)], "y" := [Version(Literal(2, "int"), 2)]],
      [LedgerEntry(0, map["x" := 0], [], []), LedgerEntry(1, map["x" := 0], [], [rev]),
       LedgerEntry(2, map["x" := 0, "y" := 0], [], [rev])]);
    var forks := after.ledger[2].pendingForks;
    assert ev.eval(after, rev.right) == Some(Literal(2, "int"));
    assert ReachesSpawn(after, ev, forks[0]);
    RaisesExactlyWhenSpawning(after, ev, forks, false, Budget(0, 1), "root");
  }

  // ---------------------------------------------------------------------------
  // The resolver

  /** The resolver's verdict: the universe fails, raises IndexError, or survives with what it carries. */
  datatype Resolved =
    | ProphecyFailed
    | IndexFailed
    | Survived(prophecies: seq<PendingProphecy>, forks: seq<Stmt>)

  /**
    `resolve_prophecies_and_pending_forks(prev, next)`: the prophecy pass, then
    (only if it did not fail) the fork pass.  `hasNext` says whether there is
    a next entry to carry into.
  */
  method Resolve(st: EnvState, ev: Evaluator, prev: LedgerEntry, hasNext: bool, b: Budget, universe: string)
    returns (r: Resolved, spawned: seq<Spawn>, b': Budget)
    requires ForksDefined(st, prev.pendingForks)
    ensures ResolveProphecies(st, ev, prev.prophecies, hasNext).Violation? ==>
      r == ProphecyFailed && spawned == [] && b' == b
    ensures ResolveProphecies(st, ev, prev.prophecies, hasNext).Fault? ==>
      r == IndexFailed && spawned == [] && b' == b
    ensures ResolveProphecies(st, ev, prev.prophecies, hasNext).Pass? ==>
      var fp := FirePending(st, ev, prev.pendingForks, hasNext, b, universe);
      && r == Survived(ResolveProphecies(st, ev, prev.prophecies, hasNext).carried, fp.carried)
      && spawned == fp.spawned && b' == fp.budget
  {
    var pass := CarryProphecies(st, ev, prev.prophecies, hasNext);
    match pass
    case Violation =>
      return ProphecyFailed, [], b;
    case Fault =>
      return IndexFailed, [], b;
    case Pass(carried) =>
      var fp := FireForks(st, ev, prev.pendingForks, hasNext, b, universe);
      return Survived(carried, fp.carried), fp.spawned, fp.budget;
  }
}
