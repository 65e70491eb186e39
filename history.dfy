/**
  The data model of the engine (engine.py): versioned variables, the statement
  ledger and the environment of one universe.

  A variable is not a cell but an append-only history of versions; every
  executed statement appends one ledger entry that records, for each variable,
  the index of its latest version at that point.  `Valid` is the invariant that
  ties the two together and that makes forking back to a past statement possible.
*/
module History {

  datatype Option<+T> = None | Some(value: T)

  /** `name@index`: one version of a variable, by absolute index. */
  datatype VarRef = VarRef(name: string, index: int)

  /**
    Expressions of the language.  A known value is itself an expression (a
    literal or a tuple of literals) that evaluates to itself.
  */
  datatype Expr =
    | Literal(value: int, typeName: string)
    | Variable(ref: VarRef)
    | Tuple(items: seq<Expr>)
    | Unary(op: string, operand: Expr)
    | Binary(op: string, lhs: Expr, rhs: Expr)

  datatype Kind = Mutation | Revision | Prophecy

  /** One statement: `left := right` (Mutation), `left ::= right` (Revision) or `left :~ right` (Prophecy). */
  datatype Stmt = Stmt(left: VarRef, right: Expr, kind: Kind, line: int)

  /** VarHistoryElement: the expression stored for a version and the ledger index of the statement that produced it. */
  datatype Version = Version(expression: Expr, codeIndex: nat)

  /** A prophecy waiting to be checked: the target version, the expected value (or expression) and its source line. */
  datatype PendingProphecy = PendingProphecy(target: VarRef, expected: Expr, line: int)

  /**
    CodeHistoryElement: the source line of the statement, the snapshot
    `variable -> index of its latest version`, and the prophecies and
    revisions carried to this point unresolved.
  */
  datatype LedgerEntry = LedgerEntry(
    line: int,
    snapshot: map<string, nat>,
    prophecies: seq<PendingProphecy>,
    pendingForks: seq<Stmt>)

  type Histories = map<string, seq<Version>>

  /** The value of an Environment: its variable histories and its ledger. */
  datatype EnvState = EnvState(histories: Histories, ledger: seq<LedgerEntry>)

  /**
    The expression evaluator, which lives outside the engine: `eval` gives the
    value of an expression in an environment, or None when it is not yet
    known; `defined` says whether a value is fully defined (it may hold
    unknown parts).
  */
  datatype Evaluator = Evaluator(
    eval: (EnvState, Expr) -> Option<Expr>,
    defined: (EnvState, Expr) -> bool)

  /** The value of `e` is known and fully defined. */
  predicate KnownDefined(st: EnvState, ev: Evaluator, e: Expr) {
    ev.eval(st, e).Some? && ev.defined(st, ev.eval(st, e).value)
  }

  /** What a Mutation stores: the evaluated value when it is known and defined, else the right-hand side itself. */
  function Stored(st: EnvState, ev: Evaluator, right: Expr): (r: Expr)
    ensures KnownDefined(st, ev, right) ==> ev.eval(st, right) == Some(r)
    ensures !KnownDefined(st, ev, right) ==> r == right
  {
    match ev.eval(st, right)
    case Some(v) => if ev.defined(st, v) then v else right
    case None => right
  }

  // ---------------------------------------------------------------------------
  // The environment invariant

  ghost predicate NonEmpty(h: Histories) {
    forall v :: v in h ==> |h[v]| > 0
  }

  /** The ledger entry named by each version exists and its snapshot already shows that version. */
  ghost predicate VersionsRecorded(st: EnvState) {
    forall v, j :: v in st.histories && 0 <= j < |st.histories[v]| ==>
      var c := st.histories[v][j].codeIndex;
      c < |st.ledger| && v in st.ledger[c].snapshot && j <= st.ledger[c].snapshot[v]
  }

  /** Every snapshot names an existing version of an existing variable. */
  ghost predicate SnapshotsExist(st: EnvState) {
    forall k, v :: 0 <= k < |st.ledger| && v in st.ledger[k].snapshot ==>
      v in st.histories && st.ledger[k].snapshot[v] < |st.histories[v]|
  }

  /** The versions a snapshot shows were all produced no later than that snapshot's statement. */
  ghost predicate SnapshotsSettled(st: EnvState) {
    forall k, v, j ::
      0 <= k < |st.ledger| && v in st.ledger[k].snapshot && v in st.histories &&
      0 <= j <= st.ledger[k].snapshot[v] && j < |st.histories[v]| ==>
        st.histories[v][j].codeIndex <= k
  }

  /** Every variable `earlier` shows, `later` shows too, at the same or a later version. */
  ghost predicate ShowsAtLeast(later: map<string, nat>, earlier: map<string, nat>) {
    forall v :: v in earlier ==> v in later && earlier[v] <= later[v]
  }

  /** Along the ledger, snapshots only gain variables and versions. */
  ghost predicate SnapshotsGrow(st: EnvState) {
    forall k1, k2 :: 0 <= k1 <= k2 < |st.ledger| ==> ShowsAtLeast(st.ledger[k2].snapshot, st.ledger[k1].snapshot)
  }

  /** A deferred revision targets a version that existed at its entry (or a negative index). */
  ghost predicate ForksTargetPast(st: EnvState) {
    forall k, f :: 0 <= k < |st.ledger| && f in st.ledger[k].pendingForks ==>
      f.left.name in st.ledger[k].snapshot && f.left.index <= st.ledger[k].snapshot[f.left.name]
  }

  ghost predicate Valid(st: EnvState) {
    && NonEmpty(st.histories)
    && VersionsRecorded(st)
    && SnapshotsExist(st)
    && SnapshotsSettled(st)
    && SnapshotsGrow(st)
    && ForksTargetPast(st)
  }

  /** `snap` maps every variable of `h` to the index of its latest version. */
  ghost predicate IsSnapshotOf(snap: map<string, nat>, h: Histories) {
    snap.Keys == h.Keys && forall v :: v in h ==> snap[v] + 1 == |h[v]|
  }

  /** The snapshot of `h`, the one map `IsSnapshotOf` allows. */
  function SnapshotOf(h: Histories): (snap: map<string, nat>)
    requires NonEmpty(h)
    ensures IsSnapshotOf(snap, h)
  {
    map v | v in h :: |h[v]| - 1
  }

  /** A snapshot of `h` is `SnapshotOf(h)`: the snapshot is determined by the histories. */
  lemma SnapshotIsUnique(snap: map<string, nat>, h: Histories)
    requires NonEmpty(h) && IsSnapshotOf(snap, h)
    ensures snap == SnapshotOf(h)
  {
    assert snap.Keys == SnapshotOf(h).Keys;
  }

  /** Histories only grow: every old history is a prefix of the new one. */
  ghost predicate Extends(h: Histories, h': Histories) {
    forall v :: v in h ==> v in h' && h[v] <= h'[v]
  }

  lemma ExtendsTransitive(h1: Histories, h2: Histories, h3: Histories)
    requires Extends(h1, h2) && Extends(h2, h3)
    ensures Extends(h1, h3)
  {
    forall v | v in h1 ensures v in h3 && h1[v] <= h3[v] {
      assert h1[v] == h2[v][..|h1[v]|] && h2[v] == h3[v][..|h2[v]|];
      assert h3[v][..|h2[v]|][..|h1[v]|] == h3[v][..|h1[v]|];
    }
  }

  // ---------------------------------------------------------------------------
  // Mutation

  /** The precondition of a Mutation (engine.py:148-150): version 0 of a fresh variable, or exactly the next version. */
  predicate InOrder(h: Histories, target: VarRef) {
    || (target.name !in h && target.index == 0)
    || (target.name in h && |h[target.name]| == target.index)
  }

  /** The histories after a Mutation stores `ver` as version `target.index` of `target.name` (engine.py:164-168). */
  function Appended(h: Histories, target: VarRef, ver: Version): (h': Histories)
    requires InOrder(h, target)
    ensures h'.Keys == h.Keys + {target.name}
    ensures |h'[target.name]| == target.index + 1 && h'[target.name][target.index] == ver
    ensures target.name in h ==> h'[target.name][..target.index] == h[target.name]
    ensures forall v :: v in h && v != target.name ==> h'[v] == h[v]
  {
    if target.index == 0 then h[target.name := [ver]]
    else h[target.name := h[target.name] + [ver]]
  }

  lemma AppendedExtends(h: Histories, target: VarRef, ver: Version)
    requires InOrder(h, target) && NonEmpty(h)
    ensures Extends(h, Appended(h, target, ver)) && NonEmpty(Appended(h, target, ver))
    ensures var h' := Appended(h, target, ver);
      forall v, j :: v in h' && 0 <= j < |h'[v]| && (v in h ==> j >= |h[v]|) ==> h'[v][j] == ver
  {
    var h' := Appended(h, target, ver);
    forall v | v in h ensures v in h' && h[v] <= h'[v] {
      if v == target.name {
        assert h'[v][..target.index] == h[v];
      }
    }
  }

  /** The shared hypotheses of the Commit lemmas: new versions name the new entry, whose snapshot is of `h`. */
  ghost predicate CommitReady(st: EnvState, h: Histories, e: LedgerEntry) {
    && Valid(st)
    && Extends(st.histories, h) && NonEmpty(h)
    && (forall v, j :: v in h && 0 <= j < |h[v]| && (v in st.histories ==> j >= |st.histories[v]|) ==>
         h[v][j].codeIndex == |st.ledger|)
    && IsSnapshotOf(e.snapshot, h)
    && (forall f :: f in e.pendingForks ==> f.left.name in h && f.left.index < |h[f.left.name]|)
  }

  lemma CommitVersionsRecorded(st: EnvState, h: Histories, e: LedgerEntry)
    requires CommitReady(st, h, e)
    ensures VersionsRecorded(EnvState(h, st.ledger + [e]))
  {
    var H, L := st.histories, st.ledger;
    var L' := L + [e];
    assert L'[|L|] == e;
    forall v, j | v in h && 0 <= j < |h[v]|
      ensures var c := h[v][j].codeIndex; c < |L'| && v in L'[c].snapshot && j <= L'[c].snapshot[v]
    {
      if v in H && j < |H[v]| {
        assert h[v][j] == H[v][j];
        var c := H[v][j].codeIndex;
        assert c < |L|;
        assert L'[c] == L[c];
      }
    }
  }

  lemma CommitSnapshotsExist(st: EnvState, h: Histories, e: LedgerEntry)
    requires CommitReady(st, h, e)
    ensures SnapshotsExist(EnvState(h, st.ledger + [e]))
  {
    var H, L := st.histories, st.ledger;
    var L' := L + [e];
    forall k, v | 0 <= k < |L'| && v in L'[k].snapshot
      ensures v in h && L'[k].snapshot[v] < |h[v]|
    {
      if k < |L| {
        assert L'[k] == L[k];
        assert v in H && L[k].snapshot[v] < |H[v]|;
        assert |H[v]| <= |h[v]|;
      } else {
        assert L'[k] == e;
      }
    }
  }

  lemma CommitSnapshotsSettled(st: EnvState, h: Histories, e: LedgerEntry)
    requires CommitReady(st, h, e)
    ensures SnapshotsSettled(EnvState(h, st.ledger + [e]))
  {
    var H, L := st.histories, st.ledger;
    var L' := L + [e];
    forall k, v, j | 0 <= k < |L'| && v in L'[k].snapshot && v in h &&
      0 <= j <= L'[k].snapshot[v] && j < |h[v]|
      ensures h[v][j].codeIndex <= k
    {
      if k < |L| {
        assert L'[k] == L[k];
        assert v in H && L[k].snapshot[v] < |H[v]|;
        assert h[v][j] == H[v][j];
      } else if v in H && j < |H[v]| {
        assert h[v][j] == H[v][j];
        assert H[v][j].codeIndex < |L|;
      }
    }
  }

  lemma CommitSnapshotsGrow(st: EnvState, h: Histories, e: LedgerEntry)
    requires CommitReady(st, h, e)
    ensures SnapshotsGrow(EnvState(h, st.ledger + [e]))
  {
    var H, L := st.histories, st.ledger;
    var L' := L + [e];
    forall k1, k2, v | 0 <= k1 <= k2 < |L'| && v in L'[k1].snapshot
      ensures v in L'[k2].snapshot && L'[k1].snapshot[v] <= L'[k2].snapshot[v]
    {
      if k2 < |L| {
        assert L'[k1] == L[k1] && L'[k2] == L[k2];
      } else if k1 < |L| {
        assert L'[k1] == L[k1] && L'[k2] == e;
        assert v in H && L[k1].snapshot[v] < |H[v]|;
        assert |H[v]| <= |h[v]|;
      }
    }
  }

  lemma CommitForksTargetPast(st: EnvState, h: Histories, e: LedgerEntry)
    requires CommitReady(st, h, e)
    ensures ForksTargetPast(EnvState(h, st.ledger + [e]))
  {
    var L := st.ledger;
    var L' := L + [e];
    forall k, f | 0 <= k < |L'| && f in L'[k].pendingForks
      ensures f.left.name in L'[k].snapshot && f.left.index <= L'[k].snapshot[f.left.name]
    {
      if k < |L| {
        assert L'[k] == L[k];
      } else {
        assert L'[k] == e;
      }
    }
  }

  /**
    Appending one ledger entry whose snapshot is taken from the new histories
    keeps the environment valid, provided the new versions name that entry and
    the deferred revisions it carries target existing versions.
  */
  lemma CommitPreservesValid(st: EnvState, h: Histories, e: LedgerEntry)
    requires CommitReady(st, h, e)
    ensures Valid(EnvState(h, st.ledger + [e]))
  {
    CommitVersionsRecorded(st, h, e);
    CommitSnapshotsExist(st, h, e);
    CommitSnapshotsSettled(st, h, e);
    CommitSnapshotsGrow(st, h, e);
    CommitForksTargetPast(st, h, e);
  }

  // ---------------------------------------------------------------------------
  // The environment object

  /** Environment: the mutable state of one universe. */
  class Environment {
    var varHistories: Histories
    var codeHistory: seq<LedgerEntry>

    function State(): EnvState
      reads this
    {
      EnvState(varHistories, codeHistory)
    }

    /** A fresh environment for the root universe (engine.py:29-30). */
    constructor ()
      ensures State() == EnvState(map[], [])
    {
      varHistories := map[];
      codeHistory := [];
    }

    /** The environment a spawned universe starts from. */
    constructor FromState(s: EnvState)
      ensures State() == s
    {
      varHistories := s.histories;
      codeHistory := s.ledger;
    }

    /** The snapshot taken after every statement (engine.py:199-200): each variable's latest version index. */
    method Snapshot() returns (snap: map<string, nat>)
      requires NonEmpty(varHistories)
      ensures snap == SnapshotOf(varHistories)
    {
      snap := map[];
      var todo := varHistories.Keys;
      while todo != {}
        invariant todo <= varHistories.Keys
        invariant snap.Keys == varHistories.Keys - todo
        invariant forall v :: v in snap ==> snap[v] + 1 == |varHistories[v]|
        decreases todo
      {
        var v :| v in todo;
        snap := snap[v := |varHistories[v]| - 1];
        todo := todo - {v};
      }
      SnapshotIsUnique(snap, varHistories);
    }

    /** A Mutation's effect on the histories: one new version of the target (engine.py:164-168). */
    method Mutate(target: VarRef, e: Expr, codeIndex: nat)
      requires InOrder(varHistories, target)
      modifies this
      ensures varHistories == Appended(old(varHistories), target, Version(e, codeIndex))
      ensures codeHistory == old(codeHistory)
    {
      if target.index == 0 {
        varHistories := varHistories[target.name := [Version(e, codeIndex)]];
      } else {
        varHistories := varHistories[target.name := varHistories[target.name] + [Version(e, codeIndex)]];
      }
    }

    /** Records the snapshot into `entry` and appends it to the ledger (engine.py:198-201). */
    method Commit(entry: LedgerEntry)
      requires NonEmpty(varHistories)
      modifies this
      ensures varHistories == old(varHistories)
      ensures |codeHistory| == |old(codeHistory)| + 1 && codeHistory[..|old(codeHistory)|] == old(codeHistory)
      ensures codeHistory == old(codeHistory) + [entry.(snapshot := SnapshotOf(varHistories))]
    {
      var snap := Snapshot();
      codeHistory := codeHistory + [entry.(snapshot := snap)];
    }
  }
}
