/**
  `Environment.fork` (engine.py:34-51): the world as of the statement that
  produced one version, with that version's expression replaced.
*/
module Timeline {
  import opened History

  /** A successful fork: the child's environment, the fork point K and the source line of ledger entry K. */
  datatype Forked = Forked(env: EnvState, codeIndex: nat, line: int)

  /** Python's `s[:n]` for `n >= 0`. */
  function Prefix<T>(s: seq<T>, n: nat): (r: seq<T>)
    ensures |r| == if n <= |s| then n else |s|
    ensures r <= s
  {
    if n <= |s| then s[..n] else s
  }

  /**
    What `fork` needs of its environment to finish without a failed
    assertion (engine.py:40, 42) or a failed lookup (engine.py:48-49): the
    version exists, its statement is in the ledger, and that statement's
    snapshot already shows the version.
  */
  ghost predicate ForkDefined(st: EnvState, name: string, idx: int) {
    name in st.histories && 0 <= idx ==>
      && idx < |st.histories[name]|
      && st.histories[name][idx].codeIndex < |st.ledger|
      && name in st.ledger[st.histories[name][idx].codeIndex].snapshot
      && idx <= st.ledger[st.histories[name][idx].codeIndex].snapshot[name]
  }

  /** The histories of the world as of the ledger entry `code`: each variable it shows, truncated to what it shows. */
  function TruncatedTo(h: Histories, code: LedgerEntry): (t: Histories)
    ensures t.Keys == h.Keys * code.snapshot.Keys
    ensures forall v :: v in t ==> t[v] == Prefix(h[v], code.snapshot[v] + 1)
  {
    map v | v in h && v in code.snapshot :: Prefix(h[v], code.snapshot[v] + 1)
  }

  /**
    `fork(name, idx, newValue)`: None when the variable has no history or the
    index is negative; otherwise the ledger cut after entry K (the statement
    that produced version `idx`), the histories truncated to entry K's
    snapshot, and version `idx` of `name` now holding `newValue`.
  */
  function Fork(st: EnvState, name: string, idx: int, newValue: Expr): (r: Option<Forked>)
    requires ForkDefined(st, name, idx)
    ensures r.None? <==> name !in st.histories || idx < 0
    ensures r.Some? ==>
      var c := st.histories[name][idx].codeIndex;
      && r.value.codeIndex == c
      && r.value.line == st.ledger[c].line
      && r.value.env.ledger == st.ledger[..c + 1]
  {
    if name !in st.histories || idx < 0 then None
    else
      var c := st.histories[name][idx].codeIndex;
      var code := st.ledger[c];
      var truncated := TruncatedTo(st.histories, code);
      var replaced := truncated[name][idx := Version(newValue, truncated[name][idx].codeIndex)];
      Some(Forked(EnvState(truncated[name := replaced], st.ledger[..c + 1]), c, code.line))
  }

  /**
    The forked histories: the variables shown at K, each truncated to the
    versions shown there, with version `idx` of `name` now holding `newValue`
    and its original statement index, and every other version as it was.
  */
  lemma ForkHistories(st: EnvState, name: string, idx: int, newValue: Expr)
    requires ForkDefined(st, name, idx) && name in st.histories && 0 <= idx
    ensures var c := st.histories[name][idx].codeIndex;
      var h := Fork(st, name, idx, newValue).value.env.histories;
      && h.Keys == st.histories.Keys * st.ledger[c].snapshot.Keys
      && (forall v :: v in h && v != name ==> h[v] == Prefix(st.histories[v], st.ledger[c].snapshot[v] + 1))
      && |h[name]| == |Prefix(st.histories[name], st.ledger[c].snapshot[name] + 1)|
      && h[name][idx] == Version(newValue, st.histories[name][idx].codeIndex)
      && (forall j :: 0 <= j < |h[name]| && j != idx ==> h[name][j] == st.histories[name][j])
  {
  }

  /** In a valid environment, forking any existing version runs without a failure. */
  lemma ValidForkDefined(st: EnvState, name: string, idx: int)
    requires Valid(st)
    requires name in st.histories && 0 <= idx ==> idx < |st.histories[name]|
    ensures ForkDefined(st, name, idx)
  {
  }

  /** The fork point is a ledger index, so a child that starts right after it starts at the end of its own ledger. */
  lemma ForkResumesAfterPoint(st: EnvState, name: string, idx: int, newValue: Expr)
    requires Valid(st) && name in st.histories && 0 <= idx < |st.histories[name]|
    ensures ForkDefined(st, name, idx)
    ensures Fork(st, name, idx, newValue).Some?
    ensures |Fork(st, name, idx, newValue).value.env.ledger| == Fork(st, name, idx, newValue).value.codeIndex + 1
  {
  }

  /**
    `st'` is `st` cut back to ledger entry `c`: the ledger's first `c + 1`
    entries, and the variables shown at `c` with as many versions as shown,
    each version keeping the statement index it had.
  */
  ghost predicate TruncationOf(st: EnvState, st': EnvState, c: nat) {
    && c < |st.ledger|
    && st'.ledger == st.ledger[..c + 1]
    && st'.histories.Keys == st.histories.Keys * st.ledger[c].snapshot.Keys
    && (forall v :: v in st'.histories ==> |st'.histories[v]| == st.ledger[c].snapshot[v] + 1)
    && (forall v, j :: v in st'.histories && 0 <= j < |st'.histories[v]| && j < |st.histories[v]| ==>
          st'.histories[v][j].codeIndex == st.histories[v][j].codeIndex)
  }

  lemma ForkIsTruncation(st: EnvState, name: string, idx: int, newValue: Expr)
    requires Valid(st) && name in st.histories && 0 <= idx < |st.histories[name]|
    ensures ForkDefined(st, name, idx)
    ensures TruncationOf(st, Fork(st, name, idx, newValue).value.env, Fork(st, name, idx, newValue).value.codeIndex)
  {
    var c := st.histories[name][idx].codeIndex;
    assert c < |st.ledger|;
    assert forall v :: v in st.ledger[c].snapshot ==> v in st.histories && st.ledger[c].snapshot[v] < |st.histories[v]|;
    ForkTruncates(st, name, idx, newValue);
  }

  lemma ForkTruncates(st: EnvState, name: string, idx: int, newValue: Expr)
    requires ForkDefined(st, name, idx) && name in st.histories && 0 <= idx
    requires var c := st.histories[name][idx].codeIndex;
      forall v :: v in st.ledger[c].snapshot ==> v in st.histories && st.ledger[c].snapshot[v] < |st.histories[v]|
    ensures TruncationOf(st, Fork(st, name, idx, newValue).value.env, Fork(st, name, idx, newValue).value.codeIndex)
  {
    var f := Fork(st, name, idx, newValue).value;
    var c := f.codeIndex;
    var H: Histories, H': Histories := st.histories, f.env.histories;
    ForkHistories(st, name, idx, newValue);
    forall v | v in H'
      ensures |H'[v]| == st.ledger[c].snapshot[v] + 1
    {
      assert st.ledger[c].snapshot[v] < |H[v]|;
    }
    forall v, j | v in H' && 0 <= j < |H'[v]| && j < |H[v]|
      ensures H'[v][j].codeIndex == H[v][j].codeIndex
    {
      if v == name && j == idx {
      } else if v == name {
      } else {
        assert H'[v] <= H[v];
      }
    }
  }

  /**
    The forked histories keep, for every variable, exactly the versions that
    were produced no later than the fork point K, and every variable that
    existed at K: the world as of statement K.
  */
  lemma ForkKeepsPast(st: EnvState, name: string, idx: int, newValue: Expr)
    requires Valid(st) && name in st.histories && 0 <= idx < |st.histories[name]|
    ensures ForkDefined(st, name, idx)
    ensures var f := Fork(st, name, idx, newValue).value;
      && (forall v :: v in f.env.histories <==> v in st.histories && st.histories[v][0].codeIndex <= f.codeIndex)
      && (forall v, j :: v in f.env.histories && 0 <= j < |st.histories[v]| ==>
            (j < |f.env.histories[v]| <==> st.histories[v][j].codeIndex <= f.codeIndex))
  {
    var f := Fork(st, name, idx, newValue).value;
    ForkIsTruncation(st, name, idx, newValue);
    TruncationKeepsPast(st, f.env, f.codeIndex);
  }

  lemma TruncationKeepsPast(st: EnvState, st': EnvState, c: nat)
    requires Valid(st) && TruncationOf(st, st', c)
    ensures forall v :: v in st'.histories <==> v in st.histories && st.histories[v][0].codeIndex <= c
    ensures forall v, j :: v in st'.histories && 0 <= j < |st.histories[v]| ==>
      (j < |st'.histories[v]| <==> st.histories[v][j].codeIndex <= c)
  {
    var H: Histories, L: seq<LedgerEntry> := st.histories, st.ledger;
    forall v | v in H
      ensures v in st'.histories <==> H[v][0].codeIndex <= c
    {
      var c0 := H[v][0].codeIndex;
      if v in L[c].snapshot {
        assert H[v][0].codeIndex <= c;
      }
      if c0 <= c {
        assert v in L[c0].snapshot;
      }
    }
    forall v, j | v in st'.histories && 0 <= j < |H[v]|
      ensures j < |st'.histories[v]| <==> H[v][j].codeIndex <= c
    {
      var cj := H[v][j].codeIndex;
      if j <= L[c].snapshot[v] {
        assert cj <= c;
      }
      if cj <= c {
        assert v in L[cj].snapshot && j <= L[cj].snapshot[v];
        assert L[cj].snapshot[v] <= L[c].snapshot[v];
      }
    }
  }

  lemma TruncationVersionsRecorded(st: EnvState, st': EnvState, c: nat)
    requires Valid(st) && TruncationOf(st, st', c)
    ensures NonEmpty(st'.histories) && VersionsRecorded(st')
  {
    var H: Histories, L: seq<LedgerEntry> := st.histories, st.ledger;
    var H': Histories, L': seq<LedgerEntry> := st'.histories, st'.ledger;
    forall v, j | v in H' && 0 <= j < |H'[v]|
      ensures var c' := H'[v][j].codeIndex; c' < |L'| && v in L'[c'].snapshot && j <= L'[c'].snapshot[v]
    {
      assert L[c].snapshot[v] < |H[v]|;
      assert H'[v][j].codeIndex == H[v][j].codeIndex <= c;
      assert L'[H[v][j].codeIndex] == L[H[v][j].codeIndex];
    }
  }

  lemma TruncationSnapshotsExist(st: EnvState, st': EnvState, c: nat)
    requires Valid(st) && TruncationOf(st, st', c)
    ensures SnapshotsExist(st') && SnapshotsSettled(st')
  {
    var H: Histories, L: seq<LedgerEntry> := st.histories, st.ledger;
    var H': Histories, L': seq<LedgerEntry> := st'.histories, st'.ledger;
    forall k, v | 0 <= k < |L'| && v in L'[k].snapshot
      ensures v in H' && L'[k].snapshot[v] < |H'[v]|
    {
      assert L'[k] == L[k];
      assert L[k].snapshot[v] <= L[c].snapshot[v];
    }
    forall k, v, j | 0 <= k < |L'| && v in L'[k].snapshot && v in H' &&
      0 <= j <= L'[k].snapshot[v] && j < |H'[v]|
      ensures H'[v][j].codeIndex <= k
    {
      assert L'[k] == L[k];
      assert L[c].snapshot[v] < |H[v]|;
      assert H'[v][j].codeIndex == H[v][j].codeIndex;
    }
  }

  lemma TruncationLedger(st: EnvState, st': EnvState, c: nat)
    requires Valid(st) && TruncationOf(st, st', c)
    ensures SnapshotsGrow(st') && ForksTargetPast(st')
  {
    forall k | 0 <= k < |st'.ledger| ensures st'.ledger[k] == st.ledger[k] { }
  }

  /** A forked environment is again valid: the child universe starts from a consistent state. */
  lemma ForkPreservesValid(st: EnvState, name: string, idx: int, newValue: Expr)
    requires Valid(st) && name in st.histories && 0 <= idx < |st.histories[name]|
    ensures ForkDefined(st, name, idx)
    ensures Valid(Fork(st, name, idx, newValue).value.env)
  {
    var f := Fork(st, name, idx, newValue).value;
    ForkIsTruncation(st, name, idx, newValue);
    TruncationVersionsRecorded(st, f.env, f.codeIndex);
    TruncationSnapshotsExist(st, f.env, f.codeIndex);
    TruncationLedger(st, f.env, f.codeIndex);
  }

  /** The replaced version reads back as the new value; every other version of the variable is the parent's. */
  lemma ForkRewritesOneVersion(st: EnvState, name: string, idx: int, newValue: Expr)
    requires Valid(st) && name in st.histories && 0 <= idx < |st.histories[name]|
    ensures ForkDefined(st, name, idx)
    ensures var h := Fork(st, name, idx, newValue).value.env.histories;
      && name in h && idx < |h[name]| && h[name][idx].expression == newValue
      && h[name][..idx] == st.histories[name][..idx]
  {
    var f := Fork(st, name, idx, newValue).value;
    var c := f.codeIndex;
    ForkHistories(st, name, idx, newValue);
    assert st.ledger[c].snapshot[name] < |st.histories[name]|;
    assert name in f.env.histories;
  }
}
