/** used_storage_bytes against the files table. */
module UploadLedger {
  import opened Types
  import opened UploadModel
  import opened UploadInvariant

  lemma {:induction false} SumAppend(files: seq<FileRow>, x: FileRow, u: nat)
    ensures ChargedSum(files + [x], u) == ChargedSum(files, u) + Charge(x, u)
  {
    assert (files + [x])[..|files|] == files;
  }

  lemma {:induction false} SumUpdate(files: seq<FileRow>, i: nat, x: FileRow, u: nat)
    requires i < |files|
    ensures ChargedSum(files[i := x], u) == ChargedSum(files, u) - Charge(files[i], u) + Charge(x, u)
    decreases |files|
  {
    var n := |files| - 1;
    if i == n {
      assert files[i := x][..n] == files[..n];
    } else {
      assert files[i := x][..n] == files[..n][i := x];
      SumUpdate(files[..n], i, x, u);
    }
  }

  lemma {:induction false} SumSame(a: seq<FileRow>, b: seq<FileRow>, u: nat)
    requires |a| == |b| && forall i :: 0 <= i < |a| ==> Charge(a[i], u) == Charge(b[i], u)
    ensures ChargedSum(a, u) == ChargedSum(b, u)
    decreases |a|
  {
    if |a| > 0 {
      SumSame(a[..|a| - 1], b[..|a| - 1], u);
    }
  }

  /** Where no row is charged beyond the live ones, the charge is the sum of the live sizes. */
  lemma {:induction false} SumOfLive(a: seq<FileRow>, b: seq<FileRow>, u: nat)
    requires |a| == |b| && forall i :: 0 <= i < |a| ==> Charge(b[i], u) == LiveSize(a[i], u)
    ensures ChargedSum(b, u) == LiveSum(a, u)
    decreases |a|
  {
    if |a| > 0 {
      SumOfLive(a[..|a| - 1], b[..|a| - 1], u);
    }
  }

  lemma {:induction false} SumOfNone(files: seq<FileRow>, u: nat)
    requires forall i :: 0 <= i < |files| ==> files[i].owner != u || !files[i].state.Live?
    ensures LiveSum(files, u) == 0
    decreases |files|
  {
    if |files| > 0 {
      SumOfNone(files[..|files| - 1], u);
    }
  }

  lemma {:induction false} SumCovers(files: seq<FileRow>, i: nat, u: nat)
    requires i < |files|
    ensures Charge(files[i], u) <= ChargedSum(files, u)
    decreases |files|
  {
    if i < |files| - 1 {
      SumCovers(files[..|files| - 1], i, u);
    }
  }

  lemma {:induction false} LiveWithinCharged(files: seq<FileRow>, u: nat)
    ensures LiveSum(files, u) <= ChargedSum(files, u)
    decreases |files|
  {
    if |files| > 0 {
      LiveWithinCharged(files[..|files| - 1], u);
    }
  }

  lemma CommitLedger(s: State, p: nat)
    requires Structure(s) && Ledger(s) && CanCommit(s, p)
    ensures Ledger(DoCommit(s, p))
  {
    var t := DoCommit(s, p);
    forall u | 0 <= u < |t.users| ensures t.users[u].used == ChargedSum(t.files, u) {
      SumAppend(s.files, t.files[|s.files|], u);
    }
  }

  lemma DeleteRowLedger(s: State, p: nat)
    requires Structure(s) && Ledger(s) && CanDeleteRow(s, p)
    ensures Ledger(DoDeleteRow(s, p))
  {
    var fid := s.procs[p].fid;
    var f := s.files[fid];
    if f.state.Live? {
      var t := DoDeleteRow(s, p);
      SumCovers(s.files, fid, f.owner);
      forall u | 0 <= u < |t.users| ensures t.users[u].used == ChargedSum(t.files, u) {
        SumUpdate(s.files, fid, f.(state := Removed), u);
      }
    }
  }

  lemma DropLedger(s: State, u: nat, ids: set<nat>)
    requires Ledger(s)
    ensures Ledger(DoDrop(s, u, ids))
  {
    var t := DoDrop(s, u, ids);
    forall v | 0 <= v < |t.users| ensures t.users[v].used == ChargedSum(t.files, v) {
      SumSame(s.files, t.files, v);
    }
  }

  /** One recalculation statement makes exactly the users it covers exact. */
  lemma RecalcExact(s: State, live: bool, u: nat)
    requires Ledger(s) && u < |s.users|
    ensures HasLive(s.files, u) == live ==>
              DoRecalc(s, live).users[u].used == LiveSum(s.files, u)
              && ChargedSum(DoRecalc(s, live).files, u) == LiveSum(s.files, u)
    ensures HasLive(s.files, u) != live ==>
              DoRecalc(s, live).users[u] == s.users[u]
              && ChargedSum(DoRecalc(s, live).files, u) == ChargedSum(s.files, u)
  {
    var t := DoRecalc(s, live);
    if HasLive(s.files, u) == live {
      SumOfLive(s.files, t.files, u);
      if !live {
        SumOfNone(s.files, u);
      }
    } else {
      SumSame(s.files, t.files, u);
    }
  }

  lemma RecalcLedger(s: State, live: bool)
    requires Ledger(s)
    ensures Ledger(DoRecalc(s, live))
  {
    var t := DoRecalc(s, live);
    forall u | 0 <= u < |t.users| ensures t.users[u].used == ChargedSum(t.files, u) {
      RecalcExact(s, live, u);
    }
  }

  lemma AddUserLedger(s: State, quota: Option<nat>)
    requires Structure(s) && Ledger(s)
    ensures Ledger(Step(s, Event.AddUser(quota)))
  {
    var n := |s.users|;
    forall i | 0 <= i < |s.files| ensures s.files[i].owner != n {
      assert FileOk(s, i);
    }
    NobodyCharged(s.files, n);
  }

  lemma {:induction false} NobodyCharged(files: seq<FileRow>, u: nat)
    requires forall i :: 0 <= i < |files| ==> files[i].owner != u
    ensures ChargedSum(files, u) == 0
    decreases |files|
  {
    if |files| > 0 {
      NobodyCharged(files[..|files| - 1], u);
    }
  }

  lemma LedgerStep(s: State, e: Event)
    requires Structure(s) && Ledger(s) && Enabled(s, e)
    ensures Ledger(Step(s, e))
  {
    if e.AddUser? {
      AddUserLedger(s, e.quota);
    } else if e.CommitFile? {
      CommitLedger(s, e.p);
    } else if e.DeleteRow? {
      DeleteRowLedger(s, e.p);
    } else if e.DropFiles? {
      DropLedger(s, e.u, e.ids);
    } else if e.RecalcLive? || e.RecalcRest? {
      RecalcLedger(s, e.RecalcLive?);
    } else {
      OthersKeepBooks(s, e);
    }
  }

  lemma OthersKeepBooks(s: State, e: Event)
    requires Enabled(s, e) && !e.AddUser? && !e.CommitFile? && !e.DeleteRow? && !e.DropFiles? && !e.RecalcLive? && !e.RecalcRest?
    ensures |Step(s, e).users| == |s.users| && Step(s, e).files == s.files
    ensures forall u :: 0 <= u < |s.users| ==> Step(s, e).users[u].used == s.users[u].used
  {
  }
}
