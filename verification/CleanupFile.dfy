/** The durable cleanup ledger of one operation and the loops that work through it. */
module CleanupFile {
  import opened Records
  import opened SourceFiles
  import opened Cleanup
  import opened CleanupSurvivors
  import opened CleanupFinal
  import opened CleanupCrash

  datatype CleanupOutcome = Complete | StillPending

  datatype RemoveDirResult = Removed | WasMissing | Refused

  class CleanupStateFile {
    var fs: Files
    var base: Base
    var ledger: Ledger

    constructor (source: Files, from: Base, entries: Ledger)
      ensures fs == source && base == from && ledger == entries
    {
      fs, base, ledger := source, from, entries;
    }

    /** `try_clean_entry`. */
    method TryCleanEntry(i: nat) returns (cleaned: bool)
      requires i < |ledger| && ledger[i].kind != Directory
      modifies this`fs
      ensures cleaned == CleansLeaf(old(fs), base, ledger[i])
      ensures fs == if cleaned then Unlinked(old(fs), Look(old(fs), base, ledger[i].localPath)) else old(fs)
    {
      var e := ledger[i];
      match Look(fs, base, e.localPath) {
        case NotFound =>
          return true;
        case Blocked =>
          return false;
        case Found(place, node) =>
          if !Matches(e, node) {
            return false;
          }
          fs := fs - {place};
          return true;
      }
    }

    /** remove_dir(2). */
    method RemoveDir(local: Path) returns (r: RemoveDirResult)
      modifies this`fs
      ensures (r != Refused) == RemoveDirOk(old(fs), base, local)
      ensures fs == if r != Refused then Unlinked(old(fs), Look(old(fs), base, local)) else old(fs)
    {
      match Look(fs, base, local) {
        case NotFound =>
          return WasMissing;
        case Blocked =>
          return Refused;
        case Found(place, node) =>
          if !node.Dir? || HasChild(fs, place) {
            return Refused;
          }
          fs := fs - {place};
          return Removed;
      }
    }

    /** The first phase: files and symlinks. */
    method CleanFilesAndLinks()
      modifies this`fs, this`ledger
      ensures |ledger| == |old(ledger)|
      ensures Work(fs, base, ledger) == Iterations(old(Work(fs, base, ledger)), |ledger|)
    {
      ghost var w := Work(fs, base, ledger);
      var n := |ledger|;
      for i := 0 to n
        invariant |ledger| == n && Work(fs, base, ledger) == Iterations(w, i)
      {
        if !ledger[i].confirmed || ledger[i].cleaned || ledger[i].kind == Directory {
          continue;
        }
        var cleaned := TryCleanEntry(i);
        if cleaned {
          ledger := Mark(ledger, i);
        }
      }
    }

    /** The second: directories in ledger order. */
    method CleanDirectories(ghost w: Work)
      requires |w.ledger| == |ledger| && Work(fs, base, ledger) == Iterations(w, |ledger|)
      modifies this`fs, this`ledger
      ensures Work(fs, base, ledger) == Pass(w)
    {
      var n := |ledger|;
      for i := 0 to n
        invariant |ledger| == n && Work(fs, base, ledger) == Iterations(w, n + i)
      {
        if !ledger[i].confirmed || ledger[i].cleaned || ledger[i].kind != Directory {
          continue;
        }
        if !CanRemoveDirectory(fs, base, ledger, ledger[i].localPath) {
          continue;
        }
        var removed := RemoveDir(ledger[i].localPath);
        if removed != Refused {
          ledger := Mark(ledger, i);
        }
      }
    }

    /** `process_cleanup_state_file`: the ledger is written after every change. */
    method ProcessCleanupStateFile() returns (outcome: CleanupOutcome)
      modifies this`fs, this`ledger
      ensures Work(fs, base, ledger) == Pass(old(Work(fs, base, ledger)))
      ensures Done(old(Work(fs, base, ledger)), Work(fs, base, ledger))
      ensures outcome == Complete <==> forall e | e in ledger :: e.cleaned
    {
      ghost var w := Work(fs, base, ledger);
      CleanFilesAndLinks();
      CleanDirectories(w);
      WhatAPassDoes(w);
      outcome := if forall e | e in ledger :: e.cleaned then Complete else StillPending;
    }

    /** `confirm_all_imports`. */
    method ConfirmAllImports()
      modifies this`ledger
      ensures |ledger| == |old(ledger)|
      ensures forall i | 0 <= i < |ledger| :: ledger[i] == old(ledger)[i].(confirmed := true)
    {
      for i := 0 to |ledger|
        invariant |ledger| == |old(ledger)|
        invariant forall j | 0 <= j < |ledger| :: ledger[j] == if j < i then old(ledger)[j].(confirmed := true) else old(ledger)[j]
      {
        if !ledger[i].confirmed {
          ledger := ledger[i := ledger[i].(confirmed := true)];
        }
      }
    }

    /** `confirm_imports_from_status`: exact matches first, then everything below a confirmed directory. */
    method ConfirmImportsFromStatus(status: RunStatus)
      modifies this`ledger
      ensures ledger == ConfirmFromStatus(old(ledger), status)
    {
      var n := |ledger|;
      ghost var was := ledger;
      for i := 0 to n
        invariant |ledger| == n
        invariant forall j | 0 <= j < n ::
          ledger[j] == if j < i then was[j].(confirmed := NamedImported(status, was[j])) else was[j]
      {
        ledger := ledger[i := ledger[i].(confirmed := NamedImported(status, ledger[i]))];
      }
      var confirmedDirs := set e | e in ledger && e.confirmed && e.kind == Directory :: e.relativePath;
      ghost var named := ledger;
      for i := 0 to n
        invariant |ledger| == n
        invariant forall j | 0 <= j < n ::
          ledger[j] == if j < i then named[j].(confirmed := named[j].confirmed || Above(confirmedDirs, named[j].relativePath)) else named[j]
      {
        if !ledger[i].confirmed && Above(confirmedDirs, ledger[i].relativePath) {
          ledger := ledger[i := ledger[i].(confirmed := true)];
        }
      }
      forall j | 0 <= j < n ensures ledger[j] == ConfirmFromStatus(was, status)[j] {
        AboveIsConfirmed(was, named, status, confirmedDirs, j);
      }
      assert ledger == ConfirmFromStatus(was, status);
    }
  }

  /** What is left after a pass is what is not due to go, exactly when no harm is done through a symlink; in
      a plain source the flags are known as well. */
  ghost predicate Done(w: Work, after: Work) {
    && (WorkOk(w) ==> (after.fs == Survivors(w) <==> Harmless(w)))
    && (Plain(w) ==> after == Final(w))
  }

  lemma WhatAPassDoes(w: Work)
    ensures Done(w, Pass(w))
  {
    if WorkOk(w) { SurvivorsExactly(w); }
    if Plain(w) { PassIsFinal(w); }
  }

  /** Some directory of the set lies strictly above the path. */
  predicate Above(dirs: set<Path>, p: Path) {
    exists d | d in dirs :: d < p
  }

  lemma AboveIsConfirmed(was: Ledger, named: Ledger, status: RunStatus, dirs: set<Path>, i: nat)
    requires |named| == |was| && i < |was|
    requires forall j | 0 <= j < |was| :: named[j] == was[j].(confirmed := NamedImported(status, was[j]))
    requires dirs == set e | e in named && e.confirmed && e.kind == Directory :: e.relativePath
    ensures (named[i].confirmed || Above(dirs, named[i].relativePath)) == ConfirmedBy(was, status, i)
  {
    if Above(dirs, was[i].relativePath) {
      var d :| d in dirs && d < was[i].relativePath;
      var e :| e in named && e.confirmed && e.kind == Directory && e.relativePath == d;
      var j :| 0 <= j < |named| && named[j] == e;
      assert was[j].kind == Directory && NamedImported(status, was[j]);
    }
    if j :| 0 <= j < |was| && was[j].kind == Directory && NamedImported(status, was[j]) && was[j].relativePath < was[i].relativePath {
      assert named[j] in named && named[j].relativePath in dirs;
    }
  }
}
