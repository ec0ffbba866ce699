/** Inputs for which a cleanup pass does not do what its ledger says: symlinks above tracked places. */
module CleanupLinks {
  import opened Records
  import opened PathText
  import opened SourceFiles
  import opened Cleanup
  import opened CleanupSurvivors
  import opened CleanupCrash

  /** A plain file name, as the text of a symlink. */
  lemma LinkText(t: string)
    requires t != "" && '/' !in t
    ensures Components(t) + ["f"] == [t, "f"]
  {
    ComponentsOfName(t);
  }

  function FileEntry(path: Path, node: Node): CleanupEntry
    requires node.File?
  {
    CleanupEntry(path, path, RegularFile, node.size, node.mtime, Some(node.sha), None, true, false)
  }

  function DirEntry(path: Path): CleanupEntry {
    CleanupEntry(path, path, Directory, 0, 0, None, None, true, false)
  }

  // ---- a captured directory is renamed and a symlink put in its place

  const THE_FILE := File(1, 2, "x")

  /** After `a/f` was captured: a renamed to b, and a made a symlink to b. */
  const RENAMED: Files := map[[] := Dir, ["a"] := Link("b"), ["b"] := Dir, ["b", "f"] := THE_FILE]

  const CAPTURED_A: Ledger := [FileEntry(["a", "f"], THE_FILE), DirEntry(["a"])]

  lemma BehindTheLink(fs: Files)
    requires ["a"] in fs && fs[["a"]] == Link("b") && ["b"] in fs && fs[["b"]].Dir?
    ensures Walk(fs, [], ["a", "f"], false, MAX_LINKS) ==
      if ["b", "f"] !in fs then NotFound
      else if fs[["b", "f"]].Dir? then Walk(fs, ["b", "f"], [], false, MAX_LINKS - 1)
      else Found(["b", "f"], fs[["b", "f"]])
  {
    LinkText("b");
    assert [] + ["a"] == ["a"] && [] + ["b"] == ["b"] && ["b"] + ["f"] == ["b", "f"];
    assert ["a", "f"][1..] == ["f"] && ["b", "f"][1..] == ["f"];
    assert Walk(fs, [], ["a", "f"], false, MAX_LINKS) == Walk(fs, [], ["b", "f"], false, MAX_LINKS - 1);
    assert Walk(fs, [], ["b", "f"], false, MAX_LINKS - 1) == Walk(fs, ["b"], ["f"], false, MAX_LINKS - 1);
    assert ["f"][1..] == [];
  }

  const RENAMED_WORK: Work := Work(RENAMED, Standing([]), CAPTURED_A)

  lemma RenamedIsOk()
    ensures WorkOk(RENAMED_WORK)
    ensures forall i | 0 <= i < 2 :: Place(RENAMED_WORK, i) == CAPTURED_A[i].localPath
  {
    assert Parent(["a"]) == [] && Parent(["b"]) == [] && Parent(["b", "f"]) == ["b"];
  }

  lemma RenamedStrays()
    ensures Cleans(RENAMED_WORK, 0) && Target(RENAMED_WORK, 0) == Found(["b", "f"], THE_FILE)
    ensures Strays(RENAMED_WORK, 0) && ["b", "f"] !in Iterate(RENAMED_WORK, 0).fs
  {
    var w := RENAMED_WORK;
    RenamedIsOk();
    BehindTheLink(w.fs);
    assert Target(w, 0) == Found(["b", "f"], THE_FILE);
    assert Cleans(w, 0);
    assert ["a", "f"][..1] == ["a"];
    assert LinkAbove(w.fs, ["a", "f"]);
  }

  /** The pass deletes `b/f`, which no entry names and which was not due to go. */
  lemma RenamedBehindALink()
    ensures var w := RENAMED_WORK;
      && WorkOk(w) && !Doomed(w, ["b", "f"]) && !Harmless(w)
      && ["b", "f"] in w.fs && ["b", "f"] !in Pass(w).fs
  {
    var w := RENAMED_WORK;
    RenamedIsOk();
    RenamedStrays();
    assert Place(w, 0) != ["b", "f"] && Place(w, 1) != ["b", "f"];
    assert Iterations(w, 0) == w;
    NeverBack(w, 0, ["b", "f"]);
    assert !HarmlessAt(w, Iterations(w, 0), 0);
  }

  // ---- a symlink that leads through another, which is tracked and goes

  /** `a` leads to `c` and from there to `b`; what lies there is not what was captured. */
  const CHAINED: Files := map[[] := Dir, ["a"] := Link("c"), ["c"] := Link("b"), ["b"] := Dir, ["b", "f"] := File(9, 9, "y")]

  const CAPTURED_AC: Ledger :=
    [FileEntry(["a", "f"], THE_FILE), CleanupEntry(["c"], ["c"], Symlink, 0, 0, None, Some("b"), true, false), DirEntry(["a"])]

  lemma ThroughTheChain()
    ensures Walk(CHAINED, [], ["a", "f"], false, MAX_LINKS) == Found(["b", "f"], File(9, 9, "y"))
    ensures Walk(CHAINED - {["c"]}, [], ["a", "f"], false, MAX_LINKS) == NotFound
  {
    LinkText("c");
    LinkText("b");
    assert [] + ["a"] == ["a"] && [] + ["c"] == ["c"] && [] + ["b"] == ["b"] && ["b"] + ["f"] == ["b", "f"];
    assert ["a", "f"][1..] == ["f"] && ["c", "f"][1..] == ["f"] && ["b", "f"][1..] == ["f"] && ["f"][1..] == [];
    var fs := CHAINED;
    assert Walk(fs, [], ["a", "f"], false, MAX_LINKS) == Walk(fs, [], ["c", "f"], false, MAX_LINKS - 1);
    assert Walk(fs, [], ["c", "f"], false, MAX_LINKS - 1) == Walk(fs, [], ["b", "f"], false, MAX_LINKS - 2);
    assert Walk(fs, [], ["b", "f"], false, MAX_LINKS - 2) == Walk(fs, ["b"], ["f"], false, MAX_LINKS - 2);
    var gone := CHAINED - {["c"]};
    assert Walk(gone, [], ["a", "f"], false, MAX_LINKS) == Walk(gone, [], ["c", "f"], false, MAX_LINKS - 1);
  }

  const CHAINED_WORK: Work := Work(CHAINED, Standing([]), CAPTURED_AC)

  lemma ChainedIsOk()
    ensures WorkOk(CHAINED_WORK)
  {
    assert Parent(["a"]) == [] && Parent(["b"]) == [] && Parent(["c"]) == [] && Parent(["b", "f"]) == ["b"];
    assert Closed(CHAINED);
    var l := CAPTURED_AC;
    assert l[0].localPath == ["a", "f"] && l[1].localPath == ["c"] && l[2].localPath == ["a"];
    assert "a"[0] == 'a' && "c"[0] == 'c' && "a" != "c" && ["a", "f"][0] == "a" && ["c"][0] == "c";
    assert !(["c"] < ["a", "f"]) && !(["c"] < ["a"]) && !(["a"] < ["c"]);
  }

  /** The first entry is left alone, the symlink goes. */
  lemma ChainedVisits()
    ensures !Cleans(CHAINED_WORK, 0) && Cleans(CHAINED_WORK, 1)
    ensures Torn(CHAINED_WORK, 1).fs == CHAINED - {["c"]}
  {
    var w := CHAINED_WORK;
    ThroughTheChain();
    assert [] + ["c"] == ["c"] && ["c"][1..] == [];
    assert Target(w, 1) == Found(["c"], Link("b"));
  }

  lemma ChainedAfterwards(v: Work)
    requires v.fs == CHAINED - {["c"]} && v.base == Standing([]) && |v.ledger| == 3 && v.ledger[0] == CAPTURED_AC[0]
    ensures Cleans(v, 0)
  {
    ThroughTheChain();
  }

  /** One uninterrupted pass leaves the first entry pending; a pass that is interrupted after the symlink
      went, and run again, takes it for gone. */
  lemma ChainedRerunDiffers()
    ensures WorkOk(CHAINED_WORK) && !Stable(CHAINED_WORK) && !Reruns(CHAINED_WORK)
  {
    var w := CHAINED_WORK;
    ChainedIsOk();
    ChainedVisits();
    assert Iterations(w, 0) == w;
    assert Iterations(w, 1) == w;
    assert Iterations(w, 2) == Iterate(w, 1);
    ChainedAfterwards(Iterate(w, 1));
    assert !StableAt(Iterations(w, 2), 2);
    RerunsExactly(w);
  }
}
