/** Paths as text: cutting at slashes, joining with slashes, and the byte order that sorts them. */
module PathText {
  import opened Records

  /** A component that can occur in a path's text. */
  predicate IsName(n: Name) {
    n != "" && '/' !in n
  }

  predicate AllNames(p: Path) {
    forall i | 0 <= i < |p| :: IsName(p[i])
  }

  /** The pieces between slashes, empty ones included. */
  function SplitSlash(s: string): (r: seq<string>)
    ensures r != []
  {
    if s == "" then [""] else Push(s[0], SplitSlash(s[1..]))
  }

  /** A slash starts a new piece; any other byte belongs to the first one. */
  function Push(c: char, parts: seq<string>): (r: seq<string>)
    requires parts != []
    ensures r != []
  {
    if c == '/' then [""] + parts else [[c] + parts[0]] + parts[1..]
  }

  lemma PushAppends(c: char, a: seq<string>, b: seq<string>)
    requires a != []
    ensures Push(c, a + b) == Push(c, a) + b
  {
    assert (a + b)[1..] == a[1..] + b;
  }

  function NonEmpty(parts: seq<string>): seq<string> {
    if parts == [] then []
    else if parts[0] == "" then NonEmpty(parts[1..])
    else [parts[0]] + NonEmpty(parts[1..])
  }

  predicate Slashless(parts: seq<string>) {
    forall i | 0 <= i < |parts| :: '/' !in parts[i]
  }

  lemma {:induction false} PiecesAreSlashless(s: string)
    ensures Slashless(SplitSlash(s))
  {
    if s != "" {
      PiecesAreSlashless(s[1..]);
      var rest := SplitSlash(s[1..]);
      assert '/' !in rest[0];
    }
  }

  lemma {:induction false} NonEmptyPiecesAreNames(parts: seq<string>)
    requires Slashless(parts)
    ensures AllNames(NonEmpty(parts))
  {
    if parts != [] { NonEmptyPiecesAreNames(parts[1..]); }
  }

  /** The components of a path: repeated and trailing slashes do not count. */
  function Components(s: string): (r: Path)
    ensures AllNames(r)
  {
    PiecesAreSlashless(s);
    NonEmptyPiecesAreNames(SplitSlash(s));
    NonEmpty(SplitSlash(s))
  }

  function Join(p: Path): string {
    if p == [] then ""
    else if |p| == 1 then p[0]
    else p[0] + "/" + Join(p[1..])
  }

  lemma TailOfJoined(a: string, b: string)
    requires a != ""
    ensures (a + "/" + b)[0] == a[0] && (a + "/" + b)[1..] == a[1..] + "/" + b
  {}

  lemma {:induction false} SplitAppends(a: string, b: string)
    ensures SplitSlash(a + "/" + b) == SplitSlash(a) + SplitSlash(b)
  {
    if a == "" {
      assert (a + "/" + b)[0] == '/' && (a + "/" + b)[1..] == b;
    } else {
      SplitAppends(a[1..], b);
      TailOfJoined(a, b);
      PushAppends(a[0], SplitSlash(a[1..]), SplitSlash(b));
    }
  }

  lemma {:induction false} NonEmptyAppends(a: seq<string>, b: seq<string>)
    ensures NonEmpty(a + b) == NonEmpty(a) + NonEmpty(b)
  {
    if a == [] {
      assert a + b == b;
    } else {
      NonEmptyAppends(a[1..], b);
      assert (a + b)[0] == a[0] && (a + b)[1..] == a[1..] + b;
      if a[0] != "" {
        assert NonEmpty(a + b) == [a[0]] + (NonEmpty(a[1..]) + NonEmpty(b));
      }
    }
  }

  /** Putting a slash between two texts puts their components one after the other. */
  lemma ComponentsAppend(a: string, b: string)
    ensures Components(a + "/" + b) == Components(a) + Components(b)
  {
    SplitAppends(a, b);
    NonEmptyAppends(SplitSlash(a), SplitSlash(b));
  }

  lemma {:induction false} SplitOfName(n: string)
    requires '/' !in n
    ensures SplitSlash(n) == [n]
  {
    if n != "" {
      SplitOfName(n[1..]);
      assert n == [n[0]] + n[1..];
    }
  }

  lemma ComponentsOfName(n: Name)
    requires '/' !in n
    ensures Components(n) == if n == "" then [] else [n]
  {
    SplitOfName(n);
    assert [n][1..] == [];
    assert NonEmpty([n][1..]) == [];
  }

  lemma {:induction false} ComponentsOfJoin(p: Path)
    requires AllNames(p)
    ensures Components(Join(p)) == p
  {
    if p == [] {
      ComponentsOfName("");
    } else if |p| == 1 {
      ComponentsOfName(p[0]);
      assert p == [p[0]];
    } else {
      ComponentsOfName(p[0]);
      ComponentsOfJoin(p[1..]);
      ComponentsAppend(p[0], Join(p[1..]));
      assert p == [p[0]] + p[1..];
    }
  }

  // ---- byte order

  predicate Less(a: string, b: string) {
    b != "" && (a == "" || a[0] < b[0] || (a[0] == b[0] && Less(a[1..], b[1..])))
  }

  lemma {:induction false} LessIsTotal(a: string, b: string)
    ensures Less(a, b) || Less(b, a) || a == b
  {
    if a != "" && b != "" && a[0] == b[0] {
      LessIsTotal(a[1..], b[1..]);
      assert a == [a[0]] + a[1..] && b == [b[0]] + b[1..];
    }
  }

  lemma {:induction false} LessIsStrict(a: string, b: string)
    requires Less(a, b)
    ensures !Less(b, a) && a != b
  {
    if a != "" && a[0] == b[0] { LessIsStrict(a[1..], b[1..]); }
  }

  lemma {:induction false} LessIsTransitive(a: string, b: string, c: string)
    requires Less(a, b) && Less(b, c)
    ensures Less(a, c)
  {
    if a != "" && a[0] == b[0] == c[0] { LessIsTransitive(a[1..], b[1..], c[1..]); }
  }
}
