/** Destination operands: parsing them, and where a transform's result ends up. */
module Destination {
  import opened Records
  import opened PathText

  datatype Result<+T, +E> = Ok(value: T) | Err(error: E)

  datatype PathError = EmptyComponent | ContainsDotDot | NotRelative

  /** How the operand is spelled at its end; all but the last force a directory. */
  datatype Intent = TrailingSlash | TerminalDot | TerminalDotSlash | ExactOrExistingDirectory

  /** The normalised path, the operand as given, and its intent. */
  datatype DestinationPath = DestinationPath(path: string, operand: string, intent: Intent)

  predicate IsAbsolute(s: string) {
    s != "" && s[0] == '/'
  }

  function NonDot(p: Path): Path {
    if p == [] then []
    else if p[0] == "." then NonDot(p[1..])
    else [p[0]] + NonDot(p[1..])
  }

  /** The components that name something. */
  function Named(s: string): Path {
    NonDot(Components(s))
  }

  /** `Path::components`: the root, a leading dot, and then the components that name something. */
  function PathComponents(s: string): Path {
    (if IsAbsolute(s) then ["/"] else [])
    + (if !IsAbsolute(s) && SplitSlash(s)[0] == "." then ["."] else [])
    + Named(s)
  }

  function TrimSlashes(s: string): (r: string)
    ensures r <= s && (r != "" ==> r[|r| - 1] != '/') && forall i | |r| <= i < |s| :: s[i] == '/'
  {
    if s != "" && s[|s| - 1] == '/' then TrimSlashes(s[..|s| - 1]) else s
  }

  predicate EndsWith(s: string, c: char) {
    s != "" && s[|s| - 1] == c
  }

  function IntentOf(raw: string): Intent {
    var trimmed := TrimSlashes(raw);
    var terminalDot := trimmed == "." || (|trimmed| >= 2 && trimmed[|trimmed| - 2..] == "/.");
    if EndsWith(raw, '/') && terminalDot then TerminalDotSlash
    else if EndsWith(raw, '/') then TrailingSlash
    else if terminalDot then TerminalDot
    else ExactOrExistingDirectory
  }

  function Normalized(absolute: bool, p: Path): string {
    if absolute then (if p == [] then "/" else "/" + Join(p))
    else (if p == [] then "." else Join(p))
  }

  /** What `DestinationPath::new` makes of an operand. */
  function ParsedDestination(raw: string): Result<DestinationPath, PathError> {
    if raw == "" then Err(EmptyComponent)
    else if ".." in Named(raw) then Err(ContainsDotDot)
    else Ok(DestinationPath(Normalized(IsAbsolute(raw), Named(raw)), raw, IntentOf(raw)))
  }

  // ---- facts about components

  lemma HeadAndTail(a: Path, b: Path)
    requires a != []
    ensures (a + b)[0] == a[0] && (a + b)[1..] == a[1..] + b
  {}

  lemma {:induction false} NonDotAppends(a: Path, b: Path)
    ensures NonDot(a + b) == NonDot(a) + NonDot(b)
  {
    if a == [] {
      assert a + b == b;
    } else {
      HeadAndTail(a, b);
      NonDotAppends(a[1..], b);
      if a[0] != "." { Regroup(a[0], NonDot(a[1..]), NonDot(b)); }
    }
  }

  lemma Regroup(n: Name, a: Path, b: Path)
    ensures [n] + (a + b) == ([n] + a) + b
  {}

  lemma NamedAppends(a: string, b: string)
    ensures Named(a + "/" + b) == Named(a) + Named(b)
  {
    ComponentsAppend(a, b);
    NonDotAppends(Components(a), Components(b));
  }

  /** Components as a tree walk produces them. */
  predicate Proper(p: Path) {
    AllNames(p) && "." !in p && ".." !in p
  }

  lemma {:induction false} NonDotKeeps(p: Path)
    requires "." !in p
    ensures NonDot(p) == p
  {
    if p != [] {
      NonDotKeeps(p[1..]);
      assert p == [p[0]] + p[1..];
    }
  }

  lemma {:induction false} NonDotHasNoDot(p: Path)
    ensures "." !in NonDot(p)
    ensures AllNames(p) ==> AllNames(NonDot(p))
  {
    if p != [] { NonDotHasNoDot(p[1..]); }
  }

  lemma NamedOfJoin(p: Path)
    requires AllNames(p) && "." !in p
    ensures Named(Join(p)) == p
  {
    ComponentsOfJoin(p);
    NonDotKeeps(p);
  }

  lemma NamedIsProper(s: string)
    ensures AllNames(Named(s)) && "." !in Named(s)
  {
    NonDotHasNoDot(Components(s));
  }

  lemma NamedEmpty()
    ensures Named("") == [] && Named(".") == [] && Named("/") == []
  {
    ComponentsOfName("");
    ComponentsOfName(".");
    ComponentsAppend("", "");
    assert "" + "/" + "" == "/";
    assert ["."][1..] == [];
  }

  /** Normalising changes neither the named components nor where they start from. */
  lemma NormalizedKeeps(absolute: bool, p: Path)
    requires AllNames(p) && "." !in p
    ensures Named(Normalized(absolute, p)) == p && IsAbsolute(Normalized(absolute, p)) == absolute
  {
    NamedEmpty();
    NamedOfJoin(p);
    if absolute {
      NamedAppends("", Join(p));
      assert "" + "/" + Join(p) == "/" + Join(p);
    } else if p != [] {
      JoinStartsWithName(p);
    }
  }

  lemma JoinStartsWithName(p: Path)
    requires p != [] && AllNames(p)
    ensures Join(p) != "" && Join(p)[0] == p[0][0] && p[0][0] != '/'
  {
    assert IsName(p[0]);
  }

  /** How many components come before those that name something. */
  function Lead(s: string): nat {
    |PathComponents(s)| - |Named(s)|
  }

  lemma ComponentKinds(s: string, k: nat)
    requires k < |PathComponents(s)|
    ensures var c := PathComponents(s)[k];
      if k < Lead(s) then (if IsAbsolute(s) then c == "/" else c == ".")
      else c == Named(s)[k - Lead(s)] && c != "" && c != "." && c != "/"
  {
    NamedIsProper(s);
    if k >= Lead(s) {
      var n := Named(s)[k - Lead(s)];
      assert n in Named(s) && IsName(n);
    }
  }

  /** The named components of an operand, or None when one of them leads upwards. */
  method CollectComponents(raw: string) returns (result: Option<Path>)
    ensures result == if ".." in Named(raw) then None else Some(Named(raw))
  {
    var absolute := IsAbsolute(raw);
    var all := PathComponents(raw);
    var components: Path := [];
    ghost var lead, names := Lead(raw), Named(raw);
    for k := 0 to |all|
      invariant components == (if k <= lead then [] else names[..k - lead]) && ".." !in components
    {
      ComponentKinds(raw, k);
      if all[k] == "/" && absolute {
        continue;
      } else if all[k] == ".." {
        return None;
      } else if all[k] == "." || all[k] == "" {
        continue;
      } else {
        components := components + [all[k]];
      }
    }
    assert names[..|all| - lead] == names;
    return Some(components);
  }

  /** `DestinationPath::new`. */
  method NewDestinationPath(raw: string) returns (r: Result<DestinationPath, PathError>)
    ensures r == ParsedDestination(raw)
  {
    if raw == "" {
      return Err(EmptyComponent);
    }
    var components := CollectComponents(raw);
    if components.None? {
      return Err(ContainsDotDot);
    }
    return Ok(DestinationPath(Normalized(IsAbsolute(raw), components.value), raw, IntentOf(raw)));
  }

  /** What normalising a relative path yields. */
  function NormalizedRelative(s: string): Result<string, PathError> {
    if IsAbsolute(s) then Err(NotRelative)
    else if ".." in Named(s) then Err(ContainsDotDot)
    else if Named(s) == [] then Err(EmptyComponent)
    else Ok(Join(Named(s)))
  }

  /** The named components of a relative path, or None when one of them leads upwards. */
  method PushComponents(s: string) returns (result: Option<Path>)
    requires !IsAbsolute(s)
    ensures result == if ".." in Named(s) then None else Some(Named(s))
  {
    var all := PathComponents(s);
    var pushed: Path := [];
    ghost var lead, names := Lead(s), Named(s);
    for k := 0 to |all|
      invariant pushed == (if k <= lead then [] else names[..k - lead]) && ".." !in pushed
    {
      ComponentKinds(s, k);
      if all[k] == ".." {
        return None;
      }
      if all[k] == "." || all[k] == "" {
        continue;
      }
      pushed := pushed + [all[k]];
    }
    assert names[..|all| - lead] == names;
    return Some(pushed);
  }

  /** `normalize_relative`. */
  method NormalizeRelative(s: string) returns (r: Result<string, PathError>)
    ensures r == NormalizedRelative(s)
  {
    if IsAbsolute(s) {
      return Err(NotRelative);
    }
    var result := PushComponents(s);
    if result.None? {
      return Err(ContainsDotDot);
    }
    if result.value == [] {
      return Err(EmptyComponent);
    }
    return Ok(Join(result.value));
  }

  /** Normalising is idempotent, and keeps exactly the named components. */
  lemma NormalizingAgain(s: string)
    requires NormalizedRelative(s).Ok?
    ensures var n := NormalizedRelative(s).value; Named(n) == Named(s) && NormalizedRelative(n) == Ok(n)
  {
    NamedIsProper(s);
    NamedOfJoin(Named(s));
    JoinStartsWithName(Named(s));
  }

  /** A parsed destination keeps the operand's named components and absoluteness; parsing the normalised
      path gives the same path again. */
  lemma ParsingKeeps(raw: string)
    requires ParsedDestination(raw).Ok?
    ensures var d := ParsedDestination(raw).value;
      && Named(d.path) == Named(raw) && IsAbsolute(d.path) == IsAbsolute(raw)
      && ParsedDestination(d.path).Ok? && ParsedDestination(d.path).value.path == d.path
  {
    NamedIsProper(raw);
    NormalizedKeeps(IsAbsolute(raw), Named(raw));
  }

  // ---- resolution

  datatype DestinationState = Missing | IsDirectory | NonDirectory | DanglingSymlink

  datatype Placement = ExactTarget | DirectoryTarget

  datatype ResolvedPlan = ResolvedPlan(operand: DestinationPath, target: string, directory: Path, placement: Placement)

  datatype ResolutionError = DirectoryRequired | DirectoryOntoNonDirectory | MissingParent

  /** `Path::join` with a relative path. */
  function PathJoin(a: string, b: string): string {
    if a == "" then b else if EndsWith(a, '/') then a + b else a + "/" + b
  }

  lemma JoinAppends(a: string, b: string)
    requires b != "" && !IsAbsolute(b)
    ensures Named(PathJoin(a, b)) == Named(a) + Named(b) && (a != "" ==> IsAbsolute(PathJoin(a, b)) == IsAbsolute(a))
  {
    if a == "" {
      NamedEmpty();
    } else if EndsWith(a, '/') {
      JoinAtSlash(a, b);
    } else {
      NamedAppends(a, b);
    }
  }

  lemma JoinAtSlash(a: string, b: string)
    requires EndsWith(a, '/')
    ensures Named(a + b) == Named(a) + Named(b)
  {
    var start := a[..|a| - 1];
    assert a == start + "/" + "" && a + b == start + "/" + b;
    NamedAppends(start, "");
    NamedAppends(start, b);
    NamedEmpty();
  }

  /** `resolve_destination`. */
  function ResolveDestination(operand: DestinationPath, entry: string, kind: EntryKind, empty: bool, state: DestinationState)
    : Result<ResolvedPlan, ResolutionError>
  {
    var forced := operand.intent != ExactOrExistingDirectory;
    if forced && (state == NonDirectory || state == DanglingSymlink) then Err(DirectoryRequired)
    else if kind == Directory && (state == NonDirectory || (state == DanglingSymlink && !empty)) then Err(DirectoryOntoNonDirectory)
    else if state == Missing
            && (operand.intent == TerminalDotSlash || (operand.intent == TerminalDot && kind == Directory && !empty)) then
      Err(DirectoryRequired)
    else
      var into := forced || state == IsDirectory || (kind == Directory && !empty && state != DanglingSymlink);
      var target := if into then PathJoin(operand.path, entry) else operand.path;
      if Named(target) == [] && (IsAbsolute(target) || target == "") then Err(MissingParent)
      else Ok(ResolvedPlan(operand, target, ParentOf(Named(target)), if into then DirectoryTarget else ExactTarget))
  }

  function ParentOf(p: Path): Path {
    if p == [] then [] else p[..|p| - 1]
  }

  /** An operand that names nothing -- the root, or the working directory -- always forces a directory. */
  lemma NothingNamedIsForced(raw: string)
    requires raw != "" && Named(raw) == []
    ensures IntentOf(raw) != ExactOrExistingDirectory
  {
    if !EndsWith(raw, '/') {
      LastPieceIsDot(raw);
      assert TrimSlashes(raw) == raw;
    }
  }

  lemma LastPieceIsDot(raw: string)
    requires raw != "" && Named(raw) == [] && !EndsWith(raw, '/')
    ensures raw == "." || (|raw| >= 2 && raw[|raw| - 2..] == "/.")
  {
    var last := SplitLast(raw);
    NamedOfPiece(last);
    if |last| < |raw| {
      var before := raw[..|raw| - |last| - 1];
      assert raw == before + "/" + last;
      NamedAppends(before, last);
    }
  }

  lemma LastGrows(init: string, r: string, c: char)
    requires |r| <= |init| && init[|init| - |r|..] == r && '/' !in r && c != '/'
    ensures '/' !in r + [c] && (init + [c])[|init| - |r|..] == r + [c]
    ensures |r| < |init| ==> (init + [c])[|init| - |r| - 1] == init[|init| - |r| - 1]
  {}

  /** The piece after the last slash. */
  function SplitLast(s: string): (r: string)
    ensures '/' !in r && |r| <= |s| && s[|s| - |r|..] == r && (|r| < |s| ==> s[|s| - |r| - 1] == '/')
  {
    if s == "" || s[|s| - 1] == '/' then ""
    else
      var init := s[..|s| - 1];
      var r := SplitLast(init);
      LastGrows(init, r, s[|s| - 1]);
      assert s == init + [s[|s| - 1]];
      r + [s[|s| - 1]]
  }

  lemma NamedOfPiece(n: string)
    requires '/' !in n
    ensures Named(n) == if n == "" || n == "." then [] else [n]
  {
    ComponentsOfName(n);
    assert [n][1..] == [] && NonDot([n][1..]) == [];
    assert NonDot([n]) == if n == "." then [] else [n];
  }

  /** The target is the base, or the entry's place in it; its directory is what lies above it. */
  ghost predicate Inside(plan: ResolvedPlan, base: Path, absolute: bool, entry: Path) {
    var target := Named(plan.target);
    && target == base + (if plan.placement == DirectoryTarget then entry else [])
    && IsAbsolute(plan.target) == absolute
    && target != [] && plan.directory == target[..|target| - 1]
  }

  lemma ResolvedInside(operand: DestinationPath, entry: string, kind: EntryKind, empty: bool, state: DestinationState)
    requires operand.path != "" && entry != "" && !IsAbsolute(entry) && Named(entry) != []
    requires operand.intent == ExactOrExistingDirectory ==> Named(operand.path) != []
    ensures var r := ResolveDestination(operand, entry, kind, empty, state);
      && r != Err(MissingParent)
      && (r.Ok? ==>
            && Inside(r.value, Named(operand.path), IsAbsolute(operand.path), Named(entry))
            && (operand.intent != ExactOrExistingDirectory ==> r.value.placement == DirectoryTarget))
  {
    JoinAppends(operand.path, entry);
  }

  /** A resolved target is the destination itself or the entry's place inside it, and its directory is
      what lies above it; for a parsed destination there always is one. */
  lemma ResolutionStaysInside(raw: string, entry: string, kind: EntryKind, empty: bool, state: DestinationState)
    requires ParsedDestination(raw).Ok? && NormalizedRelative(entry) == Ok(entry)
    ensures var r := ResolveDestination(ParsedDestination(raw).value, entry, kind, empty, state);
      && r != Err(MissingParent)
      && (r.Ok? ==>
            && Inside(r.value, Named(raw), IsAbsolute(raw), Named(entry))
            && (IntentOf(raw) != ExactOrExistingDirectory ==> r.value.placement == DirectoryTarget))
  {
    ParsingKeeps(raw);
    EntryIsNamed(entry);
    if Named(raw) == [] { NothingNamedIsForced(raw); }
    ResolvedInside(ParsedDestination(raw).value, entry, kind, empty, state);
  }

  lemma EntryIsNamed(entry: string)
    requires NormalizedRelative(entry) == Ok(entry)
    ensures entry != "" && !IsAbsolute(entry) && Named(entry) != []
  {
    NamedIsProper(entry);
    JoinStartsWithName(Named(entry));
  }

  // ---- split roots

  /** `split_target_suffix` for a root below, or at, the source. */
  function SplitTargetSuffix(source: Path, root: Path): string {
    if root == source then ""
    else if source < root then
      var parent := root[|source|..|root| - 1];
      if parent == [] then "/" else "/" + Join(parent) + "/"
    else ""
  }

  lemma SuffixedDestination(base: string, source: Path, rel: Path)
    requires base != "" && rel != [] && Proper(rel)
    ensures var raw := base + SplitTargetSuffix(source, source + rel);
      && Named(raw) == Named(base) + rel[..|rel| - 1]
      && IsAbsolute(raw) == IsAbsolute(base)
      && IntentOf(raw) != ExactOrExistingDirectory
  {
    var root := source + rel;
    var parent := rel[..|rel| - 1];
    assert root[|source|..|root| - 1] == parent;
    NamedEmpty();
    if parent == [] {
      assert base + "/" == base + "/" + "";
      NamedAppends(base, "");
    } else {
      var raw := base + ("/" + Join(parent) + "/");
      assert raw == (base + "/" + Join(parent)) + "/" + "";
      NamedAppends(base + "/" + Join(parent), "");
      NamedAppends(base, Join(parent));
      NamedOfJoin(parent);
    }
  }

  /** A split root lands where it lay: the operand made from the base and the root's suffix parses whenever
      the base does, and whatever the transform's target resolves to is the base followed by the root's
      path below the source. */
  lemma SplitMirrors(base: string, source: Path, rel: Path, kind: EntryKind, empty: bool, state: DestinationState)
    requires ParsedDestination(base).Ok? && rel != [] && Proper(rel)
    ensures var d := ParsedDestination(base + SplitTargetSuffix(source, source + rel));
      && d.Ok?
      && var r := ResolveDestination(d.value, rel[|rel| - 1], kind, empty, state);
         r.Ok? ==> Named(r.value.target) == Named(base) + rel && IsAbsolute(r.value.target) == IsAbsolute(base)
  {
    var raw := base + SplitTargetSuffix(source, source + rel);
    var name := rel[|rel| - 1];
    SuffixedDestination(base, source, rel);
    NameIsNormal(name);
    SuffixedParses(base, raw, rel[..|rel| - 1]);
    ResolutionStaysInside(raw, name, kind, empty, state);
    LastRejoined(Named(base), rel);
  }

  lemma LastRejoined(base: Path, rel: Path)
    requires rel != []
    ensures (base + rel[..|rel| - 1]) + [rel[|rel| - 1]] == base + rel
  {}

  lemma SuffixedParses(base: string, raw: string, parent: Path)
    requires ParsedDestination(base).Ok? && base <= raw && Named(raw) == Named(base) + parent && ".." !in parent
    ensures ParsedDestination(raw).Ok?
  {
  }

  lemma NameIsNormal(name: Name)
    requires IsName(name) && name != "." && name != ".."
    ensures NormalizedRelative(name) == Ok(name) && Named(name) == [name]
  {
    NamedOfPiece(name);
    assert Join([name]) == name;
  }

  /** Distinct roots get distinct targets, none of them outside the base. */
  lemma DistinctRootsDistinctTargets(base: string, source: Path, rel: Path, rel': Path, kind: EntryKind, empty: bool,
                                     state: DestinationState, kind': EntryKind, empty': bool, state': DestinationState)
    requires ParsedDestination(base).Ok? && rel != [] && Proper(rel) && rel' != [] && Proper(rel') && rel != rel'
    ensures var d := ParsedDestination(base + SplitTargetSuffix(source, source + rel));
      var d' := ParsedDestination(base + SplitTargetSuffix(source, source + rel'));
      && d.Ok? && d'.Ok?
      && var r := ResolveDestination(d.value, rel[|rel| - 1], kind, empty, state);
         var r' := ResolveDestination(d'.value, rel'[|rel'| - 1], kind', empty', state');
         r.Ok? && r'.Ok? ==>
           && Named(base) < Named(r.value.target) && Named(base) < Named(r'.value.target)
           && Named(r.value.target) != Named(r'.value.target)
  {
    SplitMirrors(base, source, rel, kind, empty, state);
    SplitMirrors(base, source, rel', kind', empty', state');
    var b := Named(base);
    assert (b + rel)[|b|..] == rel && (b + rel')[|b|..] == rel';
  }
}
