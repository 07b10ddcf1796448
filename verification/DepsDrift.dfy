/** Whether node_modules on disk satisfies package.json (src/depsDrift.ts), over a finite map of manifests. */
module DepsDrift {
  import opened Text

  /** Slash-separated segments; a scoped name has two. */
  type Path = seq<string>

  datatype Version = Version(major: nat, minor: nat, patch: nat, prerelease: bool)

  datatype Operator = Exact | Caret | Tilde | AtLeast

  datatype Range = Range(op: Operator, major: nat, minor: nat, patch: nat)

  /** `version`: None when it is no version string. */
  datatype Manifest = Manifest(version: Option<Version>, dependencies: seq<Path>, optional: seq<Path>, peer: seq<Path>)

  /** Which directories hold a package.json, and what it reads as (None: corrupt). */
  type Disk = map<Path, Option<Manifest>>

  // ---------------------------------------------------------------------------------------------
  // Ranges
  // ---------------------------------------------------------------------------------------------

  /** `cmp`: the first component that differs decides. */
  function Compare(v: Version, r: Range): int {
    if v.major != r.major then v.major - r.major
    else if v.minor != r.minor then v.minor - r.minor
    else v.patch - r.patch
  }

  predicate Satisfies(v: Version, r: Range) {
    if v.prerelease then false
    else if r.op == Exact then Compare(v, r) == 0
    else if Compare(v, r) < 0 then false
    else match r.op
      case AtLeast => true
      case Tilde => v.major == r.major && v.minor == r.minor
      case _ =>
        if r.major != 0 then v.major == r.major
        else if r.minor != 0 then v.major == 0 && v.minor == r.minor
        else v.major == 0 && v.minor == 0 && v.patch == r.patch
  }

  /** `(a, b, c) < (d, e, f)`, lexicographically. */
  predicate Less(a: nat, b: nat, c: nat, d: nat, e: nat, f: nat) {
    a < d || (a == d && (b < e || (b == e && c < f)))
  }

  /** Each range is an interval of release versions; only `>=` is unbounded above. */
  lemma RangesAreIntervals(v: Version, r: Range)
    requires !v.prerelease
    ensures var below := (d: nat, e: nat, f: nat) => Less(v.major, v.minor, v.patch, d, e, f);
            Satisfies(v, r) <==>
              !below(r.major, r.minor, r.patch)
              && match r.op
                 case Exact => below(r.major, r.minor, r.patch + 1)
                 case AtLeast => true
                 case Tilde => below(r.major, r.minor + 1, 0)
                 case Caret =>
                   if r.major > 0 then below(r.major + 1, 0, 0)
                   else if r.minor > 0 then below(0, r.minor + 1, 0)
                   else below(0, 0, r.patch + 1)
  {
  }

  // ---------------------------------------------------------------------------------------------
  // Resolution
  // ---------------------------------------------------------------------------------------------

  function Candidate(base: Path, name: Path): Path {
    base + ["node_modules"] + name
  }

  /** From the ancestors of `rel` that hold a node_modules, the nearest first. */
  function ResolveAbove(disk: Disk, rel: Path, i: int, name: Path): (found: Option<Path>)
    requires i < |rel|
    ensures found.Some? ==> found.value in disk
    decreases i + 1
  {
    if i < 0 then None
    else if rel[i] == "node_modules" && Candidate(rel[..i], name) in disk then Some(Candidate(rel[..i], name))
    else ResolveAbove(disk, rel, i - 1, name)
  }

  /** Node's lookup of `name` from the package at `rel`. */
  function Resolve(disk: Disk, rel: Path, name: Path): (found: Option<Path>)
    ensures found.Some? ==> found.value in disk
  {
    if Candidate(rel, name) in disk then Some(Candidate(rel, name)) else ResolveAbove(disk, rel, |rel| - 1, name)
  }

  /** A directory Node looks in from `rel`: the package's own, or one at a node_modules above. */
  predicate LooksIn(rel: Path, base: Path) {
    base == rel || (|base| < |rel| && rel[|base|] == "node_modules" && base == rel[..|base|])
  }

  /** The node_modules at `k` has the pkg, and none between `k` and `i` has. */
  predicate NearestAt(disk: Disk, rel: Path, i: int, name: Path, k: int)
    requires 0 <= k <= i < |rel|
  {
    && rel[k] == "node_modules" && Candidate(rel[..k], name) in disk
    && forall j :: k < j <= i && rel[j] == "node_modules" ==> Candidate(rel[..j], name) !in disk
  }

  /** The lookup fails only if no directory Node looks in has the pkg, and else finds the nearest. */
  lemma {:induction false} ResolveAboveFinds(disk: Disk, rel: Path, i: int, name: Path)
    requires i < |rel|
    ensures var r := ResolveAbove(disk, rel, i, name);
            && (r.Some? ==> exists k :: 0 <= k <= i && NearestAt(disk, rel, i, name, k) && r.value == Candidate(rel[..k], name))
            && (r.None? ==> forall k :: 0 <= k <= i && rel[k] == "node_modules" ==> Candidate(rel[..k], name) !in disk)
    decreases i + 1
  {
    if i >= 0 && !(rel[i] == "node_modules" && Candidate(rel[..i], name) in disk) {
      ResolveAboveFinds(disk, rel, i - 1, name);
    }
  }

  lemma ResolveFinds(disk: Disk, rel: Path, name: Path)
    ensures Resolve(disk, rel, name).None? <==> forall base | LooksIn(rel, base) :: Candidate(base, name) !in disk
    ensures var r := Resolve(disk, rel, name);
            r.Some? ==> exists base | LooksIn(rel, base) ::
                          r.value == Candidate(base, name)
                          && forall nearer | LooksIn(rel, nearer) && |nearer| > |base| :: Candidate(nearer, name) !in disk
  {
    ResolveAboveFinds(disk, rel, |rel| - 1, name);
    var r := Resolve(disk, rel, name);
    if Candidate(rel, name) in disk {
      assert LooksIn(rel, rel);
    } else if r.Some? {
      var k :| 0 <= k < |rel| && NearestAt(disk, rel, |rel| - 1, name, k) && r.value == Candidate(rel[..k], name);
      assert LooksIn(rel, rel[..k]);
    }
  }

  method ResolveFrom(disk: Disk, rel: Path, name: Path) returns (found: Option<Path>)
    ensures found == Resolve(disk, rel, name)
  {
    if Candidate(rel, name) in disk {
      return Some(Candidate(rel, name));
    }
    var i := |rel| - 1;
    while i >= 0
      invariant -1 <= i < |rel|
      invariant ResolveAbove(disk, rel, |rel| - 1, name) == ResolveAbove(disk, rel, i, name)
    {
      if rel[i] == "node_modules" && Candidate(rel[..i], name) in disk {
        return Some(Candidate(rel[..i], name));
      }
      i := i - 1;
    }
    found := None;
  }

  // ---------------------------------------------------------------------------------------------
  // Reachability
  // ---------------------------------------------------------------------------------------------

  /** A missing or corrupt manifest asks for nothing. */
  function ManifestAt(disk: Disk, rel: Path): Manifest {
    if rel in disk && disk[rel].Some? then disk[rel].value else Manifest(None, [], [], [])
  }

  function Names(m: Manifest): seq<Path> {
    m.dependencies + m.optional + m.peer
  }

  /** `rel` asks for `name` and gets `found`. */
  predicate Edge(disk: Disk, rel: Path, name: Path, found: Path) {
    name in Names(ManifestAt(disk, rel)) && Resolve(disk, rel, name) == Some(found)
  }

  /** A required dependency that resolves nowhere. */
  predicate MissingName(disk: Disk, rel: Path, name: Path) {
    var m := ManifestAt(disk, rel);
    name in m.dependencies && name !in m.optional && Resolve(disk, rel, name).None?
  }

  ghost predicate Complete(disk: Disk, rel: Path) {
    forall name :: !MissingName(disk, rel, name)
  }

  ghost predicate Closed(disk: Disk, s: set<Path>) {
    forall rel, name, found :: rel in s && Edge(disk, rel, name, found) ==> found in s
  }

  /** The packages reachable from the roots: the least closed set that holds them. */
  ghost predicate IsReach(disk: Disk, roots: set<Path>, s: set<Path>) {
    && roots <= s && Closed(disk, s)
    && forall t: set<Path> :: roots <= t && Closed(disk, t) ==> s <= t
  }

  /** There always is such a set. */
  lemma ReachExists(disk: Disk, roots: set<Path>) returns (s: set<Path>)
    requires roots <= disk.Keys
    ensures IsReach(disk, roots, s) && s <= disk.Keys
  {
    s := roots;
    while !Closed(disk, s)
      invariant roots <= s <= disk.Keys && Least(disk, roots, s)
      decreases |disk.Keys - s|
    {
      var rel, name, found :| rel in s && Edge(disk, rel, name, found) && found !in s;
      assert disk.Keys - s == (disk.Keys - (s + {found})) + {found};
      s := s + {found};
    }
  }

  /** Every name in the first `n` of `names` leads into `s`, or nowhere harmless. */
  ghost predicate Followed(disk: Disk, rel: Path, names: seq<Path>, n: int, s: set<Path>)
    requires 0 <= n <= |names|
  {
    forall i :: 0 <= i < n ==>
      && !MissingName(disk, rel, names[i])
      && (Resolve(disk, rel, names[i]).Some? ==> Resolve(disk, rel, names[i]).value in s)
  }

  /** `s` without the packages still queued is closed into `s` and complete. */
  ghost predicate Explored(disk: Disk, s: set<Path>, queue: seq<Path>) {
    forall rel :: rel in s && rel !in queue ==>
      Complete(disk, rel) && forall name, found :: Edge(disk, rel, name, found) ==> found in s
  }

  ghost predicate Least(disk: Disk, roots: set<Path>, s: set<Path>) {
    forall t: set<Path> :: roots <= t && Closed(disk, t) ==> s <= t
  }

  method FollowAll(disk: Disk, rel: Path, ghost roots: set<Path>, seen0: set<Path>, queue0: seq<Path>)
    returns (missing: Option<Path>, seen: set<Path>, queue: seq<Path>)
    requires seen0 <= disk.Keys && rel in seen0 && (forall p :: p in queue0 ==> p in seen0)
    requires Least(disk, roots, seen0) && Explored(disk, seen0, [rel] + queue0)
    ensures seen0 <= seen <= disk.Keys && (forall p :: p in queue ==> p in seen)
    ensures missing.Some? ==> MissingName(disk, rel, missing.value)
    ensures Least(disk, roots, seen)
    ensures missing.None? ==> Explored(disk, seen, queue)
    ensures |disk.Keys - seen| + |queue| <= |disk.Keys - seen0| + |queue0|
  {
    seen, queue := seen0, queue0;
    var names := Names(ManifestAt(disk, rel));
    for i := 0 to |names|
      invariant seen0 <= seen <= disk.Keys && (forall p :: p in queue ==> p in seen) && queue0 <= queue
      invariant forall p :: p in seen ==> p in seen0 || p in queue
      invariant Followed(disk, rel, names, i, seen)
      invariant Least(disk, roots, seen)
      invariant |disk.Keys - seen| + |queue| <= |disk.Keys - seen0| + |queue0|
    {
      var m := ManifestAt(disk, rel);
      var found := ResolveFrom(disk, rel, names[i]);
      if found.None? {
        if names[i] in m.dependencies && names[i] !in m.optional {
          return Some(names[i]), seen, queue;
        }
      } else if found.value !in seen {
        assert Edge(disk, rel, names[i], found.value);
        assert disk.Keys - seen == (disk.Keys - (seen + {found.value})) + {found.value};
        seen := seen + {found.value};
        queue := queue + [found.value];
      }
    }
    ExploredNow(disk, rel, names, seen0, queue0, seen, queue);
    missing := None;
  }

  lemma ExploredNow(disk: Disk, rel: Path, names: seq<Path>, seen0: set<Path>, queue0: seq<Path>, seen: set<Path>, queue: seq<Path>)
    requires Explored(disk, seen0, [rel] + queue0) && names == Names(ManifestAt(disk, rel))
    requires seen0 <= seen && queue0 <= queue && Followed(disk, rel, names, |names|, seen)
    requires forall p :: p in seen ==> p in seen0 || p in queue
    ensures Explored(disk, seen, queue)
  {
    forall p | p in seen && p !in queue
      ensures Complete(disk, p) && forall name, found :: Edge(disk, p, name, found) ==> found in seen
    {
      if p == rel {
        forall name ensures !MissingName(disk, p, name) {
          if name in names {
            var i :| 0 <= i < |names| && names[i] == name;
          }
        }
        forall name, found | Edge(disk, p, name, found) ensures found in seen {
          var i :| 0 <= i < |names| && names[i] == name;
        }
      } else {
        assert p !in [rel] + queue0;
      }
    }
  }

  /** `walk`: breadth-first over what `seen0` has not reached yet. `seen` is shared between walks. */
  method Walk(disk: Disk, start: seq<Path>, ghost roots: set<Path>, seen0: set<Path>)
    returns (drift: Option<(Path, Path)>, seen: set<Path>)
    requires seen0 <= disk.Keys && (forall p :: p in start ==> p in disk)
    requires Least(disk, roots, seen0) && Explored(disk, seen0, [])
    ensures seen0 <= seen <= disk.Keys
    ensures drift.Some? ==> drift.value.1 in seen && MissingName(disk, drift.value.1, drift.value.0)
    ensures Least(disk, roots + SetOf(start), seen)
    ensures drift.None? ==> Explored(disk, seen, []) && SetOf(start) <= seen
  {
    ghost var all := roots + SetOf(start);
    var queue;
    seen, queue := Enqueue(disk, start, roots, seen0);
    while |queue| > 0
      invariant seen0 <= seen <= disk.Keys && (forall p :: p in queue ==> p in seen)
      invariant SetOf(start) <= seen
      invariant Least(disk, all, seen) && Explored(disk, seen, queue)
      decreases |disk.Keys - seen| + |queue|
    {
      var rel := queue[0];
      assert queue == [rel] + queue[1..];
      var missing;
      missing, seen, queue := FollowAll(disk, rel, all, seen, queue[1..]);
      if missing.Some? {
        return Some((missing.value, rel)), seen;
      }
    }
    drift := None;
  }

  ghost function SetOf(paths: seq<Path>): set<Path> {
    set p | p in paths
  }

  method Enqueue(disk: Disk, start: seq<Path>, ghost roots: set<Path>, seen0: set<Path>)
    returns (seen: set<Path>, queue: seq<Path>)
    requires seen0 <= disk.Keys && (forall p :: p in start ==> p in disk)
    requires Least(disk, roots, seen0) && Explored(disk, seen0, [])
    ensures seen0 <= seen <= disk.Keys && (forall p :: p in queue ==> p in seen) && SetOf(start) <= seen
    ensures Least(disk, roots + SetOf(start), seen) && Explored(disk, seen, queue)
  {
    queue := [];
    seen := seen0;
    for i := 0 to |start|
      invariant seen0 <= seen <= disk.Keys && (forall p :: p in queue ==> p in seen)
      invariant forall j :: 0 <= j < i ==> start[j] in seen
      invariant forall p :: p in seen ==> p in seen0 || (p in queue && p in start)
    {
      if start[i] !in seen0 {
        queue := queue + [start[i]];
        seen := seen + {start[i]};
      }
    }
    assert Least(disk, roots + SetOf(start), seen);
  }

  // ---------------------------------------------------------------------------------------------
  // Top-level packages
  // ---------------------------------------------------------------------------------------------

  /** A directory entry under node_modules; `inside` lists a scope directory. */
  datatype Entry = Entry(name: string, symlink: bool, directory: bool, inside: seq<Entry>)

  predicate IsDot(e: Entry) { e.name != "" && e.name[0] == '.' }
  predicate IsScope(e: Entry) { e.name != "" && e.name[0] == '@' && e.directory }

  /** A package directory at the top level, or one level down in a scope. */
  ghost predicate IsTopLevel(disk: Disk, entries: seq<Entry>, p: Path) {
    p in disk && exists e :: e in entries && ListsAs(e, p)
  }

  ghost predicate ListsAs(e: Entry, p: Path) {
    !IsDot(e) && !e.symlink && if IsScope(e) then InScope(e, p) else p == ["node_modules", e.name]
  }

  ghost predicate InScope(e: Entry, p: Path) {
    exists s :: s in e.inside && !IsDot(s) && !s.symlink && p == ["node_modules", e.name, s.name]
  }

  method TopLevel(disk: Disk, entries: seq<Entry>) returns (out: seq<Path>)
    ensures forall p :: p in out <==> IsTopLevel(disk, entries, p)
  {
    out := [];
    for i := 0 to |entries|
      invariant forall p :: p in out <==> IsTopLevel(disk, entries[..i], p)
    {
      var e := entries[i];
      assert entries[..i + 1] == entries[..i] + [e];
      var more := Listed(disk, e);
      out := out + more;
    }
    assert entries[..|entries|] == entries;
  }

  /** What one entry of node_modules contributes. */
  method Listed(disk: Disk, e: Entry) returns (out: seq<Path>)
    ensures forall p :: p in out <==> IsTopLevel(disk, [e], p)
  {
    out := [];
    if IsDot(e) || e.symlink {
      return;
    }
    if !IsScope(e) {
      assert e in [e];
      return if ["node_modules", e.name] in disk then [["node_modules", e.name]] else [];
    }
    for j := 0 to |e.inside|
      invariant forall p :: p in out <==> p in disk && InScope(e.(inside := e.inside[..j]), p)
    {
      var s := e.inside[j];
      assert e.inside[..j + 1] == e.inside[..j] + [s];
      if !IsDot(s) && !s.symlink && ["node_modules", e.name, s.name] in disk {
        out := out + [["node_modules", e.name, s.name]];
      }
    }
    assert e.(inside := e.inside[..|e.inside|]) == e;
    assert e in [e];
  }

  // ---------------------------------------------------------------------------------------------
  // Drift
  // ---------------------------------------------------------------------------------------------

  /** package.json: a root is a name and its range (None: unsupported). */
  datatype Package = Package(dependencies: map<Path, Option<Range>>, optional: map<Path, Option<Range>>, dev: map<Path, Option<Range>>)

  datatype Reading = Absent | Unreadable | Read(pkg: Package)

  datatype Drift =
    | PackageUnreadable | UnsupportedRange(name: Path) | MissingRoot(name: Path) | OutOfRange(name: Path)
    | MissingDependency(name: Path, from: Path) | Extraneous(dir: Path)

  function RootDir(name: Path): Path { ["node_modules"] + name }

  /** Optional entries win over plain ones of the same name. */
  function Prod(pkg: Package): map<Path, Option<Range>> {
    pkg.dependencies + pkg.optional
  }

  /** One root's complaint. */
  function RootDrift(disk: Disk, pkg: Package, name: Path, range: Option<Range>): Option<Drift> {
    if range.None? then Some(UnsupportedRange(name))
    else
      var dir := RootDir(name);
      if !(dir in disk && disk[dir].Some?) then
        if name in pkg.optional then None else Some(MissingRoot(name))
      else
        var version := disk[dir].value.version;
        if version.Some? && Satisfies(version.value, range.value) then None else Some(OutOfRange(name))
  }

  ghost predicate RootsOk(disk: Disk, pkg: Package, ranges: map<Path, Option<Range>>) {
    forall name :: name in ranges ==> RootDrift(disk, pkg, name, ranges[name]).None?
  }

  method CheckRoots(disk: Disk, pkg: Package, ranges: map<Path, Option<Range>>) returns (drift: Option<Drift>)
    ensures drift.None? <==> RootsOk(disk, pkg, ranges)
    ensures drift.Some? ==> exists name :: name in ranges && drift == RootDrift(disk, pkg, name, ranges[name])
  {
    var todo := ranges.Keys;
    while todo != {}
      invariant todo <= ranges.Keys
      invariant forall name :: name in ranges && name !in todo ==> RootDrift(disk, pkg, name, ranges[name]).None?
    {
      var name: Path :| name in todo;
      drift := RootDrift(disk, pkg, name, ranges[name]);
      if drift.Some? {
        return;
      }
      todo := todo - {name};
    }
    drift := None;
  }

  /** The present roots' directories. */
  ghost function RootDirs(disk: Disk, ranges: map<Path, Option<Range>>): set<Path> {
    set name | name in ranges && RootDir(name) in disk :: RootDir(name)
  }

  method PresentRoots(disk: Disk, ranges: map<Path, Option<Range>>) returns (dirs: seq<Path>)
    ensures SetOf(dirs) == RootDirs(disk, ranges)
    ensures forall p :: p in dirs ==> p in disk
  {
    dirs := [];
    var todo := ranges.Keys;
    while todo != {}
      invariant todo <= ranges.Keys
      invariant forall p :: p in dirs <==> exists name :: name in ranges && name !in todo && RootDir(name) in disk && p == RootDir(name)
    {
      var name: Path :| name in todo;
      if RootDir(name) in disk {
        dirs := dirs + [RootDir(name)];
      }
      todo := todo - {name};
    }
  }

  /** Is a dev root on disk that the production graph does not reach? */
  ghost predicate DevInstalled(disk: Disk, pkg: Package, reach: set<Path>) {
    exists name :: name in pkg.dev && RootDir(name) in disk && RootDir(name) !in reach
  }

  /** In sync: roots in range, everything reachable complete, everything at the top level reachable. */
  ghost predicate InSync(disk: Disk, pkg: Package, entries: seq<Entry>, prodReach: set<Path>, fullReach: set<Path>) {
    var dev := DevInstalled(disk, pkg, prodReach);
    var reach := if dev then fullReach else prodReach;
    && RootsOk(disk, pkg, Prod(pkg))
    && (dev ==> RootsOk(disk, pkg, pkg.dev))
    && (forall rel :: rel in reach ==> Complete(disk, rel))
    && (forall p :: IsTopLevel(disk, entries, p) ==> p in reach)
  }

  /** A walk that found nothing missing has reached exactly the reachable packages, all complete. */
  lemma WalkReaches(disk: Disk, roots: set<Path>, seen: set<Path>, reach: set<Path>)
    requires Least(disk, roots, seen) && Explored(disk, seen, []) && roots <= seen && IsReach(disk, roots, reach)
    ensures seen == reach && forall rel :: rel in reach ==> Complete(disk, rel)
  {
    assert Closed(disk, seen);
  }

  /** A missing dependency of anything the production roots reach is drift, full install or not. */
  lemma MissingIsDrift(disk: Disk, pkg: Package, entries: seq<Entry>, seen: set<Path>, prodReach: set<Path>, fullReach: set<Path>,
                       rel: Path, name: Path)
    requires var roots := RootDirs(disk, Prod(pkg));
             && IsReach(disk, roots, prodReach) && IsReach(disk, roots + RootDirs(disk, pkg.dev), fullReach)
             && Least(disk, roots, seen)
    requires rel in seen && MissingName(disk, rel, name)
    ensures !InSync(disk, pkg, entries, prodReach, fullReach)
  {
    assert rel in prodReach && rel in fullReach;
    assert !Complete(disk, rel);
  }

  lemma DevInstalledAs(disk: Disk, pkg: Package, devDirs: seq<Path>, seen: set<Path>)
    requires SetOf(devDirs) == RootDirs(disk, pkg.dev)
    ensures (exists p | p in devDirs :: p !in seen) <==> DevInstalled(disk, pkg, seen)
  {
    if p :| p in devDirs && p !in seen {
      assert p in SetOf(devDirs);
    }
    if DevInstalled(disk, pkg, seen) {
      var name :| name in pkg.dev && RootDir(name) in disk && RootDir(name) !in seen;
      assert RootDir(name) in SetOf(devDirs);
    }
  }

  method DependencyDrift(disk: Disk, reading: Reading, entries: seq<Entry>,
                         ghost prodReach: set<Path>, ghost fullReach: set<Path>)
    returns (drift: Option<Drift>)
    requires reading.Read? ==> IsReach(disk, RootDirs(disk, Prod(reading.pkg)), prodReach)
    requires reading.Read? ==>
               IsReach(disk, RootDirs(disk, Prod(reading.pkg)) + RootDirs(disk, reading.pkg.dev), fullReach)
    ensures reading.Absent? ==> drift.None?
    ensures reading.Unreadable? ==> drift == Some(PackageUnreadable)
    ensures reading.Read? ==> (drift.None? <==> InSync(disk, reading.pkg, entries, prodReach, fullReach))
  {
    if reading.Absent? {
      return None;
    }
    if reading.Unreadable? {
      return Some(PackageUnreadable);
    }
    var pkg := reading.pkg;
    drift := CheckRoots(disk, pkg, Prod(pkg));
    if drift.Some? {
      return;
    }
    var prodDirs := PresentRoots(disk, Prod(pkg));
    var prodWalk, seen := Walk(disk, prodDirs, {}, {});
    var devDirs := PresentRoots(disk, pkg.dev);
    ghost var roots := RootDirs(disk, Prod(pkg));
    assert {} + SetOf(prodDirs) == roots;
    if prodWalk.Some? {
      MissingIsDrift(disk, pkg, entries, seen, prodReach, fullReach, prodWalk.value.1, prodWalk.value.0);
    } else {
      WalkReaches(disk, roots, seen, prodReach);
      DevInstalledAs(disk, pkg, devDirs, seen);
    }
    var devInstalled := exists p | p in devDirs :: p !in seen;
    drift := None;
    if devInstalled {
      drift := CheckRoots(disk, pkg, pkg.dev);
      if drift.Some? {
        return;
      }
    }
    if prodWalk.Some? {
      return Some(MissingDependency(prodWalk.value.0, prodWalk.value.1));
    }
    if devInstalled {
      var devWalk;
      devWalk, seen := Walk(disk, devDirs, RootDirs(disk, Prod(pkg)), seen);
      if devWalk.Some? {
        assert !Complete(disk, devWalk.value.1) && devWalk.value.1 in fullReach;
        return Some(MissingDependency(devWalk.value.0, devWalk.value.1));
      }
      WalkReaches(disk, roots + SetOf(devDirs), seen, fullReach);
    }
    var top := TopLevel(disk, entries);
    for i := 0 to |top|
      invariant forall j :: 0 <= j < i ==> top[j] in seen
    {
      if top[i] !in seen {
        assert top[i] in top && IsTopLevel(disk, entries, top[i]);
        return Some(Extraneous(top[i]));
      }
    }
  }
}
