/** Removing numbered duplicates from a tree of files, directories and links. */
module DuplicateCleanup {
  import opened Common
  import opened DuplicateNames

  const TRASH := ".trash_duplicates"

  /** A path below the project root. */
  datatype Path = Path(dir: seq<string>, name: string)

  /** Where a link points: to a path below the root, or out of the tree to a file, a directory, or nothing. */
  datatype Target = To(path: Path) | ForeignFile | ForeignDirectory | ForeignNothing

  /** Regular files with their contents, directories, and symbolic links. */
  datatype Tree = Tree(files: map<Path, string>, dirs: set<Path>, links: map<Path, Target>)

  /** The directories a path needs. */
  function Parents(p: Path): set<Path> {
    set i | 0 <= i < |p.dir| :: Path(p.dir[..i], p.dir[i])
  }

  /** One thing at every path, and a file only where its directories are. */
  ghost predicate WellFormed(t: Tree) {
    && t.files.Keys !! t.dirs && t.files.Keys !! t.links.Keys && t.dirs !! t.links.Keys
    && forall p :: p in t.files ==> Parents(p) <= t.dirs
  }

  predicate Occupied(t: Tree, p: Path) {
    p in t.files || p in t.dirs || p in t.links
  }

  /** Where following links from a path ends: at a path that is no link, outside the tree, or in a circle. */
  datatype End = At(path: Path) | Outside(target: Target) | Circle

  function Walk(links: map<Path, Target>, p: Path, seen: set<Path>): End
    decreases links.Keys - seen
  {
    if p !in links then At(p)
    else if p in seen then Circle
    else
      assert links.Keys - (seen + {p}) < links.Keys - seen by {
        assert p in links.Keys - seen && p !in links.Keys - (seen + {p});
      }
      match links[p]
      case To(q) => Walk(links, q, seen + {p})
      case target => Outside(target)
  }

  function EndOf(t: Tree, p: Path): End {
    Walk(t.links, p, {})
  }

  /** `exists` follows links: a dangling or circular one does not exist. */
  predicate Exists(t: Tree, p: Path) {
    match EndOf(t, p)
    case At(q) => q in t.files || q in t.dirs
    case Outside(target) => target.ForeignFile? || target.ForeignDirectory?
    case Circle => false
  }

  /** The path is a file, or a link that leads to one. */
  predicate IsFile(t: Tree, p: Path) {
    match EndOf(t, p)
    case At(q) => q in t.files
    case Outside(target) => target.ForeignFile?
    case Circle => false
  }

  /** The names that are skipped, and the path of the scanned root itself, which is compared with them as well. */
  datatype Excludes = Excludes(root: seq<string>, names: set<string>)

  predicate RootExcluded(excludes: Excludes) {
    exists part :: part in excludes.root && part in excludes.names
  }

  predicate Excluded(p: Path, excludes: Excludes) {
    RootExcluded(excludes) || p.name in excludes.names || exists part :: part in p.dir && part in excludes.names
  }

  /** A scanned file whose name says it is a duplicate, and what it duplicates. */
  function BaseOf(p: Path): (r: Option<Path>)
    ensures r.Some? ==> |r.value.name| < |p.name| && r.value.dir == p.dir
  {
    var b := BaseName(p.name);
    if b.Some? then Some(Path(p.dir, b.value.0)) else None
  }

  predicate IsMatch(t: Tree, p: Path, excludes: Excludes) {
    p in t.files && !Excluded(p, excludes) && BaseOf(p).Some?
  }

  /** The decision, taken for every match before anything is removed. */
  predicate Removable(t: Tree, p: Path, excludes: Excludes, force: bool) {
    IsMatch(t, p, excludes) && (force || Exists(t, BaseOf(p).value))
  }

  ghost predicate NoneTwice(paths: seq<Path>) {
    forall i, j :: 0 <= i < j < |paths| ==> paths[i] != paths[j]
  }

  /** Scan in the order of the listing, then decide. */
  method FindRemovable(t: Tree, listing: seq<Path>, excludes: Excludes, force: bool) returns (dups: seq<Path>)
    requires NoneTwice(listing) && forall p :: p in t.files <==> p in listing
    ensures NoneTwice(dups) && forall p :: p in dups <==> Removable(t, p, excludes, force)
    ensures RootExcluded(excludes) ==> dups == []
  {
    dups := [];
    for i := 0 to |listing|
      invariant NoneTwice(dups)
      invariant forall p :: p in dups <==> p in listing[..i] && Removable(t, p, excludes, force)
    {
      assert listing[..i + 1] == listing[..i] + [listing[i]];
      assert listing[i] !in listing[..i];
      assert listing[i] in t.files;
      if Removable(t, listing[i], excludes, force) {
        assert forall k :: 0 <= k < |dups| ==> dups[k] in dups;
        dups := dups + [listing[i]];
      }
    }
    assert dups != [] ==> dups[0] in dups;
    assert listing[..|listing|] == listing;
  }

  // ---- Files change places ----------------------------------------------------------------------------------------

  /** Every original file is at its present place, unchanged and alone there, and no other file exists. */
  ghost predicate Relocated(t: Tree, t': Tree, now: map<Path, Path>) {
    && now.Keys == t.files.Keys
    && (forall p :: p in now ==> now[p] in t'.files && t'.files[now[p]] == t.files[p])
    && (forall p, q :: p in now && q in now && now[p] == now[q] ==> p == q)
    && forall q :: q in t'.files ==> exists p :: p in now && now[p] == q
  }

  /** A rename puts the file in the place of a link that was there. */
  function Renamed(t: Tree, from: Path, to: Path): Tree
    requires from in t.files
  {
    t.(files := (t.files - {from})[to := t.files[from]], links := t.links - {to})
  }

  lemma NothingMovedYet(t: Tree)
    ensures Relocated(t, t, map p | p in t.files :: p)
  {
    var now := map p | p in t.files :: p;
    forall q | q in t.files ensures exists p :: p in now && now[p] == q {
      assert q in now && now[q] == q;
    }
  }

  /** Moving one file to a place where no file is. */
  lemma RelocateOne(t: Tree, t': Tree, now: map<Path, Path>, p: Path, to: Path)
    requires Relocated(t, t', now) && p in now && now[p] == p && to !in t'.files
    ensures p in t'.files && Relocated(t, Renamed(t', p, to), now[p := to])
  {
    var now', after := now[p := to], Renamed(t', p, to);
    forall q | q in after.files ensures exists x :: x in now' && now'[x] == q {
      if q == to {
        assert now'[p] == q;
      } else {
        var x :| x in now && now[x] == q;
        assert x != p && now'[x] == q;
      }
    }
  }

  // ---- Moving to the trash ----------------------------------------------------------------------------------------

  function Destination(p: Path, stamp: string): Path {
    Path([TRASH, stamp] + p.dir, p.name)
  }

  predicate InTrash(p: Path) {
    (p.dir != [] && p.dir[0] == TRASH) || (p.dir == [] && p.name == TRASH)
  }

  /** This run's trash directory is not there yet, and nothing is below it. */
  ghost predicate FreshTrash(t: Tree, stamp: string) {
    !Occupied(t, Path([TRASH], stamp)) && forall p :: Occupied(t, p) ==> !([TRASH, stamp] <= p.dir)
  }

  /** The name of the trash is a link to a directory: the files would go there, which is not part of this model. */
  predicate TrashElsewhere(t: Tree) {
    Path([], TRASH) in t.links && Exists(t, Path([], TRASH)) && !IsFile(t, Path([], TRASH))
  }

  /** The name of the trash is taken by something that is no directory: making it fails before anything is moved. */
  predicate TrashBlocked(t: Tree) {
    Occupied(t, Path([], TRASH)) && Path([], TRASH) !in t.dirs
  }

  /** Where each file is once the duplicates are in the trash. */
  function Wheres(t: Tree, dups: seq<Path>, stamp: string): map<Path, Path> {
    map p | p in t.files :: if p in dups then Destination(p, stamp) else p
  }

  /** The directories that a run makes. */
  function NewDirs(dups: seq<Path>, stamp: string): set<Path> {
    {Path([], TRASH), Path([TRASH], stamp)} + set p, d | p in dups && d in Parents(Destination(p, stamp)) :: d
  }

  /** The tree after some duplicates went to the trash. */
  ghost predicate MovedAway(t: Tree, t': Tree, dups: seq<Path>, stamp: string) {
    && Relocated(t, t', Wheres(t, dups, stamp)) && t'.links == t.links
    && t'.dirs == t.dirs + NewDirs(dups, stamp)
  }

  lemma DestinationsDiffer(p: Path, q: Path, stamp: string)
    ensures Destination(p, stamp) == Destination(q, stamp) <==> p == q
    ensures [TRASH, stamp] <= Destination(p, stamp).dir && InTrash(Destination(p, stamp))
  {
    if Destination(p, stamp) == Destination(q, stamp) {
      assert p.dir == ([TRASH, stamp] + p.dir)[2..] == ([TRASH, stamp] + q.dir)[2..] == q.dir;
    }
  }

  /** A new directory is the trash itself, this run's trash, or lies below that. */
  lemma NewDirIs(dups: seq<Path>, stamp: string, d: Path)
    requires d in NewDirs(dups, stamp)
    ensures d == Path([], TRASH) || d == Path([TRASH], stamp) || [TRASH, stamp] <= d.dir
    ensures InTrash(d)
  {
    if d != Path([], TRASH) && d != Path([TRASH], stamp) {
      var p :| p in dups && d in Parents(Destination(p, stamp));
      var dir := [TRASH, stamp] + p.dir;
      var i :| 0 <= i < |dir| && d == Path(dir[..i], dir[i]);
      assert dir[..0] == [] && dir[..1] == [TRASH];
      assert i >= 2 ==> dir[..i][..2] == [TRASH, stamp];
    }
  }

  /** A destination is still free when its file's turn comes. */
  lemma DestinationFree(t: Tree, t': Tree, dups: seq<Path>, p: Path, stamp: string)
    requires FreshTrash(t, stamp) && Relocated(t, t', Wheres(t, dups, stamp)) && p !in dups
    ensures Destination(p, stamp) !in t'.files && Destination(p, stamp) !in t.links
  {
    var to, now := Destination(p, stamp), Wheres(t, dups, stamp);
    DestinationsDiffer(p, p, stamp);
    assert !Occupied(t, to);
    forall x | x in now ensures now[x] != to {
      DestinationsDiffer(x, p, stamp);
    }
  }

  /** The tree after one more file went to the trash. */
  function Trashed(t: Tree, p: Path, stamp: string): Tree
    requires p in t.files
  {
    var to := Destination(p, stamp);
    Renamed(t, p, to).(dirs := t.dirs + Parents(to))
  }

  lemma NextOnce(paths: seq<Path>, i: nat)
    requires NoneTwice(paths) && i < |paths|
    ensures paths[i] !in paths[..i] && paths[..i + 1] == paths[..i] + [paths[i]] && paths[i] in paths
  {
  }

  lemma WheresStep(t: Tree, dups: seq<Path>, p: Path, stamp: string)
    requires p in t.files
    ensures Wheres(t, dups + [p], stamp) == Wheres(t, dups, stamp)[p := Destination(p, stamp)]
  {
  }

  lemma NewDirsStep(dups: seq<Path>, p: Path, stamp: string)
    ensures NewDirs(dups + [p], stamp) == NewDirs(dups, stamp) + Parents(Destination(p, stamp))
  {
    assert forall q :: q in dups + [p] <==> q in dups || q == p;
  }

  lemma MoveOneMore(t: Tree, t': Tree, dups: seq<Path>, p: Path, stamp: string)
    requires FreshTrash(t, stamp) && MovedAway(t, t', dups, stamp) && p in t.files && p !in dups
    ensures p in t'.files && MovedAway(t, Trashed(t', p, stamp), dups + [p], stamp)
  {
    hide NewDirs, Parents, Relocated, Wheres, FreshTrash, Destination;
    var to := Destination(p, stamp);
    DestinationFree(t, t', dups, p, stamp);
    StillAt(t, dups, p, stamp);
    RelocateOne(t, t', Wheres(t, dups, stamp), p, to);
    WheresStep(t, dups, p, stamp);
    NewDirsStep(dups, p, stamp);
    assert t'.links - {to} == t'.links;
    SameFilesRelocated(t, Renamed(t', p, to), Trashed(t', p, stamp), Wheres(t, dups + [p], stamp));
  }

  lemma StillAt(t: Tree, dups: seq<Path>, p: Path, stamp: string)
    requires p in t.files && p !in dups
    ensures p in Wheres(t, dups, stamp) && Wheres(t, dups, stamp)[p] == p
  {
  }

  lemma SameFilesRelocated(t: Tree, one: Tree, two: Tree, now: map<Path, Path>)
    requires Relocated(t, one, now) && one.files == two.files
    ensures Relocated(t, two, now)
  {
  }

  lemma NoNewDirsYet(stamp: string)
    ensures NewDirs([], stamp) == {Path([], TRASH), Path([TRASH], stamp)}
  {
  }

  /** One file after the other; a destination's directories are made as needed. */
  method MoveToTrash(t: Tree, dups: seq<Path>, stamp: string) returns (t': Tree, done: bool)
    requires FreshTrash(t, stamp) && !TrashElsewhere(t) && NoneTwice(dups) && forall p :: p in dups ==> p in t.files
    ensures done <==> !TrashBlocked(t)
    ensures if done then MovedAway(t, t', dups, stamp) else t' == t
  {
    if TrashBlocked(t) { return t, false; }
    hide Relocated, Parents, Occupied;
    done := true;
    t' := t.(dirs := t.dirs + {Path([], TRASH), Path([TRASH], stamp)});
    NothingMovedYet(t);
    NoNewDirsYet(stamp);
    assert Wheres(t, [], stamp) == map p | p in t.files :: p;
    for i := 0 to |dups|
      invariant MovedAway(t, t', dups[..i], stamp)
    {
      NextOnce(dups, i);
      MoveOneMore(t, t', dups[..i], dups[i], stamp);
      t' := Trashed(t', dups[i], stamp);
    }
    assert dups[..|dups|] == dups;
  }

  lemma AboveDestinations(p: Path, q: Path, stamp: string)
    requires Destination(p, stamp) in Parents(Destination(q, stamp))
    ensures p in Parents(q)
  {
    var to, dir := Destination(p, stamp), [TRASH, stamp] + q.dir;
    var i :| 0 <= i < |dir| && to == Path(dir[..i], dir[i]);
    assert |to.dir| == i >= 2;
    assert p.dir == to.dir[2..] == dir[..i][2..] == q.dir[..i - 2];
    assert p == Path(q.dir[..i - 2], q.dir[i - 2]);
  }

  /** A destination is no directory of another destination, because no file lies above another. */
  lemma DestinationIsNoDir(t: Tree, dups: seq<Path>, p: Path, stamp: string)
    requires WellFormed(t) && p in t.files && forall q :: q in dups ==> q in t.files
    ensures Destination(p, stamp) !in NewDirs(dups, stamp)
  {
    var to := Destination(p, stamp);
    assert |to.dir| >= 2;
    forall q | q in dups ensures to !in Parents(Destination(q, stamp)) {
      if to in Parents(Destination(q, stamp)) {
        AboveDestinations(p, q, stamp);
        assert false;
      }
    }
  }

  lemma MovedTreeIsWellFormed(t: Tree, t': Tree, dups: seq<Path>, stamp: string)
    requires WellFormed(t) && FreshTrash(t, stamp) && !TrashBlocked(t) && MovedAway(t, t', dups, stamp)
    requires forall p :: p in dups ==> p in t.files
    ensures WellFormed(t')
  {
    hide NewDirs, Parents;
    var now := Wheres(t, dups, stamp);
    forall d | d in NewDirs(dups, stamp) ensures d !in t.files && d !in t.links {
      NewDirIs(dups, stamp, d);
      assert Occupied(t, d) ==> d in t.dirs;
    }
    forall q | q in t'.files ensures q !in t'.dirs && q !in t.links && Parents(q) <= t'.dirs {
      var p :| p in now && now[p] == q;
      if p in dups {
        DestinationsDiffer(p, p, stamp);
        DestinationIsNoDir(t, dups, p, stamp);
        assert !Occupied(t, q);
        DirsOfDestination(dups, p, stamp);
      }
    }
  }

  lemma DirsOfDestination(dups: seq<Path>, p: Path, stamp: string)
    requires p in dups
    ensures Parents(Destination(p, stamp)) <= NewDirs(dups, stamp)
  {
  }

  /** The tree without some files. */
  ghost predicate Deleted(t: Tree, t': Tree, dups: seq<Path>) {
    && t'.dirs == t.dirs && t'.links == t.links && (forall p :: p in t'.files <==> p in t.files && p !in dups)
    && forall p :: p in t'.files ==> t'.files[p] == t.files[p]
  }

  method DeletePermanently(t: Tree, dups: seq<Path>) returns (t': Tree)
    ensures Deleted(t, t', dups)
  {
    t' := t;
    for i := 0 to |dups|
      invariant Deleted(t, t', dups[..i])
    {
      assert dups[..i + 1] == dups[..i] + [dups[i]];
      t' := t'.(files := t'.files - {dups[i]});
    }
    assert dups[..|dups|] == dups;
  }

  /** What a finished run does to the tree: it deletes the duplicates or moves them to its trash. */
  ghost predicate Cleaned(t: Tree, t': Tree, dups: seq<Path>, permanent: bool, stamp: string) {
    if permanent then Deleted(t, t', dups) else MovedAway(t, t', dups, stamp)
  }

  /** The removal half of a run with changes applied: decide about all matches, then move or delete them. */
  method RemoveDuplicates(t: Tree, listing: seq<Path>, excludes: Excludes, force: bool, permanent: bool,
                          stamp: string)
    returns (t': Tree, dups: seq<Path>, done: bool)
    requires NoneTwice(listing) && (forall p :: p in t.files <==> p in listing)
    requires FreshTrash(t, stamp) && !TrashElsewhere(t)
    ensures NoneTwice(dups) && forall p :: p in dups <==> Removable(t, p, excludes, force)
    ensures done <==> permanent || !TrashBlocked(t)
    ensures if done then Cleaned(t, t', dups, permanent, stamp) else t' == t
  {
    dups := FindRemovable(t, listing, excludes, force);
    if permanent {
      t' := DeletePermanently(t, dups);
      done := true;
    } else {
      t', done := MoveToTrash(t, dups, stamp);
    }
  }

  // ---- The base of every removed file, after the run --------------------------------------------------------------

  /** The path with `n` number suffixes stripped. */
  function Stripped(p: Path, n: nat): Option<Path>
    decreases n
  {
    if n == 0 then Some(p)
    else if BaseOf(p).None? then None else Stripped(BaseOf(p).value, n - 1)
  }

  /** The first name that is not itself removed when number suffixes are stripped from a removed file's name. */
  function Anchor(t: Tree, p: Path, excludes: Excludes): (r: Path)
    ensures !Removable(t, r, excludes, false)
    ensures Removable(t, p, excludes, false) ==> Exists(t, r)
    decreases |p.name|
  {
    if !Removable(t, p, excludes, false) then p else Anchor(t, BaseOf(p).value, excludes)
  }

  lemma {:induction false} AnchorIsStripped(t: Tree, p: Path, excludes: Excludes) returns (n: nat)
    ensures Stripped(p, n) == Some(Anchor(t, p, excludes))
    ensures n == 0 <==> !Removable(t, p, excludes, false)
    decreases |p.name|
  {
    hide BaseName, Exists, Excluded;
    n := 0;
    if Removable(t, p, excludes, false) {
      var m := AnchorIsStripped(t, BaseOf(p).value, excludes);
      n := m + 1;
    }
  }

  /** What the anchor leads to is a file, and one that the run does not remove. */
  predicate LeadsToKeptFile(t: Tree, p: Path, excludes: Excludes) {
    match EndOf(t, p)
    case At(q) => q in t.files && !Removable(t, q, excludes, false)
    case Outside(target) => target.ForeignFile?
    case Circle => false
  }

  lemma OutsideTrash(p: Path, excludes: Excludes)
    requires TRASH in excludes.names && !Excluded(p, excludes)
    ensures !InTrash(p)
    ensures BaseOf(p).Some? && InTrash(BaseOf(p).value) ==> BaseOf(p).value == Path([], TRASH)
  {
    if p.dir != [] { assert p.dir[0] in p.dir; }
  }

  /** A path that a file had keeps it exactly when it is not removed. */
  lemma FilesThatStay(t: Tree, t': Tree, dups: seq<Path>, permanent: bool, stamp: string, p: Path,
                      excludes: Excludes)
    requires TRASH in excludes.names && Cleaned(t, t', dups, permanent, stamp)
    requires p in t.files && (p in dups ==> IsMatch(t, p, excludes))
    ensures p in t'.files <==> p !in dups
  {
    if !permanent {
      var now := Wheres(t, dups, stamp);
      if p !in dups {
        assert now[p] == p;
      } else {
        OutsideTrash(p, excludes);
        forall x | x in now ensures now[x] != p { DestinationsDiffer(x, x, stamp); }
      }
    }
  }

  /** A path that leads to a directory or to no file of the tree still leads to no file of it. */
  lemma NoNewFilesThere(t: Tree, t': Tree, dups: seq<Path>, permanent: bool, stamp: string, p: Path)
    requires WellFormed(t) && FreshTrash(t, stamp) && Cleaned(t, t', dups, permanent, stamp)
    requires p in t.dirs
    ensures p !in t'.files
  {
    if !permanent && p in t'.files {
      var now := Wheres(t, dups, stamp);
      var x :| x in now && now[x] == p;
      DestinationsDiffer(x, x, stamp);
      assert Occupied(t, p);
    }
  }

  /**
   Without force, stripping one or more number suffixes of a removed file leads to a name that existed and was not
   removed itself. After the run that name is a file, or leads to one, if and only if what it led to was a file that
   the run does not remove: not a directory, and not a link into a removed match.
   */
  lemma RemovedHasSurvivingBase(t: Tree, t': Tree, dups: seq<Path>, permanent: bool, stamp: string, p: Path,
                                excludes: Excludes)
    returns (n: nat)
    requires WellFormed(t) && TRASH in excludes.names && FreshTrash(t, stamp) && Cleaned(t, t', dups, permanent, stamp)
    requires forall q :: q in dups <==> Removable(t, q, excludes, false)
    requires Removable(t, p, excludes, false)
    ensures var anchor := Anchor(t, p, excludes);
            && n >= 1 && Stripped(p, n) == Some(anchor) && Exists(t, anchor) && !Removable(t, anchor, excludes, false)
            && (IsFile(t', anchor) <==> LeadsToKeptFile(t, anchor, excludes))
  {
    hide Walk, Relocated;
    n := AnchorIsStripped(t, p, excludes);
    var end := EndOf(t, Anchor(t, p, excludes));
    assert EndOf(t', Anchor(t, p, excludes)) == end;
    if end.At? {
      if end.path in t.files {
        FilesThatStay(t, t', dups, permanent, stamp, end.path, excludes);
      } else {
        NoNewFilesThere(t, t', dups, permanent, stamp, end.path);
      }
    }
  }

  /** A copy, and what stands at the name that it is a copy of. */
  function CopyBeside(name: string, digits: string, dirs: set<Path>, links: map<Path, Target>): Tree {
    Tree(map[Path([], CopyName(name, digits)) := "x"], dirs, links)
  }

  ghost predicate IsCopy(name: string, digits: string, excludes: Excludes) {
    && AllDigits(digits) && BaseName(CopyName(name, digits)) == Some((name, NumberOf(digits)))
    && CopyName(name, digits) !in excludes.names && TRASH in excludes.names && CopyName(name, digits) != name
    && !RootExcluded(excludes)
  }

  lemma CopyIsRemovable(name: string, digits: string, excludes: Excludes, t: Tree)
    requires IsCopy(name, digits, excludes) && Path([], CopyName(name, digits)) in t.files && Exists(t, Path([], name))
    ensures Removable(t, Path([], CopyName(name, digits)), excludes, false)
  {
    hide CopyName, BaseName, Exists;
    assert BaseOf(Path([], CopyName(name, digits))) == Some(Path([], name));
  }

  lemma LinkEnds(links: map<Path, Target>, p: Path, q: Path)
    requires p in links && links[p] == To(q) && q !in links
    ensures Walk(links, p, {}) == At(q)
  {
  }

  /** The base is a link to the very file that it makes removable: after the run it leads nowhere. */
  lemma LinkToItsCopyDangles(name: string, digits: string, excludes: Excludes, t': Tree, dups: seq<Path>,
                             permanent: bool, stamp: string)
    requires IsCopy(name, digits, excludes)
    requires var t := CopyBeside(name, digits, {}, map[Path([], name) := To(Path([], CopyName(name, digits)))]);
             Cleaned(t, t', dups, permanent, stamp) && forall q :: q in dups <==> Removable(t, q, excludes, false)
    ensures Path([], CopyName(name, digits)) in dups && !IsFile(t', Path([], name))
  {
    hide CopyName, BaseName, Walk, Relocated, NewDirs, Removable;
    var copy, base := Path([], CopyName(name, digits)), Path([], name);
    var t := CopyBeside(name, digits, {}, map[base := To(copy)]);
    LinkEnds(t.links, base, copy);
    CopyIsRemovable(name, digits, excludes, t);
    RemovableMatches(t, copy, excludes);
    FilesThatStay(t, t', dups, permanent, stamp, copy, excludes);
  }

  lemma RemovableMatches(t: Tree, p: Path, excludes: Excludes)
    requires Removable(t, p, excludes, false)
    ensures IsMatch(t, p, excludes)
  {
  }

  /** A directory with the base's name makes its copy removable although there is no base file at all. */
  lemma DirectoryCountsAsBase(name: string, digits: string, excludes: Excludes)
    requires IsCopy(name, digits, excludes)
    ensures var t := CopyBeside(name, digits, {Path([], name)}, map[]);
            && WellFormed(t) && Removable(t, Path([], CopyName(name, digits)), excludes, false)
            && !IsFile(t, Path([], name))
  {
    hide CopyName, BaseName, Removable;
    CopyIsRemovable(name, digits, excludes, CopyBeside(name, digits, {Path([], name)}, map[]));
  }

  // ---- A second run -----------------------------------------------------------------------------------------------

  /** After a permanent deletion a second run never finds anything to remove. */
  lemma SecondRunAfterDeletion(t: Tree, t': Tree, dups: seq<Path>, excludes: Excludes)
    requires Deleted(t, t', dups) && forall p :: p in dups <==> Removable(t, p, excludes, false)
    ensures forall p :: !Removable(t', p, excludes, false)
  {
    forall p ensures !Removable(t', p, excludes, false) {
      if IsMatch(t', p, excludes) {
        assert IsMatch(t, p, excludes) && p !in dups;
      }
    }
  }

  /** The places that a run fills: the directories that it makes and the destinations of the duplicates. */
  predicate FilledBy(dups: seq<Path>, stamp: string, p: Path) {
    p in NewDirs(dups, stamp) || exists q :: q in dups && p == Destination(q, stamp)
  }

  /** A duplicate was kept because its base led to a place, empty before, that the run itself fills. */
  ghost predicate BaseBroughtIntoBeing(t: Tree, dups: seq<Path>, stamp: string, excludes: Excludes) {
    exists p :: IsMatch(t, p, excludes) && BaseFilled(t, dups, stamp, BaseOf(p).value)
  }

  predicate BaseFilled(t: Tree, dups: seq<Path>, stamp: string, base: Path) {
    !Exists(t, base) && EndOf(t, base).At? && FilledBy(dups, stamp, EndOf(t, base).path)
  }

  /** Outside the trash the run only takes away. */
  lemma OutsideTrashOnlyLess(t: Tree, t': Tree, dups: seq<Path>, stamp: string, p: Path)
    requires MovedAway(t, t', dups, stamp) && !InTrash(p)
    ensures p in t'.files <==> p in t.files && p !in dups
  {
    var now := Wheres(t, dups, stamp);
    if p in t'.files {
      var x :| x in now && now[x] == p;
      DestinationsDiffer(x, x, stamp);
    }
    if p in t.files && p !in dups { assert now[p] == p; }
  }

  /** What was not there before the run is there after it exactly when the run filled its place. */
  lemma NewlyThere(t: Tree, t': Tree, dups: seq<Path>, stamp: string, p: Path)
    requires MovedAway(t, t', dups, stamp) && (forall q :: q in dups ==> q in t.files)
    requires !(p in t.files || p in t.dirs)
    ensures p in t'.files || p in t'.dirs <==> FilledBy(dups, stamp, p)
  {
    hide NewDirs;
    var now := Wheres(t, dups, stamp);
    if p in t'.files {
      var x :| x in now && now[x] == p;
    }
    if q :| q in dups && p == Destination(q, stamp) { assert now[q] == p; }
  }

  lemma NewlyExists(t: Tree, t': Tree, dups: seq<Path>, stamp: string, base: Path)
    requires MovedAway(t, t', dups, stamp) && (forall q :: q in dups ==> q in t.files) && !Exists(t, base)
    ensures Exists(t', base) <==> BaseFilled(t, dups, stamp, base)
  {
    hide Walk, MovedAway, FilledBy;
    assert EndOf(t', base) == EndOf(t, base) by { assert MovedAway(t, t', dups, stamp); SameLinks(t, t', dups, stamp); }
    if EndOf(t, base).At? { NewlyThere(t, t', dups, stamp, EndOf(t, base).path); }
  }

  lemma SameLinks(t: Tree, t': Tree, dups: seq<Path>, stamp: string)
    requires MovedAway(t, t', dups, stamp)
    ensures t'.links == t.links
  {
  }

  /** A second run finds nothing to remove, if and only if the first one did not itself bring the base of a kept
      duplicate into being: by making its trash directory beside a numbered copy of that name, or by filling a place
      in the trash that a link with the base's name led to. */
  lemma SecondRunRemovesNothing(t: Tree, t': Tree, dups: seq<Path>, stamp: string, excludes: Excludes)
    requires TRASH in excludes.names && FreshTrash(t, stamp)
    requires forall p :: p in dups <==> Removable(t, p, excludes, false)
    requires MovedAway(t, t', dups, stamp)
    ensures (forall p :: !Removable(t', p, excludes, false)) <==> !BaseBroughtIntoBeing(t, dups, stamp, excludes)
  {
    hide MovedAway, BaseFilled, Exists, Excluded;
    forall p | IsMatch(t', p, excludes) ensures IsMatch(t, p, excludes) && !Exists(t, BaseOf(p).value) {
      OutsideTrash(p, excludes);
      OutsideTrashOnlyLess(t, t', dups, stamp, p);
    }
    forall p | Removable(t', p, excludes, false)
      ensures IsMatch(t, p, excludes) && BaseFilled(t, dups, stamp, BaseOf(p).value)
    {
      NewlyExists(t, t', dups, stamp, BaseOf(p).value);
    }
    if p :| IsMatch(t, p, excludes) && BaseFilled(t, dups, stamp, BaseOf(p).value) {
      FilledBaseWasMissing(t, dups, stamp, BaseOf(p).value);
      OutsideTrash(p, excludes);
      OutsideTrashOnlyLess(t, t', dups, stamp, p);
      NewlyExists(t, t', dups, stamp, BaseOf(p).value);
      assert Removable(t', p, excludes, false);
    }
  }

  lemma FilledBaseWasMissing(t: Tree, dups: seq<Path>, stamp: string, base: Path)
    requires BaseFilled(t, dups, stamp, base)
    ensures !Exists(t, base)
  {
  }

  lemma TrashName()
    ensures LastWhere(TRASH, IsDot) == 0
  {
    LastWhereIs(TRASH, IsDot, 0);
  }

  lemma LoneCopyOfTrash(name: string, stamp: string, excludes: Excludes)
    requires BaseName(name).Some? && BaseName(name).value.0 == TRASH && name !in excludes.names
    ensures var t := Tree(map[Path([], name) := "x"], {}, map[]);
            && (BaseBroughtIntoBeing(t, [], stamp, excludes) <==> !RootExcluded(excludes))
            && forall p :: !Removable(t, p, excludes, false)
  {
    var copy := Path([], name);
    var t := Tree(map[copy := "x"], {}, map[]);
    assert !RootExcluded(excludes) ==> IsMatch(t, copy, excludes);
    assert BaseOf(copy) == Some(Path([], TRASH));
    assert EndOf(t, Path([], TRASH)) == At(Path([], TRASH));
    assert BaseFilled(t, [], stamp, BaseOf(copy).value);
  }

  /** Such a file exists: a root that holds nothing but a copy of the trash directory's name, which the first run
      keeps; unless the root itself is excluded, where nothing ever matches. */
  lemma TrashCanHaveACopy(digits: string, stamp: string, excludes: Excludes)
    requires AllDigits(digits) && NumberOf(digits) >= 2 && CopyName(TRASH, digits) !in excludes.names
    ensures var t := Tree(map[Path([], CopyName(TRASH, digits)) := "x"], {}, map[]);
            && (BaseBroughtIntoBeing(t, [], stamp, excludes) <==> !RootExcluded(excludes))
            && forall p :: !Removable(t, p, excludes, false)
  {
    TrashName();
    CopyWithoutSuffix(TRASH, digits);
    LoneCopyOfTrash(CopyName(TRASH, digits), stamp, excludes);
  }

  // ---- Promoting a duplicate to a missing base --------------------------------------------------------------------

  datatype Match = Match(path: Path, num: nat)

  /** The duplicates of one base, in the order of the listing. */
  datatype Group = Group(base: Path, items: seq<Match>)

  ghost predicate GoodGroup(t: Tree, g: Group) {
    && g.items != []
    && forall m :: m in g.items ==>
         m.path in t.files && BaseOf(m.path) == Some(g.base) && m.num == BaseName(m.path.name).value.1
  }

  /** The first item with the lowest number. */
  function Chosen(items: seq<Match>): Match
    requires items != []
  {
    var last := items[|items| - 1];
    if |items| == 1 then last
    else
      var best := Chosen(items[..|items| - 1]);
      if last.num < best.num then last else best
  }

  lemma {:induction false} ChosenIsLowest(items: seq<Match>)
    requires items != []
    ensures Chosen(items) in items && forall m :: m in items ==> Chosen(items).num <= m.num
  {
    if |items| > 1 {
      ChosenIsLowest(items[..|items| - 1]);
      assert forall m :: m in items ==> m in items[..|items| - 1] || m == items[|items| - 1];
    }
  }

  /** The name a base is given; the option may lower-case its extension. */
  function TargetOf(base: Path, lower: string -> string): Path {
    if Suffix(base.name) == "" then base else Path(base.dir, Stem(base.name) + lower(Suffix(base.name)))
  }

  /** Groups of different bases share no file. */
  ghost predicate Apart(groups: seq<Group>) {
    forall k, m :: 0 <= k < m < |groups| ==> NoShared(groups[k], groups[m])
  }

  ghost predicate NoShared(g: Group, h: Group) {
    forall x, y :: x in g.items && y in h.items ==> x.path != y.path
  }

  lemma DifferentBasesApart(t: Tree, g: Group, h: Group)
    requires GoodGroup(t, g) && GoodGroup(t, h) && g.base != h.base
    ensures NoShared(g, h)
  {
  }

  /** A file that moved is the lowest-numbered duplicate of one of the first groups, at that group's target. */
  ghost predicate Promoted(p: Path, to: Path, groups: seq<Group>, n: nat, lower: string -> string)
    requires n <= |groups|
  {
    exists k :: 0 <= k < n && groups[k].items != [] && p == Chosen(groups[k].items).path
        && to == TargetOf(groups[k].base, lower)
  }

  ghost predicate OnlyPromotions(now: map<Path, Path>, groups: seq<Group>, n: nat, lower: string -> string)
    requires n <= |groups|
  {
    forall p :: p in now && now[p] != p ==> Promoted(p, now[p], groups, n, lower)
  }

  /** The path exists, or the file that it led to has itself been promoted. */
  ghost predicate KeptOrPromoted(t': Tree, now: map<Path, Path>, p: Path) {
    || Exists(t', p)
    || (EndOf(t', p).At? && EndOf(t', p).path in now && now[EndOf(t', p).path] != EndOf(t', p).path)
  }

  ghost predicate Provided(t': Tree, now: map<Path, Path>, base: Path, lower: string -> string) {
    KeptOrPromoted(t', now, base) || KeptOrPromoted(t', now, TargetOf(base, lower))
  }

  ghost predicate AllProvided(t': Tree, now: map<Path, Path>, groups: seq<Group>, n: nat, lower: string -> string)
    requires n <= |groups|
  {
    forall k :: 0 <= k < n ==> Provided(t', now, groups[k].base, lower)
  }

  lemma ChosenStillThere(t: Tree, now: map<Path, Path>, groups: seq<Group>, i: nat, lower: string -> string)
    requires i < |groups| && Apart(groups) && GoodGroup(t, groups[i]) && now.Keys == t.files.Keys
    requires OnlyPromotions(now, groups, i, lower)
    ensures var p := Chosen(groups[i].items).path; p in now && now[p] == p
  {
    var p := Chosen(groups[i].items).path;
    ChosenIsLowest(groups[i].items);
    assert forall k :: 0 <= k < i ==> NoShared(groups[k], groups[i]);
    if now[p] != p {
      var k :| 0 <= k < i && groups[k].items != [] && p == Chosen(groups[k].items).path;
      ChosenIsLowest(groups[k].items);
    }
  }

  /** A walk without one of the links stops at that link or goes on as before. */
  lemma {:induction false} WalkWithout(links: map<Path, Target>, to: Path, p: Path, seen: set<Path>)
    ensures Walk(links - {to}, p, seen) == At(to) || Walk(links - {to}, p, seen) == Walk(links, p, seen)
    decreases links.Keys - seen
  {
    if p in links && p !in seen && p != to && links[p].To? {
      assert p in links.Keys - seen && p !in links.Keys - (seen + {p});
      assert links.Keys - (seen + {p}) < links.Keys - seen;
      WalkWithout(links, to, links[p].path, seen + {p});
    }
  }

  lemma PromotionKeepsOne(t': Tree, now: map<Path, Path>, chosen: Path, to: Path, p: Path)
    requires KeptOrPromoted(t', now, p)
    requires chosen in t'.files && chosen in now && now[chosen] == chosen && to != chosen
    ensures KeptOrPromoted(Renamed(t', chosen, to), now[chosen := to], p)
  {
    hide Walk;
    WalkWithout(t'.links, to, p, {});
  }

  lemma PromotionKeepsProvided(t': Tree, now: map<Path, Path>, groups: seq<Group>, i: nat, lower: string -> string,
                               chosen: Path, to: Path)
    requires i < |groups| && AllProvided(t', now, groups, i, lower)
    requires chosen in t'.files && chosen in now && now[chosen] == chosen && to != chosen
    requires to == TargetOf(groups[i].base, lower)
    ensures AllProvided(Renamed(t', chosen, to), now[chosen := to], groups, i + 1, lower)
  {
    hide KeptOrPromoted, Renamed;
    forall p | KeptOrPromoted(t', now, p) ensures KeptOrPromoted(Renamed(t', chosen, to), now[chosen := to], p) {
      PromotionKeepsOne(t', now, chosen, to, p);
    }
    forall k | 0 <= k < i + 1 ensures Provided(Renamed(t', chosen, to), now[chosen := to], groups[k].base, lower) {
      if k < i {
        assert Provided(t', now, groups[k].base, lower);
      } else {
        TargetIsThere(t', now, chosen, to);
      }
    }
  }

  lemma TargetIsThere(t': Tree, now: map<Path, Path>, chosen: Path, to: Path)
    requires chosen in t'.files && to != chosen
    ensures KeptOrPromoted(Renamed(t', chosen, to), now[chosen := to], to)
  {
  }

  lemma PromotionIsOnlyChange(now: map<Path, Path>, groups: seq<Group>, i: nat, lower: string -> string)
    requires i < |groups| && OnlyPromotions(now, groups, i, lower) && groups[i].items != []
    ensures OnlyPromotions(now, groups, i + 1, lower)
    ensures OnlyPromotions(now[Chosen(groups[i].items).path := TargetOf(groups[i].base, lower)], groups, i + 1, lower)
  {
    var chosen, to := Chosen(groups[i].items).path, TargetOf(groups[i].base, lower);
    forall p | p in now && now[p] != p ensures Promoted(p, now[p], groups, i + 1, lower) {
      assert Promoted(p, now[p], groups, i, lower);
    }
    assert Promoted(chosen, to, groups, i + 1, lower);
  }

  /** A link disappears only under a promoted file. */
  ghost predicate LinksKept(t: Tree, t': Tree, now: map<Path, Path>) {
    && (forall p :: p in t'.links ==> p in t.links && t'.links[p] == t.links[p])
    && forall p :: p in t.links && p !in t'.links ==> exists q :: q in now && q != p && now[q] == p
  }

  lemma PromotionKeepsLinks(t: Tree, t': Tree, now: map<Path, Path>, chosen: Path, to: Path)
    requires LinksKept(t, t', now) && chosen in t'.files && chosen in now && now[chosen] == chosen && to != chosen
    requires chosen !in t.links
    ensures LinksKept(t, Renamed(t', chosen, to), now[chosen := to])
  {
    var now' := now[chosen := to];
    forall p | p in t.links && p !in Renamed(t', chosen, to).links
      ensures exists q :: q in now' && q != p && now'[q] == p
    {
      if p == to {
        assert now'[chosen] == p;
      } else {
        var q :| q in now && q != p && now[q] == p;
        assert now'[q] == p;
      }
    }
  }

  lemma RenamedIsWellFormed(t: Tree, from: Path, to: Path)
    requires WellFormed(t) && from in t.files && to.dir == from.dir && !Exists(t, to)
    ensures to !in t.files && to !in t.dirs && WellFormed(Renamed(t, from, to))
  {
    assert Parents(to) == Parents(from);
  }

  /** Each missing base gets its lowest-numbered duplicate. Nothing is lost or overwritten but a dangling link in a
      target's place, and every base is provided unless the file that it led to was itself promoted to a base of its
      own. */
  method RenameMissingBases(t: Tree, groups: seq<Group>, lower: string -> string)
    returns (t': Tree, ghost now: map<Path, Path>)
    requires WellFormed(t)
    requires forall i :: 0 <= i < |groups| ==> GoodGroup(t, groups[i])
    requires forall i, j :: 0 <= i < j < |groups| ==> groups[i].base != groups[j].base
    ensures WellFormed(t') && Relocated(t, t', now) && t'.dirs == t.dirs && LinksKept(t, t', now)
    ensures OnlyPromotions(now, groups, |groups|, lower) && AllProvided(t', now, groups, |groups|, lower)
  {
    hide WellFormed, Relocated, Renamed, KeptOrPromoted, LinksKept, Promoted, Exists, Walk, Suffix, Stem, BaseName;
    t' := t;
    now := map p | p in t.files :: p;
    NothingMovedYet(t);
    NoLinksLostYet(t, now);
    forall k, m | 0 <= k < m < |groups| ensures NoShared(groups[k], groups[m]) {
      DifferentBasesApart(t, groups[k], groups[m]);
    }
    for i := 0 to |groups|
      invariant WellFormed(t') && Relocated(t, t', now) && t'.dirs == t.dirs && LinksKept(t, t', now)
      invariant now.Keys == t.files.Keys
      invariant OnlyPromotions(now, groups, i, lower) && AllProvided(t', now, groups, i, lower)
    {
      var g := groups[i];
      PromotionIsOnlyChange(now, groups, i, lower);
      if Exists(t', g.base) {
        ExistingIsKept(t', now, g.base);
        continue;
      }
      var chosen, target := Chosen(g.items).path, TargetOf(g.base, lower);
      if Exists(t', target) {
        ExistingIsKept(t', now, target);
        continue;
      }
      ChosenStillThere(t, now, groups, i, lower);
      ChosenIsLowest(g.items);
      PromoteOne(t, t', now, chosen, target);
      PromotionKeepsProvided(t', now, groups, i, lower, chosen, target);
      t' := Renamed(t', chosen, target);
      now := now[chosen := target];
    }
  }

  lemma NoLinksLostYet(t: Tree, now: map<Path, Path>)
    ensures LinksKept(t, t, now)
  {
  }

  lemma ExistingIsKept(t': Tree, now: map<Path, Path>, p: Path)
    requires Exists(t', p)
    ensures KeptOrPromoted(t', now, p)
  {
  }

  /** One promotion keeps the tree in order, every file, and every link but one in the target's place. */
  lemma PromoteOne(t: Tree, t': Tree, now: map<Path, Path>, chosen: Path, to: Path)
    requires WellFormed(t) && WellFormed(t') && Relocated(t, t', now) && LinksKept(t, t', now)
    requires chosen in now && now[chosen] == chosen && to.dir == chosen.dir && !Exists(t', to)
    ensures chosen in t'.files && to != chosen
    ensures var after, now' := Renamed(t', chosen, to), now[chosen := to];
            WellFormed(after) && Relocated(t, after, now') && LinksKept(t, after, now') && after.dirs == t'.dirs
  {
    hide Exists, Parents;
    assert chosen in t'.files && chosen in t.files;
    RenamedIsWellFormed(t', chosen, to);
    RelocateOne(t, t', now, chosen, to);
    PromotionKeepsLinks(t, t', now, chosen, to);
  }
}
