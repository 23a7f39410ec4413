/** The build context: the directory walk that prunes, against the filters with and without pruning. */
module ContextWalks {
  import opened Options
  import opened Regex
  import opened Glob
  import opened DockerIgnores
  import opened Pruning
  import opened StringOrder

  /**
   A directory tree as `os.walk` presents it: of every directory the subdirectories, among which may be
   symbolic links, and the other entries. The lists may be in any order.
   */
  datatype Node = Regular | Irregular | Directory(directories: seq<Entry>, files: seq<Entry>)

  datatype Entry = Entry(name: string, node: Node)

  datatype Refused = Collision | NotRegular

  function Child(path: string, name: string): string {
    if path == "" then name else path + ("/" + name)
  }

  predicate PlainName(name: string) {
    name != "" && '/' !in name
  }

  predicate DistinctNames(entries: seq<Entry>) {
    && (forall i :: 0 <= i < |entries| ==> PlainName(entries[i].name))
    && (forall i, j :: 0 <= i < j < |entries| ==> entries[i].name != entries[j].name)
  }

  /** A tree without name collisions. */
  predicate WellFormedTree(node: Node) {
    match node
    case Directory(directories, files) =>
      && DistinctNames(directories + files)
      && (forall i :: 0 <= i < |files| ==> !files[i].node.Directory?)
      && (forall i :: 0 <= i < |directories| ==> WellFormedTree(directories[i].node))
    case _ => true
  }

  // The filters

  /** The paths of all entries of a tree that are not directories: the regular ones or the others. */
  function Leaves(regular: bool, artifacts: string, node: Node, path: string): set<string>
    decreases node
  {
    match node
    case Regular => if regular then {path} else {}
    case Irregular => if regular then {} else {path}
    case Directory(directories, files) =>
      LeavesOf(regular, artifacts, directories, path) + FileLeaves(regular, files, path)
  }

  /** The directory for build artifacts is not part of the context. */
  function LeavesOf(regular: bool, artifacts: string, directories: seq<Entry>, path: string): set<string>
    decreases directories
  {
    if directories == [] then {}
    else
      var last := directories[|directories| - 1];
      var child := Child(path, last.name);
      LeavesOf(regular, artifacts, directories[..|directories| - 1], path)
      + if child == artifacts then {} else Leaves(regular, artifacts, last.node, child)
  }

  function FileLeaves(regular: bool, files: seq<Entry>, path: string): set<string> {
    if files == [] then {}
    else
      var last := files[|files| - 1];
      FileLeaves(regular, files[..|files| - 1], path)
      + if last.node.Regular? == regular then {Child(path, last.name)} else {}
  }

  /** What the rules keep of some paths. */
  function Filter(sets: Sets, ignore: DockerIgnore, paths: set<string>): set<string> {
    set path | path in paths && Kept(sets, ignore, path)
  }

  /** What they keep outside the directories that are pruned. */
  function Selection(sets: Sets, ignore: DockerIgnore, paths: set<string>): set<string> {
    set path | path in paths && Selected(sets, ignore, path)
  }

  lemma SelectionUnion(sets: Sets, ignore: DockerIgnore, a: set<string>, b: set<string>)
    ensures Selection(sets, ignore, a + b) == Selection(sets, ignore, a) + Selection(sets, ignore, b)
  {
  }

  // Paths

  predicate Under(path: string, q: string) {
    path == "" || StartsWith(q, path + "/")
  }

  lemma ChildIsUnder(path: string, name: string)
    ensures Under(path, Child(path, name))
  {
    assert path + ("/" + name) == (path + "/") + name;
  }

  lemma UnderChild(path: string, name: string, q: string)
    requires Under(Child(path, name), q) && PlainName(name)
    ensures Under(path, q)
  {
    if path != "" {
      assert (path + ("/" + name)) + "/" == (path + "/") + (name + "/");
      assert (path + "/") <= (path + "/") + (name + "/");
    }
  }

  /** What a path has below a directory. */
  function Tail(path: string, q: string): string
    requires Under(path, q)
  {
    if path == "" then q else q[|path| + 1..]
  }

  lemma TailOfChild(path: string, name: string)
    ensures Under(path, Child(path, name)) && Tail(path, Child(path, name)) == name
  {
    ChildIsUnder(path, name);
    if path != "" {
      assert (path + ("/" + name))[|path| + 1..] == name;
    }
  }

  lemma TailUnderChild(path: string, name: string, q: string)
    requires Under(Child(path, name), q) && PlainName(name)
    ensures Under(path, q) && StartsWith(Tail(path, q), name + "/")
  {
    UnderChild(path, name, q);
    if path != "" {
      assert (path + ("/" + name)) + "/" == (path + "/") + (name + "/");
      var n := |path| + 1;
      assert ((path + "/") + (name + "/"))[n..] == name + "/";
      assert q[n..][..|name| + 1] == q[..n + |name| + 1][n..];
    }
  }

  lemma FirstComponent(a: string, b: string, s: string)
    requires PlainName(a) && PlainName(b) && StartsWith(s, a + "/") && StartsWith(s, b + "/")
    ensures a == b
  {
    assert s[|a|] == (a + "/")[|a|] == '/' && s[|b|] == (b + "/")[|b|] == '/';
    assert forall i :: 0 <= i < |a| ==> s[i] == (a + "/")[i] == a[i] && s[i] != '/';
    assert forall i :: 0 <= i < |b| ==> s[i] == (b + "/")[i] == b[i] && s[i] != '/';
  }

  lemma NameHasNoDirectory(a: string, b: string)
    requires PlainName(b)
    ensures !StartsWith(b, a + "/")
  {
    assert (a + "/")[|a|] == '/';
    assert StartsWith(b, a + "/") ==> '/' in b;
  }

  /** Different names lead to different, disjoint places. */
  lemma ChildrenAreDisjoint(path: string, a: string, b: string, q: string)
    requires PlainName(a) && PlainName(b) && a != b
    ensures Child(path, a) != Child(path, b)
    ensures !Under(Child(path, a), Child(path, b))
    ensures !(Under(Child(path, a), q) && Under(Child(path, b), q))
  {
    TailOfChild(path, a);
    TailOfChild(path, b);
    NameHasNoDirectory(a, b);
    if Under(Child(path, a), Child(path, b)) {
      TailUnderChild(path, a, Child(path, b));
    }
    if Under(Child(path, a), q) && Under(Child(path, b), q) {
      TailUnderChild(path, a, q);
      TailUnderChild(path, b, q);
      FirstComponent(a, b, Tail(path, q));
    }
  }

  // What the pruned walk leaves out

  lemma JoinedIsPath(a: string, b: string)
    requires IsPath(a) && IsPath(b)
    ensures IsPath(a + ("/" + b))
  {
    var c, n := a + ("/" + b), |a|;
    forall i | 0 <= i < |c| - 1
      ensures c[i] != '/' || c[i + 1] != '/'
    {
      if i < n - 1 {
        assert c[i] == a[i] && c[i + 1] == a[i + 1];
      } else if i == n - 1 {
        assert c[i] == a[i];
      } else {
        assert c[i + 1] == b[i - n];
        assert i > n ==> c[i] == b[i - n - 1];
      }
    }
  }

  lemma ChildIsPath(path: string, name: string)
    requires PlainName(name) && (path == "" || IsPath(path))
    ensures IsPath(Child(path, name))
  {
    if path != "" {
      JoinedIsPath(path, name);
    }
  }

  /** Where a leaf of a tree at `path` may be. */
  predicate IsPlace(path: string, q: string) {
    Under(path, q) && (path == "" || IsPath(path) ==> IsPath(q))
  }

  predicate ArePlaces(path: string, paths: set<string>) {
    forall q | q in paths :: IsPlace(path, q)
  }

  lemma PlaceOfChild(path: string, name: string)
    requires PlainName(name)
    ensures ArePlaces(path, {Child(path, name)})
  {
    ChildIsUnder(path, name);
    if path == "" || IsPath(path) {
      ChildIsPath(path, name);
    }
  }

  lemma PlacesOfChild(path: string, name: string, paths: set<string>)
    requires PlainName(name) && ArePlaces(Child(path, name), paths)
    ensures ArePlaces(path, paths)
  {
    if path == "" || IsPath(path) {
      ChildIsPath(path, name);
    }
    forall q | q in paths
      ensures Under(path, q)
    {
      UnderChild(path, name, q);
    }
  }

  lemma MorePlaces(path: string, a: set<string>, b: set<string>)
    requires ArePlaces(path, a) && ArePlaces(path, b)
    ensures ArePlaces(path, a + b)
  {
  }

  lemma TreeNames(node: Node)
    requires WellFormedTree(node) && node.Directory?
    ensures forall i :: 0 <= i < |node.directories| ==>
      PlainName(node.directories[i].name) && WellFormedTree(node.directories[i].node)
    ensures forall i :: 0 <= i < |node.files| ==> PlainName(node.files[i].name)
  {
    assert forall i :: 0 <= i < |node.directories| ==> (node.directories + node.files)[i] == node.directories[i];
    assert forall i :: 0 <= i < |node.files| ==> (node.directories + node.files)[|node.directories| + i] == node.files[i];
  }

  /** Every leaf of a tree below a directory has a path below it. */
  lemma {:induction false} LeavesAreUnder(regular: bool, artifacts: string, node: Node, path: string)
    requires WellFormedTree(node) && node.Directory?
    ensures ArePlaces(path, Leaves(regular, artifacts, node, path))
    decreases node, 1
  {
    TreeNames(node);
    LeavesOfAreUnder(regular, artifacts, node, |node.directories|, path);
    FileLeavesAreUnder(regular, node.files, path);
    assert node.directories[..|node.directories|] == node.directories;
    MorePlaces(path, LeavesOf(regular, artifacts, node.directories, path), FileLeaves(regular, node.files, path));
  }

  lemma {:induction false} LeavesOfAreUnder(regular: bool, artifacts: string, node: Node, n: nat, path: string)
    requires node.Directory? && n <= |node.directories|
    requires forall i :: 0 <= i < n ==> PlainName(node.directories[i].name) && WellFormedTree(node.directories[i].node)
    ensures ArePlaces(path, LeavesOf(regular, artifacts, node.directories[..n], path))
    decreases node, 0, n
  {
    if n > 0 {
      var last := node.directories[n - 1];
      LeavesOfAreUnder(regular, artifacts, node, n - 1, path);
      assert node.directories[..n][..n - 1] == node.directories[..n - 1];
      EntryLeavesAreUnder(regular, artifacts, last, path);
      MorePlaces(path, LeavesOf(regular, artifacts, node.directories[..n - 1], path),
        if Child(path, last.name) == artifacts then {} else Leaves(regular, artifacts, last.node, Child(path, last.name)));
    }
  }

  lemma EntryLeavesAreUnder(regular: bool, artifacts: string, entry: Entry, path: string)
    requires PlainName(entry.name) && WellFormedTree(entry.node)
    ensures ArePlaces(path, Leaves(regular, artifacts, entry.node, Child(path, entry.name)))
    decreases entry.node, 2
  {
    PlaceOfChild(path, entry.name);
    if entry.node.Directory? {
      LeavesAreUnder(regular, artifacts, entry.node, Child(path, entry.name));
      PlacesOfChild(path, entry.name, Leaves(regular, artifacts, entry.node, Child(path, entry.name)));
    }
  }

  lemma {:induction false} FileLeavesAreUnder(regular: bool, files: seq<Entry>, path: string)
    requires forall i :: 0 <= i < |files| ==> PlainName(files[i].name)
    ensures ArePlaces(path, FileLeaves(regular, files, path))
    decreases |files|
  {
    if files != [] {
      var last := files[|files| - 1];
      FileLeavesAreUnder(regular, files[..|files| - 1], path);
      PlaceOfChild(path, last.name);
      MorePlaces(path, FileLeaves(regular, files[..|files| - 1], path),
        if last.node.Regular? == regular then {Child(path, last.name)} else {});
    }
  }

  lemma BelowPrunedIsNotSelected(sets: Sets, ignore: DockerIgnore, directory: string, path: string)
    requires StartsWith(path, directory + "/") && Pruned(sets, ignore, directory)
    ensures !Selected(sets, ignore, path)
  {
    assert (directory + "/")[|directory|] == '/' == path[|directory|];
    assert directory == (directory + "/")[..|directory|] == path[..|directory|];
  }

  /** Nothing below a pruned directory is selected, nor an entry that is not kept. */
  lemma PrunedLeaves(sets: Sets, ignore: DockerIgnore, regular: bool, artifacts: string, node: Node, path: string)
    requires WellFormedTree(node) && path != ""
    requires !Kept(sets, ignore, path) && (node.Directory? ==> !CouldIncludeDescendant(ignore, path))
    ensures Selection(sets, ignore, Leaves(regular, artifacts, node, path)) == {}
  {
    if node.Directory? {
      LeavesAreUnder(regular, artifacts, node, path);
      forall q | q in Leaves(regular, artifacts, node, path)
        ensures !Selected(sets, ignore, q)
      {
        BelowPrunedIsNotSelected(sets, ignore, path, q);
      }
    }
  }

  /** A directory the walk has entered: neither it nor one above it is pruned. */
  predicate Entered(sets: Sets, ignore: DockerIgnore, path: string) {
    path == "" ||
    (!Pruned(sets, ignore, path) && forall i | 0 <= i < |path| && path[i] == '/' :: !Pruned(sets, ignore, path[..i]))
  }

  /** In such a directory the entries that are kept are selected, and the others can be entered unless pruned. */
  lemma EnteredChild(sets: Sets, ignore: DockerIgnore, path: string, name: string)
    requires Entered(sets, ignore, path) && PlainName(name)
    ensures var child := Child(path, name);
      && (Selected(sets, ignore, child) <==> Kept(sets, ignore, child))
      && (Entered(sets, ignore, child) <==> !Pruned(sets, ignore, child))
  {
    var child := Child(path, name);
    var n := if path == "" then 0 else |path| + 1;
    assert child[n..] == name;
    assert forall i :: n <= i < |child| ==> child[i] == child[n..][i - n] == name[i - n];
    assert forall i :: 0 <= i < n <= |child| && i <= |path| ==> child[..i] == path[..i];
    assert path[..|path|] == path;
  }

  // The walk

  class Walk {
    const sets: Sets
    const ignore: DockerIgnore
    const artifacts: string
    var files: seq<string>
    var seen: set<string>

    constructor (sets: Sets, ignore: DockerIgnore, artifacts: string)
      ensures Valid() && files == [] && seen == {}
      ensures this.sets == sets && this.ignore == ignore && this.artifacts == artifacts
    {
      this.sets, this.ignore, this.artifacts := sets, ignore, artifacts;
      files, seen := [], {};
    }

    predicate Valid()
      reads this
    {
      NoDuplicates(files) && Members(files) <= seen
    }

    function Wanted(directories: seq<Entry>, path: string): set<string> {
      Selection(sets, ignore, LeavesOf(true, artifacts, directories, path))
    }

    function Unwanted(directories: seq<Entry>, path: string): set<string> {
      Selection(sets, ignore, LeavesOf(false, artifacts, directories, path))
    }

    /** `inspect`: is the entry kept? A kept path must be new. */
    method Inspect(path: string) returns (r: Result<bool, Refused>)
      modifies this`seen
      ensures r == if Kept(sets, ignore, path) && path in old(seen) then Err(Collision) else Ok(Kept(sets, ignore, path))
      ensures seen == if Kept(sets, ignore, path) then old(seen) + {path} else old(seen)
    {
      if path != "Dockerfile" && path != ".dockerignore" {
        var excluded := Excludes(sets, ignore, path);
        if excluded {
          return Ok(false);
        }
      }
      if path in seen {
        return Err(Collision);
      }
      seen := seen + {path};
      return Ok(true);
    }

    method Append(path: string)
      requires Valid() && path in seen && path !in files
      modifies this`files
      ensures Valid() && Members(files) == Members(old(files)) + {path}
    {
      assert forall x :: x in files + [path] <==> x in files || x == path;
      files := files + [path];
    }

    /** What the first loop does with one subdirectory; the answer says whether it is to be walked. */
    method InspectDirectory(entry: Entry, child: string) returns (r: Result<bool, Refused>)
      requires Valid() && child != "" && (Selected(sets, ignore, child) <==> Kept(sets, ignore, child))
      requires WellFormedTree(entry.node)
      modifies this`files, this`seen
      ensures Valid() && old(seen) <= seen <= old(seen) + {child}
      ensures r == Err(Collision) ==> child in old(seen)
      ensures r == Err(NotRegular) ==> entry.node.Irregular? && Selected(sets, ignore, child)
      ensures r == Ok(true) ==>
        files == old(files) && !Pruned(sets, ignore, child) && (entry.node.Directory? || !Kept(sets, ignore, child))
      ensures r == Ok(false) ==>
        && Members(files) == Members(old(files)) + Selection(sets, ignore, Leaves(true, artifacts, entry.node, child))
        && Selection(sets, ignore, Leaves(false, artifacts, entry.node, child)) == {}
    {
      var kept := Inspect(child);
      if kept.Err? {
        return Err(kept.error);
      }
      if !kept.value {
        var could := CouldIncludeDescendant(ignore, child);
        if !could {
          PrunedLeaves(sets, ignore, true, artifacts, entry.node, child);
          PrunedLeaves(sets, ignore, false, artifacts, entry.node, child);
        }
        return Ok(could);
      }
      if entry.node.Directory? {
        return Ok(true);
      }
      if !entry.node.Regular? {
        return Err(NotRegular);
      }
      assert child !in Members(files);
      Append(child);
      return Ok(false);
    }

    /** What was listed and what is still to be walked make up what the subdirectories done hold. */
    ghost predicate Balanced(before: set<string>, included: seq<Entry>, done: seq<Entry>, path: string)
      reads this
    {
      && Members(files) + Wanted(included, path) == before + Wanted(done, path)
      && Unwanted(included, path) == Unwanted(done, path)
      && ToWalk(included, done, path)
    }

    /** One round of the first loop. */
    method IncludeDirectory(entry: Entry, path: string, included: seq<Entry>, ghost before: set<string>, ghost done: seq<Entry>)
      returns (r: Result<seq<Entry>, Refused>)
      requires Valid() && Entered(sets, ignore, path) && WellFormedTree(entry.node)
      requires DistinctNames(done + [entry]) && Balanced(before, included, done, path)
      modifies this`files, this`seen
      ensures Valid() && old(seen) <= seen <= old(seen) + {Child(path, entry.name)}
      ensures r.Ok? ==> Balanced(before, r.value, done + [entry], path)
      ensures r == Err(Collision) ==> Child(path, entry.name) in old(seen)
      ensures r == Err(NotRegular) ==>
        && entry.node.Irregular? && Child(path, entry.name) != artifacts
        && Selected(sets, ignore, Child(path, entry.name))
    {
      var child := Child(path, entry.name);
      assert (done + [entry])[|done|] == entry;
      EnteredChild(sets, ignore, path, entry.name);
      OneMore(done, entry, path);
      ToWalkStays(included, done, entry, path);
      if child == artifacts {
        return Ok(included);
      }
      var walk := InspectDirectory(entry, child);
      if walk.Err? {
        return Err(walk.error);
      }
      if !walk.value {
        return Ok(included);
      }
      OneMore(included, entry, path);
      ToWalkMore(included, done, entry, path);
      return Ok(included + [entry]);
    }

    lemma ToWalkStays(included: seq<Entry>, before: seq<Entry>, entry: Entry, path: string)
      requires ToWalk(included, before, path)
      ensures ToWalk(included, before + [entry], path)
    {
    }

    /** The first loop over a directory: its subdirectories, of which some are to be walked. */
    method InspectDirectories(directories: seq<Entry>, path: string) returns (r: Result<seq<Entry>, Refused>)
      requires Valid() && Entered(sets, ignore, path) && DistinctNames(directories)
      requires forall i :: 0 <= i < |directories| ==> WellFormedTree(directories[i].node)
      requires ChildrenAreNew(seen, directories, path)
      modifies this`files, this`seen
      ensures Valid() && old(seen) <= seen && OnlyChildrenAdded(old(seen), directories, path)
      ensures r.Ok? ==> Balanced(Members(old(files)), r.value, directories, path)
      ensures r.Err? ==> r.error == NotRegular && Unwanted(directories, path) != {}
    {
      var included: seq<Entry> := [];
      ghost var done: seq<Entry> := [];
      for n := 0 to |directories|
        invariant Valid() && old(seen) <= seen && OnlyChildrenAdded(old(seen), done, path)
        invariant done == directories[..n]
        invariant Balanced(Members(old(files)), included, done, path)
      {
        var entry := directories[n];
        DistinctPrefix(directories, n);
        NewChild(old(seen), done, entry, path);
        label before:
        var more := IncludeDirectory(entry, path, included, Members(old(files)), done);
        if more.Err? {
          assert more.error == NotRegular by { assert Child(path, entry.name) !in old@before(seen); }
          UnwantedLink(directories, n, path);
          OnlyChildrenMonotone(old(seen), directories, n + 1, path);
          return Err(more.error);
        }
        included := more.value;
        done := done + [entry];
      }
      assert done == directories;
      return Ok(included);
    }

    ghost predicate ChildrenAreNew(before: set<string>, entries: seq<Entry>, path: string) {
      forall i :: 0 <= i < |entries| ==> Child(path, entries[i].name) !in before
    }

    ghost predicate OnlyChildrenAdded(before: set<string>, entries: seq<Entry>, path: string)
      reads this
    {
      forall q :: q in seen ==> q in before || IsChild(q, entries, path)
    }

    lemma OnlyChildrenMonotone(before: set<string>, entries: seq<Entry>, n: nat, path: string)
      requires n <= |entries| && OnlyChildrenAdded(before, entries[..n], path)
      ensures OnlyChildrenAdded(before, entries, path)
    {
      forall q | IsChild(q, entries[..n], path)
        ensures IsChild(q, entries, path)
      {
        var i :| 0 <= i < n && q == Child(path, entries[..n][i].name);
        assert entries[i] == entries[..n][i];
      }
    }

    predicate IsChild(q: string, entries: seq<Entry>, path: string) {
      exists i | 0 <= i < |entries| :: q == Child(path, entries[i].name)
    }

    /** The entries to walk are some of the subdirectories, or entries that are not kept and no directories. */
    ghost predicate ToWalk(included: seq<Entry>, directories: seq<Entry>, path: string) {
      && DistinctNames(included)
      && forall i :: 0 <= i < |included| ==>
        && included[i] in directories && Child(path, included[i].name) != artifacts
        && !Pruned(sets, ignore, Child(path, included[i].name))
        && (included[i].node.Directory? || !Kept(sets, ignore, Child(path, included[i].name)))
    }

    lemma ToWalkMore(included: seq<Entry>, before: seq<Entry>, entry: Entry, path: string)
      requires ToWalk(included, before, path) && DistinctNames(before + [entry])
      requires Child(path, entry.name) != artifacts && !Pruned(sets, ignore, Child(path, entry.name))
      requires entry.node.Directory? || !Kept(sets, ignore, Child(path, entry.name))
      ensures ToWalk(included + [entry], before + [entry], path)
    {
      var all := before + [entry];
      assert all[|before|] == entry;
      forall i | 0 <= i < |included|
        ensures included[i].name != entry.name
      {
        var j :| 0 <= j < |before| && before[j] == included[i];
        assert all[j] == before[j];
      }
    }

    /** The next entry's path is new, and afterwards only paths of entries have been added. */
    lemma NewChild(before: set<string>, done: seq<Entry>, entry: Entry, path: string)
      requires DistinctNames(done + [entry])
      requires Child(path, entry.name) !in before && OnlyChildrenAdded(before, done, path)
      ensures Child(path, entry.name) !in seen
      ensures forall q :: q in seen + {Child(path, entry.name)} ==> q in before || IsChild(q, done + [entry], path)
    {
      var all := done + [entry];
      assert all[|done|] == entry;
      forall i | 0 <= i < |done|
        ensures Child(path, done[i].name) != Child(path, entry.name)
      {
        assert all[i] == done[i];
        ChildrenAreDisjoint(path, done[i].name, entry.name, "");
      }
      forall q | IsChild(q, done, path)
        ensures IsChild(q, all, path)
      {
        var i :| 0 <= i < |done| && q == Child(path, done[i].name);
        assert all[i] == done[i];
      }
      assert IsChild(Child(path, entry.name), all, path);
    }

    lemma DistinctPrefix(entries: seq<Entry>, n: nat)
      requires DistinctNames(entries) && n < |entries|
      ensures entries[..n + 1] == entries[..n] + [entries[n]] && DistinctNames(entries[..n] + [entries[n]])
    {
    }

    /** One more directory entry adds what is kept of its own tree. */
    lemma OneMore(entries: seq<Entry>, entry: Entry, path: string)
      ensures Child(path, entry.name) == artifacts ==>
        Wanted(entries + [entry], path) == Wanted(entries, path) && Unwanted(entries + [entry], path) == Unwanted(entries, path)
      ensures Child(path, entry.name) != artifacts ==>
        && Wanted(entries + [entry], path) ==
          Wanted(entries, path) + Selection(sets, ignore, Leaves(true, artifacts, entry.node, Child(path, entry.name)))
        && Unwanted(entries + [entry], path) ==
          Unwanted(entries, path) + Selection(sets, ignore, Leaves(false, artifacts, entry.node, Child(path, entry.name)))
    {
      var all := entries + [entry];
      assert all[..|all| - 1] == entries && all[|all| - 1] == entry;
      var child := Child(path, entry.name);
      forall regular: bool
        ensures Selection(sets, ignore, LeavesOf(regular, artifacts, all, path)) == Selection(sets, ignore, LeavesOf(regular, artifacts, entries, path))
          + if child == artifacts then {} else Selection(sets, ignore, Leaves(regular, artifacts, entry.node, child))
      {
        SelectionUnion(sets, ignore, LeavesOf(regular, artifacts, entries, path),
          if child == artifacts then {} else Leaves(regular, artifacts, entry.node, child));
      }
    }

    /** What is unwanted of one entry is unwanted of the list. */
    lemma {:induction false} UnwantedEntry(directories: seq<Entry>, n: nat, path: string)
      requires n < |directories| && Child(path, directories[n].name) != artifacts
      ensures Selection(sets, ignore, Leaves(false, artifacts, directories[n].node, Child(path, directories[n].name)))
        <= Unwanted(directories, path)
      decreases |directories|
    {
      var last := directories[|directories| - 1];
      assert directories == directories[..|directories| - 1] + [last];
      OneMore(directories[..|directories| - 1], last, path);
      if n < |directories| - 1 {
        UnwantedEntry(directories[..|directories| - 1], n, path);
      }
    }

    /** A kept symbolic link is unwanted. */
    lemma UnwantedLink(directories: seq<Entry>, n: nat, path: string)
      requires n < |directories| && directories[n].node.Irregular?
      requires Child(path, directories[n].name) != artifacts && Selected(sets, ignore, Child(path, directories[n].name))
      ensures Unwanted(directories, path) != {}
    {
      UnwantedEntry(directories, n, path);
      assert Child(path, directories[n].name) in Unwanted(directories, path);
    }

    /** One round of the second loop. */
    method IncludeFile(entry: Entry, path: string, ghost before: set<string>, ghost done: seq<Entry>)
      returns (r: Result<(), Refused>)
      requires Valid() && !entry.node.Directory? && Listed(before, done, path)
      requires Entered(sets, ignore, path) && PlainName(entry.name)
      modifies this`files, this`seen
      ensures Valid() && old(seen) <= seen <= old(seen) + {Child(path, entry.name)}
      ensures r.Ok? ==> Listed(before, done + [entry], path)
      ensures r == Err(Collision) ==> Child(path, entry.name) in old(seen)
      ensures r == Err(NotRegular) ==> !entry.node.Regular? && Selected(sets, ignore, Child(path, entry.name))
    {
      var child := Child(path, entry.name);
      OneMoreFile(done, entry, path);
      EnteredChild(sets, ignore, path, entry.name);
      var kept := Inspect(child);
      if kept.Err? {
        return Err(kept.error);
      }
      if kept.value {
        if !entry.node.Regular? {
          return Err(NotRegular);
        }
        assert child !in Members(files);
        Append(child);
      }
      return Ok(());
    }

    /** The second loop over a directory: its other entries. */
    method InspectFiles(entries: seq<Entry>, path: string) returns (r: Result<(), Refused>)
      requires Valid() && Entered(sets, ignore, path) && DistinctNames(entries) && ChildrenAreNew(seen, entries, path)
      requires forall i :: 0 <= i < |entries| ==> !entries[i].node.Directory?
      modifies this`files, this`seen
      ensures Valid() && old(seen) <= seen && OnlyChildrenAdded(old(seen), entries, path)
      ensures r.Ok? ==> Listed(Members(old(files)), entries, path)
      ensures r.Err? ==> r.error == NotRegular && Selection(sets, ignore, FileLeaves(false, entries, path)) != {}
    {
      ghost var done: seq<Entry> := [];
      for n := 0 to |entries|
        invariant Valid() && old(seen) <= seen && OnlyChildrenAdded(old(seen), done, path)
        invariant done == entries[..n]
        invariant Listed(Members(old(files)), done, path)
      {
        var entry := entries[n];
        DistinctPrefix(entries, n);
        NewChild(old(seen), done, entry, path);
        label before:
        var included := IncludeFile(entry, path, Members(old(files)), done);
        if included.Err? {
          assert included.error == NotRegular by { assert Child(path, entry.name) !in old@before(seen); }
          UnwantedFile(entries, n, path);
          OnlyChildrenMonotone(old(seen), entries, n + 1, path);
          return Err(included.error);
        }
        done := done + [entry];
      }
      assert done == entries;
      return Ok(());
    }

    ghost predicate Listed(before: set<string>, done: seq<Entry>, path: string)
      reads this
    {
      && Members(files) == before + Selection(sets, ignore, FileLeaves(true, done, path))
      && Selection(sets, ignore, FileLeaves(false, done, path)) == {}
    }

    lemma OneMoreFile(entries: seq<Entry>, entry: Entry, path: string)
      ensures forall regular: bool ::
        Selection(sets, ignore, FileLeaves(regular, entries + [entry], path)) == Selection(sets, ignore, FileLeaves(regular, entries, path))
          + if entry.node.Regular? == regular && Selected(sets, ignore, Child(path, entry.name)) then {Child(path, entry.name)} else {}
    {
      var all := entries + [entry];
      assert all[..|all| - 1] == entries && all[|all| - 1] == entry;
    }

    lemma {:induction false} UnwantedFile(entries: seq<Entry>, n: nat, path: string)
      requires n < |entries| && !entries[n].node.Regular? && Selected(sets, ignore, Child(path, entries[n].name))
      ensures Selection(sets, ignore, FileLeaves(false, entries, path)) != {}
      decreases |entries|
    {
      var last := entries[|entries| - 1];
      assert entries == entries[..|entries| - 1] + [last];
      OneMoreFile(entries[..|entries| - 1], last, path);
      if n < |entries| - 1 {
        UnwantedFile(entries[..|entries| - 1], n, path);
      }
    }

    // The whole walk

    /** Nothing that was seen lies below a directory. */
    ghost predicate NothingSeenUnder(path: string)
      reads this
    {
      forall q :: q in seen ==> !Under(path, q)
    }

    /** What was seen since lies below the directory. */
    ghost predicate SeenUnder(before: set<string>, path: string)
      reads this
    {
      forall q :: q in seen ==> q in before || Under(path, q)
    }

    /** The two lists of a directory have new names of their own. */
    lemma SplitDirectory(node: Node, path: string)
      requires node.Directory? && WellFormedTree(node) && NothingSeenUnder(path)
      ensures DistinctNames(node.directories) && DistinctNames(node.files)
      ensures ChildrenAreNew(seen, node.directories, path)
      ensures ChildrenAreNew(seen, node.files, path)
      ensures forall q :: IsChild(q, node.directories, path) ==> !IsChild(q, node.files, path)
    {
      var (ds, fs) := (node.directories, node.files);
      var all := ds + fs;
      assert forall i :: 0 <= i < |ds| ==> all[i] == ds[i];
      assert forall i :: 0 <= i < |fs| ==> all[|ds| + i] == fs[i];
      forall name: string
        ensures Under(path, Child(path, name))
      {
        ChildIsUnder(path, name);
      }
      forall i, j | 0 <= i < |ds| && 0 <= j < |fs|
        ensures Child(path, ds[i].name) != Child(path, fs[j].name)
      {
        ChildrenAreDisjoint(path, ds[i].name, fs[j].name, "");
      }
    }

    lemma FilesStayNew(before: set<string>, node: Node, path: string)
      requires node.Directory? && ChildrenAreNew(before, node.files, path)
      requires OnlyChildrenAdded(before, node.directories, path)
      requires forall q :: IsChild(q, node.directories, path) ==> !IsChild(q, node.files, path)
      ensures ChildrenAreNew(seen, node.files, path)
    {
      assert forall i :: 0 <= i < |node.files| ==> IsChild(Child(path, node.files[i].name), node.files, path);
    }

    /** Both loops over one directory. */
    method InspectEntries(node: Node, path: string) returns (r: Result<seq<Entry>, Refused>)
      requires node.Directory? && WellFormedTree(node) && Entered(sets, ignore, path)
      requires Valid() && NothingSeenUnder(path)
      modifies this`files, this`seen
      ensures Valid() && SeenUnder(old(seen), path)
      ensures r.Ok? ==>
        && Members(files) + Wanted(r.value, path) == Members(old(files)) + Selection(sets, ignore, Leaves(true, artifacts, node, path))
        && Unwanted(r.value, path) == Selection(sets, ignore, Leaves(false, artifacts, node, path))
        && ToWalk(r.value, node.directories, path) && ReadyToWalk(r.value, 0, path)
      ensures r.Err? ==> r.error == NotRegular && Selection(sets, ignore, Leaves(false, artifacts, node, path)) != {}
    {
      ghost var before := seen;
      SplitDirectory(node, path);
      LeavesOfDirectory(node, path);
      var included := InspectDirectories(node.directories, path);
      if included.Err? {
        ChildrenAreUnder(before, node, path);
        return Err(included.error);
      }
      FilesStayNew(before, node, path);
      ghost var files1 := Members(files);
      var listed := InspectFiles(node.files, path);
      ChildrenAreUnder(before, node, path);
      if listed.Err? {
        return Err(listed.error);
      }
      IncludedAreReady(before, included.value, node, path);
      return Ok(included.value);
    }

    /** What is kept of a directory is what is kept of its two lists. */
    lemma LeavesOfDirectory(node: Node, path: string)
      requires node.Directory?
      ensures Selection(sets, ignore, Leaves(true, artifacts, node, path))
        == Wanted(node.directories, path) + Selection(sets, ignore, FileLeaves(true, node.files, path))
      ensures Selection(sets, ignore, Leaves(false, artifacts, node, path))
        == Unwanted(node.directories, path) + Selection(sets, ignore, FileLeaves(false, node.files, path))
    {
      SelectionUnion(sets, ignore, LeavesOf(true, artifacts, node.directories, path), FileLeaves(true, node.files, path));
      SelectionUnion(sets, ignore, LeavesOf(false, artifacts, node.directories, path), FileLeaves(false, node.files, path));
    }

    /** Only entries of the directory have been added to what was seen before. */
    ghost predicate EntriesAdded(before: set<string>, node: Node, path: string)
      requires node.Directory?
      reads this
    {
      forall q :: q in seen ==> q in before || IsChild(q, node.directories, path) || IsChild(q, node.files, path)
    }

    lemma ChildrenAreUnder(before: set<string>, node: Node, path: string)
      requires node.Directory? && EntriesAdded(before, node, path)
      ensures SeenUnder(before, path)
    {
      forall name: string
        ensures Under(path, Child(path, name))
      {
        ChildIsUnder(path, name);
      }
    }

    /** Nothing seen lies below the entries still to be walked. */
    ghost predicate ReadyToWalk(included: seq<Entry>, n: nat, path: string)
      reads this
    {
      forall i :: n <= i < |included| ==> NothingSeenUnder(Child(path, included[i].name))
    }

    lemma IncludedAreReady(before: set<string>, included: seq<Entry>, node: Node, path: string)
      requires node.Directory? && WellFormedTree(node) && EntriesAdded(before, node, path)
      requires forall q :: q in before ==> !Under(path, q)
      requires ToWalk(included, node.directories, path)
      ensures ReadyToWalk(included, 0, path)
    {
      forall i, q | 0 <= i < |included| && q in seen
        ensures !Under(Child(path, included[i].name), q)
      {
        var name := included[i].name;
        if q in before {
          if Under(Child(path, name), q) {
            UnderChild(path, name, q);
          }
        } else {
          NotUnderSibling(node, name, path, q);
        }
      }
    }

    lemma NotUnderSibling(node: Node, name: string, path: string, q: string)
      requires node.Directory? && WellFormedTree(node) && PlainName(name)
      requires IsChild(q, node.directories, path) || IsChild(q, node.files, path)
      ensures !Under(Child(path, name), q)
    {
      var all := node.directories + node.files;
      assert forall i :: 0 <= i < |node.directories| ==> all[i] == node.directories[i];
      assert forall i :: 0 <= i < |node.files| ==> all[|node.directories| + i] == node.files[i];
      var i :| 0 <= i < |all| && q == Child(path, all[i].name);
      ChildIsNotBelow(path, name, all[i].name);
    }

    lemma ChildIsNotBelow(path: string, a: string, b: string)
      requires PlainName(a) && PlainName(b)
      ensures !Under(Child(path, a), Child(path, b))
    {
      if a != b {
        ChildrenAreDisjoint(path, a, b, "");
      }
    }

    /** The walk goes into directories only: symbolic links are not followed. */
    method WalkEntry(entry: Entry, path: string) returns (r: Result<(), Refused>)
      requires WellFormedTree(entry.node) && PlainName(entry.name)
      requires Entered(sets, ignore, path) && !Pruned(sets, ignore, Child(path, entry.name))
      requires Valid() && NothingSeenUnder(Child(path, entry.name))
      requires entry.node.Directory? || !Kept(sets, ignore, Child(path, entry.name))
      modifies this`files, this`seen
      ensures Valid() && SeenUnder(old(seen), Child(path, entry.name))
      ensures var child := Child(path, entry.name);
        && (r.Ok? ==>
          && Members(files) == Members(old(files)) + Selection(sets, ignore, Leaves(true, artifacts, entry.node, child))
          && Selection(sets, ignore, Leaves(false, artifacts, entry.node, child)) == {})
        && (r.Err? ==> r.error == NotRegular && Selection(sets, ignore, Leaves(false, artifacts, entry.node, child)) != {})
      decreases entry.node, 2
    {
      if entry.node.Directory? {
        EnteredChild(sets, ignore, path, entry.name);
        r := WalkDirectory(entry.node, Child(path, entry.name));
      } else {
        NotKeptLeaf(entry.node, Child(path, entry.name));
        r := Ok(());
      }
    }

    /** The recursion of the walk into the entries that were included. */
    method WalkIncluded(ghost node: Node, included: seq<Entry>, path: string) returns (r: Result<(), Refused>)
      requires node.Directory? && WellFormedTree(node) && Entered(sets, ignore, path)
      requires Valid()
      requires ToWalk(included, node.directories, path) && ReadyToWalk(included, 0, path)
      modifies this`files, this`seen
      ensures Valid() && SeenUnder(old(seen), path)
      ensures r.Ok? ==> Members(files) == Members(old(files)) + Wanted(included, path) && Unwanted(included, path) == {}
      ensures r.Err? ==> r.error == NotRegular && Unwanted(included, path) != {}
      decreases node, 0
    {
      ghost var done: seq<Entry> := [];
      for n := 0 to |included|
        invariant Valid() && SeenUnder(old(seen), path) && ReadyToWalk(included, n, path)
        invariant done == included[..n]
        invariant Members(files) == Members(old(files)) + Wanted(done, path) && Unwanted(done, path) == {}
      {
        var entry := included[n];
        assert included[..n + 1] == done + [entry];
        OneMore(done, entry, path);
        assert entry in node.directories;
        label before:
        ghost var wanted := Wanted(done, path);
        var walked := WalkEntry(entry, path);
        AddedTwice(Members(old(files)), wanted, Selection(sets, ignore, Leaves(true, artifacts, entry.node, Child(path, entry.name))));
        SeenUnderChild(old(seen), old@before(seen), entry.name, path);
        if walked.Err? {
          UnwantedEntry(included, n, path);
          return Err(walked.error);
        }
        StillReady(old@before(seen), included, n, path);
        done := done + [entry];
      }
      assert done == included;
      return Ok(());
    }

    lemma AddedTwice(a: set<string>, b: set<string>, c: set<string>)
      ensures (a + b) + c == a + (b + c)
    {
    }

    lemma NotKeptLeaf(node: Node, path: string)
      requires !node.Directory? && !Kept(sets, ignore, path)
      ensures forall regular: bool :: Selection(sets, ignore, Leaves(regular, artifacts, node, path)) == {}
    {
    }

    lemma SeenUnderChild(first: set<string>, before: set<string>, name: string, path: string)
      requires PlainName(name) && SeenUnder(before, Child(path, name))
      requires forall q :: q in before ==> q in first || Under(path, q)
      ensures SeenUnder(first, path)
    {
      forall q | Under(Child(path, name), q)
        ensures Under(path, q)
      {
        UnderChild(path, name, q);
      }
    }

    lemma StillReady(before: set<string>, included: seq<Entry>, n: nat, path: string)
      requires n < |included| && DistinctNames(included)
      requires SeenUnder(before, Child(path, included[n].name))
      requires forall i, q :: n <= i < |included| && q in before ==> !Under(Child(path, included[i].name), q)
      ensures ReadyToWalk(included, n + 1, path)
    {
      forall i, q | n < i < |included| && q in seen
        ensures !Under(Child(path, included[i].name), q)
      {
        ChildrenAreDisjoint(path, included[n].name, included[i].name, q);
      }
    }

    /**
     The walk of one directory. It lists the regular files below that are selected, and fails only when
     something else is.
     */
    method WalkDirectory(node: Node, path: string) returns (r: Result<(), Refused>)
      requires node.Directory? && WellFormedTree(node) && Entered(sets, ignore, path)
      requires Valid() && NothingSeenUnder(path)
      modifies this`files, this`seen
      ensures Valid() && SeenUnder(old(seen), path)
      ensures r.Ok? ==>
        && Members(files) == Members(old(files)) + Selection(sets, ignore, Leaves(true, artifacts, node, path))
        && Selection(sets, ignore, Leaves(false, artifacts, node, path)) == {}
      ensures r.Err? ==> r.error == NotRegular && Selection(sets, ignore, Leaves(false, artifacts, node, path)) != {}
      decreases node, 1
    {
      var included := InspectEntries(node, path);
      if included.Err? {
        return Err(included.error);
      }
      r := WalkIncluded(node, included.value, path);
    }
  }

  /**
   `_context_files`. For every tree without name collisions and all rules the walk gives exactly the sorted
   list of the regular files that are kept and lie in no pruned directory; it fails exactly when something
   else is selected.
   */
  method ContextFiles(sets: Sets, ignore: DockerIgnore, artifacts: string, root: Node)
    returns (r: Result<seq<string>, Refused>)
    requires root.Directory? && WellFormedTree(root)
    ensures r.Ok? <==> Selection(sets, ignore, Leaves(false, artifacts, root, "")) == {}
    ensures r.Ok? ==> Increasing(r.value) && Members(r.value) == Selection(sets, ignore, Leaves(true, artifacts, root, ""))
    ensures r.Err? ==> r.error == NotRegular
  {
    var walk := new Walk(sets, ignore, artifacts);
    var walked := walk.WalkDirectory(root, "");
    if walked.Err? {
      return Err(walked.error);
    }
    return Ok(Sorted(walk.files));
  }

  // Against the naive filter

  /** For this tree the walk finds what the naive filter keeps, if no name has a newline. */
  ghost predicate AgreesOn(sets: Sets, ignore: DockerIgnore, artifacts: string, regular: bool, root: Node) {
    var leaves := Leaves(regular, artifacts, root, "");
    (forall q :: q in leaves ==> NewlineFree(q)) ==> Selection(sets, ignore, leaves) == Filter(sets, ignore, leaves)
  }

  /** The walk finds what the naive filter keeps, in every tree and in every file with these negations. */
  ghost predicate WalkAgrees(sets: Sets, negations: seq<string>) {
    forall ignore, patterns, artifacts, regular, root: Node |
      RulesFor(ignore, patterns) && Negated(patterns) == negations && root.Directory? && WellFormedTree(root) ::
      AgreesOn(sets, ignore, artifacts, regular, root)
  }

  lemma PrunableAgrees(
    sets: Sets, ignore: DockerIgnore, patterns: seq<(string, bool)>, artifacts: string, regular: bool, root: Node
  )
    requires RulesFor(ignore, patterns) && Prunable(sets, Negated(patterns)) && root.Directory? && WellFormedTree(root)
    ensures AgreesOn(sets, ignore, artifacts, regular, root)
  {
    LeavesAreUnder(regular, artifacts, root, "");
    forall q | IsPath(q) && NewlineFree(q) && Kept(sets, ignore, q)
      ensures Selected(sets, ignore, q)
    {
      forall i | 0 <= i < |q| && q[i] == '/'
        ensures !Pruned(sets, ignore, q[..i])
      {
        KeptIsNotPruned(sets, ignore, patterns, q, i);
      }
    }
  }

  lemma KeptIsNotPruned(sets: Sets, ignore: DockerIgnore, patterns: seq<(string, bool)>, q: string, i: nat)
    requires RulesFor(ignore, patterns) && Prunable(sets, Negated(patterns))
    requires IsPath(q) && NewlineFree(q) && Kept(sets, ignore, q) && i < |q| && q[i] == '/'
    ensures !Pruned(sets, ignore, q[..i])
  {
    if Pruned(sets, ignore, q[..i]) {
      assert q[..i] + "/" == q[..i + 1];
      PrunedIsExcluded(sets, ignore, patterns, q[..i], q);
    }
  }

  /** The tree whose only entry is at the end of a path. */
  function TreeOf(path: string): (root: Node)
    ensures root.Directory?
    decreases |path|
  {
    var k := Find(path, '/', 0);
    if k == -1 then Directory([], [Entry(path, Regular)])
    else Directory([Entry(path[..k], TreeOf(path[k + 1..]))], [])
  }

  lemma RestIsPath(path: string, k: nat)
    requires IsPath(path) && k < |path| && path[k] == '/'
    ensures IsPath(path[k + 1..])
  {
  }

  lemma FileTreeLeaves(name: string, above: string)
    requires PlainName(name)
    ensures var root := Directory([], [Entry(name, Regular)]);
      WellFormedTree(root) && Leaves(true, "", root, above) == {Child(above, name)}
  {
    var files := [Entry(name, Regular)];
    assert [] + files == files && files[..0] == [];
    assert FileLeaves(true, files, above) == {} + {Child(above, name)};
  }

  lemma DirectoryTreeLeaves(name: string, node: Node, above: string)
    requires PlainName(name) && WellFormedTree(node)
    ensures var root := Directory([Entry(name, node)], []);
      WellFormedTree(root) && Leaves(true, "", root, above) == Leaves(true, "", node, Child(above, name))
  {
    var directories := [Entry(name, node)];
    assert directories + [] == directories && directories[..0] == [];
    assert LeavesOf(true, "", directories, above) == {} + Leaves(true, "", node, Child(above, name));
  }

  lemma {:induction false} TreeOfLeaves(path: string, above: string)
    requires IsPath(path)
    ensures WellFormedTree(TreeOf(path)) && Leaves(true, "", TreeOf(path), above) == {Child(above, path)}
    decreases |path|
  {
    var k := Find(path, '/', 0);
    assert path[0..] == path;
    if k == -1 {
      FileTreeLeaves(path, above);
    } else {
      var name, rest := path[..k], path[k + 1..];
      assert path[0..k] == name;
      RestIsPath(path, k);
      TreeOfLeaves(rest, Child(above, name));
      DirectoryTreeLeaves(name, TreeOf(rest), above);
      ChildOfChild(above, path, k);
    }
  }

  lemma ChildOfChild(above: string, path: string, k: nat)
    requires 0 < k < |path| && path[k] == '/'
    ensures Child(Child(above, path[..k]), path[k + 1..]) == Child(above, path)
  {
    var name, rest := path[..k], path[k + 1..];
    assert name + ("/" + rest) == path;
    if above != "" {
      assert (above + ("/" + name)) + ("/" + rest) == above + ("/" + (name + ("/" + rest)));
    }
  }

  lemma LostInTree(sets: Sets, ignore: DockerIgnore, path: string)
    requires IsPath(path) && NewlineFree(path) && Kept(sets, ignore, path) && !Selected(sets, ignore, path)
    ensures WellFormedTree(TreeOf(path)) && !AgreesOn(sets, ignore, "", true, TreeOf(path))
  {
    TreeOfLeaves(path, "");
    LostOfOne(sets, ignore, path);
  }

  lemma LostOfOne(sets: Sets, ignore: DockerIgnore, path: string)
    requires Kept(sets, ignore, path) && !Selected(sets, ignore, path)
    ensures Selection(sets, ignore, {path}) != Filter(sets, ignore, {path})
  {
    assert path in Filter(sets, ignore, {path}) && path !in Selection(sets, ignore, {path});
  }

  /** A path the negations lose is lost to the walk of the tree that holds nothing else. */
  lemma LostToTheWalk(sets: Sets, negations: seq<string>, k: nat, directory: string, path: string)
    requires Loses(sets, negations, k, directory, path)
    ensures !WalkAgrees(sets, negations)
  {
    var patterns := StarBefore(negations, k);
    RulesOfPatterns(patterns);
    NegatedStarBefore(negations, k);
    LostPath(sets, negations, k, directory, path);
    BelowPrunedIsNotSelected(sets, RulesOf(patterns), directory, path);
    LostInTree(sets, RulesOf(patterns), path);
  }

  /**
   For given negations the pruned walk finds what the naive filter keeps, in every tree and whatever the
   other rules are, exactly when the negations lose nothing.
   */
  lemma WalkAgreesExactly(sets: Sets, negations: seq<string>)
    ensures WalkAgrees(sets, negations) <==> Prunable(sets, negations)
  {
    if WalkAgrees(sets, negations) {
      forall k, directory, path
        ensures !Loses(sets, negations, k, directory, path)
      {
        if Loses(sets, negations, k, directory, path) {
          LostToTheWalk(sets, negations, k, directory, path);
        }
      }
    }
    if Prunable(sets, negations) {
      forall ignore, patterns, artifacts, regular, root: Node |
        RulesFor(ignore, patterns) && Negated(patterns) == negations && root.Directory? && WellFormedTree(root)
        ensures AgreesOn(sets, ignore, artifacts, regular, root)
      {
        PrunableAgrees(sets, ignore, patterns, artifacts, regular, root);
      }
    }
  }
}
