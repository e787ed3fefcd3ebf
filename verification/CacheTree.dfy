/** The deletion engine of the clipboard-file cache (internal/app/clipboard_cache_inventory.go):
    the check that every entry of an object is registered, and the depth-first unlinking that
    a crash may stop anywhere. */
module CacheTree {

  import opened Common

  const MAX_NODES := 1024

  // A manifest-relative name split at its slashes; the object root "." is [].
  type Path = seq<string>

  datatype Node = Node(identity: string, directory: bool, size: int, modified: int)

  // Symbolic links and special files are Foreign: no inventory node ever equals one.
  datatype Entry = Plain(node: Node) | Foreign

  type Inventory = map<Path, Node>
  type Tree = map<Path, Entry>

  predicate AtOrAbove(ancestor: Path, p: Path) {
    ancestor <= p
  }

  ghost predicate IsDirectory(t: Tree, p: Path) {
    p in t && t[p].Plain? && t[p].node.directory
  }

  ghost predicate Lives(t: Tree, p: Path) {
    p != [] && (|p| > 1 ==> IsDirectory(t, p[..|p| - 1]))
  }

  // What a file system guarantees: an entry lives in an existing directory.
  ghost predicate WellFormed(t: Tree) {
    forall p {:trigger Lives(t, p)} | p in t :: Lives(t, p)
  }

  predicate HasClosedAncestors(nodes: Inventory, p: Path) {
    p != [] && forall k | 0 < k < |p| :: p[..k] in nodes && nodes[p[..k]].directory
  }

  predicate ParentClosed(nodes: Inventory) {
    forall p {:trigger HasClosedAncestors(nodes, p)} | p in nodes :: HasClosedAncestors(nodes, p)
  }

  ghost predicate Matches(t: Tree, nodes: Inventory, p: Path)
    requires p in t
  {
    p in nodes && t[p] == Plain(nodes[p])
  }

  ghost predicate Approved(t: Tree, nodes: Inventory) {
    forall p | p in t :: Matches(t, nodes, p)
  }

  ghost predicate AllMatch(t: Tree, nodes: Inventory, names: set<Path>) {
    forall p | p in names && p in t :: Matches(t, nodes, p)
  }

  ghost function Under(t: Tree, dir: Path): set<Path> {
    set p | p in t && dir < p
  }

  function Children(t: Tree, dir: Path): set<Path> {
    set p | p in t && |p| == |dir| + 1 && dir < p
  }

  ghost function Branch(t: Tree, top: Path): set<Path> {
    {top} + Under(t, top)
  }

  ghost function Region(t: Tree, tops: set<Path>): set<Path> {
    set p, c | c in tops && p in t && AtOrAbove(c, p) :: p
  }

  // --------------------------------------------------------------- ancestors

  lemma {:induction false} PrefixesPresent(t: Tree, p: Path, k: nat)
    requires WellFormed(t) && p in t && 0 < k < |p|
    ensures IsDirectory(t, p[..k])
    decreases |p| - k
  {
    if k + 1 < |p| {
      PrefixesPresent(t, p, k + 1);
      assert p[..k + 1][..k] == p[..k];
      assert Lives(t, p[..k + 1]);
    } else {
      assert Lives(t, p);
    }
  }

  lemma RegionOfChildren(t: Tree, dir: Path)
    requires WellFormed(t)
    ensures Region(t, Children(t, dir)) == Under(t, dir)
  {
    forall p | p in Under(t, dir)
      ensures p in Region(t, Children(t, dir))
    {
      var c := p[..|dir| + 1];
      if |dir| + 1 < |p| {
        PrefixesPresent(t, p, |dir| + 1);
      } else {
        assert c == p;
      }
      assert c in Children(t, dir) && AtOrAbove(c, p);
    }
  }

  lemma SameLengthPrefixes(c: Path)
    ensures forall d: Path, p: Path | |d| == |c| && AtOrAbove(d, p) && AtOrAbove(c, p) :: d == c
  {
    forall d: Path, p: Path | |d| == |c| && AtOrAbove(d, p) && AtOrAbove(c, p)
      ensures d == c
    {
      assert d == p[..|c|] == c;
    }
  }

  lemma RegionGrows(t: Tree, tops: set<Path>, c: Path)
    requires c in t && c !in tops
    requires forall d | d in tops :: |d| == |c|
    ensures Region(t, tops + {c}) == Region(t, tops) + Branch(t, c)
    ensures Region(t, tops) !! Branch(t, c)
    ensures |Region(t, tops + {c})| == |Region(t, tops)| + |Branch(t, c)|
  {
    var own := Branch(t, c);
    forall p | p in t && AtOrAbove(c, p)
      ensures p in own
    {
      if p != c {
        assert |p| > |c| by { assert p[..|c|] == c; }
      }
    }
    assert Region(t, tops + {c}) == Region(t, tops) + own;
    assert forall p | p in own :: AtOrAbove(c, p);
    SameLengthPrefixes(c);
    assert Region(t, tops) !! own;
  }

  // The state of a walk below dir that has finished the children in done.
  ghost predicate Walked(t: Tree, nodes: Inventory, dir: Path, todo: set<Path>, before: set<Path>, seen: set<Path>,
                         budget: int, remaining: int)
  {
    var reached := Region(t, Children(t, dir) - todo);
    && todo <= Children(t, dir)
    && AllMatch(t, nodes, reached)
    && seen == before + reached
    && remaining == budget - |reached|
    && (reached == {} || remaining > 0)
  }

  // What one more visited child adds to a walk below dir.
  lemma WalkStep(t: Tree, dir: Path, todo: set<Path>, name: Path)
    requires todo <= Children(t, dir) && name in todo
    ensures var reached := Region(t, Children(t, dir) - todo);
            && Region(t, Children(t, dir) - (todo - {name})) == reached + Branch(t, name)
            && reached !! Branch(t, name) && Branch(t, name) <= Under(t, dir)
            && |reached| + |Branch(t, name)| <= |Under(t, dir)|
    ensures Under(t, name) < Under(t, dir)
  {
    var done := Children(t, dir) - todo;
    assert Children(t, dir) - (todo - {name}) == done + {name};
    RegionGrows(t, done, name);
    RegionInside(t, dir, done + {name});
    SubsetSize(Region(t, done + {name}), Under(t, dir));
    assert name in Branch(t, name) && name !in Under(t, name);
  }

  lemma RegionInside(t: Tree, dir: Path, tops: set<Path>)
    requires tops <= Children(t, dir)
    ensures Region(t, tops) <= Under(t, dir)
  {
    forall p | p in Region(t, tops)
      ensures p in Under(t, dir)
    {
      var c :| c in tops && p in t && AtOrAbove(c, p);
      assert dir == c[..|dir|] == p[..|dir|];
    }
  }

  lemma WalkFails(t: Tree, nodes: Inventory, dir: Path, todo: set<Path>, name: Path, before: set<Path>, seen: set<Path>,
                  budget: int, remaining: int)
    requires Walked(t, nodes, dir, todo, before, seen, budget, remaining) && name in todo
    requires !AllMatch(t, nodes, Branch(t, name)) || |Branch(t, name)| >= remaining
    ensures !AllMatch(t, nodes, Under(t, dir)) || (Under(t, dir) != {} && |Under(t, dir)| >= budget)
  {
    WalkStep(t, dir, todo, name);
    assert name in Branch(t, name);
  }

  lemma WalkAdvances(t: Tree, nodes: Inventory, dir: Path, todo: set<Path>, name: Path, before: set<Path>,
                     seen: set<Path>, budget: int, remaining: int)
    requires Walked(t, nodes, dir, todo, before, seen, budget, remaining) && name in todo
    requires AllMatch(t, nodes, Branch(t, name)) && |Branch(t, name)| < remaining
    ensures Walked(t, nodes, dir, todo - {name}, before, seen + Branch(t, name), budget, remaining - |Branch(t, name)|)
  {
    WalkStep(t, dir, todo, name);
  }

  lemma WalkEnds(t: Tree, nodes: Inventory, dir: Path, before: set<Path>, seen: set<Path>, budget: int, remaining: int)
    requires WellFormed(t) && Walked(t, nodes, dir, {}, before, seen, budget, remaining)
    ensures AllMatch(t, nodes, Under(t, dir)) && (Under(t, dir) == {} || |Under(t, dir)| < budget)
    ensures seen == before + Under(t, dir) && remaining == budget - |Under(t, dir)|
  {
    assert Children(t, dir) - {} == Children(t, dir);
    RegionOfChildren(t, dir);
  }

  // ------------------------------------------------------------------- check

  // State of one checkClipboardCacheTree call over an unchanging directory tree.
  class TreeCheck {
    const tree: Tree
    const nodes: Inventory
    var seen: set<Path>
    var remaining: int

    constructor (tree: Tree, nodes: Inventory)
      ensures this.tree == tree && this.nodes == nodes
      ensures seen == {} && remaining == MAX_NODES + 1
    {
      this.tree, this.nodes := tree, nodes;
      seen, remaining := {}, MAX_NODES + 1;
    }

    // One listed entry: the budget, the registered node, and everything below a directory.
    method Visit(name: Path) returns (ok: bool)
      requires WellFormed(tree) && name in tree
      modifies this
      ensures ok <==> AllMatch(tree, nodes, Branch(tree, name)) && |Branch(tree, name)| < old(remaining)
      ensures ok ==> seen == old(seen) + Branch(tree, name)
      ensures ok ==> remaining == old(remaining) - |Branch(tree, name)|
      decreases Under(tree, name), 1
    {
      assert name in Branch(tree, name) && |Branch(tree, name)| == 1 + |Under(tree, name)|;
      remaining := remaining - 1;
      if remaining <= 0 {
        return false;
      }
      if name !in nodes || tree[name] != Plain(nodes[name]) {
        return false;
      }
      seen := seen + {name};
      ok := true;
      if nodes[name].directory {
        ok := Walk(name);
      } else {
        NothingBelowFile(tree, name);
      }
    }

    // One recursive walk below dir, in whatever order the listing returns the entries.
    method Walk(dir: Path) returns (ok: bool)
      requires WellFormed(tree)
      modifies this
      ensures ok <==> AllMatch(tree, nodes, Under(tree, dir))
                      && (Under(tree, dir) == {} || |Under(tree, dir)| < old(remaining))
      ensures ok ==> seen == old(seen) + Under(tree, dir)
      ensures ok ==> remaining == old(remaining) - |Under(tree, dir)|
      decreases Under(tree, dir), 0
    {
      var todo := Children(tree, dir);
      assert Region(tree, Children(tree, dir) - todo) == {};
      while todo != {}
        invariant Walked(tree, nodes, dir, todo, old(seen), seen, old(remaining), remaining)
        decreases todo
      {
        var name :| name in todo;
        assert name in tree && Under(tree, name) < Under(tree, dir) by { WalkStep(tree, dir, todo, name); }
        ghost var seen0, remaining0 := seen, remaining;
        var fine := Visit(name);
        if !fine {
          WalkFails(tree, nodes, dir, todo, name, old(seen), seen0, old(remaining), remaining0);
          return false;
        }
        WalkAdvances(tree, nodes, dir, todo, name, old(seen), seen0, old(remaining), remaining0);
        todo := todo - {name};
      }
      WalkEnds(tree, nodes, dir, old(seen), seen, old(remaining), remaining);
      return true;
    }

    // The whole check: it passes exactly when every entry is the registered one (and, unless
    // missing names are allowed, every registered name is there) within the node bound.
    method Check(missingOK: bool) returns (ok: bool)
      requires WellFormed(tree)
      requires seen == {} && remaining == MAX_NODES + 1
      modifies this
      ensures ok <==> Approved(tree, nodes) && |tree| <= MAX_NODES && (missingOK || tree.Keys == nodes.Keys)
    {
      assert Under(tree, []) == tree.Keys by {
        assert forall p | p in tree :: Lives(tree, p);
      }
      ok := Walk([]);
      if ok && !missingOK && |seen| != |nodes| {
        ok := false;
      } else if ok && !missingOK {
        SameSizeSubset(tree.Keys, nodes.Keys);
      }
    }
  }

  /** What a passed check of a complete inventory proves: the inventory is closed under parents. */
  lemma CheckedInventoryIsClosed(t: Tree, nodes: Inventory)
    requires WellFormed(t) && Approved(t, nodes) && t.Keys == nodes.Keys
    ensures ParentClosed(nodes)
  {
    forall p | p in nodes
      ensures HasClosedAncestors(nodes, p)
    {
      assert p in t && Lives(t, p);
      forall k | 0 < k < |p|
        ensures p[..k] in nodes && nodes[p[..k]].directory
      {
        PrefixesPresent(t, p, k);
        assert Matches(t, nodes, p[..k]);
      }
    }
  }

  lemma UnionSize(a: Inventory, b: Inventory)
    ensures |a + b| <= |a| + |b|
  {
    assert (a + b).Keys == a.Keys + (b.Keys - a.Keys);
    SubsetSize(b.Keys - a.Keys, b.Keys);
    assert |(a + b).Keys| == |a + b| && |a.Keys| == |a| && |b.Keys| == |b|;
  }

  // The nodes of one kind that have been added while left is still to come.
  ghost predicate Added(nodes: Inventory, more: Inventory, left: set<Path>, all: Inventory) {
    left <= more.Keys && all == nodes + (more - left)
  }

  lemma NoneAdded(nodes: Inventory, more: Inventory)
    ensures Added(nodes, more, more.Keys, nodes)
  {
    assert more - more.Keys == map[];
  }

  lemma AddedOne(nodes: Inventory, more: Inventory, left: set<Path>, all: Inventory, p: Path)
    requires Added(nodes, more, left, all) && p in left
    ensures Added(nodes, more, left - {p}, all[p := more[p]])
  {
    assert more - (left - {p}) == (more - left)[p := more[p]];
  }

  lemma AddedBound(nodes: Inventory, more: Inventory, left: set<Path>, all: Inventory)
    requires Added(nodes, more, left, all) && left != {}
    ensures |all| < |nodes| + |more|
  {
    var some := more - left;
    UnionSize(nodes, some);
    assert some.Keys == more.Keys - left;
    SubsetSize(more.Keys - left, more.Keys);
    assert more.Keys - left != more.Keys;
    assert |some.Keys| == |some| && |more.Keys| == |more|;
  }

  lemma AllAdded(nodes: Inventory, more: Inventory, all: Inventory)
    requires Added(nodes, more, {}, all)
    ensures all == nodes + more
  {
    assert more - {} == more;
  }

  // One more node, unless the bound is reached.
  method AddNode(nodes: Inventory, more: Inventory, left: set<Path>, all: Inventory, p: Path)
      returns (ok: bool, next: Inventory)
    requires Added(nodes, more, left, all) && p in left
    ensures |nodes| + |more| <= MAX_NODES ==> ok
    ensures ok ==> Added(nodes, more, left - {p}, next)
  {
    AddedBound(nodes, more, left, all);
    if |all| >= MAX_NODES {
      return false, all;
    }
    AddedOne(nodes, more, left, all, p);
    return true, all[p := more[p]];
  }

  // Adding the nodes of one kind, each only while the bound is not reached.
  method AddNodes(nodes: Inventory, more: Inventory) returns (ok: bool, all: Inventory)
    ensures |nodes| + |more| <= MAX_NODES ==> ok
    ensures ok ==> all == nodes + more
  {
    ok, all := true, nodes;
    var left := more.Keys;
    NoneAdded(nodes, more);
    while left != {}
      invariant Added(nodes, more, left, all)
      decreases left
    {
      var p :| p in left;
      ok, all := AddNode(nodes, more, left, all, p);
      if !ok {
        return;
      }
      left := left - {p};
    }
    ok := true;
    AllAdded(nodes, more, all);
  }

  /** captureClosingStorage: the stage directory and its checkpoint, the part files, the directories, and the
      committed files, which are links of parts. Objects that could exceed the node bound are left without an
      inventory, and no other object is turned away by the bound while its nodes are added. */
  method CaptureInventory(fixed: Inventory, parts: Inventory, directories: Inventory, committed: Inventory)
      returns (captured: bool, nodes: Inventory)
    requires |fixed| == 2 && |committed| <= |parts|
    ensures captured <==> 2 + |directories| + 2 * |parts| <= MAX_NODES
    ensures captured ==> nodes == fixed + parts + directories + committed && |nodes| <= MAX_NODES
  {
    if 2 + |directories| + 2 * |parts| > MAX_NODES {
      return false, map[];
    }
    UnionSize(fixed, parts);
    UnionSize(fixed + parts, directories);
    UnionSize(fixed + parts + directories, committed);
    captured, nodes := AddNodes(fixed, parts);
    captured, nodes := AddNodes(nodes, directories);
    captured, nodes := AddNodes(nodes, committed);
  }

  lemma SameSizeSubset<T>(a: set<T>, b: set<T>)
    requires a <= b && |a| == |b|
    ensures a == b
  {
    assert b == a + (b - a);
  }

  lemma NothingBelowFile(t: Tree, name: Path)
    requires WellFormed(t) && name in t && !IsDirectory(t, name)
    ensures Under(t, name) == {}
  {
    assert Lives(t, name);
    forall p | p in t
      ensures !(name < p)
    {
      if name < p {
        assert p[..|name|] == name;
        PrefixesPresent(t, p, |name|);
      }
    }
  }

  // ----------------------------------------------------------------- removal

  datatype Access = Opened | Absent | Refused

  datatype Unlink = Removed | Missing | NotRegistered | NotEmpty

  // openCacheParent: each ancestor must still be the registered directory.
  function OpenAncestors(t: Tree, nodes: Inventory, name: Path, k: nat): Access
    requires k <= |name|
    decreases |name| - k
  {
    if k + 1 >= |name| then Opened
    else
      var prefix := name[..k + 1];
      if prefix !in t then Absent
      else if prefix !in nodes || t[prefix] != Plain(nodes[prefix]) || !nodes[prefix].directory then Refused
      else OpenAncestors(t, nodes, name, k + 1)
  }

  datatype Finding = Ready | Gone | Unregistered

  // First half of one round of the removal loop: open the parent and check the node again.
  function CheckOne(t: Tree, nodes: Inventory, name: Path): (f: Finding)
    ensures f == Ready ==> name in t && name in nodes && t[name] == Plain(nodes[name])
  {
    var parent := OpenAncestors(t, nodes, name, 0);
    if parent.Absent? then Gone
    else if parent.Refused? then Unregistered
    else if name !in t then Gone
    else if name !in nodes || t[name] != Plain(nodes[name]) then Unregistered
    else Ready
  }

  // Second half: unlink by name, whatever the name stands for by now.
  function UnlinkOne(t: Tree, name: Path): (r: (Tree, Unlink))
    ensures r.0 == t || (r.0 == t - {name} && name in t && Children(t, name) == {})
    ensures r.1 != Removed ==> r.0 == t
  {
    if name !in t then (t, Missing)
    else if Children(t, name) != {} then (t, NotEmpty)
    else (t - {name}, Removed)
  }

  // One round that nobody disturbs.
  function RemoveOne(t: Tree, nodes: Inventory, name: Path): (r: (Tree, Unlink))
    ensures r.0 == t || (r.0 == t - {name} && name in t && name in nodes && t[name] == Plain(nodes[name])
                         && Children(t, name) == {})
    ensures r.1 != Removed ==> r.0 == t
  {
    match CheckOne(t, nodes, name)
    case Gone => (t, Missing)
    case Unregistered => (t, NotRegistered)
    case Ready => UnlinkOne(t, name)
  }

  lemma {:induction false} AncestorsOpen(t: Tree, nodes: Inventory, name: Path, k: nat)
    requires WellFormed(t) && Approved(t, nodes) && k <= |name|
    ensures OpenAncestors(t, nodes, name, k) != Refused
            || exists j | 0 < j < |name| :: name[..j] in t && !IsDirectory(t, name[..j])
    ensures name in t ==> OpenAncestors(t, nodes, name, k) == Opened
    decreases |name| - k
  {
    if k + 1 < |name| {
      var prefix := name[..k + 1];
      if name in t {
        PrefixesPresent(t, name, k + 1);
      }
      if prefix in t {
        assert Matches(t, nodes, prefix);
        AncestorsOpen(t, nodes, name, k + 1);
      }
    }
  }

  // A checked tree gives up a deepest registered name without an error.
  lemma DeepestIsUnlinked(t: Tree, nodes: Inventory, name: Path)
    requires WellFormed(t) && Approved(t, nodes) && ParentClosed(nodes)
    requires name in nodes && Under(t, name) == {}
    ensures RemoveOne(t, nodes, name) == if name in t then (t - {name}, Removed) else (t, Missing)
  {
    AncestorsOpen(t, nodes, name, 0);
    if name in t {
      assert Lives(t, name) && Matches(t, nodes, name);
      assert forall p | p in Children(t, name) :: p in Under(t, name);
    } else {
      forall j | 0 < j < |name| && name[..j] in t
        ensures IsDirectory(t, name[..j])
      {
        assert HasClosedAncestors(nodes, name);
        assert Matches(t, nodes, name[..j]);
      }
    }
  }

  // What is left of a checked tree is still a checked tree.
  lemma WithoutDeepest(t: Tree, nodes: Inventory, name: Path)
    requires WellFormed(t) && Approved(t, nodes) && Under(t, name) == {}
    ensures WellFormed(t - {name}) && Approved(t - {name}, nodes)
  {
    var t' := t - {name};
    forall p | p in t'
      ensures Lives(t', p)
    {
      assert Lives(t, p);
      if |p| > 1 {
        assert p[..|p| - 1] != name by { assert p !in Under(t, name); }
      }
    }
    forall p | p in t'
      ensures Matches(t', nodes, p)
    {
      assert Matches(t, nodes, p);
    }
  }

  lemma RemoveDeepest(t: Tree, nodes: Inventory, name: Path)
    requires WellFormed(t) && Approved(t, nodes) && ParentClosed(nodes)
    requires name in nodes && Under(t, name) == {}
    ensures RemoveOne(t, nodes, name).0 == t - {name}
    ensures RemoveOne(t, nodes, name).1 in {Removed, Missing}
    ensures WellFormed(t - {name}) && Approved(t - {name}, nodes)
  {
    DeepestIsUnlinked(t, nodes, name);
    WithoutDeepest(t, nodes, name);
    assert name !in t ==> t - {name} == t;
  }

  ghost predicate DeepestFirst(names: seq<Path>) {
    forall i, j | 0 <= i < j < |names| :: |names[i]| >= |names[j]|
  }

  ghost function Elements(names: seq<Path>): set<Path> {
    set n | n in names
  }

  ghost predicate NoDeeper(names: set<Path>, depth: nat) {
    forall n | n in names :: |n| <= depth
  }

  // The names sorted so far: everything still to come is no deeper than the last of them.
  ghost predicate SortedSoFar(names: seq<Path>, left: set<Path>, all: set<Path>) {
    && left <= all && Elements(names) == all - left && |names| + |left| == |all|
    && DeepestFirst(names) && (names != [] ==> NoDeeper(left, |names[|names| - 1]|))
  }

  lemma AppendShallower(names: seq<Path>, next: Path)
    requires DeepestFirst(names) && (names != [] ==> |next| <= |names[|names| - 1]|)
    ensures DeepestFirst(names + [next])
  {
    forall i | 0 <= i < |names|
      ensures |names[i]| >= |next|
    {
      assert |names[i]| >= |names[|names| - 1]|;
    }
  }

  lemma AppendElement(names: seq<Path>, next: Path)
    ensures Elements(names + [next]) == Elements(names) + {next}
  {
  }

  lemma SortOneMore(names: seq<Path>, left: set<Path>, all: set<Path>, next: Path)
    requires SortedSoFar(names, left, all) && next in left && NoDeeper(left, |next|)
    ensures SortedSoFar(names + [next], left - {next}, all)
  {
    AddOne(left, next);
    AppendShallower(names, next);
    AppendElement(names, next);
  }

  // The sorted name list; ties between names of one depth may fall either way.
  method SortDeepestFirst(nodes: Inventory) returns (names: seq<Path>)
    ensures DeepestFirst(names) && Elements(names) == nodes.Keys
    ensures |names| == |nodes|
  {
    names := [];
    var left := nodes.Keys;
    while left != {}
      invariant SortedSoFar(names, left, nodes.Keys)
      decreases left
    {
      var next := Deepest(left);
      SortOneMore(names, left, nodes.Keys, next);
      names := names + [next];
      left := left - {next};
    }
  }

  method Deepest(names: set<Path>) returns (best: Path)
    requires names != {}
    ensures best in names && NoDeeper(names, |best|)
  {
    best :| best in names;
    var left := names - {best};
    while left != {}
      invariant left <= names && best in names
      invariant forall n | n in names - left :: |n| <= |best|
      decreases left
    {
      var n :| n in left;
      if |best| < |n| {
        best := n;
      }
      left := left - {n};
    }
  }

  // Where a run that began with t0 stands after the first i names.
  ghost predicate Stripped(t: Tree, t0: Tree, nodes: Inventory, names: seq<Path>, i: nat) {
    i <= |names| && t == t0 - Elements(names[..i]) && WellFormed(t) && Approved(t, nodes)
  }

  lemma NothingBelowNext(t: Tree, t0: Tree, nodes: Inventory, names: seq<Path>, i: nat)
    requires DeepestFirst(names) && Elements(names) == nodes.Keys && i < |names|
    requires Stripped(t, t0, nodes, names, i)
    ensures Under(t, names[i]) == {}
  {
    forall p | p in t
      ensures !(names[i] < p)
    {
      assert Matches(t, nodes, p) && p in Elements(names);
      var j :| 0 <= j < |names| && names[j] == p;
    }
  }

  /** One step of a run: the names still to come lie no deeper than names[i], so nothing is left below
      it, and unlinking it neither fails nor spoils the check. */
  lemma RemoveNext(t: Tree, t0: Tree, nodes: Inventory, names: seq<Path>, i: nat)
    requires ParentClosed(nodes) && DeepestFirst(names) && Elements(names) == nodes.Keys && i < |names|
    requires Stripped(t, t0, nodes, names, i)
    ensures RemoveOne(t, nodes, names[i]).1 in {Removed, Missing}
    ensures Stripped(RemoveOne(t, nodes, names[i]).0, t0, nodes, names, i + 1)
  {
    NothingBelowNext(t, t0, nodes, names, i);
    assert names[i] in Elements(names);
    RemoveDeepest(t, nodes, names[i]);
    assert names[..i + 1] == names[..i] + [names[i]];
    assert Elements(names[..i + 1]) == Elements(names[..i]) + {names[i]};
    assert t - {names[i]} == t0 - Elements(names[..i + 1]);
  }

  datatype RemovalResult = CheckFailed | Interrupted | Failed(why: Unlink) | Finished

  // The pinned object directory of one cached transfer.
  class CacheRoot {
    var tree: Tree
    var named: bool     // the object's name still resolves to this directory

    constructor (tree: Tree)
      ensures this.tree == tree && named
    {
      this.tree, named := tree, true;
    }

    // destination.discardUnpublished: only this directory, and only while it is empty.
    method RemoveName() returns (ok: bool)
      modifies this`named
      ensures ok <==> old(named) && tree == map[]
      ensures named <==> old(named) && !ok
    {
      ok := named && tree == map[];
      if ok {
        named := false;
      }
    }

    // The removal loop; the context may end before the name at position stopAt.
    method RemoveInOrder(nodes: Inventory, names: seq<Path>, stopAt: nat) returns (result: RemovalResult)
      requires ParentClosed(nodes) && DeepestFirst(names) && Elements(names) == nodes.Keys
      requires WellFormed(tree) && Approved(tree, nodes)
      modifies this`tree
      ensures result == if stopAt < |names| then Interrupted else Finished
      ensures Stripped(tree, old(tree), nodes, names, if stopAt < |names| then stopAt else |names|)
    {
      NothingStripped(tree, nodes, names);
      var i := 0;
      while i < |names|
        invariant i <= |names| && i <= stopAt && Stripped(tree, old(tree), nodes, names, i)
      {
        if i == stopAt {
          return Interrupted;
        }
        RemoveNext(tree, old(tree), nodes, names, i);
        var found := CheckOne(tree, nodes, names[i]);
        if found == Unregistered {
          return Failed(NotRegistered);
        }
        if found == Ready {
          var (next, how) := UnlinkOne(tree, names[i]);
          tree := next;
          if how == NotEmpty {
            return Failed(how);
          }
        }
        i := i + 1;
      }
      return Finished;
    }

    /** removeClipboardCacheTree. A failed check removes nothing. Otherwise no removal fails: the run either
        empties the object or stops with a tree that the next run's check accepts again. */
    method RemoveTree(nodes: Inventory, stopAt: nat) returns (result: RemovalResult)
      requires WellFormed(tree) && ParentClosed(nodes)
      modifies this`tree
      ensures WellFormed(tree)
      ensures result == CheckFailed <==> !CheckPasses(old(tree), nodes)
      ensures result == CheckFailed ==> tree == old(tree)
      ensures !result.Failed?
      ensures result == Finished ==> tree == map[]
      ensures result == Finished <==> result != CheckFailed && |nodes| <= stopAt
      ensures result == Interrupted ==> CheckPasses(tree, nodes) && RemovedSome(tree, old(tree), nodes, stopAt)
    {
      var check := new TreeCheck(tree, nodes);
      var ok := check.Check(true);
      if !ok {
        return CheckFailed;
      }
      var names := SortDeepestFirst(nodes);
      result := RemoveInOrder(nodes, names, stopAt);
      StrippedLeaves(tree, old(tree), nodes, names, if stopAt < |names| then stopAt else |names|);
    }
  }

  ghost predicate CheckPasses(t: Tree, nodes: Inventory) {
    Approved(t, nodes) && |t| <= MAX_NODES
  }

  // Exactly k registered names have been dealt with.
  ghost predicate RemovedSome(t: Tree, t0: Tree, nodes: Inventory, k: nat) {
    exists gone: set<Path> :: gone <= nodes.Keys && |gone| == k && t == t0 - gone
  }

  lemma StrippedLeaves(t: Tree, t0: Tree, nodes: Inventory, names: seq<Path>, i: nat)
    requires Stripped(t, t0, nodes, names, i) && Elements(names) == nodes.Keys && |names| == |nodes|
    requires CheckPasses(t0, nodes)
    ensures CheckPasses(t, nodes) && RemovedSome(t, t0, nodes, i)
    ensures i == |names| ==> t == map[]
  {
    SubsetSize(t.Keys, t0.Keys);
    ElementsOfPrefix(names, i);
    assert Elements(names[..i]) <= nodes.Keys;
    if i == |names| {
      assert names[..i] == names;
      AllRemoved(t0, nodes, names);
    }
  }

  lemma AllRemoved(t: Tree, nodes: Inventory, names: seq<Path>)
    requires Approved(t, nodes) && Elements(names) == nodes.Keys
    ensures t - Elements(names) == map[]
  {
    forall p | p in t
      ensures p in Elements(names)
    {
      assert Matches(t, nodes, p);
    }
  }

  lemma {:induction false} ElementsBound(names: seq<Path>)
    ensures |Elements(names)| <= |names|
  {
    if names != [] {
      var last := |names| - 1;
      ElementsBound(names[..last]);
      assert names == names[..last] + [names[last]];
      assert Elements(names) == Elements(names[..last]) + {names[last]};
    }
  }

  lemma {:induction false} ElementsOfPrefix(names: seq<Path>, i: nat)
    requires i <= |names| && |Elements(names)| == |names|
    ensures Elements(names[..i]) <= Elements(names) && |Elements(names[..i])| == i
    decreases |names| - i
  {
    if i < |names| {
      ElementsOfPrefix(names, i + 1);
      var more := names[..i + 1];
      assert more == names[..i] + [names[i]];
      assert Elements(more) == Elements(names[..i]) + {names[i]};
      ElementsBound(names[..i]);
    } else {
      assert names[..i] == names;
    }
  }

  // ----------------------------------------------------------------- crashes

  // One run of the loop over the first k names, as a function of the tree.
  function RemovePrefix(t: Tree, nodes: Inventory, names: seq<Path>, k: nat): Tree
    requires k <= |names|
    decreases k
  {
    if k == 0 then t else RemoveOne(RemovePrefix(t, nodes, names, k - 1), nodes, names[k - 1]).0
  }

  // A crash after any prefix leaves a tree that differs by exactly that prefix and checks again.
  lemma CrashKeepsApproval(t: Tree, nodes: Inventory, names: seq<Path>, k: nat)
    requires WellFormed(t) && Approved(t, nodes) && ParentClosed(nodes)
    requires DeepestFirst(names) && Elements(names) == nodes.Keys && k <= |names|
    ensures Stripped(RemovePrefix(t, nodes, names, k), t, nodes, names, k)
  {
    NothingStripped(t, nodes, names);
    var now := t;
    for i := 0 to k
      invariant now == RemovePrefix(t, nodes, names, i) && Stripped(now, t, nodes, names, i)
    {
      var next := RemovePrefix(t, nodes, names, i + 1);
      StripOneMore(now, next, t, nodes, names, i);
      now := next;
    }
  }

  lemma StripOneMore(before: Tree, after: Tree, t: Tree, nodes: Inventory, names: seq<Path>, k: nat)
    requires ParentClosed(nodes) && DeepestFirst(names) && Elements(names) == nodes.Keys && k < |names|
    requires Stripped(before, t, nodes, names, k) && after == RemoveOne(before, nodes, names[k]).0
    ensures Stripped(after, t, nodes, names, k + 1)
  {
    RemoveNext(before, t, nodes, names, k);
  }

  lemma NothingStripped(t: Tree, nodes: Inventory, names: seq<Path>)
    requires WellFormed(t) && Approved(t, nodes)
    ensures Stripped(t, t, nodes, names, 0)
  {
    assert Elements(names[..0]) == {};
    assert t - {} == t;
  }

  function CrashingRuns(t: Tree, nodes: Inventory, runs: seq<(seq<Path>, nat)>): Tree
    requires forall r | r in runs :: r.1 <= |r.0|
    decreases |runs|
  {
    if runs == [] then t
    else RemovePrefix(CrashingRuns(t, nodes, runs[..|runs| - 1]), nodes, runs[|runs| - 1].0, runs[|runs| - 1].1)
  }

  /** Deletion is restartable: after any number of crashed runs, each with its own tie-breaks and its
      own crash point, one complete run finishes with an empty object. */
  lemma {:induction false} RestartFinishes(t: Tree, nodes: Inventory, runs: seq<(seq<Path>, nat)>, names: seq<Path>)
    requires WellFormed(t) && Approved(t, nodes) && ParentClosed(nodes)
    requires forall r | r in runs :: r.1 <= |r.0| && DeepestFirst(r.0) && Elements(r.0) == nodes.Keys
    requires DeepestFirst(names) && Elements(names) == nodes.Keys
    ensures WellFormed(CrashingRuns(t, nodes, runs)) && Approved(CrashingRuns(t, nodes, runs), nodes)
    ensures RemovePrefix(CrashingRuns(t, nodes, runs), nodes, names, |names|) == map[]
    decreases |runs|
  {
    var last := |runs| - 1;
    if runs != [] {
      RestartFinishes(t, nodes, runs[..last], names);
      CrashKeepsApproval(CrashingRuns(t, nodes, runs[..last]), nodes, runs[last].0, runs[last].1);
    }
    var now := CrashingRuns(t, nodes, runs);
    CrashKeepsApproval(now, nodes, names, |names|);
    assert names[..|names|] == names;
    AllRemoved(now, nodes, names);
  }
}
