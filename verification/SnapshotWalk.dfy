/**
 Walking a snapshot's closure: a worklist over trees, then one read of every blob range,
 with a memo of ranges shared across snapshots.
 */
module SnapshotWalk {
  import opened Options

  datatype Hex = Hex(digits: string)
  datatype Fence = Fence(key: string)
  datatype Range = Range(pack: string, offset: int, len: int)
  datatype Content = Content(bytes: seq<int>)
  datatype MemberRow = MemberRow(range: Range, fence: Fence, committed: bool)
  datatype Target = Tree(hex: Hex) | Blob(hex: Hex)

  /** The pack index, the bucket, the hash and the tree format.  A read that fails is `None`,
      and so is content that does not parse as a tree. */
  datatype World = World(
    trees: map<Hex, seq<MemberRow>>, blobs: map<Hex, seq<MemberRow>>,
    read: Range -> Option<Content>, hash: Content -> Hex, parse: Content -> Option<seq<Target>>)

  /** Whose snapshot is walked: its own fence and the fences it may borrow from. */
  datatype Reader = Reader(own: Fence, borrows: set<Fence>)

  datatype Why = NoPack | OnlyUncommitted | OnlyForeign
  datatype Pick = Picked(member: MemberRow) | Refused(why: Why)

  datatype Problem =
    | TreePick(hex: Hex, why: Why) | TreeRead(hex: Hex) | TreeHash(hex: Hex) | TreeParse(hex: Hex)
    | BlobPick(hex: Hex, why: Why) | BlobRead(hex: Hex) | BlobHash(hex: Hex)

  datatype Check = Good | Bad(problem: Problem)
  type Memo = map<Range, Check>

  // ------------------------------------------------------------------------- pick

  function FirstOf(rows: seq<MemberRow>, fences: set<Fence>): Option<MemberRow> {
    if rows == [] then None
    else if From(rows[0], fences) then Some(rows[0])
    else FirstOf(rows[1..], fences)
  }

  /** The committed member this snapshot may read: of its own fence, else of one it borrows from. */
  function PickMember(rows: seq<MemberRow>, reader: Reader): Pick {
    var own, borrowed := FirstOf(rows, {reader.own}), FirstOf(rows, reader.borrows);
    if own.Some? then Picked(own.value)
    else if borrowed.Some? then Picked(borrowed.value)
    else if rows == [] then Refused(NoPack)
    else if forall m :: m in rows ==> !m.committed then Refused(OnlyUncommitted)
    else Refused(OnlyForeign)
  }

  predicate From(m: MemberRow, fences: set<Fence>) {
    m.committed && m.fence in fences
  }

  lemma {:induction false} FirstOfFinds(rows: seq<MemberRow>, fences: set<Fence>)
    ensures FirstOf(rows, fences).Some? <==> exists m :: m in rows && From(m, fences)
    ensures FirstOf(rows, fences).Some? ==>
              FirstOf(rows, fences).value in rows && From(FirstOf(rows, fences).value, fences)
  {
    if rows != [] {
      FirstOfFinds(rows[1..], fences);
      assert rows[0] in rows && forall m :: m in rows[1..] ==> m in rows;
      assert forall m :: m in rows ==> m == rows[0] || m in rows[1..];
    }
  }

  /** A member is picked iff a committed own or borrowed one exists; an own one is preferred; and a
      refusal says which of the three reasons holds. */
  lemma PickIsRight(rows: seq<MemberRow>, reader: Reader)
    ensures var p := PickMember(rows, reader);
            && (p.Picked? <==> exists m :: m in rows && From(m, {reader.own} + reader.borrows))
            && (p.Picked? ==> p.member in rows && From(p.member, {reader.own} + reader.borrows))
            && (p.Picked? && (exists m :: m in rows && From(m, {reader.own})) ==> p.member.fence == reader.own)
            && (p == Refused(NoPack) <==> rows == [])
            && (p == Refused(OnlyUncommitted) <==> rows != [] && forall m :: m in rows ==> !m.committed)
  {
    FirstOfFinds(rows, {reader.own});
    FirstOfFinds(rows, reader.borrows);
    assert rows != [] ==> rows[0] in rows;
    assert forall m :: From(m, {reader.own} + reader.borrows) <==> From(m, {reader.own}) || From(m, reader.borrows);
  }

  function RowsAt(index: map<Hex, seq<MemberRow>>, hex: Hex): seq<MemberRow> {
    if hex in index then index[hex] else []
  }

  // --------------------------------------------------------------- trees and reachability

  datatype Loaded = Entries(entries: seq<Target>) | Failed(problem: Problem)

  function Load(w: World, reader: Reader, hex: Hex): Loaded {
    match PickMember(RowsAt(w.trees, hex), reader)
    case Refused(why) => Failed(TreePick(hex, why))
    case Picked(m) =>
      match w.read(m.range)
      case None => Failed(TreeRead(hex))
      case Some(content) =>
        if w.hash(content) != hex then Failed(TreeHash(hex))
        else match w.parse(content)
             case None => Failed(TreeParse(hex))
             case Some(entries) => Entries(entries)
  }

  function Targets(w: World, reader: Reader, hex: Hex): seq<Target> {
    var loaded := Load(w, reader, hex);
    if loaded.Entries? then loaded.entries else []
  }

  /** The content behind `hex`: in the member the snapshot may read, and hashing to `hex`. */
  ghost predicate Fetched(w: World, reader: Reader, rows: seq<MemberRow>, hex: Hex, content: Content) {
    var p := PickMember(rows, reader);
    p.Picked? && w.read(p.member.range) == Some(content) && w.hash(content) == hex
  }

  /** The tree is there, is what its address says, and parses. */
  ghost predicate TreeGood(w: World, reader: Reader, hex: Hex) {
    hex in w.trees && exists content :: Fetched(w, reader, w.trees[hex], hex, content) && w.parse(content).Some?
  }

  /** The tree names `target` in content that hashes to the tree's address. */
  ghost predicate Names(w: World, reader: Reader, hex: Hex, target: Target) {
    && hex in w.trees
    && exists content :: Fetched(w, reader, w.trees[hex], hex, content) && w.parse(content).Some?
                         && target in w.parse(content).value
  }

  lemma LoadFetches(w: World, reader: Reader, hex: Hex, content: Content)
    requires hex in w.trees && Fetched(w, reader, w.trees[hex], hex, content)
    ensures Load(w, reader, hex) == match w.parse(content)
                                    case None => Failed(TreeParse(hex))
                                    case Some(entries) => Entries(entries)
    ensures TreeBytes(w, reader, hex) == |content.bytes|
  {
  }

  /** A tree loads iff it is good, its entries are what it names, and its bytes count iff they hash to its address. */
  lemma LoadsIffGood(w: World, reader: Reader, hex: Hex)
    ensures Loads(w, reader, hex) <==> TreeGood(w, reader, hex)
    ensures forall target :: target in Targets(w, reader, hex) <==> Names(w, reader, hex, target)
    ensures forall content :: hex in w.trees && Fetched(w, reader, w.trees[hex], hex, content) ==>
              TreeBytes(w, reader, hex) == |content.bytes|
    ensures (forall content :: !(hex in w.trees && Fetched(w, reader, w.trees[hex], hex, content))) ==>
              TreeBytes(w, reader, hex) == 0
  {
    if hex !in w.trees {
      UnknownIsLeaf(w, reader, hex);
    } else if content :| Fetched(w, reader, w.trees[hex], hex, content) {
      LoadFetches(w, reader, hex, content);
    } else {
      var p := PickMember(w.trees[hex], reader);
      assert p.Picked? && w.read(p.member.range).Some? ==>
          !Fetched(w, reader, w.trees[hex], hex, w.read(p.member.range).value);
    }
  }

  /** What a tree that does not load is reported for. */
  lemma TreeProblemSays(w: World, reader: Reader, hex: Hex, x: Problem)
    requires hex in w.trees && Load(w, reader, hex) == Failed(x)
    ensures var p := PickMember(w.trees[hex], reader);
            if p.Refused? then x == TreePick(hex, p.why)
            else if w.read(p.member.range).None? then x == TreeRead(hex)
            else if w.hash(w.read(p.member.range).value) != hex then x == TreeHash(hex)
            else x == TreeParse(hex)
  {
  }

  /** A tree the index knows nothing of holds nothing. */
  lemma UnknownIsLeaf(w: World, reader: Reader, hex: Hex)
    requires hex !in w.trees
    ensures Targets(w, reader, hex) == [] && Load(w, reader, hex) == Failed(TreePick(hex, NoPack))
  {
    PickIsRight([], reader);
  }

  ghost predicate IsPath(w: World, reader: Reader, path: seq<Hex>) {
    path != [] && forall i :: 0 <= i < |path| - 1 ==> Tree(path[i + 1]) in Targets(w, reader, path[i])
  }

  ghost predicate ReachesTree(w: World, reader: Reader, root: Hex, hex: Hex) {
    exists path :: IsPath(w, reader, path) && path[0] == root && path[|path| - 1] == hex
  }

  ghost predicate ReachesBlob(w: World, reader: Reader, root: Hex, hex: Hex) {
    exists t :: ReachesTree(w, reader, root, t) && Blob(hex) in Targets(w, reader, t)
  }

  lemma RootReached(w: World, reader: Reader, root: Hex)
    ensures ReachesTree(w, reader, root, root)
  {
    assert IsPath(w, reader, [root]);
  }

  lemma ChildReached(w: World, reader: Reader, root: Hex, hex: Hex, child: Hex)
    requires ReachesTree(w, reader, root, hex) && Tree(child) in Targets(w, reader, hex)
    ensures ReachesTree(w, reader, root, child)
  {
    var path :| IsPath(w, reader, path) && path[0] == root && path[|path| - 1] == hex;
    assert IsPath(w, reader, path + [child]);
  }

  /** A set with the root that contains its trees' children contains every reachable tree. */
  lemma {:induction false} ClosedHoldsPath(w: World, reader: Reader, closed: set<Hex>, path: seq<Hex>)
    requires IsPath(w, reader, path) && path[0] in closed
    requires forall t, c :: t in closed && Tree(c) in Targets(w, reader, t) ==> c in closed
    ensures path[|path| - 1] in closed
    decreases |path|
  {
    if |path| > 1 {
      ClosedHoldsPath(w, reader, closed, path[..|path| - 1]);
    }
  }

  /** What the walk has to visit. */
  ghost predicate IsClosure(w: World, reader: Reader, root: Hex, trees: set<Hex>, blobs: set<Hex>) {
    && (forall t :: t in trees <==> ReachesTree(w, reader, root, t))
    && (forall b :: b in blobs <==> ReachesBlob(w, reader, root, b))
  }

  lemma ClosedIsClosure(w: World, reader: Reader, root: Hex, trees: set<Hex>, blobs: set<Hex>)
    requires root in trees && forall t :: t in trees ==> ReachesTree(w, reader, root, t)
    requires forall t, c :: t in trees && Tree(c) in Targets(w, reader, t) ==> c in trees
    requires forall t, b :: t in trees && Blob(b) in Targets(w, reader, t) ==> b in blobs
    requires forall b :: b in blobs ==> ReachesBlob(w, reader, root, b)
    ensures IsClosure(w, reader, root, trees, blobs)
  {
    forall t | ReachesTree(w, reader, root, t) ensures t in trees {
      var path :| IsPath(w, reader, path) && path[0] == root && path[|path| - 1] == t;
      ClosedHoldsPath(w, reader, trees, path);
    }
  }

  // ------------------------------------------------------------------------ the trees

  ghost predicate Lists(xs: seq<Hex>, all: set<Hex>) {
    && (forall x :: x in xs <==> x in all)
    && (forall i, j :: 0 <= i < j < |xs| ==> xs[i] != xs[j])
  }

  lemma {:induction false} ListSize(xs: seq<Hex>, all: set<Hex>)
    requires Lists(xs, all)
    ensures |xs| == |all|
    decreases |xs|
  {
    if xs != [] {
      var front, last := xs[..|xs| - 1], xs[|xs| - 1];
      assert xs == front + [last];
      ListSize(front, all - {last});
    }
  }

  /** The entries of one tree: trees go on the worklist, blobs not yet noted on the list. */
  method Expand(entries: seq<Target>, work: seq<Hex>, noted: set<Hex>, blobs: seq<Hex>)
    returns (work': seq<Hex>, noted': set<Hex>, blobs': seq<Hex>)
    requires Lists(blobs, noted)
    ensures forall h :: h in work' <==> h in work || Tree(h) in entries
    ensures forall h :: h in noted' <==> h in noted || Blob(h) in entries
    ensures Lists(blobs', noted') && |work'| <= |work| + |entries|
  {
    work', noted', blobs' := work, noted, blobs;
    for i := 0 to |entries|
      invariant forall h :: h in work' <==> h in work || Tree(h) in entries[..i]
      invariant forall h :: h in noted' <==> h in noted || Blob(h) in entries[..i]
      invariant Lists(blobs', noted') && |work'| <= |work| + i
    {
      assert entries[..i + 1] == entries[..i] + [entries[i]];
      match entries[i]
      case Tree(hex) =>
        work' := work' + [hex];
      case Blob(hex) =>
        if hex !in noted' {
          noted', blobs' := noted' + {hex}, blobs' + [hex];
        }
    }
    assert entries[..|entries|] == entries;
  }

  predicate Loads(w: World, reader: Reader, hex: Hex) {
    Load(w, reader, hex).Entries?
  }

  /** The worklist invariant: everything held is reachable, and what a visited tree names is
      visited, waiting or noted. */
  ghost predicate Explored(w: World, reader: Reader, root: Hex, seen: set<Hex>, work: seq<Hex>, noted: set<Hex>) {
    && (root in seen || root in work)
    && (forall t :: t in seen || t in work ==> ReachesTree(w, reader, root, t))
    && (forall b :: b in noted ==> ReachesBlob(w, reader, root, b))
    && (forall t, c :: t in seen && Tree(c) in Targets(w, reader, t) ==> c in seen || c in work)
    && (forall t, b :: t in seen && Blob(b) in Targets(w, reader, t) ==> b in noted)
  }

  lemma VisitKeeps(w: World, reader: Reader, root: Hex, hex: Hex, entries: seq<Target>, seen: set<Hex>,
                   work: seq<Hex>, noted: set<Hex>, work': seq<Hex>, noted': set<Hex>)
    requires Explored(w, reader, root, seen, work + [hex], noted) && entries == Targets(w, reader, hex)
    requires forall h :: h in work' <==> h in work || Tree(h) in entries
    requires forall h :: h in noted' <==> h in noted || Blob(h) in entries
    ensures Explored(w, reader, root, seen + {hex}, work', noted')
  {
    assert forall h :: h in work + [hex] <==> h in work || h == hex;
    forall c | Tree(c) in entries ensures ReachesTree(w, reader, root, c) {
      ChildReached(w, reader, root, hex, c);
    }
  }

  lemma SkipKeeps(w: World, reader: Reader, root: Hex, hex: Hex, seen: set<Hex>, work: seq<Hex>, noted: set<Hex>)
    requires Explored(w, reader, root, seen, work + [hex], noted) && hex in seen
    ensures Explored(w, reader, root, seen, work, noted)
  {
    assert forall h :: h in work + [hex] <==> h in work || h == hex;
  }

  ghost predicate AllLoad(w: World, reader: Reader, trees: set<Hex>) {
    forall t :: t in trees ==> Loads(w, reader, t)
  }

  lemma StartExplored(w: World, reader: Reader, root: Hex)
    ensures Explored(w, reader, root, {}, [root], {})
  {
    RootReached(w, reader, root);
  }

  lemma ExploredIsClosure(w: World, reader: Reader, root: Hex, trees: set<Hex>, blobs: set<Hex>)
    requires Explored(w, reader, root, trees, [], blobs)
    ensures IsClosure(w, reader, root, trees, blobs)
  {
    ClosedIsClosure(w, reader, root, trees, blobs);
  }

  /** The bytes a tree's read counts: those that hash to its address, whether or not they parse. */
  function TreeBytes(w: World, reader: Reader, hex: Hex): nat {
    match PickMember(RowsAt(w.trees, hex), reader)
    case Refused(_) => 0
    case Picked(m) =>
      match w.read(m.range)
      case None => 0
      case Some(content) => if w.hash(content) == hex then |content.bytes| else 0
  }

  function TreeSizes(w: World, reader: Reader): Hex -> nat {
    hex => TreeBytes(w, reader, hex)
  }

  ghost function SumOver(xs: set<Hex>, size: Hex -> nat): nat {
    if xs == {} then 0 else var x :| x in xs; SumOver(xs - {x}, size) + size(x)
  }

  lemma {:induction false} SumGrows(xs: set<Hex>, x: Hex, size: Hex -> nat)
    requires x !in xs
    ensures SumOver(xs + {x}, size) == SumOver(xs, size) + size(x)
    decreases |xs|
  {
    var all := xs + {x};
    var y :| y in all && SumOver(all, size) == SumOver(all - {y}, size) + size(y);
    if y == x {
      assert all - {x} == xs;
    } else {
      assert all - {y} == (xs - {y}) + {x} && (xs - {y}) + {y} == xs;
      SumGrows(xs - {y}, x, size);
      SumGrows(xs - {y}, y, size);
    }
  }

  /** One tree taken off the worklist for the first time. */
  method VisitTree(w: World, reader: Reader, ghost root: Hex, hex: Hex, ghost seen: set<Hex>,
                   work: seq<Hex>, noted: set<Hex>, blobs: seq<Hex>)
    returns (found: seq<Problem>, size: nat, work': seq<Hex>, noted': set<Hex>, blobs': seq<Hex>)
    requires Explored(w, reader, root, seen, work + [hex], noted) && Lists(blobs, noted) && hex !in seen
    ensures Explored(w, reader, root, seen + {hex}, work', noted') && Lists(blobs', noted')
    ensures found == (match Load(w, reader, hex) case Entries(_) => [] case Failed(x) => [x])
    ensures SumOver(seen + {hex}, TreeSizes(w, reader)) == SumOver(seen, TreeSizes(w, reader)) + size
    ensures hex !in w.trees ==> |work'| <= |work|
  {
    var loaded := Load(w, reader, hex);
    found := if loaded.Failed? then [loaded.problem] else [];
    size := TreeBytes(w, reader, hex);
    SumGrows(seen, hex, TreeSizes(w, reader));
    work', noted', blobs' := Expand(Targets(w, reader, hex), work, noted, blobs);
    VisitKeeps(w, reader, root, hex, Targets(w, reader, hex), seen, work, noted, work', noted');
    if hex !in w.trees {
      UnknownIsLeaf(w, reader, hex);
    }
  }

  lemma NothingSeen(w: World, reader: Reader)
    ensures (forall x :: !TreeFails(w, reader, {}, x)) && SumOver({}, TreeSizes(w, reader)) == 0
  {
  }

  lemma OneMoreFails(w: World, reader: Reader, seen: set<Hex>, hex: Hex, x: Problem)
    ensures TreeFails(w, reader, seen + {hex}, x) <==>
              TreeFails(w, reader, seen, x) || Load(w, reader, hex) == Failed(x)
  {
    if TreeFails(w, reader, seen, x) {
      var t :| t in seen && Load(w, reader, t) == Failed(x);
      assert t in seen + {hex};
    }
    assert hex in seen + {hex};
  }

  /** Visiting an indexed tree leaves fewer to visit; visiting any other leaves as many. */
  lemma FewerLeft(index: set<Hex>, seen: set<Hex>, hex: Hex)
    requires hex !in seen
    ensures hex in index ==> index - (seen + {hex}) < index - seen
    ensures hex !in index ==> index - (seen + {hex}) == index - seen
  {
    if hex in index {
      assert hex in index - seen && hex !in index - (seen + {hex});
    }
  }

  /** `x` is what one of the trees does not load for. */
  ghost predicate TreeFails(w: World, reader: Reader, trees: set<Hex>, x: Problem) {
    exists t :: t in trees && Load(w, reader, t) == Failed(x)
  }

  lemma NoneFails(w: World, reader: Reader, trees: set<Hex>, problems: seq<Problem>)
    requires forall x :: x in problems <==> TreeFails(w, reader, trees, x)
    ensures problems == [] <==> AllLoad(w, reader, trees)
  {
    if problems != [] {
      assert problems[0] in problems;
    }
    if t :| t in trees && !Loads(w, reader, t) {
      assert TreeFails(w, reader, trees, Load(w, reader, t).problem);
    }
  }

  /** Where the worklist loop stands. */
  datatype Progress = Progress(
    work: seq<Hex>, seen: set<Hex>, noted: set<Hex>, blobs: seq<Hex>, objects: nat, bytes: nat, problems: seq<Problem>)

  ghost predicate WalkOk(w: World, reader: Reader, root: Hex, p: Progress) {
    && Explored(w, reader, root, p.seen, p.work, p.noted)
    && Lists(p.blobs, p.noted) && p.objects == |p.seen| && p.bytes == SumOver(p.seen, TreeSizes(w, reader))
    && (forall x :: x in p.problems <==> TreeFails(w, reader, p.seen, x))
  }

  lemma Skips(w: World, reader: Reader, root: Hex, p: Progress, rest: seq<Hex>, hex: Hex)
    requires WalkOk(w, reader, root, p) && p.work == rest + [hex] && hex in p.seen
    ensures WalkOk(w, reader, root, p.(work := rest))
  {
    SkipKeeps(w, reader, root, hex, p.seen, rest, p.noted);
  }

  method Visits(w: World, reader: Reader, ghost root: Hex, p: Progress, rest: seq<Hex>, hex: Hex) returns (p': Progress)
    requires WalkOk(w, reader, root, p) && p.work == rest + [hex] && hex !in p.seen
    ensures WalkOk(w, reader, root, p') && p'.seen == p.seen + {hex}
    ensures hex !in w.trees ==> |p'.work| <= |rest|
  {
    var found, size, work, noted, blobs := VisitTree(w, reader, root, hex, p.seen, rest, p.noted, p.blobs);
    forall x ensures TreeFails(w, reader, p.seen + {hex}, x) <==> x in p.problems + found {
      OneMoreFails(w, reader, p.seen, hex, x);
    }
    p' := Progress(work, p.seen + {hex}, noted, blobs, p.objects + 1, p.bytes + size, p.problems + found);
  }

  /** One turn of the loop: a tree already seen is dropped, another is visited. */
  method WalkNext(w: World, reader: Reader, ghost root: Hex, p: Progress) returns (p': Progress)
    requires WalkOk(w, reader, root, p) && p.work != []
    ensures WalkOk(w, reader, root, p')
    ensures || w.trees.Keys - p'.seen < w.trees.Keys - p.seen
            || (w.trees.Keys - p'.seen == w.trees.Keys - p.seen && |p'.work| < |p.work|)
  {
    var rest, hex := p.work[..|p.work| - 1], p.work[|p.work| - 1];
    assert p.work == rest + [hex];
    if hex in p.seen {
      Skips(w, reader, root, p, rest, hex);
      p' := p.(work := rest);
    } else {
      FewerLeft(w.trees.Keys, p.seen, hex);
      p' := Visits(w, reader, root, p, rest, hex);
    }
  }

  /** The worklist loop over trees. */
  method WalkTrees(w: World, reader: Reader, root: Hex)
    returns (objects: nat, bytes: nat, problems: seq<Problem>, blobs: seq<Hex>,
             ghost trees: set<Hex>, ghost noted: set<Hex>)
    ensures IsClosure(w, reader, root, trees, noted) && Lists(blobs, noted)
    ensures objects == |trees| && bytes == SumOver(trees, TreeSizes(w, reader))
    ensures forall x :: x in problems <==> TreeFails(w, reader, trees, x)
    ensures problems == [] <==> AllLoad(w, reader, trees)
  {
    var p := Progress([root], {}, {}, [], 0, 0, []);
    StartExplored(w, reader, root);
    NothingSeen(w, reader);
    while p.work != []
      invariant WalkOk(w, reader, root, p)
      decreases w.trees.Keys - p.seen, |p.work|
    {
      p := WalkNext(w, reader, root, p);
    }
    objects, bytes, problems, blobs, trees, noted := p.objects, p.bytes, p.problems, p.blobs, p.seen, p.noted;
    ExploredIsClosure(w, reader, root, trees, noted);
    NoneFails(w, reader, trees, problems);
  }

  // ------------------------------------------------------------------------ the blobs

  /** The range the walk reads for blob `hex`, if it may read one. */
  function ChosenRange(w: World, reader: Reader, hex: Hex): Option<Range> {
    match PickMember(RowsAt(w.blobs, hex), reader)
    case Refused(_) => None
    case Picked(m) => Some(m.range)
  }

  /** Reading a range back for the blob `hex`. */
  function CheckRange(w: World, hex: Hex, range: Range): Check {
    match w.read(range)
    case None => Bad(BlobRead(hex))
    case Some(content) => if w.hash(content) == hex then Good else Bad(BlobHash(hex))
  }

  datatype Chosen = Chosen(hex: Hex, range: Range)

  predicate IsChosen(w: World, reader: Reader, c: Chosen) {
    ChosenRange(w, reader, c.hex) == Some(c.range)
  }

  /** `x` is that no member of one of the blobs may be read, and why. */
  ghost predicate PickFails(w: World, reader: Reader, blobs: seq<Hex>, x: Problem) {
    && x.BlobPick? && x.hex in blobs
    && PickMember(if x.hex in w.blobs then w.blobs[x.hex] else [], reader) == Refused(x.why)
  }

  method PickBlobs(w: World, reader: Reader, blobs: seq<Hex>) returns (picked: seq<Chosen>, problems: seq<Problem>)
    requires forall i, j :: 0 <= i < j < |blobs| ==> blobs[i] != blobs[j]
    ensures forall c :: c in picked <==> c.hex in blobs && IsChosen(w, reader, c)
    ensures forall i, j :: 0 <= i < j < |picked| ==> picked[i].hex != picked[j].hex
    ensures problems == [] <==> forall b :: b in blobs ==> ChosenRange(w, reader, b).Some?
    ensures forall x :: x in problems <==> PickFails(w, reader, blobs, x)
  {
    picked, problems := [], [];
    for i := 0 to |blobs|
      invariant forall c :: c in picked <==> c.hex in blobs[..i] && IsChosen(w, reader, c)
      invariant forall m :: 0 <= m < |picked| ==> picked[m].hex in blobs[..i]
      invariant forall m, n :: 0 <= m < n < |picked| ==> picked[m].hex != picked[n].hex
      invariant problems == [] <==> forall b :: b in blobs[..i] ==> ChosenRange(w, reader, b).Some?
      invariant forall x :: x in problems <==> PickFails(w, reader, blobs[..i], x)
    {
      assert blobs[..i + 1] == blobs[..i] + [blobs[i]] && blobs[i] in blobs[..i + 1];
      match PickMember(RowsAt(w.blobs, blobs[i]), reader)
      case Picked(m) =>
        picked := picked + [Chosen(blobs[i], m.range)];
      case Refused(why) =>
        problems := problems + [BlobPick(blobs[i], why)];
    }
    assert blobs[..|blobs|] == blobs;
  }

  /** Entries stay, and a new one is the check of a blob chosen for that range. */
  ghost predicate Grew(w: World, picked: seq<Chosen>, memo: Memo, memo': Memo) {
    && (forall r :: r in memo ==> r in memo' && memo'[r] == memo[r])
    && (forall r :: r in memo' && r !in memo ==>
          exists c :: c in picked && c.range == r && memo'[r] == CheckRange(w, c.hex, r))
  }

  /** The bytes a blob's read counts: those of a range that hashes to its address. */
  function ReadBytes(w: World, hex: Hex, range: Range): nat {
    match w.read(range)
    case None => 0
    case Some(content) => if w.hash(content) == hex then |content.bytes| else 0
  }

  function BlobSizes(w: World, reader: Reader): Hex -> nat {
    hex => if ChosenRange(w, reader, hex).Some? then ReadBytes(w, hex, ChosenRange(w, reader, hex).value) else 0
  }

  /** Reads finish in any order; of two blobs chosen at one range, the last to finish is kept.  A range the memo
      holds is not read again. */
  method ReadBlobs(w: World, reader: Reader, picked: seq<Chosen>, memo: Memo)
    returns (memo': Memo, bytes: nat, ghost read: set<Hex>)
    requires forall c :: c in picked ==> IsChosen(w, reader, c)
    requires forall i, j :: 0 <= i < j < |picked| ==> picked[i].hex != picked[j].hex
    ensures Grew(w, picked, memo, memo') && forall c :: c in picked ==> c.range in memo'
    ensures bytes == SumOver(read, BlobSizes(w, reader))
    ensures forall b :: b in read <==> exists c :: c in picked && c.hex == b && c.range !in memo
  {
    var all := set c | c in picked && c.range !in memo;
    var left := all;
    memo', bytes, read := memo, 0, {};
    while left != {}
      invariant Grew(w, picked, memo, memo') && left <= all
      invariant forall c :: c in all - left ==> c.range in memo'
      invariant read == Hexes(all - left) && bytes == SumOver(read, BlobSizes(w, reader))
      decreases left
    {
      var c :| c in left;
      NextRead(w, reader, all, left, c);
      SumGrows(read, c.hex, BlobSizes(w, reader));
      GrewOne(w, picked, memo, memo', c);
      memo' := memo'[c.range := CheckRange(w, c.hex, c.range)];
      bytes, read, left := bytes + ReadBytes(w, c.hex, c.range), read + {c.hex}, left - {c};
    }
    assert all - left == all;
  }

  lemma GrewOne(w: World, picked: seq<Chosen>, memo: Memo, memo': Memo, c: Chosen)
    requires Grew(w, picked, memo, memo') && c in picked && c.range !in memo
    ensures Grew(w, picked, memo, memo'[c.range := CheckRange(w, c.hex, c.range)])
  {
  }

  lemma NextRead(w: World, reader: Reader, all: set<Chosen>, left: set<Chosen>, c: Chosen)
    requires left <= all && c in left && forall d :: d in all ==> IsChosen(w, reader, d)
    ensures Hexes(all - (left - {c})) == Hexes(all - left) + {c.hex} && c.hex !in Hexes(all - left)
    ensures all - (left - {c}) == (all - left) + {c}
  {
    assert all - (left - {c}) == (all - left) + {c};
    assert IsChosen(w, reader, c);
  }

  function Hexes(cs: set<Chosen>): set<Hex> {
    set c | c in cs :: c.hex
  }

  method Judge(picked: seq<Chosen>, memo: Memo) returns (problems: seq<Problem>)
    requires forall c :: c in picked ==> c.range in memo
    ensures problems == [] <==> forall c :: c in picked ==> memo[c.range].Good?
    ensures forall x :: x in problems <==> exists c :: c in picked && memo[c.range] == Bad(x)
  {
    problems := [];
    for i := 0 to |picked|
      invariant forall x :: x in problems <==> exists j :: 0 <= j < i && memo[picked[j].range] == Bad(x)
      invariant problems == [] <==> forall j :: 0 <= j < i ==> memo[picked[j].range].Good?
    {
      if memo[picked[i].range].Bad? {
        problems := problems + [memo[picked[i].range].problem];
      }
    }
  }

  // -------------------------------------------------------------------------- the walk

  /** What a walk does to the memo it was given. */
  ghost predicate MemoGrew(w: World, reader: Reader, blobs: set<Hex>, memo: Memo, memo': Memo) {
    && (forall r :: r in memo ==> r in memo' && memo'[r] == memo[r])
    && (forall b :: b in blobs && ChosenRange(w, reader, b).Some? ==> ChosenRange(w, reader, b).value in memo')
    && (forall r :: r in memo' && r !in memo ==>
          exists b :: b in blobs && ChosenRange(w, reader, b) == Some(r) && memo'[r] == CheckRange(w, b, r))
  }

  ghost predicate BlobClean(w: World, reader: Reader, memo: Memo, b: Hex) {
    var range := ChosenRange(w, reader, b);
    range.Some? && range.value in memo && memo[range.value].Good?
  }

  ghost predicate Clean(w: World, reader: Reader, trees: set<Hex>, blobs: set<Hex>, memo: Memo) {
    AllLoad(w, reader, trees) && forall b :: b in blobs ==> BlobClean(w, reader, memo, b)
  }

  /** `x` is that one of the blobs may not be read, or what the memo holds against its range. */
  ghost predicate BlobFails(w: World, reader: Reader, blobs: set<Hex>, memo: Memo, x: Problem) {
    || (x.BlobPick? && x.hex in blobs
        && PickMember(if x.hex in w.blobs then w.blobs[x.hex] else [], reader) == Refused(x.why))
    || exists b :: b in blobs && BlobHeldAgainst(w, reader, b, memo, x)
  }

  ghost predicate BlobHeldAgainst(w: World, reader: Reader, b: Hex, memo: Memo, x: Problem) {
    var range := ChosenRange(w, reader, b);
    range.Some? && range.value in memo && memo[range.value] == Bad(x)
  }

  lemma FailsAreListed(w: World, reader: Reader, list: seq<Hex>, blobs: set<Hex>, picked: seq<Chosen>, memo: Memo,
                       x: Problem)
    requires Lists(list, blobs) && forall c :: c in picked <==> c.hex in list && IsChosen(w, reader, c)
    requires forall c :: c in picked ==> c.range in memo
    ensures BlobFails(w, reader, blobs, memo, x) <==>
              PickFails(w, reader, list, x) || exists c :: c in picked && memo[c.range] == Bad(x)
  {
    if b :| b in blobs && BlobHeldAgainst(w, reader, b, memo, x) {
      assert Chosen(b, ChosenRange(w, reader, b).value) in picked;
    }
    if c :| c in picked && memo[c.range] == Bad(x) {
      assert c.hex in blobs && BlobHeldAgainst(w, reader, c.hex, memo, x);
    }
  }

  /** The blobs whose range the memo does not hold. */
  function Unread(w: World, reader: Reader, blobs: set<Hex>, memo: Memo): set<Hex> {
    set b | b in blobs && ChosenRange(w, reader, b).Some? && ChosenRange(w, reader, b).value !in memo
  }

  lemma ReadIsUnread(w: World, reader: Reader, list: seq<Hex>, blobs: set<Hex>, picked: seq<Chosen>, memo: Memo,
                     read: set<Hex>)
    requires Lists(list, blobs) && forall c :: c in picked <==> c.hex in list && IsChosen(w, reader, c)
    requires forall b :: b in read <==> exists c :: c in picked && c.hex == b && c.range !in memo
    ensures read == Unread(w, reader, blobs, memo)
  {
    forall b | b in Unread(w, reader, blobs, memo) ensures b in read {
      assert IsChosen(w, reader, Chosen(b, ChosenRange(w, reader, b).value));
    }
  }

  /** The second half of the walk: one read of every range that the memo does not hold. */
  method WalkBlobs(w: World, reader: Reader, list: seq<Hex>, ghost blobs: set<Hex>, memo: Memo)
    returns (memo': Memo, bytes: nat, problems: seq<Problem>)
    requires Lists(list, blobs)
    ensures bytes == SumOver(Unread(w, reader, blobs, memo), BlobSizes(w, reader))
    ensures MemoGrew(w, reader, blobs, memo, memo')
    ensures problems == [] <==> forall b :: b in blobs ==> BlobClean(w, reader, memo', b)
    ensures forall x :: x in problems <==> BlobFails(w, reader, blobs, memo', x)
  {
    var picked, pickProblems, readProblems;
    ghost var read;
    picked, pickProblems := PickBlobs(w, reader, list);
    memo', bytes, read := ReadBlobs(w, reader, picked, memo);
    ReadIsUnread(w, reader, list, blobs, picked, memo, read);
    readProblems := Judge(picked, memo');
    problems := pickProblems + readProblems;
    ChosenAreBlobs(w, reader, list, blobs, picked, memo, memo');
    forall x ensures x in problems <==> BlobFails(w, reader, blobs, memo', x) {
      FailsAreListed(w, reader, list, blobs, picked, memo', x);
    }
  }

  /** `walk_snapshot`: visits every reachable object once, whatever the shape of the index. */
  method WalkSnapshot(w: World, reader: Reader, root: Hex, memo: Memo)
    returns (objects: nat, bytes: nat, problems: seq<Problem>, memo': Memo,
             ghost trees: set<Hex>, ghost blobs: set<Hex>)
    ensures IsClosure(w, reader, root, trees, blobs) && objects == |trees| + |blobs|
    ensures bytes == SumOver(trees, TreeSizes(w, reader))
                     + SumOver(Unread(w, reader, blobs, memo), BlobSizes(w, reader))
    ensures MemoGrew(w, reader, blobs, memo, memo')
    ensures problems == [] <==> Clean(w, reader, trees, blobs, memo')
    ensures forall x :: x in problems <==> TreeFails(w, reader, trees, x) || BlobFails(w, reader, blobs, memo', x)
  {
    var list, treeProblems, blobBytes, blobProblems;
    objects, bytes, treeProblems, list, trees, blobs := WalkTrees(w, reader, root);
    ListSize(list, blobs);
    memo', blobBytes, blobProblems := WalkBlobs(w, reader, list, blobs, memo);
    objects, bytes, problems := objects + |list|, bytes + blobBytes, treeProblems + blobProblems;
  }

  lemma ChosenAreBlobs(w: World, reader: Reader, list: seq<Hex>, blobs: set<Hex>, picked: seq<Chosen>, memo: Memo,
      memo': Memo)
    requires Lists(list, blobs) && Grew(w, picked, memo, memo') && forall c :: c in picked ==> c.range in memo'
    requires forall c :: c in picked <==> c.hex in list && IsChosen(w, reader, c)
    ensures MemoGrew(w, reader, blobs, memo, memo')
    ensures (forall b :: b in blobs ==> BlobClean(w, reader, memo', b)) <==>
            (forall b :: b in list ==> ChosenRange(w, reader, b).Some?)
                && (forall c :: c in picked ==> memo'[c.range].Good?)
  {
    forall r | r in memo' && r !in memo
      ensures exists b :: b in blobs && ChosenRange(w, reader, b) == Some(r) && memo'[r] == CheckRange(w, b, r)
    {
      var c :| c in picked && c.range == r && memo'[r] == CheckRange(w, c.hex, r);
      assert c.hex in blobs;
    }
    forall b | b in blobs && ChosenRange(w, reader, b).Some?
        ensures Chosen(b, ChosenRange(w, reader, b).value) in picked {
      assert IsChosen(w, reader, Chosen(b, ChosenRange(w, reader, b).value));
    }
  }

  // ----------------------------------------------------------------------- soundness

  /** One byte range of the packs belongs to one blob address. */
  ghost predicate OneAddressPerRange(w: World) {
    forall a, b, m, n :: a in w.blobs && b in w.blobs && m in w.blobs[a] && n in w.blobs[b] && m.range == n.range ==>
        a == b
  }

  /** Every memo entry is what re-reading its range for its blob gives. */
  ghost predicate MemoAgrees(w: World, memo: Memo) {
    forall r, b, m :: r in memo && b in w.blobs && m in w.blobs[b] && m.range == r ==> memo[r] == CheckRange(w, b, r)
  }

  /** The blob is there and is what its address says. */
  ghost predicate BlobGood(w: World, reader: Reader, b: Hex) {
    b in w.blobs && exists content :: Fetched(w, reader, w.blobs[b], b, content)
  }

  lemma ChecksIffGood(w: World, reader: Reader, b: Hex)
    ensures BlobGood(w, reader, b) <==>
              ChosenRange(w, reader, b).Some? && CheckRange(w, b, ChosenRange(w, reader, b).value).Good?
    ensures forall content :: b in w.blobs && Fetched(w, reader, w.blobs[b], b, content) ==>
              BlobSizes(w, reader)(b) == |content.bytes|
    ensures !BlobGood(w, reader, b) ==> BlobSizes(w, reader)(b) == 0
    ensures ChosenRange(w, reader, b).Some? && !BlobGood(w, reader, b) ==>
              var range := ChosenRange(w, reader, b).value;
              CheckRange(w, b, range) == Bad(if w.read(range).None? then BlobRead(b) else BlobHash(b))
  {
    PickIsRight([], reader);
    if ChosenRange(w, reader, b).Some? {
      var read := w.read(ChosenRange(w, reader, b).value);
      assert read.Some? && w.hash(read.value) == b ==> Fetched(w, reader, w.blobs[b], b, read.value);
    }
  }

  /** Every reachable tree and blob is in a committed own or borrowed pack and hashes to its address. */
  ghost predicate SnapshotGood(w: World, reader: Reader, root: Hex) {
    && (forall t :: ReachesTree(w, reader, root, t) ==> TreeGood(w, reader, t))
    && (forall b :: ReachesBlob(w, reader, root, b) ==> BlobGood(w, reader, b))
  }

  lemma ChosenIsMember(w: World, reader: Reader, b: Hex)
    requires ChosenRange(w, reader, b).Some?
    ensures b in w.blobs && exists m :: m in w.blobs[b] && m.range == ChosenRange(w, reader, b).value
                                        && From(m, {reader.own} + reader.borrows)
  {
    PickIsRight(RowsAt(w.blobs, b), reader);
  }

  lemma MemoStaysRight(w: World, reader: Reader, memo: Memo, memo': Memo, blobs: set<Hex>)
    requires OneAddressPerRange(w) && MemoAgrees(w, memo) && MemoGrew(w, reader, blobs, memo, memo')
    ensures MemoAgrees(w, memo')
  {
    forall r, b, m | r in memo' && b in w.blobs && m in w.blobs[b] && m.range == r
      ensures memo'[r] == CheckRange(w, b, r)
    {
      if r !in memo {
        var x :| x in blobs && ChosenRange(w, reader, x) == Some(r) && memo'[r] == CheckRange(w, x, r);
        ChosenIsMember(w, reader, x);
      }
    }
  }

  lemma CleanIffGood(w: World, reader: Reader, memo: Memo, b: Hex)
    requires MemoAgrees(w, memo) && (ChosenRange(w, reader, b).Some? ==> ChosenRange(w, reader, b).value in memo)
    ensures BlobClean(w, reader, memo, b) <==> BlobGood(w, reader, b)
  {
    ChecksIffGood(w, reader, b);
    if ChosenRange(w, reader, b).Some? {
      ChosenIsMember(w, reader, b);
    }
  }

  /** The memo stays in agreement with re-reading, from snapshot to snapshot, and with it the walk
      reports no problem iff the snapshot is good. */
  lemma WalkIsSound(w: World, reader: Reader, root: Hex, memo: Memo, memo': Memo, trees: set<Hex>, blobs: set<Hex>)
    requires OneAddressPerRange(w) && MemoAgrees(w, memo)
    requires IsClosure(w, reader, root, trees, blobs) && MemoGrew(w, reader, blobs, memo, memo')
    ensures MemoAgrees(w, memo')
    ensures Clean(w, reader, trees, blobs, memo') <==> SnapshotGood(w, reader, root)
  {
    MemoStaysRight(w, reader, memo, memo', blobs);
    forall t | t in trees ensures Loads(w, reader, t) <==> TreeGood(w, reader, t) {
      LoadsIffGood(w, reader, t);
    }
    forall b | b in blobs ensures BlobClean(w, reader, memo', b) <==> BlobGood(w, reader, b) {
      CleanIffGood(w, reader, memo', b);
    }
  }

  datatype Snapshot = Snapshot(reader: Reader, root: Hex)

  method WalkOne(w: World, snapshot: Snapshot, memo: Memo) returns (problems: seq<Problem>, memo': Memo)
    requires OneAddressPerRange(w) && MemoAgrees(w, memo)
    ensures MemoAgrees(w, memo')
    ensures problems == [] <==> SnapshotGood(w, snapshot.reader, snapshot.root)
  {
    var objects, bytes;
    ghost var trees, blobs;
    objects, bytes, problems, memo', trees, blobs := WalkSnapshot(w, snapshot.reader, snapshot.root, memo);
    WalkIsSound(w, snapshot.reader, snapshot.root, memo, memo', trees, blobs);
  }

  /** One memo carried over every snapshot: each walk is clean iff its own snapshot is good. */
  method WalkAll(w: World, snapshots: seq<Snapshot>) returns (found: seq<seq<Problem>>)
    requires OneAddressPerRange(w)
    ensures |found| == |snapshots|
    ensures forall i :: 0 <= i < |found| ==>
        (found[i] == [] <==> SnapshotGood(w, snapshots[i].reader, snapshots[i].root))
  {
    var memo: Memo := map[];
    found := [];
    for i := 0 to |snapshots|
      invariant |found| == i && MemoAgrees(w, memo)
      invariant forall j :: 0 <= j < i ==> (found[j] == [] <==> SnapshotGood(w, snapshots[j].reader, snapshots[j].root))
    {
      var problems;
      problems, memo := WalkOne(w, snapshots[i], memo);
      found := found + [problems];
    }
  }

  // ------------------------------------------------------- ranges shared by two addresses

  /** Each entry is the check of its range for the blob it was read for. */
  ghost predicate ReadFor(w: World, memo: Memo, owners: map<Range, Hex>) {
    forall r :: r in memo ==> r in owners && memo[r] == CheckRange(w, owners[r], r)
  }

  /** What a walk adds to the memo was read for blobs that its snapshot reaches, and chooses there. */
  lemma {:induction false} OwnersGrow(w: World, reader: Reader, blobs: set<Hex>, memo: Memo, memo': Memo,
      owners: map<Range, Hex>)
    returns (owners': map<Range, Hex>)
    requires MemoGrew(w, reader, blobs, memo, memo') && ReadFor(w, memo, owners)
    ensures ReadFor(w, memo', owners') && forall r :: r in memo ==> owners'[r] == owners[r]
    ensures forall r :: r in memo' && r !in memo ==>
              owners'[r] in blobs && ChosenRange(w, reader, owners'[r]) == Some(r)
  {
    owners' := map r | r in memo' ::
      if r in memo then owners[r]
      else var b :| b in blobs && ChosenRange(w, reader, b) == Some(r) && memo'[r] == CheckRange(w, b, r); b;
  }

  /** The walk misjudges a blob iff its range was read for another address and holds the bytes of one of the two:
      clean and bad if they are the other's, reported and good if they are its own. */
  lemma MisjudgedIff(w: World, reader: Reader, memo: Memo, owners: map<Range, Hex>, b: Hex, range: Range)
    requires ReadFor(w, memo, owners) && ChosenRange(w, reader, b) == Some(range) && range in memo
    ensures (BlobClean(w, reader, memo, b) && !BlobGood(w, reader, b)) <==>
            owners[range] != b && w.read(range).Some? && w.hash(w.read(range).value) == owners[range]
    ensures (!BlobClean(w, reader, memo, b) && BlobGood(w, reader, b)) <==>
            owners[range] != b && w.read(range).Some? && w.hash(w.read(range).value) == b
  {
    ChecksIffGood(w, reader, b);
  }

  /** No blob but `b` itself is chosen at `b`'s range. */
  ghost predicate Alone(w: World, reader: Reader, b: Hex, others: Reader, blobs: set<Hex>) {
    forall c :: c in blobs && ChosenRange(w, others, c) == ChosenRange(w, reader, b) ==> c == b
  }

  /** So it goes wrong in every world where two snapshots reach two blobs at one range: walk the first, where `a` is
      good, and the second is reported clean although its `b` is not there. */
  lemma SharedRangeMisleads(w: World, first: Snapshot, second: Snapshot, memo: Memo, memo': Memo,
                            blobs: set<Hex>, trees': set<Hex>, blobs': set<Hex>, a: Hex, b: Hex)
    requires MemoGrew(w, first.reader, blobs, map[], memo)
    requires IsClosure(w, second.reader, second.root, trees', blobs') && MemoGrew(w, second.reader, blobs', memo, memo')
    requires a in blobs && b in blobs' && a != b && BlobGood(w, first.reader, a)
    requires ChosenRange(w, first.reader, a) == ChosenRange(w, second.reader, b)
        && Alone(w, first.reader, a, first.reader, blobs)
    requires AllLoad(w, second.reader, trees')
    requires forall c :: c in blobs' && c != b ==>
               && BlobGood(w, second.reader, c)
               && Alone(w, second.reader, c, first.reader, blobs) && Alone(w, second.reader, c, second.reader, blobs')
    ensures Clean(w, second.reader, trees', blobs', memo') && !SnapshotGood(w, second.reader, second.root)
  {
    var owners := OwnersGrow(w, first.reader, blobs, map[], memo, map[]);
    var owners' := OwnersGrow(w, second.reader, blobs', memo, memo', owners);
    assert FirstOwners(w, first.reader, blobs, memo, owners');
    forall c | c in blobs' && c != b ensures BlobClean(w, second.reader, memo', c) {
      OwnCheck(w, first.reader, second.reader, blobs, blobs', memo, memo', owners', c);
    }
    OthersCheck(w, first.reader, second.reader, blobs, memo, memo', owners', a, b);
    assert !BlobGood(w, second.reader, b);
  }

  /** What is in the memo of the first walk was read for blobs it reaches. */
  ghost predicate FirstOwners(w: World, reader: Reader, blobs: set<Hex>, memo: Memo, owners: map<Range, Hex>) {
    forall r :: r in memo ==> r in owners && owners[r] in blobs && ChosenRange(w, reader, owners[r]) == Some(r)
  }

  lemma OwnCheck(w: World, first: Reader, second: Reader, blobs: set<Hex>, blobs': set<Hex>, memo: Memo, memo': Memo,
                 owners: map<Range, Hex>, c: Hex)
    requires MemoGrew(w, second, blobs', memo, memo') && ReadFor(w, memo', owners)
    requires c in blobs' && BlobGood(w, second, c) && FirstOwners(w, first, blobs, memo, owners)
    requires forall r :: r in memo' && r !in memo ==>
               owners[r] in blobs' && ChosenRange(w, second, owners[r]) == Some(r)
    requires Alone(w, second, c, first, blobs) && Alone(w, second, c, second, blobs')
    ensures BlobClean(w, second, memo', c)
  {
    var range := ChosenRange(w, second, c).value;
    assert owners[range] == c;
  }

  lemma OthersCheck(w: World, first: Reader, second: Reader, blobs: set<Hex>, memo: Memo, memo': Memo,
                    owners: map<Range, Hex>, a: Hex, b: Hex)
    requires ReadFor(w, memo', owners) && FirstOwners(w, first, blobs, memo, owners) && BlobGood(w, first, a)
    requires ChosenRange(w, first, a) == ChosenRange(w, second, b) && Alone(w, first, a, first, blobs)
    requires ChosenRange(w, first, a).value in memo && forall r :: r in memo ==> r in memo'
    ensures BlobClean(w, second, memo', b)
  {
    assert owners[ChosenRange(w, first, a).value] == a;
  }

  const Shared := Range("p", 1, 1)
  const Own := Reader(Fence("own"), {})

  /** Trees `r` and `s` name blobs `a` and `b`, which are indexed at one range, whose bytes hash to `a`. */
  function SharedWorld(): World {
    var own := Fence("own");
    World(map[Hex("r") := [MemberRow(Range("p", 0, 1), own, true)],
        Hex("s") := [MemberRow(Range("p", 2, 1), own, true)]],
          map[Hex("a") := [MemberRow(Shared, own, true)], Hex("b") := [MemberRow(Shared, own, true)]],
          (r: Range) => Some(Content([r.offset])),
          (c: Content) => if c == Content([0]) then Hex("r") else if c == Content([2]) then Hex("s") else Hex("a"),
          (c: Content) => Some([Blob(if c == Content([0]) then Hex("a") else Hex("b"))]))
  }

  lemma Distinct4()
    ensures Hex("r") != Hex("s") && Hex("a") != Hex("b") && Content([0]) != Content([2]) && Content([1]) != Content([0])
            && Content([1]) != Content([2])
  {
    assert "r"[0] != "s"[0] && "a"[0] != "b"[0];
    assert [0][0] != [2][0] && [1][0] != [0][0] && [1][0] != [2][0];
  }

  lemma SharedTrees(root: Hex, blob: Hex)
    requires (root == Hex("r") && blob == Hex("a")) || (root == Hex("s") && blob == Hex("b"))
    ensures Load(SharedWorld(), Own, root) == Entries([Blob(blob)])
  {
    Distinct4();
    var w := SharedWorld();
    assert w.read(Range("p", 0, 1)) == Some(Content([0])) && w.read(Range("p", 2, 1)) == Some(Content([2]));
  }

  lemma SharedBlobs()
    ensures ChosenRange(SharedWorld(), Own, Hex("a")) == ChosenRange(SharedWorld(), Own, Hex("b")) == Some(Shared)
    ensures CheckRange(SharedWorld(), Hex("a"), Shared) == Good
  {
    Distinct4();
    assert SharedWorld().read(Shared) == Some(Content([1]));
  }

  lemma SharedClosure(root: Hex, blob: Hex)
    requires Load(SharedWorld(), Own, root) == Entries([Blob(blob)])
    ensures IsClosure(SharedWorld(), Own, root, {root}, {blob})
  {
    var w := SharedWorld();
    assert Targets(w, Own, root) == [Blob(blob)];
    RootReached(w, Own, root);
    assert ReachesBlob(w, Own, root, blob) by { assert Blob(blob) in Targets(w, Own, root); }
    ClosedIsClosure(w, Own, root, {root}, {blob});
  }

  lemma SharedMemo()
    ensures var w, memo := SharedWorld(), map[Shared := Good];
            MemoGrew(w, Own, {Hex("a")}, map[], memo) && MemoGrew(w, Own, {Hex("b")}, memo, memo)
  {
    SharedBlobs();
  }

  lemma TwoTreesMislead(w: World, reader: Reader, r: Hex, s: Hex, a: Hex, b: Hex, memo: Memo)
    requires IsClosure(w, reader, s, {s}, {b}) && Loads(w, reader, s) && a != b && BlobGood(w, reader, a)
    requires ChosenRange(w, reader, a) == ChosenRange(w, reader, b)
    requires MemoGrew(w, reader, {a}, map[], memo) && MemoGrew(w, reader, {b}, memo, memo)
    ensures Clean(w, reader, {s}, {b}, memo) && !SnapshotGood(w, reader, s)
  {
    ChecksIffGood(w, reader, a);
    SharedRangeMisleads(w, Snapshot(reader, r), Snapshot(reader, s), memo, memo, {a}, {s}, {b}, a, b);
  }

  /** Such a world exists, and from an empty memo the walk of `r` and then of `s` ends so. */
  lemma SharedWorldMisleads()
    ensures var w, memo := SharedWorld(), map[Shared := Good];
            && IsClosure(w, Own, Hex("r"), {Hex("r")}, {Hex("a")})
                && IsClosure(w, Own, Hex("s"), {Hex("s")}, {Hex("b")})
            && MemoGrew(w, Own, {Hex("a")}, map[], memo) && MemoGrew(w, Own, {Hex("b")}, memo, memo)
            && Clean(w, Own, {Hex("s")}, {Hex("b")}, memo) && !SnapshotGood(w, Own, Hex("s"))
  {
    var w, memo: Memo := SharedWorld(), map[Shared := Good];
    Distinct4();
    SharedTrees(Hex("r"), Hex("a"));
    SharedTrees(Hex("s"), Hex("b"));
    SharedClosure(Hex("r"), Hex("a"));
    SharedClosure(Hex("s"), Hex("b"));
    SharedBlobs();
    SharedMemo();
    ChecksIffGood(w, Own, Hex("a"));
    TwoTreesMislead(w, Own, Hex("r"), Hex("s"), Hex("a"), Hex("b"), memo);
  }
}
