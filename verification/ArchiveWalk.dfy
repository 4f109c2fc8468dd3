/** The breadth-first walk over a provider graph that may be cyclic, endless or hostile. */
module ArchiveWalk {
  import opened Bytes
  import opened Listing
  import opened ArchiveNames
  import opened ArchiveMembers
  import L = ArchiveListing

  const MAX_DEPTH := 20

  datatype Inspected = File(name: Text, size: Int64) | NotAFile

  /** A provider: directory listings and the inspection of single files. */
  datatype Provider = Provider(lister: L.Lister, inspect: Locator -> Inspected)

  /** A selected reference, with the name archiveRootName derives from its path. */
  datatype Selected = Selected(isFile: bool, locator: Locator, rootName: Text)

  /** A directory occurrence: where it is, the name prefix of its contents, its depth. */
  datatype Dir = Dir(locator: Locator, prefix: Text, depth: nat)

  // ---- What there is to plan -------------------------------------------------------------------

  function ChildName(d: Dir, child: Item): Text {
    d.prefix + [SLASH] + child.name
  }

  function ChildDir(d: Dir, child: Item): Dir {
    Dir(child.locator, ChildName(d, child), d.depth + 1)
  }

  function ChildFile(d: Dir, child: Item): Request {
    Request(child.locator, ChildName(d, child), child.size)
  }

  function DirsIn(d: Dir, items: seq<Item>): seq<Dir> {
    if items == [] then []
    else DirsIn(d, items[..|items| - 1]) + if items[|items| - 1].isDir then [ChildDir(d, items[|items| - 1])] else []
  }

  function FilesIn(d: Dir, items: seq<Item>): seq<Request> {
    if items == [] then []
    else FilesIn(d, items[..|items| - 1]) + if items[|items| - 1].isDir then [] else [ChildFile(d, items[|items| - 1])]
  }

  /** The directories selected, in order. */
  function SelectedDirs(selection: seq<Selected>): seq<Dir> {
    if selection == [] then []
    else
      var last := selection[|selection| - 1];
      SelectedDirs(selection[..|selection| - 1]) + if last.isFile then [] else [Dir(last.locator, last.rootName, 1)]
  }

  /** A selected file goes by the name the provider reports for it, if any. */
  function SelectedFile(p: Provider, s: Selected): seq<Request> {
    var found := p.inspect(s.locator);
    if found.NotAFile? then []
    else [Request(s.locator, if found.name != [] then found.name else s.rootName, found.size)]
  }

  function SelectedFiles(p: Provider, selection: seq<Selected>): seq<Request> {
    if selection == [] then []
    else
      var last := selection[|selection| - 1];
      SelectedFiles(p, selection[..|selection| - 1]) + if last.isFile then SelectedFile(p, last) else []
  }

  /** The provider lists the item in the directory. */
  ghost predicate Contains(p: Provider, d: Dir, child: Item) {
    exists items :: L.Lists(p.lister, d.locator, items) && child in items
  }

  /** The directory occurrences below the selection, however long the way there. */
  ghost predicate Reached(p: Provider, selection: seq<Selected>, d: Dir)
    decreases d.depth
  {
    if d.depth <= 1 then d in SelectedDirs(selection)
    else exists parent: Dir, child: Item ::
      && parent.depth == d.depth - 1 && Reached(p, selection, parent) && Contains(p, parent, child)
      && child.isDir && d == ChildDir(parent, child)
  }

  /** The files of the selection: selected themselves, or listed in a directory below it. */
  ghost predicate FileReached(p: Provider, selection: seq<Selected>, r: Request) {
    || r in SelectedFiles(p, selection)
    || exists d: Dir, child: Item ::
         Reached(p, selection, d) && Contains(p, d, child) && !child.isDir && r == ChildFile(d, child)
  }

  // ---- The walk --------------------------------------------------------------------------------

  /** Directories visited, in order, with the sorted listing each gave. */
  datatype Visit = Visit(dir: Dir, items: seq<Item>)

  function AllDirs(done: seq<Visit>): seq<Dir> {
    if done == [] then [] else AllDirs(done[..|done| - 1]) + DirsIn(done[|done| - 1].dir, done[|done| - 1].items)
  }

  function AllFiles(done: seq<Visit>): seq<Request> {
    if done == [] then [] else AllFiles(done[..|done| - 1]) + FilesIn(done[|done| - 1].dir, done[|done| - 1].items)
  }

  function Visited(done: seq<Visit>): seq<Dir> {
    seq(|done|, i requires 0 <= i < |done| => done[i].dir)
  }

  predicate NameFits(d: Dir, child: Item) {
    ValidName(child.name) && |ChildName(d, child)| <= MAX_NAME
  }

  /** The provider's items of the directory, sorted. */
  ghost predicate Presents(p: Provider, d: Dir, items: seq<Item>) {
    Ordered(items) && exists raw :: L.Lists(p.lister, d.locator, raw) && multiset(raw) == multiset(items)
  }

  predicate AllFit(d: Dir, items: seq<Item>) {
    forall i :: 0 <= i < |items| ==> NameFits(d, items[i])
  }

  ghost predicate Faithful(p: Provider, done: seq<Visit>) {
    && (forall i :: 0 <= i < |done| ==>
          && Presents(p, done[i].dir, done[i].items) && done[i].dir.depth <= MAX_DEPTH
          && AllFit(done[i].dir, done[i].items))
    && (forall i, j :: 0 <= i < j < |done| ==> Identity(done[i].dir.locator) != Identity(done[j].dir.locator))
  }

  /** The selected directories and all children found so far, in the order of their turns. */
  function Turns(selection: seq<Selected>, done: seq<Visit>): seq<Dir> {
    SelectedDirs(selection) + AllDirs(done)
  }

  /** Each directory was visited when its turn came. */
  predicate InTurn(selection: seq<Selected>, done: seq<Visit>) {
    forall k :: 0 <= k < |done| ==> TurnAt(selection, done, k)
  }

  predicate TurnAt(selection: seq<Selected>, done: seq<Visit>, k: nat)
    requires k < |done|
  {
    k < |Turns(selection, done[..k])| && done[k].dir == Turns(selection, done[..k])[k]
  }

  /** Breadth first: what has been visited and what is queued are the selected directories and all children so far. */
  ghost predicate Walk(p: Provider, selection: seq<Selected>, done: seq<Visit>, queue: seq<Dir>,
                       requests: seq<Request>) {
    && Faithful(p, done) && InTurn(selection, done)
    && Visited(done) + queue == Turns(selection, done)
    && requests == SelectedFiles(p, selection) + AllFiles(done)
    && AllReached(p, selection, Visited(done)) && AllReached(p, selection, queue)
  }

  ghost predicate AllReached(p: Provider, selection: seq<Selected>, dirs: seq<Dir>) {
    forall i :: 0 <= i < |dirs| ==> Reached(p, selection, dirs[i])
  }

  // ---- Termination -----------------------------------------------------------------------------

  /** More than all directories that can still follow below one at this depth. */
  function Weight(depth: nat): (w: nat)
    ensures w >= 1
    decreases MAX_DEPTH + 1 - depth
  {
    if depth > MAX_DEPTH then 1 else 1 + MAX_FILES * Weight(depth + 1)
  }

  function Potential(queue: seq<Dir>): nat {
    if queue == [] then 0 else Potential(queue[..|queue| - 1]) + Weight(queue[|queue| - 1].depth)
  }

  lemma {:induction false} PotentialAppend(a: seq<Dir>, b: seq<Dir>)
    ensures Potential(a + b) == Potential(a) + Potential(b)
    decreases |b|
  {
    if b == [] {
      assert a + b == a;
    } else {
      var n := |b| - 1;
      PotentialAppend(a, b[..n]);
      assert (a + b)[..|a + b| - 1] == a + b[..n];
    }
  }

  lemma {:induction false} ChildrenWeigh(d: Dir, items: seq<Item>)
    ensures Potential(DirsIn(d, items)) <= |items| * Weight(d.depth + 1)
  {
    if items != [] {
      var n := |items| - 1;
      ChildrenWeigh(d, items[..n]);
      var rest := DirsIn(d, items[..n]);
      if items[n].isDir {
        var one := [ChildDir(d, items[n])];
        assert one[..0] == [];
        assert Potential(one) == Weight(d.depth + 1);
        PotentialAppend(rest, one);
      } else {
        assert rest + [] == rest;
      }
      Multiply(n, Weight(d.depth + 1));
    }
  }

  lemma Multiply(n: nat, w: nat)
    ensures (n + 1) * w == n * w + w
  {
  }

  lemma HeadWeight(queue: seq<Dir>)
    requires queue != []
    ensures Potential(queue) == Weight(queue[0].depth) + Potential(queue[1..])
  {
    var head := [queue[0]];
    assert queue == head + queue[1..];
    assert head[..0] == [];
    PotentialAppend(head, queue[1..]);
  }

  lemma Scale(m: nat, n: nat, w: nat)
    requires m <= n
    ensures m * w <= n * w
  {
  }

  lemma ChildrenLight(d: Dir, items: seq<Item>)
    requires d.depth <= MAX_DEPTH && |items| <= MAX_FILES
    ensures Potential(DirsIn(d, items)) < Weight(d.depth)
  {
    var w := Weight(d.depth + 1);
    ChildrenWeigh(d, items);
    Scale(|items|, MAX_FILES, w);
    assert Weight(d.depth) == 1 + MAX_FILES * w;
  }

  /** Replacing a directory by its children makes the queue lighter. */
  lemma VisitShrinks(queue: seq<Dir>, items: seq<Item>)
    requires queue != [] && queue[0].depth <= MAX_DEPTH && |items| <= MAX_FILES
    ensures Potential(queue[1..] + DirsIn(queue[0], items)) < Potential(queue)
  {
    HeadWeight(queue);
    PotentialAppend(queue[1..], DirsIn(queue[0], items));
    ChildrenLight(queue[0], items);
  }

  // ---- Members of the walk ---------------------------------------------------------------------

  lemma {:induction false} DirsInHas(d: Dir, items: seq<Item>, i: nat)
    requires i < |items| && items[i].isDir
    ensures ChildDir(d, items[i]) in DirsIn(d, items)
  {
    if i < |items| - 1 {
      DirsInHas(d, items[..|items| - 1], i);
    }
  }

  lemma {:induction false} DirsInFrom(d: Dir, items: seq<Item>, x: Dir) returns (i: nat)
    requires x in DirsIn(d, items)
    ensures i < |items| && items[i].isDir && x == ChildDir(d, items[i])
  {
    var n := |items| - 1;
    if x in DirsIn(d, items[..n]) {
      i := DirsInFrom(d, items[..n], x);
    } else {
      i := n;
    }
  }

  lemma {:induction false} FilesInHas(d: Dir, items: seq<Item>, i: nat)
    requires i < |items| && !items[i].isDir
    ensures ChildFile(d, items[i]) in FilesIn(d, items)
  {
    if i < |items| - 1 {
      FilesInHas(d, items[..|items| - 1], i);
    }
  }

  lemma {:induction false} FilesInFrom(d: Dir, items: seq<Item>, x: Request) returns (i: nat)
    requires x in FilesIn(d, items)
    ensures i < |items| && !items[i].isDir && x == ChildFile(d, items[i])
  {
    var n := |items| - 1;
    if x in FilesIn(d, items[..n]) {
      i := FilesInFrom(d, items[..n], x);
    } else {
      i := n;
    }
  }

  lemma {:induction false} AllDirsHas(done: seq<Visit>, i: nat, x: Dir)
    requires i < |done| && x in DirsIn(done[i].dir, done[i].items)
    ensures x in AllDirs(done)
  {
    if i < |done| - 1 {
      AllDirsHas(done[..|done| - 1], i, x);
    }
  }

  lemma {:induction false} AllFilesHas(done: seq<Visit>, i: nat, r: Request)
    requires i < |done| && r in FilesIn(done[i].dir, done[i].items)
    ensures r in AllFiles(done)
  {
    if i < |done| - 1 {
      AllFilesHas(done[..|done| - 1], i, r);
    }
  }

  lemma {:induction false} AllFilesFrom(done: seq<Visit>, r: Request) returns (i: nat)
    requires r in AllFiles(done)
    ensures i < |done| && r in FilesIn(done[i].dir, done[i].items)
  {
    var n := |done| - 1;
    if r in AllFiles(done[..n]) {
      i := AllFilesFrom(done[..n], r);
    } else {
      i := n;
    }
  }

  /** Every listing of a directory holds the same items. */
  lemma ContainsIs(p: Provider, d: Dir, items: seq<Item>, child: Item)
    requires Presents(p, d, items)
    ensures Contains(p, d, child) <==> child in items
  {
    var raw :| L.Lists(p.lister, d.locator, raw) && multiset(raw) == multiset(items);
    assert child in raw <==> child in multiset(raw);
    assert child in items <==> child in multiset(items);
    if Contains(p, d, child) {
      var other :| L.Lists(p.lister, d.locator, other) && child in other;
      L.ListsSame(p.lister, d.locator, raw, other);
      assert child in multiset(other);
    }
  }

  /** Depths start at one. */
  lemma {:induction false} SelectedDepth(selection: seq<Selected>, d: Dir)
    requires d in SelectedDirs(selection)
    ensures d.depth == 1
  {
    if selection != [] && d in SelectedDirs(selection[..|selection| - 1]) {
      SelectedDepth(selection[..|selection| - 1], d);
    }
  }

  lemma {:induction false} ReachedDepth(p: Provider, selection: seq<Selected>, d: Dir)
    requires Reached(p, selection, d)
    ensures d.depth >= 1
    decreases d.depth
  {
    if d.depth <= 1 {
      SelectedDepth(selection, d);
    }
  }

  lemma ChildReached(p: Provider, selection: seq<Selected>, d: Dir, child: Item)
    requires Reached(p, selection, d) && Contains(p, d, child) && child.isDir
    ensures Reached(p, selection, ChildDir(d, child))
  {
    ReachedDepth(p, selection, d);
  }

  // ---- The walk step ---------------------------------------------------------------------------

  lemma ChildrenReached(p: Provider, selection: seq<Selected>, d: Dir, items: seq<Item>)
    requires Reached(p, selection, d) && Presents(p, d, items)
    ensures AllReached(p, selection, DirsIn(d, items))
  {
    var dirs := DirsIn(d, items);
    forall k | 0 <= k < |dirs| ensures Reached(p, selection, dirs[k]) {
      var i := DirsInFrom(d, items, dirs[k]);
      ContainsIs(p, d, items, items[i]);
      ChildReached(p, selection, d, items[i]);
    }
  }

  lemma ReachedQueue(p: Provider, selection: seq<Selected>, done: seq<Dir>, queue: seq<Dir>, children: seq<Dir>)
    requires queue != [] && AllReached(p, selection, done) && AllReached(p, selection, queue)
    requires AllReached(p, selection, children)
    ensures AllReached(p, selection, done + [queue[0]]) && AllReached(p, selection, queue[1..] + children)
  {
  }

  /** Moving the head of the queue over and appending its children keeps the order. */
  lemma Reorder(done: seq<Dir>, queue: seq<Dir>, children: seq<Dir>, roots: seq<Dir>, found: seq<Dir>)
    requires queue != [] && done + queue == roots + found
    ensures (done + [queue[0]]) + (queue[1..] + children) == roots + (found + children)
  {
    assert queue == [queue[0]] + queue[1..];
    assert (done + [queue[0]]) + (queue[1..] + children) == (done + queue) + children;
  }

  lemma AppendVisit(done: seq<Visit>, v: Visit)
    ensures Visited(done + [v]) == Visited(done) + [v.dir]
    ensures AllDirs(done + [v]) == AllDirs(done) + DirsIn(v.dir, v.items)
    ensures AllFiles(done + [v]) == AllFiles(done) + FilesIn(v.dir, v.items)
  {
    assert (done + [v])[..|done|] == done;
  }

  lemma FaithfulAppend(p: Provider, done: seq<Visit>, v: Visit)
    requires Faithful(p, done) && Presents(p, v.dir, v.items) && v.dir.depth <= MAX_DEPTH && AllFit(v.dir, v.items)
    requires forall i :: 0 <= i < |done| ==> Identity(done[i].dir.locator) != Identity(v.dir.locator)
    ensures Faithful(p, done + [v])
  {
  }

  lemma TurnAppend(selection: seq<Selected>, done: seq<Visit>, queue: seq<Dir>, v: Visit)
    requires InTurn(selection, done) && Visited(done) + queue == Turns(selection, done)
    requires queue != [] && v.dir == queue[0]
    ensures InTurn(selection, done + [v])
  {
    var more := done + [v];
    forall k | 0 <= k < |more|
      ensures TurnAt(selection, more, k)
    {
      if k < |done| {
        assert more[..k] == done[..k] && TurnAt(selection, done, k);
      } else {
        assert more[..k] == done;
        assert (Visited(done) + queue)[|done|] == queue[0];
      }
    }
  }

  /** Visiting the first queued directory continues the walk. */
  lemma WalkStep(p: Provider, selection: seq<Selected>, done: seq<Visit>, queue: seq<Dir>, requests: seq<Request>,
                 items: seq<Item>)
    requires Walk(p, selection, done, queue, requests) && queue != [] && queue[0].depth <= MAX_DEPTH
    requires Presents(p, queue[0], items) && AllFit(queue[0], items)
    requires forall i :: 0 <= i < |done| ==> Identity(done[i].dir.locator) != Identity(queue[0].locator)
    ensures Walk(p, selection, done + [Visit(queue[0], items)], queue[1..] + DirsIn(queue[0], items),
                 requests + FilesIn(queue[0], items))
  {
    var v := Visit(queue[0], items);
    AppendVisit(done, v);
    FaithfulAppend(p, done, v);
    TurnAppend(selection, done, queue, v);
    var children := DirsIn(queue[0], items);
    ChildrenReached(p, selection, queue[0], items);
    ReachedQueue(p, selection, Visited(done), queue, children);
    Reorder(Visited(done), queue, children, SelectedDirs(selection), AllDirs(done));
    ConcatAssociative(SelectedFiles(p, selection), AllFiles(done), FilesIn(queue[0], items));
  }

  // ---- The end of the walk ---------------------------------------------------------------------

  /** A finished walk has visited every directory below the selection. */
  lemma {:induction false} EverythingVisited(p: Provider, selection: seq<Selected>, done: seq<Visit>,
                                             requests: seq<Request>, d: Dir)
    requires Walk(p, selection, done, [], requests) && Reached(p, selection, d)
    ensures d in Visited(done)
    decreases d.depth
  {
    assert Visited(done) + [] == Visited(done);
    if d.depth > 1 {
      var parent: Dir, child: Item :| parent.depth == d.depth - 1 && Reached(p, selection, parent)
                                      && Contains(p, parent, child) && child.isDir && d == ChildDir(parent, child);
      EverythingVisited(p, selection, done, requests, parent);
      var i :| 0 <= i < |done| && done[i].dir == parent;
      VisitedDir(p, done, i, child);
    }
  }

  lemma VisitedDir(p: Provider, done: seq<Visit>, i: nat, child: Item)
    requires i < |done| && Presents(p, done[i].dir, done[i].items) && Contains(p, done[i].dir, child) && child.isDir
    ensures ChildDir(done[i].dir, child) in AllDirs(done)
  {
    var d, items := done[i].dir, done[i].items;
    ContainsIs(p, d, items, child);
    var j :| 0 <= j < |items| && items[j] == child;
    DirsInHas(d, items, j);
    AllDirsHas(done, i, ChildDir(d, child));
  }

  lemma RequestIsReached(p: Provider, selection: seq<Selected>, done: seq<Visit>, queue: seq<Dir>,
                         requests: seq<Request>,
                         r: Request)
    requires Walk(p, selection, done, queue, requests) && r in requests
    ensures FileReached(p, selection, r)
  {
    if r !in SelectedFiles(p, selection) {
      var i := AllFilesFrom(done, r);
      var d, items := done[i].dir, done[i].items;
      var j := FilesInFrom(d, items, r);
      ContainsIs(p, d, items, items[j]);
      assert Visited(done)[i] == d;
    }
  }

  lemma ReachedIsRequested(p: Provider, selection: seq<Selected>, done: seq<Visit>, requests: seq<Request>, r: Request)
    requires Walk(p, selection, done, [], requests) && FileReached(p, selection, r)
    ensures r in requests
  {
    if r !in SelectedFiles(p, selection) {
      var d: Dir, child: Item :| Reached(p, selection, d) && Contains(p, d, child) && !child.isDir
                                 && r == ChildFile(d, child);
      EverythingVisited(p, selection, done, requests, d);
      var i :| 0 <= i < |done| && done[i].dir == d;
      VisitedFile(p, done, i, child);
    }
  }

  lemma VisitedFile(p: Provider, done: seq<Visit>, i: nat, child: Item)
    requires i < |done| && Presents(p, done[i].dir, done[i].items) && Contains(p, done[i].dir, child) && !child.isDir
    ensures ChildFile(done[i].dir, child) in AllFiles(done)
  {
    var d, items := done[i].dir, done[i].items;
    ContainsIs(p, d, items, child);
    var j :| 0 <= j < |items| && items[j] == child;
    FilesInHas(d, items, j);
    AllFilesHas(done, i, ChildFile(d, child));
  }

  /** Exactly the files of the selection are requested. */
  lemma RequestsExact(p: Provider, selection: seq<Selected>, done: seq<Visit>, requests: seq<Request>, r: Request)
    requires Walk(p, selection, done, [], requests)
    ensures r in requests <==> FileReached(p, selection, r)
  {
    if r in requests {
      RequestIsReached(p, selection, done, [], requests, r);
    }
    if FileReached(p, selection, r) {
      ReachedIsRequested(p, selection, done, requests, r);
    }
  }

  // ---- One walk only ---------------------------------------------------------------------------

  /** Every listing below the selection names each identity once. */
  ghost predicate DistinctListings(p: Provider, selection: seq<Selected>) {
    forall d: Dir, items :: Reached(p, selection, d) && Presents(p, d, items) ==> DistinctIdentities(items)
  }

  lemma SameListing(p: Provider, selection: seq<Selected>, d: Dir, a: seq<Item>, b: seq<Item>)
    requires DistinctListings(p, selection) && Reached(p, selection, d) && Presents(p, d, a) && Presents(p, d, b)
    ensures a == b
  {
    var x :| L.Lists(p.lister, d.locator, x) && multiset(x) == multiset(a);
    var y :| L.Lists(p.lister, d.locator, y) && multiset(y) == multiset(b);
    L.ListsSame(p.lister, d.locator, x, y);
    SortingIsUnique(a, b);
  }

  lemma SameVisit(p: Provider, selection: seq<Selected>, a: seq<Visit>, b: seq<Visit>, k: nat)
    requires DistinctListings(p, selection) && k < |a| && k < |b| && a[..k] == b[..k]
    requires InTurn(selection, a) && InTurn(selection, b) && Reached(p, selection, a[k].dir)
    requires Presents(p, a[k].dir, a[k].items) && Presents(p, b[k].dir, b[k].items)
    ensures a[k] == b[k] && a[..k + 1] == b[..k + 1]
  {
    TurnIsDue(selection, a, k);
    TurnIsDue(selection, b, k);
    SameListing(p, selection, a[k].dir, a[k].items, b[k].items);
    SameSnoc(a, b, k);
  }

  /** The directories come in turn, each reached and with its listing. */
  ghost predicate Orderly(p: Provider, selection: seq<Selected>, done: seq<Visit>) {
    && InTurn(selection, done)
    && forall k :: 0 <= k < |done| ==> Reached(p, selection, done[k].dir) && Presents(p, done[k].dir, done[k].items)
  }

  lemma WalkOrderly(p: Provider, selection: seq<Selected>, done: seq<Visit>, queue: seq<Dir>, requests: seq<Request>)
    requires Walk(p, selection, done, queue, requests)
    ensures Orderly(p, selection, done)
  {
    forall k | 0 <= k < |done|
      ensures Reached(p, selection, done[k].dir)
    {
      assert Visited(done)[k] == done[k].dir;
    }
  }

  /** Two walks agree as far as both go. */
  lemma {:induction false} SameVisits(p: Provider, selection: seq<Selected>, a: seq<Visit>, b: seq<Visit>, n: nat)
    requires DistinctListings(p, selection) && Orderly(p, selection, a) && Orderly(p, selection, b)
    requires n <= |a| && n <= |b|
    ensures a[..n] == b[..n]
  {
    if n > 0 {
      SameVisits(p, selection, a, b, n - 1);
      SameVisit(p, selection, a, b, n - 1);
    }
  }

  lemma TurnIsDue(selection: seq<Selected>, done: seq<Visit>, k: nat)
    requires InTurn(selection, done) && k < |done|
    ensures k < |Turns(selection, done[..k])| && done[k].dir == Turns(selection, done[..k])[k]
  {
    assert TurnAt(selection, done, k);
  }

  /** When all turns are taken the walk is over. */
  lemma NoFurther(p: Provider, selection: seq<Selected>, done: seq<Visit>, all: seq<Visit>)
    requires DistinctListings(p, selection) && Orderly(p, selection, done) && Orderly(p, selection, all)
    requires |Turns(selection, all)| == |all|
    ensures |done| <= |all| && all[..|done|] == done
  {
    var n := if |done| < |all| then |done| else |all|;
    SameVisits(p, selection, done, all, n);
    assert all[..|all|] == all && done[..|done|] == done;
    if |all| < |done| {
      TurnIsDue(selection, done, |all|);
    }
  }

  lemma FinishedTurns(p: Provider, selection: seq<Selected>, all: seq<Visit>, total: seq<Request>)
    requires Walk(p, selection, all, [], total)
    ensures Orderly(p, selection, all) && |Turns(selection, all)| == |all|
  {
    WalkOrderly(p, selection, all, [], total);
    assert Visited(all) + [] == Visited(all);
  }

  /** A walk that is not finished is the beginning of any finished one. */
  lemma WalkIsPrefix(p: Provider, selection: seq<Selected>, done: seq<Visit>, queue: seq<Dir>, requests: seq<Request>,
                     all: seq<Visit>, total: seq<Request>)
    requires DistinctListings(p, selection) && Walk(p, selection, done, queue, requests) && queue != []
    requires Walk(p, selection, all, [], total)
    ensures |done| < |all| && all[..|done|] == done && all[|done|].dir == queue[0]
  {
    WalkOrderly(p, selection, done, queue, requests);
    FinishedTurns(p, selection, all, total);
    NoFurther(p, selection, done, all);
    NextTurn(selection, done, queue, all);
  }

  lemma NextTurn(selection: seq<Selected>, done: seq<Visit>, queue: seq<Dir>, all: seq<Visit>)
    requires InTurn(selection, all) && |Turns(selection, all)| == |all| && |done| <= |all| && all[..|done|] == done
    requires Visited(done) + queue == Turns(selection, done) && queue != []
    ensures |done| < |all| && all[|done|].dir == queue[0]
  {
    HeadTurn(selection, done, queue);
    assert all[..|all|] == all;
    TurnIsDue(selection, all, |done|);
  }

  lemma HeadTurn(selection: seq<Selected>, done: seq<Visit>, queue: seq<Dir>)
    requires Visited(done) + queue == Turns(selection, done) && queue != []
    ensures |done| < |Turns(selection, done)| && Turns(selection, done)[|done|] == queue[0]
  {
    assert (Visited(done) + queue)[|done|] == queue[0];
  }

  /** Two finished walks are the same. */
  lemma WalkIsUnique(p: Provider, selection: seq<Selected>, a: seq<Visit>, ra: seq<Request>, b: seq<Visit>,
                     rb: seq<Request>)
    requires DistinctListings(p, selection) && Walk(p, selection, a, [], ra) && Walk(p, selection, b, [], rb)
    ensures a == b && ra == rb
  {
    FinishedTurns(p, selection, a, ra);
    FinishedTurns(p, selection, b, rb);
    NoFurther(p, selection, a, b);
    NoFurther(p, selection, b, a);
    assert a[..|a|] == a;
  }

  lemma {:induction false} FilesPrefix(all: seq<Visit>, n: nat)
    requires n < |all|
    ensures AllFiles(all[..n]) + FilesIn(all[n].dir, all[n].items) <= AllFiles(all)
    decreases |all|
  {
    var last := |all| - 1;
    if n < last {
      FilesPrefix(all[..last], n);
      assert all[..last][..n] == all[..n];
    }
  }

  lemma {:induction false} ChildPrefix(d: Dir, items: seq<Item>, i: nat)
    requires i < |items| && !items[i].isDir
    ensures FilesIn(d, items[..i]) + [ChildFile(d, items[i])] <= FilesIn(d, items)
    decreases |items|
  {
    var last := |items| - 1;
    if i < last {
      ChildPrefix(d, items[..last], i);
      assert items[..last][..i] == items[..i];
    }
  }

  // ---- What a finished walk excludes -----------------------------------------------------------

  /**
    A planned selection has no directory at depth 21 and never meets a directory identity twice; so a directory
    that contains itself, directly or not, is never planned.
   */
  lemma PlannedIsAcyclic(p: Provider, selection: seq<Selected>, done: seq<Visit>, requests: seq<Request>, d: Dir,
                         e: Dir)
    requires Walk(p, selection, done, [], requests) && Reached(p, selection, d) && Reached(p, selection, e)
    ensures d.depth <= MAX_DEPTH
    ensures Identity(d.locator) == Identity(e.locator) ==> d == e
  {
    EverythingVisited(p, selection, done, requests, d);
    EverythingVisited(p, selection, done, requests, e);
    VisitedOnce(p, done, d, e);
  }

  lemma VisitedOnce(p: Provider, done: seq<Visit>, d: Dir, e: Dir)
    requires Faithful(p, done) && d in Visited(done) && e in Visited(done)
    ensures d.depth <= MAX_DEPTH
    ensures Identity(d.locator) == Identity(e.locator) ==> d == e
  {
    var i :| 0 <= i < |done| && done[i].dir == d;
    var j :| 0 <= j < |done| && done[j].dir == e;
    assert i == j || Identity(done[i].dir.locator) != Identity(done[j].dir.locator);
  }
}
