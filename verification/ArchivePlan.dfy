/** The archive planner: what it refuses, what it serves, and when a plan exists. */
module ArchivePlan {
  import opened Listing
  import opened ArchiveNames
  import opened ArchiveMembers
  import opened ArchiveWalk
  import L = ArchiveListing

  datatype Plan = Planned(members: seq<Member>) | Rejected(error: L.Error)

  // ---- What can stand in the way ---------------------------------------------------------------

  predicate Selectable(p: Provider, s: Selected) {
    ValidName(s.rootName) && (s.isFile ==> p.inspect(s.locator).File?)
  }

  /** The directory is not too deep, its listing is accepted and all names in it fit. */
  ghost predicate Plannable(p: Provider, d: Dir) {
    && d.depth <= MAX_DEPTH && (exists items :: L.Lists(p.lister, d.locator, items))
    && forall child :: Contains(p, d, child) ==> NameFits(d, child)
  }

  /** Nothing selected and no directory below it stands in the way of a plan. */
  ghost predicate Unobstructed(p: Provider, selection: seq<Selected>) {
    && (forall i :: 0 <= i < |selection| ==> Selectable(p, selection[i]))
    && (forall d :: Reached(p, selection, d) ==> Plannable(p, d))
  }

  /** The requests so far can be served. */
  ghost predicate Servable(requests: seq<Request>) {
    exists members :: WithinLimits(members) && AllServed(members, requests)
  }

  /** Behind the members that serve the requests before it, this file is refused. */
  ghost predicate Refusal(before: seq<Request>, r: Request, error: L.Error) {
    && error == (if NameAllowed(r.name) then L.DirectoryTooLarge else L.InvalidName)
    && exists members :: WithinLimits(members) && AllServed(members, before) && Refuses(members, r)
  }

  /** The selected reference cannot be taken behind the files requested before it. */
  ghost predicate SelectedStops(p: Provider, item: Selected, before: seq<Request>, error: L.Error) {
    if !ValidName(item.rootName) then error == L.InvalidName
    else
      && item.isFile
      && if p.inspect(item.locator).NotAFile? then error == L.ProviderFailed
         else Refusal(before, SelectedFile(p, item)[0], error)
  }

  /** Reference i is the first that cannot be taken. */
  ghost predicate SelectionStopsAt(p: Provider, selection: seq<Selected>, i: nat, error: L.Error)
    requires i < |selection|
  {
    && (forall k :: 0 <= k < i ==> Selectable(p, selection[k])) && Servable(SelectedFiles(p, selection[..i]))
    && SelectedStops(p, selection[i], SelectedFiles(p, selection[..i]), error)
  }

  ghost predicate SelectionStops(p: Provider, selection: seq<Selected>, error: L.Error) {
    exists i :: 0 <= i < |selection| && SelectionStopsAt(p, selection, i, error)
  }

  /** The child cannot be taken behind the files requested before it. */
  ghost predicate ItemStops(d: Dir, child: Item, before: seq<Request>, error: L.Error) {
    if !ValidName(child.name) then error == L.InvalidName
    else if |ChildName(d, child)| > MAX_NAME then error == L.DirectoryTooLarge
    else !child.isDir && Refusal(before, ChildFile(d, child), error)
  }

  /** Child i is the first that cannot be taken. */
  ghost predicate ChildStops(d: Dir, items: seq<Item>, i: nat, before: seq<Request>, error: L.Error)
    requires i < |items|
  {
    && AllFit(d, items[..i]) && Servable(before + FilesIn(d, items[..i]))
    && ItemStops(d, items[i], before + FilesIn(d, items[..i]), error)
  }

  ghost predicate ListingStops(p: Provider, d: Dir, before: seq<Request>, error: L.Error) {
    exists items, i :: Presents(p, d, items) && 0 <= i < |items| && ChildStops(d, items, i, before, error)
  }

  ghost predicate HeadVisited(done: seq<Visit>, queue: seq<Dir>) {
    queue != [] && exists i :: 0 <= i < |done| && Identity(done[i].dir.locator) == Identity(queue[0].locator)
  }

  ghost predicate Listable(p: Provider, d: Dir) {
    exists items :: L.Lists(p.lister, d.locator, items)
  }

  /** The walk cannot get past the head of its queue. */
  ghost predicate HeadStops(p: Provider, done: seq<Visit>, queue: seq<Dir>, before: seq<Request>, error: L.Error)
    requires queue != []
  {
    if queue[0].depth > MAX_DEPTH then error == L.DirectoryTooLarge
    else if HeadVisited(done, queue) then error == L.DirectoryCycle
    else if !Listable(p, queue[0]) then error == L.ProviderFailed || error == L.DirectoryTooLarge
    else ListingStops(p, queue[0], before, error)
  }

  /** The walk gets somewhere, with all files so far served, and no further. */
  ghost predicate WalkStopsAt(p: Provider, selection: seq<Selected>, done: seq<Visit>, queue: seq<Dir>,
                              requests: seq<Request>, error: L.Error) {
    && (forall i :: 0 <= i < |selection| ==> Selectable(p, selection[i]))
    && Walk(p, selection, done, queue, requests) && Servable(requests) && queue != []
    && HeadStops(p, done, queue, requests, error)
  }

  ghost predicate WalkStops(p: Provider, selection: seq<Selected>, error: L.Error) {
    exists done, queue, requests :: WalkStopsAt(p, selection, done, queue, requests, error)
  }

  // ---- One directory ---------------------------------------------------------------------------

  /** One child: a file is added, a directory queued. */
  method VisitItem(m: Members, d: Dir, child: Item, queue: seq<Dir>)
    returns (ok: bool, error: L.Error, longer: seq<Dir>)
    requires m.Valid()
    modifies m
    ensures m.Valid()
    ensures ok && child.isDir ==> longer == queue + [ChildDir(d, child)] && m.requests == old(m.requests)
    ensures ok && !child.isDir ==> longer == queue && m.requests == old(m.requests) + [ChildFile(d, child)]
    ensures ok ==> NameFits(d, child)
    ensures !ok ==> ItemStops(d, child, old(m.requests), error)
  {
    longer := queue;
    error := L.InvalidName;
    if !ValidName(child.name) {
      return false, L.InvalidName, queue;
    }
    var childName := d.prefix + [SLASH] + child.name;
    if |childName| > MAX_NAME {
      return false, L.DirectoryTooLarge, queue;
    }
    if child.isDir {
      return true, error, queue + [Dir(child.locator, childName, d.depth + 1)];
    }
    var outcome := m.AddFile(child.locator, childName, child.size);
    ok := outcome == Added;
    error := if outcome == BadName then L.InvalidName else L.DirectoryTooLarge;
  }

  /** The first i children are done. */
  ghost predicate DoneTo(m: Members, d: Dir, items: seq<Item>, i: nat, base: seq<Request>, queue: seq<Dir>,
                         longer: seq<Dir>)
    requires i <= |items|
    reads m
  {
    && m.requests == base + FilesIn(d, items[..i]) && longer == queue + DirsIn(d, items[..i])
    && AllFit(d, items[..i])
  }

  lemma FitMore(d: Dir, items: seq<Item>, i: nat)
    requires i < |items| && AllFit(d, items[..i]) && NameFits(d, items[i])
    ensures AllFit(d, items[..i + 1])
  {
    forall k | 0 <= k < i + 1
      ensures NameFits(d, items[k])
    {
      assert k < i ==> items[..i][k] == items[k];
    }
  }

  /** One turn of the child loop. */
  method VisitTurn(m: Members, d: Dir, items: seq<Item>, i: nat, ghost base: seq<Request>, ghost queue: seq<Dir>,
                   so: seq<Dir>) returns (ok: bool, error: L.Error, longer: seq<Dir>)
    requires m.Valid() && i < |items| && DoneTo(m, d, items, i, base, queue, so)
    modifies m
    ensures m.Valid()
    ensures ok ==> DoneTo(m, d, items, i + 1, base, queue, longer)
    ensures !ok ==> ChildStops(d, items, i, base, error)
  {
    assert Servable(m.requests);
    NextFiles(base, d, items, i);
    NextDirs(queue, d, items, i);
    ok, error, longer := VisitItem(m, d, items[i], so);
    if ok {
      FitMore(d, items, i);
    }
  }

  lemma NothingDone(m: Members, d: Dir, items: seq<Item>, queue: seq<Dir>)
    ensures DoneTo(m, d, items, 0, m.requests, queue, queue)
  {
    assert m.requests + [] == m.requests && queue + [] == queue;
  }

  lemma AllDone(m: Members, d: Dir, items: seq<Item>, base: seq<Request>, queue: seq<Dir>, longer: seq<Dir>)
    requires DoneTo(m, d, items, |items|, base, queue, longer)
    ensures m.requests == base + FilesIn(d, items) && longer == queue + DirsIn(d, items) && AllFit(d, items)
  {
    assert items[..|items|] == items;
  }

  /** The child loop of one directory. */
  method VisitItems(m: Members, d: Dir, items: seq<Item>, queue: seq<Dir>)
    returns (ok: bool, error: L.Error, longer: seq<Dir>)
    requires m.Valid()
    modifies m
    ensures m.Valid()
    ensures ok ==>
      m.requests == old(m.requests) + FilesIn(d, items) && longer == queue + DirsIn(d, items) && AllFit(d, items)
    ensures !ok ==> exists i :: 0 <= i < |items| && ChildStops(d, items, i, old(m.requests), error)
  {
    longer := queue;
    ok, error := true, L.InvalidName;
    ghost var base := m.requests;
    NothingDone(m, d, items, queue);
    var i := 0;
    while i < |items|
      invariant i <= |items| && m.Valid() && ok && DoneTo(m, d, items, i, base, queue, longer)
    {
      ok, error, longer := VisitTurn(m, d, items, i, base, queue, longer);
      if !ok {
        return;
      }
      i := i + 1;
    }
    AllDone(m, d, items, base, queue, longer);
  }

  lemma NextFiles(base: seq<Request>, d: Dir, items: seq<Item>, i: nat)
    requires i < |items|
    ensures base + FilesIn(d, items[..i + 1]) ==
      if items[i].isDir then base + FilesIn(d, items[..i]) else base + FilesIn(d, items[..i]) + [ChildFile(d, items[i])]
  {
    assert items[..i + 1][..i] == items[..i];
  }

  lemma NextDirs(base: seq<Dir>, d: Dir, items: seq<Item>, i: nat)
    requires i < |items|
    ensures base + DirsIn(d, items[..i + 1]) ==
      if items[i].isDir then base + DirsIn(d, items[..i]) + [ChildDir(d, items[i])] else base + DirsIn(d, items[..i])
  {
    assert items[..i + 1][..i] == items[..i];
  }

  // ---- The planner -----------------------------------------------------------------------------

  lemma NextSelected(p: Provider, selection: seq<Selected>, i: nat)
    requires i < |selection|
    ensures SelectedDirs(selection[..i + 1]) ==
      SelectedDirs(selection[..i])
      + if selection[i].isFile then [] else [Dir(selection[i].locator, selection[i].rootName, 1)]
    ensures SelectedFiles(p, selection[..i + 1]) ==
      SelectedFiles(p, selection[..i]) + if selection[i].isFile then SelectedFile(p, selection[i]) else []
  {
    assert selection[..i + 1][..i] == selection[..i];
  }

  /** One selected reference. */
  method AddSelected(p: Provider, item: Selected, m: Members, queue: seq<Dir>)
    returns (ok: bool, error: L.Error, longer: seq<Dir>)
    requires m.Valid()
    modifies m
    ensures m.Valid()
    ensures ok && item.isFile ==>
      p.inspect(item.locator).File? && longer == queue && m.requests == old(m.requests) + SelectedFile(p, item)
    ensures ok && !item.isFile ==>
      longer == queue + [Dir(item.locator, item.rootName, 1)] && m.requests == old(m.requests)
    ensures ok ==> Selectable(p, item)
    ensures !ok ==> SelectedStops(p, item, old(m.requests), error)
  {
    longer := queue;
    error := L.InvalidName;
    if !ValidName(item.rootName) {
      return false, error, queue;
    }
    if !item.isFile {
      return true, error, queue + [Dir(item.locator, item.rootName, 1)];
    }
    var found := p.inspect(item.locator);
    if found.NotAFile? {
      return false, L.ProviderFailed, queue;
    }
    var rootName := item.rootName;
    if found.name != [] {
      rootName := found.name;
    }
    var outcome := m.AddFile(item.locator, rootName, found.size);
    ok := outcome == Added;
    error := if outcome == BadName then L.InvalidName else L.DirectoryTooLarge;
  }

  /** The first i references are added or queued. */
  ghost predicate AddedTo(p: Provider, selection: seq<Selected>, i: nat, m: Members, queue: seq<Dir>)
    requires i <= |selection|
    reads m
  {
    && m.requests == SelectedFiles(p, selection[..i]) && queue == SelectedDirs(selection[..i])
    && forall k :: 0 <= k < i ==> Selectable(p, selection[k])
  }

  /** One turn of the first loop. */
  method AddTurn(p: Provider, selection: seq<Selected>, i: nat, m: Members, so: seq<Dir>)
    returns (ok: bool, error: L.Error, queue: seq<Dir>)
    requires m.Valid() && i < |selection| && AddedTo(p, selection, i, m, so)
    modifies m
    ensures m.Valid()
    ensures ok ==> AddedTo(p, selection, i + 1, m, queue)
    ensures !ok ==> SelectionStopsAt(p, selection, i, error)
  {
    assert Servable(m.requests);
    NextSelected(p, selection, i);
    ok, error, queue := AddSelected(p, selection[i], m, so);
  }

  /** The first loop: selected files are added, selected directories queued. */
  method AddSelection(p: Provider, selection: seq<Selected>, m: Members)
    returns (ok: bool, error: L.Error, queue: seq<Dir>)
    requires m.Valid() && m.requests == []
    modifies m
    ensures m.Valid()
    ensures ok ==> m.requests == SelectedFiles(p, selection) && queue == SelectedDirs(selection)
    ensures ok ==> forall i :: 0 <= i < |selection| ==> Selectable(p, selection[i])
    ensures !ok ==> SelectionStops(p, selection, error)
  {
    queue := [];
    ok, error := true, L.InvalidName;
    var i := 0;
    while i < |selection|
      invariant i <= |selection| && m.Valid() && ok && AddedTo(p, selection, i, m, queue)
    {
      ok, error, queue := AddTurn(p, selection, i, m, queue);
      if !ok {
        return;
      }
      i := i + 1;
    }
    assert selection[..i] == selection;
  }

  lemma WalkStart(p: Provider, selection: seq<Selected>)
    ensures Walk(p, selection, [], SelectedDirs(selection), SelectedFiles(p, selection))
  {
    var roots := SelectedDirs(selection);
    assert Visited([]) + roots == roots + [];
    forall i | 0 <= i < |roots| ensures Reached(p, selection, roots[i]) {
      SelectedDepth(selection, roots[i]);
    }
  }

  /** List the directory and sort the listing. */
  method SortedListing(p: Provider, d: Dir) returns (r: L.Directory)
    ensures r.Complete? ==> Presents(p, d, r.items) && |r.items| <= MAX_FILES
    ensures r.Refused? ==> !Listable(p, d) && (r.error == L.ProviderFailed || r.error == L.DirectoryTooLarge)
    ensures r.Complete? ==> Listable(p, d)
  {
    r := L.ListArchiveDirectory(p.lister, d.locator);
    if r.Complete? {
      var sorted := SortEntries(r.items);
      assert |multiset(sorted)| == |sorted| && |multiset(r.items)| == |r.items|;
      r := L.Complete(sorted);
    }
  }

  ghost predicate Identities(done: seq<Visit>, visited: set<Text>) {
    visited == set i | 0 <= i < |done| :: Identity(done[i].dir.locator)
  }

  lemma IdentitiesAppend(done: seq<Visit>, visited: set<Text>, v: Visit)
    requires Identities(done, visited)
    ensures Identities(done + [v], visited + {Identity(v.dir.locator)})
    ensures Identity(v.dir.locator) in visited <==>
      exists i :: 0 <= i < |done| && Identity(done[i].dir.locator) == Identity(v.dir.locator)
  {
    var more := done + [v];
    assert forall i :: 0 <= i < |done| ==> more[i] == done[i];
    assert more[|done|] == v;
  }

  /** Visits the head of the queue. */
  method VisitNext(p: Provider, ghost selection: seq<Selected>, m: Members, queue: seq<Dir>, visited: set<Text>,
                   ghost done: seq<Visit>)
    returns (ok: bool, error: L.Error, rest: seq<Dir>, ghost items: seq<Item>)
    requires m.Valid() && queue != [] && Identities(done, visited) && Walk(p, selection, done, queue, m.requests)
    modifies m
    ensures m.Valid()
    ensures ok ==> Identity(queue[0].locator) !in visited && |items| <= MAX_FILES && queue[0].depth <= MAX_DEPTH
    ensures ok ==> rest == queue[1..] + DirsIn(queue[0], items)
    ensures ok ==> Walk(p, selection, done + [Visit(queue[0], items)], rest, m.requests)
    ensures !ok ==> HeadStops(p, done, queue, old(m.requests), error)
  {
    items, rest := [], [];
    var current := queue[0];
    if current.depth > MAX_DEPTH {
      return false, L.DirectoryTooLarge, rest, items;
    }
    IdentitiesAppend(done, visited, Visit(current, []));
    if Identity(current.locator) in visited {
      return false, L.DirectoryCycle, rest, items;
    }
    var listed := SortedListing(p, current);
    if listed.Refused? {
      return false, listed.error, rest, items;
    }
    items := listed.items;
    ghost var before := m.requests;
    ok, error, rest := VisitItems(m, current, listed.items, queue[1..]);
    if ok {
      WalkStep(p, selection, done, queue, before, items);
    }
  }

  /** The members serve exactly the files of the selection, each directory occurrence visited once. */
  ghost predicate Serving(p: Provider, selection: seq<Selected>, members: seq<Member>, done: seq<Visit>,
                          requests: seq<Request>) {
    && AllServed(members, requests) && Walk(p, selection, done, [], requests)
    && (forall i :: 0 <= i < |selection| ==> Selectable(p, selection[i]))
    && forall r :: r in requests <==> FileReached(p, selection, r)
  }

  ghost predicate PlanFor(p: Provider, selection: seq<Selected>, members: seq<Member>) {
    WithinLimits(members) && exists done, requests :: Serving(p, selection, members, done, requests)
  }

  /** The walk comes to a directory it has visited before. */
  ghost predicate MeetsAgain(p: Provider, selection: seq<Selected>) {
    exists done, queue, requests :: Walk(p, selection, done, queue, requests) && HeadVisited(done, queue)
  }

  lemma WalkedPlannable(p: Provider, selection: seq<Selected>, done: seq<Visit>, requests: seq<Request>)
    requires Walk(p, selection, done, [], requests) && forall i :: 0 <= i < |selection| ==> Selectable(p, selection[i])
    ensures Unobstructed(p, selection)
  {
    forall d | Reached(p, selection, d)
      ensures Plannable(p, d)
    {
      EverythingVisited(p, selection, done, requests, d);
      var i :| 0 <= i < |done| && done[i].dir == d;
      VisitPlannable(p, d, done[i].items);
    }
  }

  lemma VisitPlannable(p: Provider, d: Dir, items: seq<Item>)
    requires Presents(p, d, items) && d.depth <= MAX_DEPTH && AllFit(d, items)
    ensures Plannable(p, d)
  {
    forall child | Contains(p, d, child)
      ensures NameFits(d, child)
    {
      ContainsIs(p, d, items, child);
    }
  }

  // ---- Where the planner stops there is no plan ------------------------------------------------

  /** In a plan every file is served behind those before it. */
  lemma PlannedServes(members: seq<Member>, requests: seq<Request>, before: seq<Request>, r: Request, error: L.Error)
    requires WithinLimits(members) && AllServed(members, requests) && before + [r] <= requests
    ensures !Refusal(before, r, error)
  {
    var n := |before|;
    assert requests[..n + 1] == before + [r];
    assert requests[..n] == requests[..n + 1][..n] == before && requests[n] == requests[..n + 1][n] == r;
    forall some | WithinLimits(some) && AllServed(some, before)
      ensures !Refuses(some, r)
    {
      ServedFits(members, requests, some, n);
    }
  }

  lemma {:induction false} SelectedIsPrefix(p: Provider, selection: seq<Selected>, i: nat)
    requires i <= |selection|
    ensures SelectedFiles(p, selection[..i]) <= SelectedFiles(p, selection)
    decreases |selection| - i
  {
    if i == |selection| {
      assert selection[..i] == selection;
    } else {
      NextSelected(p, selection, i);
      SelectedIsPrefix(p, selection, i + 1);
    }
  }

  lemma SelectionServes(p: Provider, selection: seq<Selected>, members: seq<Member>, done: seq<Visit>,
                        requests: seq<Request>, i: nat, error: L.Error)
    requires WithinLimits(members) && Serving(p, selection, members, done, requests) && i < |selection|
    ensures !SelectionStopsAt(p, selection, i, error)
  {
    assert Selectable(p, selection[i]);
    if selection[i].isFile {
      var before, r := SelectedFiles(p, selection[..i]), SelectedFile(p, selection[i])[0];
      NextSelected(p, selection, i);
      SelectedIsPrefix(p, selection, i + 1);
      assert SelectedFile(p, selection[i]) == [r];
      assert SelectedFiles(p, selection) <= requests;
      PlannedServes(members, requests, before, r, error);
    }
  }

  /** The child's turn comes in the plan as well. */
  lemma ChildServes(p: Provider, selection: seq<Selected>, members: seq<Member>, all: seq<Visit>, total: seq<Request>,
                    n: nat, i: nat, error: L.Error)
    requires WithinLimits(members) && Serving(p, selection, members, all, total)
    requires n < |all| && i < |all[n].items|
    ensures !ChildStops(all[n].dir, all[n].items, i, SelectedFiles(p, selection) + AllFiles(all[..n]), error)
  {
    var d, items := all[n].dir, all[n].items;
    assert AllFit(d, items) && NameFits(d, items[i]);
    if !items[i].isDir {
      var selected, files, children := SelectedFiles(p, selection), AllFiles(all[..n]), FilesIn(d, items[..i]);
      FilesPrefix(all, n);
      ChildPrefix(d, items, i);
      InOrder(selected, files, children, ChildFile(d, items[i]), FilesIn(d, items), AllFiles(all));
      PlannedServes(members, total, selected + files + children, ChildFile(d, items[i]), error);
    }
  }

  lemma InOrder(selected: seq<Request>, files: seq<Request>, children: seq<Request>, r: Request, listed: seq<Request>,
                all: seq<Request>)
    requires children + [r] <= listed && files + listed <= all
    ensures selected + files + children + [r] <= selected + all
  {
    assert files + (children + [r]) <= files + listed;
    assert selected + files + children + [r] == selected + (files + (children + [r]));
  }

  /** Whatever stops the walk at its head would have stopped the plan there. */
  lemma HeadServes(p: Provider, selection: seq<Selected>, members: seq<Member>, all: seq<Visit>, total: seq<Request>,
                   done: seq<Visit>, queue: seq<Dir>, requests: seq<Request>, error: L.Error)
    requires DistinctListings(p, selection) && WithinLimits(members) && Serving(p, selection, members, all, total)
    requires Walk(p, selection, done, queue, requests) && queue != []
    ensures !HeadStops(p, done, queue, requests, error)
  {
    WalkIsPrefix(p, selection, done, queue, requests, all, total);
    var n := |done|;
    HeadIsFine(p, all, done, queue);
    forall items, i | Presents(p, queue[0], items) && 0 <= i < |items|
      ensures !ChildStops(queue[0], items, i, requests, error)
    {
      WalkOrderly(p, selection, all, [], total);
      SameListing(p, selection, queue[0], items, all[n].items);
      ChildServes(p, selection, members, all, total, n, i, error);
    }
  }

  lemma HeadIsFine(p: Provider, all: seq<Visit>, done: seq<Visit>, queue: seq<Dir>)
    requires Faithful(p, all) && |done| < |all| && all[..|done|] == done && queue != [] && all[|done|].dir == queue[0]
    ensures queue[0].depth <= MAX_DEPTH && !HeadVisited(done, queue) && Listable(p, queue[0])
  {
    var n := |done|;
    assert Presents(p, all[n].dir, all[n].items);
    forall i | 0 <= i < n
      ensures Identity(done[i].dir.locator) != Identity(queue[0].locator)
    {
      assert all[..n][i] == all[i];
    }
  }

  /** If the planner stops, in the first loop or in the walk, no plan exists. */
  lemma StoppedHasNoPlan(p: Provider, selection: seq<Selected>, members: seq<Member>, error: L.Error)
    requires DistinctListings(p, selection) && PlanFor(p, selection, members)
    ensures !SelectionStops(p, selection, error) && !WalkStops(p, selection, error)
  {
    var all, total :| Serving(p, selection, members, all, total);
    forall i | 0 <= i < |selection|
      ensures !SelectionStopsAt(p, selection, i, error)
    {
      SelectionServes(p, selection, members, all, total, i, error);
    }
    forall done, queue, requests | Walk(p, selection, done, queue, requests) && queue != []
      ensures !HeadStops(p, done, queue, requests, error)
    {
      HeadServes(p, selection, members, all, total, done, queue, requests, error);
    }
  }

  /** There is at most one plan. */
  lemma PlanIsUnique(p: Provider, selection: seq<Selected>, a: seq<Member>, b: seq<Member>)
    requires DistinctListings(p, selection) && PlanFor(p, selection, a) && PlanFor(p, selection, b)
    ensures a == b
  {
    var x, rx :| Serving(p, selection, a, x, rx);
    var y, ry :| Serving(p, selection, b, y, ry);
    WalkIsUnique(p, selection, x, rx, y, ry);
    SameMembers(a, rx, b, ry, |rx|);
    assert a[..|a|] == a && b[..|b|] == b;
  }

  // ---- The planner's main loop -----------------------------------------------------------------

  /**
    planFileArchive. It ends on every provider; a plan serves exactly the files of the selection, each directory
    occurrence once, within all limits, and nothing below the selection was in its way. A refusal names the first
    reference, directory or child that could not be taken in the order of the walk, with the error of its case. If no
    listing names an identity twice, there is a plan exactly when the planner finds one, and it is the only one.
   */
  method PlanArchive(p: Provider, selection: seq<Selected>) returns (plan: Plan)
    ensures plan.Planned? ==> PlanFor(p, selection, plan.members) && Unobstructed(p, selection)
    ensures plan.Rejected? ==> SelectionStops(p, selection, plan.error) || WalkStops(p, selection, plan.error)
    ensures plan == Rejected(L.DirectoryCycle) ==> MeetsAgain(p, selection)
    ensures DistinctListings(p, selection) ==> (plan.Planned? <==> exists members :: PlanFor(p, selection, members))
    ensures DistinctListings(p, selection) ==>
      forall members :: PlanFor(p, selection, members) ==> plan == Planned(members)
  {
    plan := Decide(p, selection);
    if DistinctListings(p, selection) {
      forall members | PlanFor(p, selection, members)
        ensures plan == Planned(members)
      {
        if plan.Rejected? {
          StoppedHasNoPlan(p, selection, members, plan.error);
        } else {
          PlanIsUnique(p, selection, members, plan.members);
        }
      }
    }
    if plan == Rejected(L.DirectoryCycle) {
      CycleMeetsAgain(p, selection);
    }
  }

  lemma CycleMeetsAgain(p: Provider, selection: seq<Selected>)
    requires SelectionStops(p, selection, L.DirectoryCycle) || WalkStops(p, selection, L.DirectoryCycle)
    ensures MeetsAgain(p, selection)
  {
    var done, queue, requests :| WalkStopsAt(p, selection, done, queue, requests, L.DirectoryCycle);
    assert HeadVisited(done, queue);
  }

  method Decide(p: Provider, selection: seq<Selected>) returns (plan: Plan)
    ensures plan.Planned? ==> PlanFor(p, selection, plan.members) && Unobstructed(p, selection)
    ensures plan.Rejected? ==> SelectionStops(p, selection, plan.error) || WalkStops(p, selection, plan.error)
  {
    var m := new Members();
    ghost var done: seq<Visit> := [];
    var ok, error, todo := AddSelection(p, selection, m);
    if !ok {
      return Rejected(error);
    }
    WalkStart(p, selection);
    var visited: set<Text> := {};
    while |todo| > 0
      invariant m.Valid() && fresh(m) && Identities(done, visited) && Walk(p, selection, done, todo, m.requests)
      decreases Potential(todo)
    {
      ghost var asked := m.requests;
      assert Servable(asked);
      var fine, problem, rest, items := VisitNext(p, selection, m, todo, visited, done);
      if !fine {
        assert WalkStopsAt(p, selection, done, todo, asked, problem);
        return Rejected(problem);
      }
      VisitShrinks(todo, items);
      IdentitiesAppend(done, visited, Visit(todo[0], items));
      visited := visited + {Identity(todo[0].locator)};
      done := done + [Visit(todo[0], items)];
      todo := rest;
    }
    forall r ensures r in m.requests <==> FileReached(p, selection, r) {
      RequestsExact(p, selection, done, m.requests, r);
    }
    assert Serving(p, selection, m.members, done, m.requests);
    WalkedPlannable(p, selection, done, m.requests);
    plan := Planned(m.members);
  }
}
