/** The members an archive plan collects, with their limits. */
module ArchiveMembers {
  import opened Listing
  import opened ArchiveNames

  const MAX_BYTES := 20 * 1024 * 1024 * 1024

  datatype Member = Member(locator: Locator, name: Text, size: Int64)

  /** A file the plan asks to add, under the name it has before renaming. */
  datatype Request = Request(locator: Locator, name: Text, size: Int64)

  datatype Added = Added | BadName | TooMuch

  /** Go's int64 arithmetic wraps around. */
  function Wrap(x: int): Int64 {
    (x + 0x8000_0000_0000_0000) % 0x1_0000_0000_0000_0000 - 0x8000_0000_0000_0000
  }

  lemma WrapExact(x: int)
    requires -0x8000_0000_0000_0000 <= x < 0x8000_0000_0000_0000
    ensures Wrap(x) == x
  {
  }

  function Names(members: seq<Member>): set<Text> {
    set i | 0 <= i < |members| :: members[i].name
  }

  function Total(members: seq<Member>): int {
    if members == [] then 0 else Total(members[..|members| - 1]) + members[|members| - 1].size
  }

  predicate NameAllowed(name: Text) {
    ValidName(Base(name)) && |name| <= MAX_NAME && !(name != [] && name[0] == SLASH) && BACKSLASH !in name
  }

  /** Member i serves request i: same file, and the first free variant of the requested name, which is allowed. */
  ghost predicate Serves(members: seq<Member>, requests: seq<Request>, i: nat)
    requires i < |members| == |requests|
  {
    && members[i].locator == requests[i].locator && members[i].size == requests[i].size
    && NameAllowed(requests[i].name)
    && exists k :: FirstFree(Names(members[..i]), requests[i].name, k, members[i].name)
  }

  /** What every archive plan guarantees about its members. */
  ghost predicate WithinLimits(members: seq<Member>) {
    && |members| <= MAX_FILES && 0 <= Total(members) <= MAX_BYTES
    && (forall i :: 0 <= i < |members| ==> |members[i].name| <= MAX_NAME && members[i].size >= 0)
    && DistinctNames(members)
  }

  ghost predicate DistinctNames(members: seq<Member>) {
    forall i, j :: 0 <= i < j < |members| ==> members[i].name != members[j].name
  }

  ghost predicate AllServed(members: seq<Member>, requests: seq<Request>) {
    && |members| == |requests|
    && forall i :: 0 <= i < |members| ==> Serves(members, requests, i)
  }

  /** The file does not fit behind these members. */
  ghost predicate Refuses(members: seq<Member>, r: Request) {
    || !NameAllowed(r.name) || r.size < 0 || Total(members) + r.size > MAX_BYTES || |members| >= MAX_FILES
    || exists k, c :: FirstFree(Names(members), r.name, k, c) && |c| > MAX_NAME
  }

  lemma AppendNames(members: seq<Member>, m: Member)
    ensures Names(members + [m]) == Names(members) + {m.name}
  {
    var more := members + [m];
    assert forall i :: 0 <= i < |members| ==> more[i] == members[i];
    assert more[|members|] == m;
  }

  lemma AppendTotal(members: seq<Member>, m: Member)
    ensures Total(members + [m]) == Total(members) + m.size
  {
    assert (members + [m])[..|members|] == members;
  }

  lemma AppendDistinct(members: seq<Member>, m: Member)
    requires DistinctNames(members) && m.name !in Names(members)
    ensures DistinctNames(members + [m])
  {
    assert forall i :: 0 <= i < |members| ==> members[i].name in Names(members);
  }

  lemma AppendLimits(members: seq<Member>, m: Member)
    requires WithinLimits(members) && |members| < MAX_FILES && 0 <= m.size && Total(members) + m.size <= MAX_BYTES
    requires m.name !in Names(members) && |m.name| <= MAX_NAME
    ensures WithinLimits(members + [m])
  {
    AppendTotal(members, m);
    AppendDistinct(members, m);
  }

  lemma AppendServed(members: seq<Member>, requests: seq<Request>, r: Request, k: nat, name: Text)
    requires AllServed(members, requests) && FirstFree(Names(members), r.name, k, name) && NameAllowed(r.name)
    ensures AllServed(members + [Member(r.locator, name, r.size)], requests + [r])
  {
    var more, asked := members + [Member(r.locator, name, r.size)], requests + [r];
    forall i | 0 <= i < |more| ensures Serves(more, asked, i) {
      if i < |members| {
        assert more[..i] == members[..i];
        assert Serves(members, requests, i);
      } else {
        assert more[..i] == members;
      }
    }
  }

  // ---- The requests decide ---------------------------------------------------------------------

  lemma SameFree(used: set<Text>, name: Text, j: nat, a: Text, k: nat, b: Text)
    requires FirstFree(used, name, j, a) && FirstFree(used, name, k, b)
    ensures a == b
  {
    assert j < k ==> Candidate(name, j) in used;
    assert k < j ==> Candidate(name, k) in used;
  }

  lemma SameMember(a: seq<Member>, ra: seq<Request>, b: seq<Member>, rb: seq<Request>, i: nat)
    requires i < |a| == |ra| && i < |b| == |rb| && Serves(a, ra, i) && Serves(b, rb, i)
    requires ra[i] == rb[i] && a[..i] == b[..i]
    ensures a[i] == b[i]
  {
    var j :| FirstFree(Names(a[..i]), ra[i].name, j, a[i].name);
    var k :| FirstFree(Names(b[..i]), rb[i].name, k, b[i].name);
    SameFree(Names(a[..i]), ra[i].name, j, a[i].name, k, b[i].name);
  }

  /** Members that serve the same requests are the same. */
  lemma {:induction false} SameMembers(a: seq<Member>, ra: seq<Request>, b: seq<Member>, rb: seq<Request>, n: nat)
    requires AllServed(a, ra) && AllServed(b, rb) && n <= |ra| && n <= |rb| && ra[..n] == rb[..n]
    ensures a[..n] == b[..n]
  {
    if n > 0 {
      var k := n - 1;
      assert ra[..k] == ra[..n][..k] && rb[..k] == rb[..n][..k];
      assert ra[k] == ra[..n][k] && rb[k] == rb[..n][k];
      SameMembers(a, ra, b, rb, k);
      assert Serves(a, ra, k) && Serves(b, rb, k);
      SameMember(a, ra, b, rb, k);
      assert a[..n] == a[..k] + [a[k]] && b[..n] == b[..k] + [b[k]];
    }
  }

  lemma {:induction false} TotalGrows(members: seq<Member>, n: nat)
    requires n <= |members| && forall i :: 0 <= i < |members| ==> members[i].size >= 0
    ensures Total(members[..n]) <= Total(members)
    decreases |members|
  {
    if n == |members| {
      assert members[..n] == members;
    } else {
      var last := |members| - 1;
      TotalGrows(members[..last], n);
      assert members[..last][..n] == members[..n];
    }
  }

  lemma NextTotal(members: seq<Member>, n: nat)
    requires n < |members| && forall i :: 0 <= i < |members| ==> members[i].size >= 0
    ensures Total(members[..n]) + members[n].size <= Total(members)
  {
    TotalGrows(members, n + 1);
    assert members[..n + 1][..n] == members[..n];
  }

  /** What members within the limits serve is refused at no point. */
  lemma ServedFits(members: seq<Member>, requests: seq<Request>, before: seq<Member>, n: nat)
    requires WithinLimits(members) && AllServed(members, requests) && n < |requests| && AllServed(before, requests[..n])
    ensures !Refuses(before, requests[n])
  {
    assert requests[..n][..n] == requests[..n];
    SameMembers(before, requests[..n], members, requests, n);
    assert before[..n] == before;
    NextTotal(members, n);
    assert Serves(members, requests, n);
    var j :| FirstFree(Names(members[..n]), requests[n].name, j, members[n].name);
    forall k, c | FirstFree(Names(before), requests[n].name, k, c)
      ensures |c| <= MAX_NAME
    {
      SameFree(Names(before), requests[n].name, j, members[n].name, k, c);
    }
  }

  // ---- Adding files ----------------------------------------------------------------------------

  /** The size test of addFile: no intermediate result overflows, so it is exact. */
  method Exceeds(totalSize: Int64, size: Int64) returns (exceeds: bool)
    requires 0 <= totalSize <= MAX_BYTES && size >= 0
    ensures exceeds <==> totalSize + size > MAX_BYTES
    ensures !exceeds ==> Wrap(totalSize + size) == totalSize + size
  {
    WrapExact(MAX_BYTES - size);
    exceeds := totalSize > Wrap(MAX_BYTES - size);
    if !exceeds {
      WrapExact(totalSize + size);
    }
  }

  /** The state addFile closes over. */
  class Members {
    var members: seq<Member>
    var usedNames: set<Text>
    var totalSize: Int64
    ghost var requests: seq<Request>

    ghost predicate Valid()
      reads this
    {
      && WithinLimits(members) && AllServed(members, requests)
      && usedNames == Names(members) && totalSize == Total(members)
    }

    constructor ()
      ensures Valid() && members == [] && requests == []
    {
      members, usedNames, totalSize, requests := [], {}, 0, [];
    }

    /** The limits still allow `candidate`. */
    method Accepts(candidate: Text, size: Int64) returns (ok: bool)
      requires Valid()
      ensures ok <==>
        |candidate| <= MAX_NAME && size >= 0 && Total(members) + size <= MAX_BYTES && |members| < MAX_FILES
      ensures ok ==> Wrap(totalSize + size) == totalSize + size
    {
      if |candidate| > MAX_NAME || size < 0 {
        return false;
      }
      var exceeds := Exceeds(totalSize, size);
      return !exceeds && |members| < MAX_FILES;
    }

    method Append(r: Request, candidate: Text, ghost k: nat)
      requires Valid() && FirstFree(usedNames, r.name, k, candidate) && NameAllowed(r.name)
      requires Wrap(totalSize + r.size) == totalSize + r.size
      requires |candidate| <= MAX_NAME && r.size >= 0 && Total(members) + r.size <= MAX_BYTES && |members| < MAX_FILES
      modifies this
      ensures Valid() && requests == old(requests) + [r]
      ensures members == old(members) + [Member(r.locator, candidate, r.size)]
    {
      var m := Member(r.locator, candidate, r.size);
      AppendNames(members, m);
      AppendTotal(members, m);
      AppendLimits(members, m);
      AppendServed(members, requests, r, k, candidate);
      usedNames := usedNames + {candidate};
      totalSize := Wrap(totalSize + r.size);
      members := members + [m];
      requests := requests + [r];
    }

    /** addFile. */
    method AddFile(locator: Locator, name: Text, size: Int64) returns (outcome: Added)
      requires Valid()
      modifies this
      ensures Valid()
      ensures outcome == Added ==> requests == old(requests) + [Request(locator, name, size)]
      ensures outcome != Added ==> requests == old(requests) && members == old(members)
      ensures outcome == BadName <==> !NameAllowed(name)
      ensures outcome == Added <==> !Refuses(old(members), Request(locator, name, size))
    {
      if !ValidName(Base(name)) || |name| > MAX_NAME || (name != [] && name[0] == SLASH) || BACKSLASH in name {
        return BadName;
      }
      var candidate := Rename(usedNames, name);
      ghost var k: nat :| FirstFree(usedNames, name, k, candidate);
      var ok := Accepts(candidate, size);
      if !ok {
        return TooMuch;
      }
      Append(Request(locator, name, size), candidate, k);
      return Added;
    }
  }
}
