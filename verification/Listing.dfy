/** Directory listings of the file manager: the sort order and the stateless emulated pagination. */
module Listing {
  import opened Bytes

  type Text = Bytes

  datatype Locator = Locator(path: Text, nativeId: Text, library: Text)

  type Int64 = x: int | -0x8000_0000_0000_0000 <= x < 0x8000_0000_0000_0000

  datatype Item = Item(locator: Locator, name: Text, isDir: bool, size: Int64, modified: int)

  const ID_PREFIX: Text := [105, 100, 58]
  const PATH_PREFIX: Text := [112, 97, 116, 104, 58]
  const COLON: Byte := 58

  /** managedLocatorIdentity. */
  function Identity(l: Locator): Text {
    if l.nativeId != [] then ID_PREFIX + l.nativeId else PATH_PREFIX + l.library + [COLON] + l.path
  }

  /** Trimming and lower-casing are library calls; the order below works for any such function. */
  const Fold: Text -> Text

  // ---- Byte order ------------------------------------------------------------------------------

  /** Go's string comparison. */
  predicate Before(x: Text, y: Text) {
    && y != []
    && (x == [] || x[0] < y[0] || (x[0] == y[0] && Before(x[1..], y[1..])))
  }

  lemma {:induction false} BeforeTotal(x: Text, y: Text)
    ensures Before(x, y) || Before(y, x) || x == y
  {
    if x != [] && y != [] && x[0] == y[0] {
      BeforeTotal(x[1..], y[1..]);
      assert x == [x[0]] + x[1..] && y == [y[0]] + y[1..];
    }
  }

  lemma {:induction false} BeforeAsymmetric(x: Text, y: Text)
    requires Before(x, y)
    ensures !Before(y, x) && x != y
  {
    if x != [] && x[0] == y[0] {
      BeforeAsymmetric(x[1..], y[1..]);
    }
  }

  lemma {:induction false} BeforeTransitive(x: Text, y: Text, z: Text)
    requires Before(x, y) && Before(y, z)
    ensures Before(x, z)
  {
    if x != [] && x[0] == y[0] && y[0] == z[0] {
      BeforeTransitive(x[1..], y[1..], z[1..]);
    }
  }

  // ---- The comparator --------------------------------------------------------------------------

  /** The less function of sortManagedEntries: directories first, then folded name, then identity. */
  predicate Less(a: Item, b: Item) {
    if a.isDir != b.isDir then a.isDir
    else if Fold(a.name) != Fold(b.name) then Before(Fold(a.name), Fold(b.name))
    else Before(Identity(a.locator), Identity(b.locator))
  }

  /** The comparator is a strict order that only ties items of equal identity. */
  lemma LessTotal(a: Item, b: Item)
    ensures Less(a, b) || Less(b, a) || Identity(a.locator) == Identity(b.locator)
  {
    BeforeTotal(Fold(a.name), Fold(b.name));
    BeforeTotal(Identity(a.locator), Identity(b.locator));
  }

  lemma LessAsymmetric(a: Item, b: Item)
    requires Less(a, b)
    ensures !Less(b, a)
  {
    if a.isDir == b.isDir {
      if Fold(a.name) != Fold(b.name) {
        BeforeAsymmetric(Fold(a.name), Fold(b.name));
      } else {
        BeforeAsymmetric(Identity(a.locator), Identity(b.locator));
      }
    }
  }

  lemma LessTransitive(a: Item, b: Item, c: Item)
    requires Less(a, b) && Less(b, c)
    ensures Less(a, c)
  {
    if a.isDir == b.isDir == c.isDir {
      var x, y, z := Fold(a.name), Fold(b.name), Fold(c.name);
      if x != y && y != z {
        BeforeTransitive(x, y, z);
        if x == z {
          BeforeAsymmetric(x, y);
        }
      } else if x == y && y == z {
        BeforeTransitive(Identity(a.locator), Identity(b.locator), Identity(c.locator));
      }
    }
  }

  /** "Not after" is transitive, so adjacent order is order everywhere. */
  lemma NotAfterTransitive(a: Item, b: Item, c: Item)
    requires !Less(b, a) && !Less(c, b)
    ensures !Less(c, a)
  {
    if Less(c, a) {
      NotLessLess(b, c, a);
    }
  }

  /** A strict weak order: whatever is before a is before everything not before a. */
  lemma NotLessLess(b: Item, c: Item, a: Item)
    requires Less(c, a) && !Less(b, a)
    ensures Less(c, b)
  {
    if a.isDir == b.isDir == c.isDir {
      var x, y, z := Fold(c.name), Fold(a.name), Fold(b.name);
      BeforeTotal(y, z);
      BeforeTotal(Identity(a.locator), Identity(b.locator));
      if x != y {
        if y != z {
          BeforeTransitive(x, y, z);
          if x == z {
            BeforeAsymmetric(x, y);
          }
        }
      } else if y == z {
        if Identity(a.locator) != Identity(b.locator) {
          BeforeTransitive(Identity(c.locator), Identity(a.locator), Identity(b.locator));
        }
      }
    }
  }

  // ---- Sorting ---------------------------------------------------------------------------------

  ghost predicate Ordered(s: seq<Item>) {
    forall i, j :: 0 <= i < j < |s| ==> !Less(s[j], s[i])
  }

  /** What a sort guarantees: a permutation in order. It need not be stable. */
  ghost predicate Sorting(items: seq<Item>, sorted: seq<Item>) {
    multiset(sorted) == multiset(items) && Ordered(sorted)
  }

  ghost predicate DistinctIdentities(s: seq<Item>) {
    forall i, j :: 0 <= i < j < |s| ==> Identity(s[i].locator) != Identity(s[j].locator)
  }

  function Insert(s: seq<Item>, x: Item): seq<Item> {
    if s == [] || Less(x, s[0]) then [x] + s else [s[0]] + Insert(s[1..], x)
  }

  lemma {:induction false} InsertContents(s: seq<Item>, x: Item)
    ensures multiset(Insert(s, x)) == multiset(s) + multiset{x}
  {
    if s != [] && !Less(x, s[0]) {
      InsertContents(s[1..], x);
      assert s == [s[0]] + s[1..];
    }
  }

  lemma {:induction false} InsertOrdered(s: seq<Item>, x: Item)
    requires Ordered(s)
    ensures Ordered(Insert(s, x))
  {
    if s != [] {
      if Less(x, s[0]) {
        forall j | 0 <= j < |s| ensures !Less(s[j], x) {
          LessAsymmetric(x, s[0]);
          if j > 0 {
            NotAfterTransitive(x, s[0], s[j]);
          }
        }
      } else {
        var rest := Insert(s[1..], x);
        InsertOrdered(s[1..], x);
        InsertContents(s[1..], x);
        forall j | 0 <= j < |rest| ensures !Less(rest[j], s[0]) {
          assert rest[j] in multiset(rest);
          assert rest[j] == x || rest[j] in s[1..];
        }
      }
    } else {
      assert Insert(s, x) == [x];
    }
  }

  /** sortManagedEntries. */
  method SortEntries(items: seq<Item>) returns (sorted: seq<Item>)
    ensures Sorting(items, sorted)
  {
    sorted := [];
    var i := 0;
    while i < |items|
      invariant i <= |items| && Sorting(items[..i], sorted)
    {
      InsertContents(sorted, items[i]);
      InsertOrdered(sorted, items[i]);
      assert items[..i + 1] == items[..i] + [items[i]];
      sorted := Insert(sorted, items[i]);
      i := i + 1;
    }
    assert items[..i] == items;
  }

  lemma SameFirst(s: seq<Item>, t: seq<Item>)
    requires s != [] && Ordered(s) && Ordered(t) && multiset(s) == multiset(t) && DistinctIdentities(s)
    ensures t != [] && t[0] == s[0]
  {
    assert s[0] in multiset(t);
    assert t[0] in multiset(s);
    var k :| 0 <= k < |t| && t[k] == s[0];
    var l :| 0 <= l < |s| && s[l] == t[0];
    if k > 0 && l > 0 {
      LessTotal(s[0], s[l]);
      assert false;
    }
  }

  lemma TailOf(s: seq<Item>)
    requires s != [] && Ordered(s)
    ensures Ordered(s[1..]) && (DistinctIdentities(s) ==> DistinctIdentities(s[1..]))
    ensures multiset(s[1..]) == multiset(s) - multiset{s[0]}
  {
    assert s == [s[0]] + s[1..];
  }

  /** With distinct identities there is exactly one sorted permutation, whatever order the provider lists in. */
  lemma {:induction false} SortingIsUnique(s: seq<Item>, t: seq<Item>)
    requires Ordered(s) && Ordered(t) && multiset(s) == multiset(t) && DistinctIdentities(s)
    ensures s == t
    decreases |s|
  {
    if s == [] {
      assert |t| == |multiset(t)| == 0;
    } else {
      SameFirst(s, t);
      TailOf(s);
      TailOf(t);
      SortingIsUnique(s[1..], t[1..]);
      assert s == [s[0]] + s[1..] && t == [t[0]] + t[1..];
    }
  }

  // ---- Identities ------------------------------------------------------------------------------

  /** The first colon of a path identity ends the library. */
  lemma FirstColon(library: Text, path: Text)
    requires COLON !in library
    ensures var x := library + [COLON] + path;
            x[|library|] == COLON && forall i :: 0 <= i < |library| ==> x[i] != COLON
  {
    var x := library + [COLON] + path;
    assert forall i :: 0 <= i < |library| ==> x[i] == library[i];
  }

  /** Locators by path are told apart whenever no library name contains a colon. */
  lemma IdentityDistinguishes(a: Locator, b: Locator)
    requires a.nativeId == [] && b.nativeId == [] && COLON !in a.library && COLON !in b.library
    requires Identity(a) == Identity(b)
    ensures a == b
  {
    var x, y := a.library + [COLON] + a.path, b.library + [COLON] + b.path;
    assert Identity(a)[|PATH_PREFIX|..] == x && Identity(b)[|PATH_PREFIX|..] == y;
    FirstColon(a.library, a.path);
    FirstColon(b.library, b.path);
    assert a.library == x[..|a.library|] && b.library == y[..|b.library|];
    assert a.path == x[|a.library| + 1..] && b.path == y[|b.library| + 1..];
  }

  /** An item reached by its native identifier never shares its identity with one reached by path. */
  lemma IdentityKinds(a: Locator, b: Locator)
    requires a.nativeId != [] && b.nativeId == []
    ensures Identity(a) != Identity(b)
  {
    assert Identity(a)[0] == 105 && Identity(b)[0] == 112;
  }

  lemma SamePrefix(a: Locator, b: Locator)
    requires a.nativeId == [] && b.nativeId == []
    ensures Identity(a) == Identity(b) <==> a.library + [COLON] + a.path == b.library + [COLON] + b.path
  {
    var x, y := a.library + [COLON] + a.path, b.library + [COLON] + b.path;
    assert Identity(a) == PATH_PREFIX + x && Identity(b) == PATH_PREFIX + y;
    assert (PATH_PREFIX + x)[|PATH_PREFIX|..] == x && (PATH_PREFIX + y)[|PATH_PREFIX|..] == y;
  }

  /** The locator whose library ends at the k-th character of the identity's text. */
  lemma SplitIdentity(a: Locator, k: nat) returns (b: Locator)
    requires a.nativeId == [] && k < |a.library| + 1 + |a.path| && k != |a.library|
    requires (a.library + [COLON] + a.path)[k] == COLON
    ensures b != a && Identity(b) == Identity(a)
  {
    var x := a.library + [COLON] + a.path;
    b := Locator(x[k + 1..], [], x[..k]);
    assert b.library + [COLON] + b.path == x;
    SamePrefix(a, b);
    assert |b.library| != |a.library|;
  }

  lemma OnlyColon(a: Locator, b: Locator)
    requires a.nativeId == [] && b.nativeId == [] && COLON !in a.library && COLON !in a.path
    requires Identity(a) == Identity(b)
    ensures a == b
  {
    SamePrefix(a, b);
    var x, y := a.library + [COLON] + a.path, b.library + [COLON] + b.path;
    assert y[|b.library|] == COLON;
    assert forall k :: 0 <= k < |x| && k != |a.library| ==> x[k] in a.library || x[k] in a.path;
    assert a.library == x[..|a.library|] && b.library == y[..|b.library|];
    assert a.path == x[|a.library| + 1..] && b.path == y[|b.library| + 1..];
  }

  /** A path locator shares its identity with another one if and only if its library or its path contains a colon. */
  lemma SharedIdentityIff(a: Locator)
    requires a.nativeId == []
    ensures (exists b: Locator :: b != a && Identity(b) == Identity(a)) <==> COLON in a.library || COLON in a.path
  {
    var x := a.library + [COLON] + a.path;
    if COLON in a.library {
      var k :| 0 <= k < |a.library| && a.library[k] == COLON;
      var b := SplitIdentity(a, k);
    } else if COLON in a.path {
      var k :| 0 <= k < |a.path| && a.path[k] == COLON;
      var b := SplitIdentity(a, |a.library| + 1 + k);
    } else {
      forall b: Locator | Identity(b) == Identity(a)
        ensures b == a
      {
        if b.nativeId != [] {
          IdentityKinds(b, a);
        }
        OnlyColon(a, b);
      }
    }
  }
}
