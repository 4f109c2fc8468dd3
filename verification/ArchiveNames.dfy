/** Member names of an archive: validity and the renaming of duplicates. */
module ArchiveNames {
  import opened Bytes
  import opened Listing

  const MAX_NAME := 256
  const MAX_FILES := 10000
  const SLASH: Byte := 47
  const BACKSLASH: Byte := 92
  const DOT: Byte := 46

  /** Well-formedness of UTF-8 is a library predicate. */
  const ValidUtf8: Text -> bool

  /** validArchiveName; validManagerUploadName caps names at 255 bytes. */
  predicate ValidName(name: Text) {
    && name != [] && name != [DOT] && name != [DOT, DOT]
    && SLASH !in name && BACKSLASH !in name
    && |name| <= 255
    && (forall i :: 0 <= i < |name| ==> name[i] >= 0x20 && name[i] != 0x7f)
    && ValidUtf8(name)
  }

  function TrimSlashes(name: Text): Text {
    if name != [] && name[|name| - 1] == SLASH then TrimSlashes(name[..|name| - 1]) else name
  }

  function LastElement(name: Text): Text {
    if name == [] || name[|name| - 1] == SLASH then [] else LastElement(name[..|name| - 1]) + [name[|name| - 1]]
  }

  /** path.Base. */
  function Base(name: Text): Text {
    if name == [] then [DOT]
    else if TrimSlashes(name) == [] then [SLASH]
    else LastElement(TrimSlashes(name))
  }

  /** path.Ext: from the last dot of the last element. */
  function Ext(name: Text): Text {
    if name == [] || name[|name| - 1] == SLASH then []
    else if name[|name| - 1] == DOT then [DOT]
    else if Ext(name[..|name| - 1]) == [] then []
    else Ext(name[..|name| - 1]) + [name[|name| - 1]]
  }

  /** The extension is the end of the name and, when present, starts at its only dot and has no slash. */
  lemma {:induction false} ExtIsSuffix(name: Text)
    ensures |Ext(name)| <= |name| && name[|name| - |Ext(name)|..] == Ext(name)
    ensures Ext(name) != [] ==> Ext(name)[0] == DOT && SLASH !in Ext(name) && DOT !in Ext(name)[1..]
  {
    if name != [] && name[|name| - 1] != SLASH && name[|name| - 1] != DOT {
      var before := name[..|name| - 1];
      ExtIsSuffix(before);
      assert name == before + [name[|name| - 1]];
    }
  }

  function Stem(name: Text): Text {
    ExtIsSuffix(name);
    name[..|name| - |Ext(name)|]
  }

  /** strconv.Itoa on naturals. */
  function Digits(n: nat): Text {
    if n < 10 then [48 + n] else Digits(n / 10) + [48 + n % 10]
  }

  lemma {:induction false} DigitsInjective(m: nat, n: nat)
    requires Digits(m) == Digits(n)
    ensures m == n
  {
    DigitsLength(m);
    DigitsLength(n);
    if m >= 10 && n >= 10 {
      var a, b := Digits(m), Digits(n);
      assert a[|a| - 1] == 48 + m % 10 && b[|b| - 1] == 48 + n % 10;
      assert a[..|a| - 1] == Digits(m / 10) && b[..|b| - 1] == Digits(n / 10);
      DigitsInjective(m / 10, n / 10);
    }
  }

  lemma {:induction false} DigitsLength(n: nat)
    ensures |Digits(n)| >= 1 && (|Digits(n)| == 1 <==> n < 10)
  {
    if n >= 10 {
      DigitsLength(n / 10);
    }
  }

  const OPEN: Text := [32, 40]
  const CLOSE: Text := [41]

  /** The names tried in turn: the name itself, then "stem (2).ext", "stem (3).ext" and so on. */
  function Candidate(name: Text, k: nat): Text {
    if k < 2 then name else Stem(name) + OPEN + Digits(k) + CLOSE + Ext(name)
  }

  lemma CandidatesDiffer(name: Text, j: nat, k: nat)
    requires 2 <= j && 2 <= k && Candidate(name, j) == Candidate(name, k)
    ensures j == k
  {
    var head, tail := Stem(name) + OPEN, CLOSE + Ext(name);
    var a, b := Candidate(name, j), Candidate(name, k);
    Sandwich(head, Digits(j), tail);
    Sandwich(head, Digits(k), tail);
    assert a == head + Digits(j) + tail && b == head + Digits(k) + tail;
    DigitsInjective(j, k);
  }

  lemma Sandwich(head: Text, middle: Text, tail: Text)
    ensures (head + middle + tail)[|head|..|head + middle + tail| - |tail|] == middle
  {
  }

  /** Numbered candidates are longer than the name they replace. */
  lemma CandidateLength(name: Text, k: nat)
    requires 2 <= k
    ensures |Candidate(name, k)| == |name| + 3 + |Digits(k)|
  {
    ExtIsSuffix(name);
  }

  /** The first candidate not in use, as the renaming loop finds it. */
  ghost predicate FirstFree(used: set<Text>, name: Text, k: nat, candidate: Text) {
    && k >= 1 && candidate == Candidate(name, k) && candidate !in used
    && forall j :: 1 <= j < k ==> Candidate(name, j) in used
  }

  /** The first n candidates were all taken, and they are n different names. */
  ghost predicate Tried(used: set<Text>, name: Text, n: nat, tried: set<Text>) {
    && tried <= used && |tried| == n
    && (forall j :: 1 <= j <= n ==> Candidate(name, j) in used)
    && (forall t :: t in tried ==> exists j :: 1 <= j <= n && t == Candidate(name, j))
  }

  lemma TryNext(used: set<Text>, name: Text, n: nat, tried: set<Text>)
    requires Tried(used, name, n, tried) && Candidate(name, n + 1) in used
    ensures Tried(used, name, n + 1, tried + {Candidate(name, n + 1)}) && n < |used|
  {
    NewCandidate(name, n + 1, tried);
    SubsetSize(tried + {Candidate(name, n + 1)}, used);
  }

  /** The renaming loop of addFile. It ends because the numbered candidates are pairwise different. */
  method Rename(used: set<Text>, name: Text) returns (candidate: Text)
    ensures exists k: nat :: k <= |used| + 1 && FirstFree(used, name, k, candidate)
  {
    candidate := name;
    var suffix := 2;
    ghost var tried: set<Text> := {};
    while candidate in used
      invariant suffix >= 2 && candidate == Candidate(name, suffix - 1) && Tried(used, name, suffix - 2, tried)
      decreases |used| + 2 - suffix
    {
      TryNext(used, name, suffix - 2, tried);
      tried := tried + {candidate};
      candidate := Stem(name) + OPEN + Digits(suffix) + CLOSE + Ext(name);
      suffix := suffix + 1;
    }
    SubsetSize(tried, used);
    assert FirstFree(used, name, suffix - 1, candidate);
  }

  lemma NewCandidate(name: Text, k: nat, tried: set<Text>)
    requires k >= 1 && forall t :: t in tried ==> exists j :: 1 <= j < k && t == Candidate(name, j)
    ensures Candidate(name, k) !in tried
  {
    if Candidate(name, k) in tried {
      var j :| 1 <= j < k && Candidate(name, k) == Candidate(name, j);
      CandidateLength(name, k);
      if j >= 2 {
        CandidatesDiffer(name, j, k);
      }
      assert false;
    }
  }
}
