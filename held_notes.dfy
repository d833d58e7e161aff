/**
 * The synthesizer's `Set<number>` of held notes. A JavaScript Set iterates in
 * insertion order, so `Array.from(set)` is a duplicate-free list in the order
 * the notes were first added; the set is modelled as that list.
 */
module HeldNotes {

  /** No note is listed twice. */
  ghost predicate NoDup(s: seq<int>) {
    forall i, j :: 0 <= i < j < |s| ==> s[i] != s[j]
  }

  /** `Set.prototype.add`: a note already present keeps its place, a new one goes last. */
  function Added(s: seq<int>, n: int): (r: seq<int>)
    ensures forall x :: x in r <==> x in s || x == n
    ensures NoDup(s) ==> NoDup(r)
    ensures n in s ==> r == s
    ensures n !in s ==> |r| == |s| + 1 && r[|s|] == n && r[..|s|] == s
  {
    if n in s then s else s + [n]
  }

  /** `Set.prototype.delete`: the note leaves, everything else keeps its order. */
  function Removed(s: seq<int>, n: int): (r: seq<int>)
    ensures forall x :: x in r <==> x in s && x != n
    ensures NoDup(s) ==> NoDup(r)
    ensures n !in s ==> r == s
    ensures |r| <= |s|
  {
    if s == [] then []
    else if s[0] == n then Removed(s[1..], n)
    else
      var rest := Removed(s[1..], n);
      assert NoDup(s) ==> NoDup(s[1..]) && s[0] !in s[1..];
      [s[0]] + rest
  }

  /** `Math.max(...notes)` on a non-empty list. */
  function Highest(s: seq<int>): (m: int)
    requires s != []
    ensures m in s
    ensures forall x :: x in s ==> x <= m
  {
    if |s| == 1 then s[0]
    else
      var rest := Highest(s[1..]);
      assert forall x :: x in s ==> x == s[0] || x in s[1..];
      if s[0] >= rest then s[0] else rest
  }

  /** Pressing a note that is not held and then releasing it gives back the held list, order included. */
  lemma {:induction false} RemovedAfterAdded(s: seq<int>, n: int)
    requires n !in s
    ensures Removed(Added(s, n), n) == s
  {
    if s == [] {
      assert Added(s, n) == [n];
    } else {
      var t := Added(s, n);
      assert t == s + [n];
      assert t[0] == s[0] && t[1..] == s[1..] + [n];
      assert s[1..] + [n] == Added(s[1..], n);
      RemovedAfterAdded(s[1..], n);
      assert Removed(t, n) == [s[0]] + s[1..];
    }
  }

  /** Releasing the note at position k closes the gap: the notes before and after it keep their order. */
  lemma {:induction false} RemovedKeepsOrder(s: seq<int>, k: nat)
    requires NoDup(s) && k < |s|
    ensures Removed(s, s[k]) == s[..k] + s[k + 1..]
  {
    if k == 0 {
      assert s[0] !in s[1..];
      assert s[..0] + s[1..] == s[1..];
    } else {
      assert NoDup(s[1..]) && s[1..][k - 1] == s[k];
      RemovedKeepsOrder(s[1..], k - 1);
      assert s[0] != s[k];
      assert s[1..][..k - 1] + s[1..][k..] == s[1..k] + s[k + 1..];
      assert [s[0]] + (s[1..k] + s[k + 1..]) == s[..k] + s[k + 1..];
    }
  }

  /** Re-adding the highest held note, as the legato retune does, leaves the held list as it is. */
  lemma RetuneKeepsHeld(s: seq<int>)
    requires s != []
    ensures Added(s, Highest(s)) == s
  {
  }
}
