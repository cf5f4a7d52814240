/** Sequence arithmetic that more than one part needs. */
module Sequences {

  lemma Rejoin<T>(a: seq<T>, b: seq<T>, c: seq<T>, all: seq<T>)
    requires a + (b + c) == all
    ensures (a + b) + c == all
  {
    assert a + (b + c) == (a + b) + c;
  }

  /** What is left when one element is taken out. */
  lemma Without<T>(s: seq<T>, i: nat)
    requires i < |s|
    ensures var t := s[..i] + s[i + 1..];
            |t| == |s| - 1 && forall k :: 0 <= k < |t| ==> t[k] == s[if k < i then k else k + 1]
  {
  }

  /** Editing the rest of a sequence edits the sequence. */
  lemma UpdateTail<T>(s: seq<T>, k: nat, x: T)
    requires 0 < k < |s|
    ensures [s[0]] + s[1..][k - 1 := x] == s[k := x]
  {
  }

  lemma InsertTail<T>(s: seq<T>, k: nat, x: T)
    requires 0 < k <= |s|
    ensures [s[0]] + (s[1..][..k - 1] + [x] + s[1..][k - 1..]) == s[..k] + [x] + s[k..]
  {
  }

  /** Several sequences, one after the other. */
  function Joined<T>(ss: seq<seq<T>>): seq<T> {
    if ss == [] then [] else Joined(ss[..|ss| - 1]) + ss[|ss| - 1]
  }

  /** These two facts determine it. */
  lemma JoinedOne<T>(s: seq<T>)
    ensures Joined([s]) == s
  {
    assert [s][..0] == [];
  }

  lemma {:induction false} JoinedConcat<T>(a: seq<seq<T>>, b: seq<seq<T>>)
    ensures Joined(a + b) == Joined(a) + Joined(b)
    decreases |b|
  {
    if b == [] {
      assert a + b == a;
    } else {
      var n := |b| - 1;
      assert (a + b)[..|a| + n] == a + b[..n];
      JoinedConcat(a, b[..n]);
      assert Joined(a) + (Joined(b[..n]) + b[n]) == (Joined(a) + Joined(b[..n])) + b[n];
    }
  }
}
