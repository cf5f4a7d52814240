/** Scatter/gather buffers of a socket message and their advance after a
    partial transfer. A buffer is an address range; the meaning of a list of
    buffers is the flat sequence of addresses it covers. */
module MessageBuffer {

  datatype IoVec = IoVec(base: nat, len: nat)

  const SIZE_MODULUS := 0x1_0000_0000_0000_0000

  function Span(v: IoVec): (s: seq<nat>)
    ensures |s| == v.len
  {
    seq(v.len, i requires 0 <= i < v.len => v.base + i)
  }

  function Flat(bufs: seq<IoVec>): seq<nat> {
    if bufs == [] then [] else Span(bufs[0]) + Flat(bufs[1..])
  }

  function Total(bufs: seq<IoVec>): nat {
    if bufs == [] then 0 else bufs[0].len + Total(bufs[1..])
  }

  lemma {:induction false} FlatLength(bufs: seq<IoVec>)
    ensures |Flat(bufs)| == Total(bufs)
  {
    if bufs != [] { FlatLength(bufs[1..]); }
  }

  /** `operator+=` on one native buffer. */
  function Trimmed(v: IoVec, len: nat): IoVec {
    if v.len <= len then IoVec(0, 0) else IoVec(v.base + len, v.len - len)
  }

  /** Trimming one buffer drops that many of its addresses, or all of them. */
  lemma TrimmedSpan(v: IoVec, len: nat)
    ensures Span(Trimmed(v, len)) == Span(v)[if v.len <= len then v.len else len..]
  {
  }

  /** The list after an advance: whole buffers go while the count lasts, one
      buffer may be trimmed, and nothing is examined once the count is spent. */
  function Advanced(bufs: seq<IoVec>, len: nat): seq<IoVec> {
    if bufs == [] || len == 0 then bufs
    else if len < bufs[0].len then [Trimmed(bufs[0], len)] + bufs[1..]
    else Advanced(bufs[1..], len - bufs[0].len)
  }

  function Min(a: nat, b: nat): nat { if a < b then a else b }

  lemma DropInFirst(a: seq<nat>, b: seq<nat>, n: nat)
    requires n <= |a|
    ensures (a + b)[n..] == a[n..] + b
  {
  }

  lemma DropPastFirst(a: seq<nat>, b: seq<nat>, n: nat)
    requires n <= |b|
    ensures (a + b)[|a| + n..] == b[n..]
  {
  }

  /** An advance is a drop on the flat sequence. */
  lemma {:induction false} AdvancedFlat(bufs: seq<IoVec>, len: nat)
    ensures Flat(Advanced(bufs, len)) == Flat(bufs)[Min(len, |Flat(bufs)|)..]
    decreases |bufs|
  {
    if bufs == [] || len == 0 {
    } else if len < bufs[0].len {
      var r := Advanced(bufs, len);
      assert r[0] == Trimmed(bufs[0], len) && r[1..] == bufs[1..];
      TrimmedSpan(bufs[0], len);
      DropInFirst(Span(bufs[0]), Flat(bufs[1..]), len);
    } else {
      AdvancedFlat(bufs[1..], len - bufs[0].len);
      DropPastFirst(Span(bufs[0]), Flat(bufs[1..]), Min(len - bufs[0].len, |Flat(bufs[1..])|));
    }
  }

  /** Only a prefix of the buffers is removed and at most the first remaining
      one is trimmed, to a non-empty rest of itself. */
  lemma {:induction false} AdvancedShape(bufs: seq<IoVec>, len: nat) returns (k: nat, t: nat)
    ensures k <= |bufs|
    ensures t == 0 ==> Advanced(bufs, len) == bufs[k..]
    ensures t > 0 ==> k < |bufs| && t < bufs[k].len
    ensures t > 0 ==> Advanced(bufs, len) == [IoVec(bufs[k].base + t, bufs[k].len - t)] + bufs[k + 1..]
    ensures Total(bufs[..k]) + t == Min(len, Total(bufs))
    decreases |bufs|
  {
    if bufs == [] || len == 0 {
      k, t := 0, 0;
    } else if len < bufs[0].len {
      k, t := 0, len;
    } else {
      k, t := AdvancedShape(bufs[1..], len - bufs[0].len);
      assert bufs[..k + 1][1..] == bufs[1..][..k];
      assert bufs[1..][k..] == bufs[k + 1..];
      if t > 0 { assert bufs[1..][k] == bufs[k + 1] && bufs[1..][k + 1..] == bufs[k + 2..]; }
      k := k + 1;
    }
  }

  /** Two advances are one advance by the sum, buffer for buffer. */
  lemma {:induction false} AdvancedTwice(bufs: seq<IoVec>, m: nat, n: nat)
    ensures Advanced(Advanced(bufs, m), n) == Advanced(bufs, m + n)
    decreases |bufs|
  {
    if bufs == [] || m == 0 || n == 0 {
    } else if m < bufs[0].len {
      var r := Advanced(bufs, m);
      assert r[0] == Trimmed(bufs[0], m) && r[1..] == bufs[1..];
    } else {
      AdvancedTwice(bufs[1..], m - bufs[0].len, n);
    }
  }

  lemma AdvancedHead(bufs: seq<IoVec>, len: nat)
    requires bufs != []
    ensures Advanced(bufs, len) ==
            if len == 0 then [bufs[0]] + Advanced(bufs[1..], 0)
            else if len < bufs[0].len then [Trimmed(bufs[0], len)] + Advanced(bufs[1..], 0)
            else Advanced(bufs[1..], len - bufs[0].len)
  {
  }

  lemma {:induction false} TotalAppend(a: seq<IoVec>, v: IoVec)
    ensures Total(a + [v]) == Total(a) + v.len
  {
    if a == [] {
      assert ([v])[1..] == [];
    } else {
      assert (a + [v])[1..] == a[1..] + [v];
      TotalAppend(a[1..], v);
    }
  }

  lemma {:induction false} FlatAppend(a: seq<IoVec>, v: IoVec)
    ensures Flat(a + [v]) == Flat(a) + Span(v)
  {
    if a == [] {
      assert ([v])[1..] == [];
    } else {
      assert (a + [v])[0] == a[0] && (a + [v])[1..] == a[1..] + [v];
      FlatAppend(a[1..], v);
    }
  }

  lemma AdvancedTotal(bufs: seq<IoVec>, len: nat)
    ensures Total(Advanced(bufs, len)) == Total(bufs) - Min(len, Total(bufs))
  {
  }

  /** `empty` sums lengths in a `size_t`. It tells whether any byte is left
      exactly when the total is not a positive multiple of 2^64. */
  lemma EmptyExactly(bufs: seq<IoVec>)
    ensures (Total(bufs) % SIZE_MODULUS == 0 <==> Flat(bufs) == []) <==>
            (Total(bufs) == 0 || Total(bufs) % SIZE_MODULUS != 0)
  {
  }

  lemma EmptyWraps()
    ensures var b := [IoVec(0, SIZE_MODULUS / 2), IoVec(0, SIZE_MODULUS / 2)];
            Total(b) % SIZE_MODULUS == 0 && Flat(b) != []
  {
    var v := IoVec(0, SIZE_MODULUS / 2);
    var b := [v, v];
    assert b[1..] == [v] && [v][1..] == [];
    assert Total([v]) == v.len;
    FlatLength(b);
  }

  function Sum(s: seq<nat>): nat {
    if s == [] then 0 else s[0] + Sum(s[1..])
  }

  lemma {:induction false} SumAppend(a: seq<nat>, n: nat)
    ensures Sum(a + [n]) == Sum(a) + n
  {
    if a == [] {
      assert ([n])[1..] == [];
    } else {
      assert (a + [n])[1..] == a[1..] + [n];
      SumAppend(a[1..], n);
    }
  }

  lemma {:induction false} SumPositive(s: seq<nat>)
    requires forall i :: 0 <= i < |s| ==> s[i] > 0
    ensures Sum(s) >= |s|
  {
    if s != [] { SumPositive(s[1..]); }
  }

  /** No send reports more than what is left when it is made. */
  ghost predicate Within(results: seq<nat>, total: nat) {
    forall k :: 0 <= k <= |results| ==> Sum(results[..k]) <= total
  }

  class Buffers {
    var buffers: seq<IoVec>

    constructor (bufs: seq<IoVec>)
      ensures buffers == bufs
    {
      buffers := bufs;
    }

    method PushBack(v: IoVec)
      modifies this
      ensures buffers == old(buffers) + [v]
      ensures Flat(buffers) == old(Flat(buffers)) + Span(v)
    {
      FlatAppend(buffers, v);
      buffers := buffers + [v];
    }

    method Empty() returns (empty: bool)
      ensures empty <==> Total(buffers) % SIZE_MODULUS == 0
    {
      var len := 0;
      for i := 0 to |buffers|
        invariant len == Total(buffers[..i]) % SIZE_MODULUS
      {
        assert buffers[..i + 1] == buffers[..i] + [buffers[i]];
        TotalAppend(buffers[..i], buffers[i]);
        len := (len + buffers[i].len) % SIZE_MODULUS;
      }
      assert buffers[..|buffers|] == buffers;
      empty := len == 0;
    }

    /** `operator+=`: an in-place `remove_if` whose predicate trims the buffer
        it is given and counts down, followed by an erase. */
    method Advance(len: nat)
      modifies this
      ensures buffers == Advanced(old(buffers), len)
    {
      ghost var was := buffers;
      var left, out := len, 0;
      for i := 0 to |buffers|
        invariant |buffers| == |was| && 0 <= out <= i
        invariant buffers[i..] == was[i..]
        invariant Advanced(was, len) == buffers[..out] + Advanced(was[i..], left)
        invariant left > 0 ==> out == 0
      {
        assert was[i..][0] == was[i] == buffers[i] && was[i..][1..] == was[i + 1..];
        AdvancedHead(was[i..], left);
        ghost var kept := buffers[..out];
        var remove := false;
        if left != 0 {
          var count := buffers[i].len;
          buffers := buffers[i := Trimmed(buffers[i], left)];
          if left < count {
            left := 0;
          } else {
            left := left - count;
            remove := true;
          }
        }
        if !remove {
          buffers := buffers[out := buffers[i]];
          out := out + 1;
          assert buffers[..out] == kept + [buffers[out - 1]];
        }
      }
      buffers := buffers[..out];
    }

    /** One send that the kernel takes `n` bytes of, and the advance after it. */
    method WriteOnce(n: nat) returns (chunk: seq<nat>, empty: bool)
      requires n <= Total(buffers) < SIZE_MODULUS
      modifies this
      ensures chunk + Flat(buffers) == old(Flat(buffers)) && |chunk| == n
      ensures Total(buffers) == old(Total(buffers)) - n
      ensures empty <==> Total(buffers) == 0
    {
      FlatLength(buffers);
      AdvancedFlat(buffers, n);
      AdvancedTotal(buffers, n);
      chunk := Flat(buffers)[..n];
      Advance(n);
      empty := Empty();
    }

    /** The `writer` continuation: send, advance by what was sent, and send
        again while bytes are left. `results` are the results of the sends that
        succeed; `sent` is what the kernel took. */
    method WriteAll(results: seq<nat>) returns (sent: seq<nat>, used: nat, done: bool)
      requires Total(buffers) < SIZE_MODULUS && Within(results, Total(buffers))
      modifies this
      ensures used <= |results|
      // no gap, no duplicate
      ensures sent + Flat(buffers) == old(Flat(buffers)) && |sent| == Sum(results[..used])
      // it stops when, and only when, everything is sent
      ensures done ==> Flat(buffers) == [] && Sum(results[..used]) == old(Total(buffers))
      ensures !done ==> used == |results| && (used > 0 ==> Flat(buffers) != [])
      ensures forall k :: 0 < k < used ==> Sum(results[..k]) < old(Total(buffers))
    {
      sent, used, done := [], 0, false;
      ghost var total := Total(buffers);
      while used < |results| && !done
        invariant used <= |results|
        invariant sent + Flat(buffers) == old(Flat(buffers)) && |sent| == Sum(results[..used])
        invariant Total(buffers) == total - Sum(results[..used])
        invariant done ==> Total(buffers) == 0
        invariant !done && used > 0 ==> Total(buffers) > 0
        invariant forall k :: 0 < k < used ==> Sum(results[..k]) < total
        decreases |results| - used, !done
      {
        var n := results[used];
        assert results[..used + 1] == results[..used] + [n];
        SumAppend(results[..used], n);
        assert Sum(results[..used + 1]) <= total;
        var chunk, empty := WriteOnce(n);
        sent := sent + chunk;
        used := used + 1;
        done := empty;
      }
      FlatLength(buffers);
    }
  }

  /** Remaining bytes are a termination measure when every send makes progress:
      the loop needs at most one send per byte. */
  lemma SendsBounded(results: seq<nat>, used: nat, total: nat)
    requires used <= |results| && Within(results, total)
    requires forall i :: 0 <= i < |results| ==> results[i] > 0
    ensures used <= total
  {
    SumPositive(results[..used]);
  }
}
