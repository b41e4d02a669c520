/** Option and Result, and what every ring in the project needs: modular arithmetic and storage by position. */
module Common {

  datatype Option<+T> = None | Some(value: T)

  datatype Result<+T, +E> = Ok(value: T) | Err(error: E)

  function Min(a: int, b: int): int { if a <= b then a else b }

  function Max(a: int, b: int): int { if a >= b then a else b }

  /** Go's integer division: the quotient is truncated toward zero. */
  function GoDiv(a: int, b: int): int
    requires b > 0
  {
    if a >= 0 then a / b else -((-a) / b)
  }
}

module RingArithmetic {

  /** Quotient and remainder are determined by any decomposition with a remainder in range. */
  lemma DivModUnique(x: int, q: int, r: int, c: int)
    requires c > 0 && 0 <= r < c && x == q * c + r
    ensures x / c == q && x % c == r
  {
    var d := x / c - q;
    assert d * c == (x / c) * c - q * c;
    assert d * c + x % c == r;
    if d >= 1 {
      MulMono(1, d, c);
    } else if d <= -1 {
      MulMono(d, -1, c);
    }
  }

  lemma MulMono(a: int, b: int, c: int)
    requires a <= b && c >= 0
    ensures a * c <= b * c
  {
    assert (b - a) * c >= 0;
    assert (b - a) * c == b * c - a * c;
  }

  /** One more step either stays in the current group of c or opens the next one. */
  lemma Successor(m: int, c: int)
    requires c > 0 && m >= 0
    ensures m % c + 1 < c ==> (m + 1) / c == m / c && (m + 1) % c == m % c + 1
    ensures m % c + 1 >= c ==> (m + 1) / c == m / c + 1 && (m + 1) % c == 0
  {
    var q, r := m / c, m % c;
    if r + 1 < c {
      DivModUnique(m + 1, q, r + 1, c);
    } else {
      assert (q + 1) * c == q * c + c;
      DivModUnique(m + 1, q + 1, 0, c);
    }
  }

  /** Walking k slots forward in a ring of c slots wraps at most once. */
  lemma Advance(p: int, k: int, c: int)
    requires c > 0 && 0 <= p && 0 <= k <= c
    ensures (p + k) % c == if p % c + k < c then p % c + k else p % c + k - c
  {
    var q, r := p / c, p % c;
    assert p == q * c + r;
    if r + k < c {
      DivModUnique(p + k, q, r + k, c);
    } else if r + k < 2 * c {
      assert (q + 1) * c == q * c + c;
      DivModUnique(p + k, q + 1, r + k - c, c);
    }
  }

  /** Two positions less than one ring apart land in different slots. */
  lemma Distinct(p: int, q: int, c: int)
    requires c > 0 && 0 <= p < q < p + c
    ensures p % c != q % c
  {
    Advance(p, q - p, c);
  }

  /** Moving back exactly one ring gives the same slot and the previous pass. */
  lemma PreviousPass(p: int, c: int)
    requires c > 0
    ensures (p - c) % c == p % c && (p - c) / c == p / c - 1
  {
    assert (p / c - 1) * c == (p / c) * c - c;
    DivModUnique(p - c, p / c - 1, p % c, c);
  }
}

/** A ring as a value: each element of an append-only stream sits in the slot of its position. */
module RingStorage {
  import opened RingArithmetic

  /** The ring holds the newest elements of the stream, each in the slot of its position. */
  ghost predicate Holds<T>(ring: seq<T>, stream: seq<T>) {
    && |ring| > 0
    && forall i {:trigger stream[i]} :: 0 <= i < |stream| && |stream| - |ring| <= i ==> ring[i % |ring|] == stream[i]
  }

  /** The ring after src has been copied in at position wp, in one or two runs. */
  function Laid<T>(ring: seq<T>, wp: nat, src: seq<T>): (out: seq<T>)
    requires 0 < |ring| && |src| <= |ring|
    ensures |out| == |ring|
  {
    Around(ring, wp % |ring|, src)
  }

  function Put<T>(ring: seq<T>, at: nat, part: seq<T>): (out: seq<T>)
    requires at + |part| <= |ring|
    ensures |out| == |ring|
  {
    ring[..at] + part + ring[at + |part|..]
  }

  /** From slot at, over the end of the ring and on from its start if need be. */
  function Around<T>(ring: seq<T>, at: nat, src: seq<T>): (out: seq<T>)
    requires at < |ring| && |src| <= |ring|
    ensures |out| == |ring|
  {
    if at + |src| <= |ring| then ring[..at] + src + ring[at + |src|..]
    else
      var first := |ring| - at;
      src[first..] + ring[|src| - first..at] + src[..first]
  }

  function Fetched<T>(ring: seq<T>, rp: nat, n: nat): (out: seq<T>)
    requires 0 < |ring| && n <= |ring|
    ensures |out| == n
  {
    Taken(ring, rp % |ring|, n)
  }

  /** The same from slot at. */
  function Taken<T>(ring: seq<T>, at: nat, n: nat): (out: seq<T>)
    requires at < |ring| && n <= |ring|
    ensures |out| == n
  {
    if at + n <= |ring| then ring[at..at + n]
    else ring[at..] + ring[..n - (|ring| - at)]
  }

  lemma PutOne<T>(ring: seq<T>, at: nat, part: seq<T>, i: nat)
    requires at + |part| <= |ring| && i < |part|
    ensures Put(ring, at, part[..i])[at + i := part[i]] == Put(ring, at, part[..i + 1])
  {
  }

  lemma PutNone<T>(ring: seq<T>, at: nat)
    requires at <= |ring|
    ensures Put(ring, at, []) == ring
  {
  }

  /** Two copies, the first to the end of the ring, go around. */
  lemma PutTwice<T>(ring: seq<T>, at: nat, src: seq<T>)
    requires at < |ring| && |src| <= |ring| && at + |src| > |ring|
    ensures var first := |ring| - at; Put(Put(ring, at, src[..first]), 0, src[first..]) == Around(ring, at, src)
  {
    var first := |ring| - at;
    assert Put(ring, at, src[..first]) == ring[..at] + src[..first];
  }

  /** Go's copy() into a slice of the ring. */
  method CopyIn<T>(data: array<T>, at: nat, part: seq<T>)
    requires at + |part| <= data.Length
    modifies data
    ensures data[..] == Put(old(data[..]), at, part)
  {
    ghost var before := data[..];
    assert part[..0] == [];
    PutNone(before, at);
    hide Put;
    for i := 0 to |part|
      invariant data[..] == Put(before, at, part[..i])
    {
      PutOne(before, at, part, i);
      data[at + i] := part[i];
    }
    assert part[..|part|] == part;
  }

  /** The next element of an array that is being filled. */
  method SetNext<T>(dst: array<T>, i: nat, v: T, ghost filled: seq<T>)
    requires i < dst.Length && dst[..i] == filled
    modifies dst
    ensures dst[..i + 1] == filled + [v] && dst[i + 1..] == old(dst[i + 1..])
  {
    dst[i] := v;
    assert dst[..i + 1] == dst[..i] + [v];
  }

  lemma TakenOne<T>(ring: seq<T>, at: nat, n: nat, i: nat)
    requires at < |ring| && i < n <= |ring|
    ensures Taken(ring, at, n)[..i] + [ring[if at + i < |ring| then at + i else at + i - |ring|]]
         == Taken(ring, at, n)[..i + 1]
  {
  }

  lemma SameTail<T>(a: seq<T>, b: seq<T>, i: nat, n: nat)
    requires |a| == |b| && i < n <= |a| && a[i + 1..] == b[i + 1..]
    ensures a[n..] == b[n..]
  {
    assert a[n..] == a[i + 1..][n - i - 1..] && b[n..] == b[i + 1..][n - i - 1..];
  }

  /** The copy out of the ring. */
  method CopyOut<T>(data: array<T>, at: nat, dst: array<T>, n: nat)
    requires at < data.Length && n <= data.Length && n <= dst.Length && dst != data
    modifies dst
    ensures dst[..n] == Taken(data[..], at, n) && dst[n..] == old(dst[n..])
  {
    hide Taken;
    ghost var ring := data[..];
    for i := 0 to n
      invariant dst[..i] == Taken(ring, at, n)[..i] && dst[n..] == old(dst[n..])
    {
      TakenOne(ring, at, n, i);
      ghost var before := dst[..];
      SetNext(dst, i, if at + i < data.Length then data[at + i] else data[at + i - data.Length], dst[..i]);
      SameTail(before, dst[..], i, n);
    }
  }

  /** The copy into the ring, in one or two runs. */
  method CopyAround<T>(data: array<T>, at: nat, src: seq<T>)
    requires at < data.Length && |src| <= data.Length
    modifies data
    ensures data[..] == Around(old(data[..]), at, src)
  {
    var first := data.Length - at;
    if |src| <= first {
      CopyIn(data, at, src);
    } else {
      PutTwice(data[..], at, src);
      hide Put, Around;
      CopyIn(data, at, src[..first]);
      CopyIn(data, 0, src[first..]);
    }
  }

  lemma LaidNew<T>(ring: seq<T>, wp: nat, src: seq<T>, k: nat)
    requires 0 < |ring| && |src| <= |ring| && k < |src|
    ensures Laid(ring, wp, src)[(wp + k) % |ring|] == src[k]
  {
    Advance(wp, k, |ring|);
  }

  lemma LaidOld<T>(ring: seq<T>, wp: nat, src: seq<T>, i: nat)
    requires 0 < |ring| && |src| <= |ring| && i < wp && wp + |src| - |ring| <= i
    ensures Laid(ring, wp, src)[i % |ring|] == ring[i % |ring|]
  {
    Advance(i, wp - i, |ring|);
  }

  /** Writing refines appending. */
  lemma LaidAppends<T>(ring: seq<T>, stream: seq<T>, src: seq<T>)
    requires Holds(ring, stream) && |src| <= |ring|
    ensures Holds(Laid(ring, |stream|, src), stream + src)
  {
    var all, out := stream + src, Laid(ring, |stream|, src);
    forall i {:trigger all[i]} | 0 <= i < |all| && |all| - |out| <= i
      ensures out[i % |out|] == all[i]
    {
      if i < |stream| {
        LaidOld(ring, |stream|, src, i);
        assert ring[i % |ring|] == stream[i];
      } else {
        LaidNew(ring, |stream|, src, i - |stream|);
      }
    }
  }

  lemma FetchedAt<T>(ring: seq<T>, rp: nat, n: nat, k: nat)
    requires 0 < |ring| && k < n <= |ring|
    ensures Fetched(ring, rp, n)[k] == ring[(rp + k) % |ring|]
  {
    Advance(rp, k, |ring|);
  }

  /** Reading inside the held range refines slicing the stream. */
  lemma FetchedSlices<T>(ring: seq<T>, stream: seq<T>, rp: nat, n: nat)
    requires Holds(ring, stream) && |stream| - |ring| <= rp && rp + n <= |stream| && n <= |ring|
    ensures Fetched(ring, rp, n) == stream[rp..rp + n]
  {
    forall k | 0 <= k < n
      ensures Fetched(ring, rp, n)[k] == stream[rp..rp + n][k]
    {
      FetchedAt(ring, rp, n, k);
      assert ring[(rp + k) % |ring|] == stream[rp + k];
    }
  }
}
