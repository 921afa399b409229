/**
 The ring that drains a process's standard error and keeps its latest bytes.
 */
module StderrRing {
  type Byte = bv8

  const LIMIT := 65536

  function Min(a: int, b: int): int { if a <= b then a else b }

  /** The last n bytes of everything written. */
  function Tail(s: seq<Byte>, n: nat): seq<Byte>
    requires n <= |s|
  {
    s[|s| - n..]
  }

  datatype Capture = Capture(text: seq<Byte>, truncated: bool, missing: bool)

  /** The position of the k-th retained byte, oldest first. */
  function At(next: int, used: int, k: int): (i: int)
    ensures 0 <= i < LIMIT
  {
    (next - used + k + LIMIT) % LIMIT
  }

  lemma TailAfter(before: seq<Byte>, p: seq<Byte>, n: nat, k: nat)
    requires n <= |before| + |p| && k < n
    ensures Tail(before + p, n)[k] == if k < n - |p| then before[|before| + |p| - n + k] else p[k - (n - |p|)]
  {
  }

  /** Starting at the front, a full ring is stored in order. */
  lemma AtFront(k: int)
    requires 0 <= k < LIMIT
    ensures At(0, LIMIT, k) == k
  {
  }

  class Ring {
    const data: array<Byte>
    var used: int
    var next: int
    var truncated: bool
    ghost var written: seq<Byte>

    /** The ring holds the tail of what was written, wrapped around at `next`. */
    ghost predicate Valid()
      reads this, data
    {
      && data.Length == LIMIT && 0 <= next < LIMIT
      && used == Min(|written|, LIMIT) && (truncated <==> |written| > LIMIT)
      && forall k | 0 <= k < used :: data[At(next, used, k)] == Tail(written, used)[k]
    }

    constructor ()
      ensures Valid() && fresh(data) && written == []
    {
      data := new Byte[LIMIT](i => 0);
      used, next, truncated, written := 0, 0, false, [];
    }

    /** Copies p[from..from+n] to the ring's storage at position `to`. */
    method Copy(to: int, p: seq<Byte>, from: int, n: int)
      requires 0 <= to && 0 <= n && to + n <= data.Length && 0 <= from && from + n <= |p|
      modifies data
      ensures forall i | 0 <= i < data.Length ::
                data[i] == if to <= i < to + n then p[from + i - to] else old(data[i])
    {
      for k := 0 to n
        invariant forall i | 0 <= i < data.Length ::
                    data[i] == if to <= i < to + k then p[from + i - to] else old(data[i])
      {
        data[to + k] := p[from + k];
      }
    }

    /** A write as long as the ring replaces everything in it. */
    method Overwrite(p: seq<Byte>)
      requires data.Length == LIMIT <= |p| && (truncated <==> |written| + |p| > LIMIT)
      modifies this, data
      ensures Valid() && written == old(written) + p
    {
      Copy(0, p, |p| - LIMIT, LIMIT);
      used, next, written := LIMIT, 0, written + p;
      Front(old(written), p);
    }

    /** A ring whose storage is the end of p, in order, holds the tail of any text ending with p. */
    lemma Front(before: seq<Byte>, p: seq<Byte>)
      requires data.Length == LIMIT <= |p| && forall i | 0 <= i < LIMIT :: data[i] == p[|p| - LIMIT + i]
      ensures forall k | 0 <= k < LIMIT :: data[At(0, LIMIT, k)] == Tail(before + p, LIMIT)[k]
    {
      hide At;
      forall k | 0 <= k < LIMIT ensures data[At(0, LIMIT, k)] == Tail(before + p, LIMIT)[k] {
        AtFront(k);
      }
    }

    method Write(p: seq<Byte>) returns (n: int)
      requires Valid()
      modifies this, data
      ensures Valid() && n == |p| && written == old(written) + p
    {
      n := |p|;
      if n > LIMIT - used { truncated := true; }
      if n >= LIMIT {
        Overwrite(p);
        return;
      }
      Append(p);
    }

    /** A shorter write goes after the newest byte and wraps around. */
    method Append(p: seq<Byte>)
      requires data.Length == LIMIT > |p| && 0 <= next < LIMIT && used == Min(|written|, LIMIT)
      requires forall k | 0 <= k < used :: data[At(next, used, k)] == Tail(written, used)[k]
      requires truncated <==> |written| + |p| > LIMIT
      modifies this, data
      ensures Valid() && written == old(written) + p
    {
      hide At;
      var n := |p|;
      var first := Min(n, LIMIT - next);
      Copy(next, p, 0, first);
      Copy(0, p, first, n - first);
      next := (next + n) % LIMIT;
      used := Min(LIMIT, used + n);
      written := written + p;
      forall k | 0 <= k < used ensures data[At(next, used, k)] == Tail(written, used)[k] {
        TailAfter(old(written), p, used, k);
        Rotate(old(next), old(used), n, k);
      }
    }

    /** Exactly the last bytes written, up to the limit, oldest first. */
    method Snapshot() returns (c: Capture)
      requires Valid()
      ensures c.text == Tail(written, Min(|written|, LIMIT))
      ensures |c.text| == if |written| < 65536 then |written| else 65536
      ensures forall k | 0 <= k < |c.text| :: c.text[k] == written[|written| - |c.text| + k]
      ensures c.truncated <==> |written| > 65536
      ensures c.missing <==> written == []
    {
      var start := (next - used + LIMIT) % LIMIT;
      var first := Min(used, LIMIT - start);
      var value := data[start..start + first] + data[..used - first];
      forall k | 0 <= k < used ensures value[k] == data[At(next, used, k)] {
        Unwrap(next, used, k);
      }
      c := Capture(value, truncated, used == 0);
    }
  }

  /** The k-th retained byte lies before the end of the storage or wraps around to its beginning. */
  lemma Unwrap(next: int, used: int, k: int)
    requires 0 <= next < LIMIT && 0 <= used <= LIMIT && 0 <= k < used
    ensures var start := (next - used + LIMIT) % LIMIT;
            0 <= start < LIMIT && At(next, used, k) == if k < LIMIT - start then start + k else k - (LIMIT - start)
  {
  }

  /** Where the k-th retained byte of the new tail lies: an old byte unmoved, or a place just written. */
  lemma Rotate(next: int, used: int, n: int, k: int)
    requires 0 <= next < LIMIT && 0 <= used <= LIMIT && 0 <= n < LIMIT && 0 <= k < Min(LIMIT, used + n)
    ensures var used' := Min(LIMIT, used + n); var i := At((next + n) % LIMIT, used', k);
            0 <= i < LIMIT
            && (k < used' - n ==> i == At(next, used, used + n - used' + k)
                                  && !(next <= i < next + n) && !(next <= i + LIMIT < next + n))
            && (k >= used' - n ==> var j := k - (used' - n);
                  i == if next + j < LIMIT then next + j else next + j - LIMIT)
  {
  }

  function Concat(ps: seq<seq<Byte>>): seq<Byte> {
    if ps == [] then [] else Concat(ps[..|ps| - 1]) + ps[|ps| - 1]
  }

  /** After any sequence of writes the snapshot is the tail of their concatenation. */
  method Drain(ps: seq<seq<Byte>>) returns (c: Capture)
    ensures |c.text| == (if |Concat(ps)| < 65536 then |Concat(ps)| else 65536)
    ensures Concat(ps)[|Concat(ps)| - |c.text|..] == c.text
    ensures c.truncated <==> |Concat(ps)| > 65536
    ensures c.missing <==> Concat(ps) == []
  {
    var ring := new Ring();
    for i := 0 to |ps|
      invariant fresh(ring) && fresh(ring.data) && ring.Valid() && ring.written == Concat(ps[..i])
    {
      var n := ring.Write(ps[i]);
      assert ps[..i + 1][..i] == ps[..i];
    }
    assert ps[..|ps|] == ps;
    c := ring.Snapshot();
  }
}
