/**
 * What one drain of a FIFO sees and forwards, stated on values.
 *
 * A pipe is described by the results its successive `read(PACKET_SIZE)` calls return;
 * an empty result means "no data on this poll". Once those results are used up, every
 * further read comes back empty, as it does on a FIFO whose writer has gone.
 */
module Drain {
  type Byte = bv8
  type Bytes = seq<Byte>

  /** Bytes asked for per read, and so the largest datagram the relay sends. */
  const PACKET_SIZE: nat := 1316
  /** Empty reads a drain tolerates; the drain ends on the one after. */
  const MAX_TRIES: nat := 10

  /** Every read result is no longer than what was asked for. */
  predicate ReadsFit(rs: seq<Bytes>) {
    forall i :: 0 <= i < |rs| ==> |rs[i]| <= PACKET_SIZE
  }

  /** The result of the i-th read (0-based) on a pipe whose reads return `script`. */
  function Poll(script: seq<Bytes>, i: nat): Bytes {
    if i < |script| then script[i] else []
  }

  /** The results of the first n reads. */
  function Polled(script: seq<Bytes>, n: nat): seq<Bytes> {
    seq(n, i requires 0 <= i < n => Poll(script, i))
  }

  /** How many of the given read results were empty. */
  function Empties(rs: seq<Bytes>): nat {
    if rs == [] then 0
    else Empties(rs[..|rs| - 1]) + (if rs[|rs| - 1] == [] then 1 else 0)
  }

  /** All bytes of the given chunks, in order. */
  function Flatten(rs: seq<Bytes>): Bytes {
    if rs == [] then [] else Flatten(rs[..|rs| - 1]) + rs[|rs| - 1]
  }

  /** The datagrams sent for a run of read results: each non-empty read, as it was read. */
  function Forwarded(rs: seq<Bytes>): seq<Bytes> {
    if rs == [] then []
    else Forwarded(rs[..|rs| - 1]) + (if rs[|rs| - 1] == [] then [] else [rs[|rs| - 1]])
  }

  /**
   * One datagram per non-empty read and none for an empty read: the datagrams and the
   * empty reads together account for every read, and no datagram is empty.
   */
  lemma {:induction false} ForwardedShape(rs: seq<Bytes>)
    ensures |Forwarded(rs)| + Empties(rs) == |rs|
    ensures forall i :: 0 <= i < |Forwarded(rs)| ==> Forwarded(rs)[i] != []
  {
    if rs != [] {
      var init, x := rs[..|rs| - 1], rs[|rs| - 1];
      ForwardedShape(init);
      assert rs == init + [x];
      Extend(init, x);
    }
  }

  /** Every datagram is one read's worth of bytes, so none is larger than PACKET_SIZE. */
  lemma {:induction false} ForwardedFit(rs: seq<Bytes>)
    requires ReadsFit(rs)
    ensures ReadsFit(Forwarded(rs))
  {
    if rs != [] {
      var init, x := rs[..|rs| - 1], rs[|rs| - 1];
      assert ReadsFit(init) by {
        forall i | 0 <= i < |init| ensures |init[i]| <= PACKET_SIZE {
          assert init[i] == rs[i];
        }
      }
      ForwardedFit(init);
      assert rs == init + [x];
      Extend(init, x);
    }
  }

  /** A pipe whose reads all fit PACKET_SIZE yields fitting reads however often it is polled. */
  lemma PolledFit(script: seq<Bytes>, n: nat)
    requires ReadsFit(script)
    ensures ReadsFit(Polled(script, n))
  {
    forall i | 0 <= i < n ensures |Polled(script, n)[i]| <= PACKET_SIZE {
      assert Polled(script, n)[i] == Poll(script, i);
    }
  }

  /** One more read appends its result to the reads made so far. */
  lemma PolledStep(script: seq<Bytes>, n: nat)
    ensures Polled(script, n + 1) == Polled(script, n) + [Poll(script, n)]
  {
  }

  /** Appending one read result extends each measure by that read alone. */
  lemma Extend(rs: seq<Bytes>, x: Bytes)
    ensures (rs + [x])[..|rs|] == rs
    ensures Empties(rs + [x]) == Empties(rs) + (if x == [] then 1 else 0)
    ensures Forwarded(rs + [x]) == Forwarded(rs) + (if x == [] then [] else [x])
    ensures Flatten(rs + [x]) == Flatten(rs) + x
  {
    assert (rs + [x])[..|rs|] == rs;
  }

  /**
   * Nothing is lost, added, reordered or duplicated: the bytes of the datagrams sent
   * are exactly the bytes read, in read order.
   */
  lemma {:induction false} ForwardedBytes(rs: seq<Bytes>)
    ensures Flatten(Forwarded(rs)) == Flatten(rs)
  {
    if rs != [] {
      var init, x := rs[..|rs| - 1], rs[|rs| - 1];
      assert rs == init + [x];
      ForwardedBytes(init);
      Extend(init, x);
      if x != [] {
        Extend(Forwarded(init), x);
      } else {
        assert Forwarded(rs) == Forwarded(init) + [] == Forwarded(init);
        assert Flatten(rs) == Flatten(init) + x == Flatten(init);
      }
    }
  }

  /** Flatten distributes over concatenation. */
  lemma {:induction false} FlattenAppend(a: seq<Bytes>, b: seq<Bytes>)
    ensures Flatten(a + b) == Flatten(a) + Flatten(b)
  {
    if b == [] {
      assert a + b == a;
    } else {
      var init, x := b[..|b| - 1], b[|b| - 1];
      assert b == init + [x];
      assert a + b == (a + init) + [x];
      FlattenAppend(a, init);
      Extend(a + init, x);
      Extend(init, x);
    }
  }

  /** Every read past the end of the script is empty, so n reads see at least n - |script| empty ones. */
  lemma {:induction false} EmptiesPastEnd(script: seq<Bytes>, n: nat)
    ensures Empties(Polled(script, n)) >= n - |script|
  {
    if n > 0 {
      var prev := Polled(script, n - 1);
      EmptiesPastEnd(script, n - 1);
      PolledStep(script, n - 1);
      Extend(prev, Poll(script, n - 1));
      assert n - 1 >= |script| ==> Poll(script, n - 1) == [];
      assert Empties(Polled(script, n)) >= Empties(prev);
    }
  }

  /**
   * A drain that has seen at most MAX_TRIES + 1 empty reads has read at most
   * |script| + MAX_TRIES + 1 times: however long the producer is silent, a drain ends
   * within eleven reads past the producer's last chunk.
   */
  lemma DrainLength(script: seq<Bytes>, n: nat)
    requires Empties(Polled(script, n)) <= MAX_TRIES + 1
    ensures n <= |script| + MAX_TRIES + 1
  {
    EmptiesPastEnd(script, n);
  }

  /** The empty-read count only grows as reads go on: it is never reset. */
  lemma {:induction false} EmptiesMonotone(script: seq<Bytes>, m: nat, n: nat)
    requires m <= n
    ensures Empties(Polled(script, m)) <= Empties(Polled(script, n))
  {
    if m < n {
      EmptiesMonotone(script, m, n - 1);
      PolledStep(script, n - 1);
      Extend(Polled(script, n - 1), Poll(script, n - 1));
    }
  }

  /**
   * Where an idle timeout falls is fixed by the read results alone: at most one read
   * count n has its n-th read empty and exactly MAX_TRIES + 1 empty reads up to it.
   */
  lemma TimeoutPointUnique(script: seq<Bytes>, n1: nat, n2: nat)
    requires 0 < n1 && Poll(script, n1 - 1) == [] && Empties(Polled(script, n1)) == MAX_TRIES + 1
    requires 0 < n2 && Poll(script, n2 - 1) == [] && Empties(Polled(script, n2)) == MAX_TRIES + 1
    ensures n1 == n2
  {
    if n1 < n2 {
      TimeoutAfter(script, n1, n2);
    } else if n2 < n1 {
      TimeoutAfter(script, n2, n1);
    }
  }

  lemma TimeoutAfter(script: seq<Bytes>, m: nat, n: nat)
    requires 0 < m < n && Poll(script, n - 1) == []
    ensures Empties(Polled(script, m)) < Empties(Polled(script, n))
  {
    EmptiesMonotone(script, m, n - 1);
    PolledStep(script, n - 1);
    Extend(Polled(script, n - 1), Poll(script, n - 1));
  }
}
