/** A ring in an array, read as the sequence of what is in it. */
module RingBuffer {

  /** `i` places behind place `start` in a ring of `size` places. */
  function Place(start: nat, i: nat, size: nat): nat { if start + i < size then start + i else start + i - size }

  /** `count` elements from place `start` on. */
  function Ring<T>(buf: seq<T>, start: nat, count: nat): (r: seq<T>)
    requires count <= |buf| && (|buf| > 0 ==> start < |buf|)
    ensures |r| == count && forall i :: 0 <= i < count ==> r[i] == buf[Place(start, i, |buf|)]
  {
    seq(count, i requires 0 <= i < count => buf[Place(start, i, |buf|)])
  }

  /** An element goes in behind the last one. */
  lemma RingPut<T>(buf: seq<T>, start: nat, count: nat, x: T)
    requires count < |buf| && start < |buf|
    ensures Ring(buf[Place(start, count, |buf|) := x], start, count + 1) == Ring(buf, start, count) + [x]
  {
  }

  /** The first one goes out. */
  lemma RingGet<T>(buf: seq<T>, start: nat, count: nat)
    requires 0 < count <= |buf| && start < |buf|
    ensures Ring(buf, start, count)[0] == buf[start]
    ensures Ring(buf, Place(start, 1, |buf|), count - 1) == Ring(buf, start, count)[1..] || |buf| == 1
    ensures |buf| == 1 ==> Ring(buf, 0, count - 1) == Ring(buf, start, count)[1..]
  {
  }

  /** In a full ring a new element takes the place of the first one. */
  lemma RingReplace<T>(buf: seq<T>, start: nat, x: T)
    requires start < |buf|
    ensures Ring(buf[start := x], if start + 1 < |buf| then start + 1 else 0, |buf|) == Ring(buf, start, |buf|)[1..] + [x]
  {
  }
}
