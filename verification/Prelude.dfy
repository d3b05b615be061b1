/** Small vocabulary shared by every module: options, minimum, and the list
    operations the kernel performs on its queues. */
module Prelude {

  datatype Option<+T> = None | Some(value: T)

  function Min(a: nat, b: nat): nat { if a <= b then a else b }

  ghost predicate NoDup(s: seq<nat>) {
    forall i, j :: 0 <= i < j < |s| ==> s[i] != s[j]
  }

  /** The queue `s` without its first occurrence of `x`; `s` itself when there is none. */
  function Remove(s: seq<nat>, x: nat): seq<nat> {
    if s == [] then []
    else if s[0] == x then s[1..]
    else [s[0]] + Remove(s[1..], x)
  }

  lemma {:induction false} RemoveAt(s: seq<nat>, i: nat)
    requires i < |s| && s[i] !in s[..i]
    ensures Remove(s, s[i]) == s[..i] + s[i + 1..]
  {
    if i > 0 {
      assert s[0] in s[..i];
      assert s[1..][..i - 1] == s[..i][1..];
      RemoveAt(s[1..], i - 1);
      assert s[1..][i..] == s[i + 1..];
      assert [s[0]] + (s[1..][..i - 1] + s[i + 1..]) == s[..i] + s[i + 1..];
    }
  }

  /** Removing a member of a duplicate-free queue takes out exactly that member. */
  lemma {:induction false} RemoveNoDup(s: seq<nat>, x: nat)
    requires NoDup(s)
    ensures NoDup(Remove(s, x))
    ensures x !in Remove(s, x)
    ensures forall y :: y in Remove(s, x) <==> y in s && y != x
    ensures |Remove(s, x)| == if x in s then |s| - 1 else |s|
  {
    if s != [] && s[0] != x {
      RemoveNoDup(s[1..], x);
      assert s == [s[0]] + s[1..];
      assert s[0] !in Remove(s[1..], x);
    } else if s != [] {
      assert s == [s[0]] + s[1..];
    }
  }

  lemma {:induction false} RemoveAbsent(s: seq<nat>, x: nat)
    requires x !in s
    ensures Remove(s, x) == s
  {
    if s != [] {
      RemoveAbsent(s[1..], x);
    }
  }

  lemma NoDupAppend(s: seq<nat>, x: nat)
    requires NoDup(s) && x !in s
    ensures NoDup(s + [x]) && NoDup([x] + s)
  {
  }

  lemma NoDupTail(s: seq<nat>)
    requires NoDup(s) && s != []
    ensures NoDup(s[1..]) && s[0] !in s[1..]
    ensures forall y :: y in s[1..] <==> y in s && y != s[0]
  {
    assert s == [s[0]] + s[1..];
  }
}
