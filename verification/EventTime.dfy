/** Event times as the kernel stores them: 32-bit counters that wrap, compared
    relative to the moving origin `min_time`. */
module EventTime {

  const EVTTIM_MODULUS: nat := 0x1_0000_0000
  const TMAX_RELTIM: nat := 0x7fff_ffff

  type EVTTIM = t: int | 0 <= t < EVTTIM_MODULUS

  /** The stored form of an unbounded time. */
  function Wrap(t: nat): EVTTIM { t % EVTTIM_MODULUS }

  /** Unsigned subtraction and addition on the stored form. */
  function SubWrap(a: EVTTIM, b: EVTTIM): EVTTIM {
    if b <= a then a - b else a + EVTTIM_MODULUS - b
  }

  function AddWrap(a: EVTTIM, b: nat): EVTTIM { (a + b) % EVTTIM_MODULUS }

  predicate EvttimLt(t1: EVTTIM, t2: EVTTIM, minTime: EVTTIM) {
    SubWrap(t1, minTime) < SubWrap(t2, minTime)
  }

  predicate EvttimLe(t1: EVTTIM, t2: EVTTIM, minTime: EVTTIM) {
    SubWrap(t1, minTime) <= SubWrap(t2, minTime)
  }

  /** The times that are representable while `min_time` is `m`. */
  predicate InWindow(m: nat, t: nat) { m <= t < m + EVTTIM_MODULUS }

  /** The distance computed on stored times is the true distance exactly when
      the later time lies in the window. */
  lemma SubWrapExact(m: nat, t: nat)
    requires m <= t
    ensures SubWrap(Wrap(t), Wrap(m)) == t - m <==> InWindow(m, t)
  {
    var d := t - m;
    if InWindow(m, t) {
      var q, r := m / EVTTIM_MODULUS, m % EVTTIM_MODULUS;
      assert t == q * EVTTIM_MODULUS + (r + d);
      if r + d < EVTTIM_MODULUS {
        assert t / EVTTIM_MODULUS == q;
      } else {
        assert t == (q + 1) * EVTTIM_MODULUS + (r + d - EVTTIM_MODULUS);
        assert t / EVTTIM_MODULUS == q + 1;
      }
    }
  }

  /** Both comparison macros decide the order of the unbounded times they stand for. */
  lemma ComparisonsAgree(m: nat, a: nat, b: nat)
    requires InWindow(m, a) && InWindow(m, b)
    ensures EvttimLt(Wrap(a), Wrap(b), Wrap(m)) <==> a < b
    ensures EvttimLe(Wrap(a), Wrap(b), Wrap(m)) <==> a <= b
  {
    SubWrapExact(m, a);
    SubWrapExact(m, b);
  }

  lemma WrapAdd(a: nat, d: nat)
    ensures Wrap(a + d) == AddWrap(Wrap(a), d)
  {
    var q, r := a / EVTTIM_MODULUS, a % EVTTIM_MODULUS;
    var q', r' := (r + d) / EVTTIM_MODULUS, (r + d) % EVTTIM_MODULUS;
    assert a + d == (q + q') * EVTTIM_MODULUS + r';
    assert (a + d) / EVTTIM_MODULUS == q + q';
  }

  /** The stored times `a` and `b` compare as the times they stand for. */
  ghost predicate ComparesRightly(m: nat, a: nat, b: nat) {
    && (EvttimLt(Wrap(a), Wrap(b), Wrap(m)) <==> a < b)
    && (EvttimLe(Wrap(a), Wrap(b), Wrap(m)) <==> a <= b)
  }

  /** The window is exact: a time, past or future, compares rightly with every time in the
      window if and only if it lies in the window itself; else it is mistaken for another. */
  lemma ComparisonFailsBeyondWindow(m: nat, b: nat)
    ensures InWindow(m, b) <==> forall a: nat :: InWindow(m, a) ==> ComparesRightly(m, a, b)
  {
    if InWindow(m, b) {
      forall a: nat | InWindow(m, a) ensures ComparesRightly(m, a, b) { ComparisonsAgree(m, a, b); }
    } else {
      var d := SubWrap(Wrap(b), Wrap(m));
      WrapAdd(m, d);
      assert Wrap(m + d) == Wrap(b);
      assert InWindow(m, m + d) && !ComparesRightly(m, m + d, b);
    }
  }

  /** Moving the origin forward changes every stored distance, but not the order
      of any two times that lie in both windows. */
  lemma MovingOriginKeepsOrder(m: nat, m': nat, a: nat, b: nat)
    requires m <= m' && InWindow(m, a) && InWindow(m, b) && m' <= a && m' <= b
    ensures EvttimLt(Wrap(a), Wrap(b), Wrap(m)) <==> EvttimLt(Wrap(a), Wrap(b), Wrap(m'))
    ensures EvttimLe(Wrap(a), Wrap(b), Wrap(m)) <==> EvttimLe(Wrap(a), Wrap(b), Wrap(m'))
  {
    ComparisonsAgree(m, a, b);
    ComparisonsAgree(m', a, b);
  }
}
