/**
 * A switch of some system over its runs: some steps turn it on, some turn it off,
 * and while it is on a certain value does not change.
 */
module History {

  /** The state before step `k` of a run from `start`. */
  ghost function Trace<W, S>(next: (W, S) -> W, start: W, steps: seq<S>, k: nat): W
    requires k <= |steps|
  {
    if k == 0 then start else next(Trace(next, start, steps, k - 1), steps[k - 1])
  }

  lemma {:induction false} TraceLater<W, S>(next: (W, S) -> W, start: W, steps: seq<S>, k: nat)
    requires 0 < k <= |steps|
    ensures Trace(next, start, steps, k) == Trace(next, next(start, steps[0]), steps[1..], k - 1)
    decreases k
  {
    if k > 1 {
      TraceLater(next, start, steps, k - 1);
    } else {
      assert Trace(next, start, steps, 0) == start;
    }
  }

  datatype Switch<!W(!new), !S(!new), D> = Switch(
    next: (W, S) -> W, good: W -> bool, on: W -> bool, yes: (W, S) -> bool, no: (W, S) -> bool, value: W -> D)
  {
    /** What every single step does to the switch and to the value. */
    ghost predicate Lawful() {
      forall w, s | good(w) ::
        && good(next(w, s))
        && (on(next(w, s)) <==> yes(w, s) || (on(w) && !no(w, s)))
        && (on(next(w, s)) ==> value(next(w, s)) == value(w))
    }

    ghost function At(start: W, steps: seq<S>, k: nat): W
      requires k <= |steps|
    {
      Trace(next, start, steps, k)
    }

    /** Step `k` turned the switch on, and no step between there and `n` turned it off. */
    ghost predicate Since(start: W, steps: seq<S>, k: nat, n: nat)
      requires n <= |steps|
    {
      && k < n && yes(At(start, steps, k), steps[k])
      && forall j :: k < j < n ==> !no(At(start, steps, j), steps[j])
    }

    lemma OneStep(w: W, s: S)
      requires Lawful() && good(w)
      ensures good(next(w, s))
      ensures on(next(w, s)) <==> yes(w, s) || (on(w) && !no(w, s))
      ensures on(next(w, s)) ==> value(next(w, s)) == value(w)
    {
    }

    lemma {:induction false} StaysGood(start: W, steps: seq<S>, n: nat)
      requires Lawful() && good(start) && n <= |steps|
      ensures good(At(start, steps, n))
      decreases n
    {
      if n > 0 {
        StaysGood(start, steps, n - 1);
        OneStep(At(start, steps, n - 1), steps[n - 1]);
      }
    }

    lemma SinceGoesOn(start: W, steps: seq<S>, k: nat, n: nat)
      requires n < |steps|
      ensures Since(start, steps, k, n + 1) <==>
                (k == n && yes(At(start, steps, n), steps[n])) || (Since(start, steps, k, n) && !no(At(start, steps, n), steps[n]))
    {
    }

    ghost predicate StandsOn(start: W, steps: seq<S>, n: nat)
      requires n <= |steps|
    {
      exists k :: Since(start, steps, k, n)
    }

    lemma StandingGoesOn(start: W, steps: seq<S>, m: nat, n: nat)
      requires n == m + 1 <= |steps|
      ensures StandsOn(start, steps, n) <==>
                yes(At(start, steps, m), steps[m]) || (StandsOn(start, steps, m) && !no(At(start, steps, m), steps[m]))
    {
      SinceGoesOn(start, steps, m, m);
      if k: nat :| Since(start, steps, k, m) {
        SinceGoesOn(start, steps, k, m);
      }
      if k: nat :| Since(start, steps, k, n) {
        SinceGoesOn(start, steps, k, m);
      }
    }

    /** The switch is on exactly after a step that turned it on and stands. */
    lemma {:induction false} LastWord(start: W, steps: seq<S>, n: nat)
      requires Lawful() && good(start) && !on(start) && n <= |steps|
      ensures on(At(start, steps, n)) <==> StandsOn(start, steps, n)
      decreases n
    {
      if n > 0 {
        StaysGood(start, steps, n - 1);
        OneStep(At(start, steps, n - 1), steps[n - 1]);
        LastWord(start, steps, n - 1);
        StandingGoesOn(start, steps, n - 1, n);
      }
    }

    /** The value is the one it was when the switch was turned on. */
    lemma {:induction false} SameSince(start: W, steps: seq<S>, k: nat, n: nat)
      requires Lawful() && good(start) && n <= |steps| && Since(start, steps, k, n)
      ensures on(At(start, steps, n)) && value(At(start, steps, n)) == value(At(start, steps, k))
      decreases n
    {
      StaysGood(start, steps, n - 1);
      OneStep(At(start, steps, n - 1), steps[n - 1]);
      SinceGoesOn(start, steps, k, n - 1);
      if k < n - 1 {
        SameSince(start, steps, k, n - 1);
      }
    }
  }
}
