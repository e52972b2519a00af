/**
 Host-name patterns of known_hosts entries: the iterative matcher with one
 backtrack point, the recursive matcher of ssh_config(5) section PATTERNS, and
 exactly when the two agree.
 */
module Wildcard {
  import opened Common

  type Byte = b: int | 0 <= b < 256

  const STAR: Byte := 42
  const QUESTION: Byte := 63

  /** ASCII lower case; every other byte is unchanged. */
  function Lower(b: Byte): (r: Byte) {
    if 65 <= b <= 90 then b + 32 else b
  }

  /** The pattern byte consumes exactly this value byte. */
  predicate Accepts(p: Byte, v: Byte) {
    p == QUESTION || Lower(p) == Lower(v)
  }

  /** The pattern language: `*` is any run, `?` is one byte, ASCII case is ignored. */
  predicate Match(p: seq<Byte>, v: seq<Byte>)
    decreases |p| + |v|
  {
    if p == [] then
      v == []
    else if p[0] == STAR then
      Match(p[1..], v) || (v != [] && Match(p, v[1..]))
    else
      v != [] && Accepts(p[0], v[0]) && Match(p[1..], v[1..])
  }

  predicate AllStars(p: seq<Byte>) {
    p == [] || (p[0] == STAR && AllStars(p[1..]))
  }

  lemma {:induction false} AllStarsDrop(p: seq<Byte>, k: nat)
    requires k <= |p|
    ensures AllStars(p) ==> AllStars(p[k..])
    decreases k
  {
    if k == 0 {
      assert p[0..] == p;
    } else if p[0] == STAR {
      AllStarsDrop(p[1..], k - 1);
      assert p[1..][k - 1..] == p[k..];
    }
  }

  /**
   What the loop decides on every input. It tests literal equality before it
   tests `*`, so a `*` in the pattern facing a `*` in the value is consumed as a
   literal and never becomes a backtrack point.
   */
  predicate LiteralFirst(p: seq<Byte>, v: seq<Byte>)
    decreases |p|, |v|
  {
    if v == [] then
      AllStars(p)
    else if p == [] then
      false
    else if Accepts(p[0], v[0]) then
      LiteralFirst(p[1..], v[1..])
    else
      p[0] == STAR && AfterStar(p[1..], v)
  }

  /** Some suffix of the value matches what follows an opened `*`. */
  predicate AfterStar(p: seq<Byte>, v: seq<Byte>)
    decreases |p|, |v| + 1
  {
    LiteralFirst(p, v) || (v != [] && AfterStar(p, v[1..]))
  }

  /** The first `n` bytes of the pattern consume the first `n` bytes of the value one by one. */
  predicate Aligned(p: seq<Byte>, v: seq<Byte>, n: nat) {
    && n <= |p| && n <= |v|
    && forall t :: 0 <= t < n ==> Accepts(p[t], v[t])
  }

  lemma {:induction false} AlignedStep(p: seq<Byte>, v: seq<Byte>, n: nat)
    requires Aligned(p, v, n)
    ensures LiteralFirst(p, v) == LiteralFirst(p[n..], v[n..])
    decreases n
  {
    if n > 0 {
      assert Aligned(p[1..], v[1..], n - 1);
      AlignedStep(p[1..], v[1..], n - 1);
      assert p[1..][n - 1..] == p[n..];
      assert v[1..][n - 1..] == v[n..];
    } else {
      assert p[0..] == p && v[0..] == v;
    }
  }

  lemma {:induction false} AfterStarWitness(p: seq<Byte>, v: seq<Byte>) returns (k: nat)
    requires AfterStar(p, v)
    ensures k <= |v| && LiteralFirst(p, v[k..])
    decreases |v|
  {
    if LiteralFirst(p, v) {
      k := 0;
      assert v[0..] == v;
    } else {
      k := AfterStarWitness(p, v[1..]);
      assert v[1..][k..] == v[k + 1..];
      k := k + 1;
    }
  }

  lemma {:induction false} AfterStarFrom(p: seq<Byte>, v: seq<Byte>, k: nat)
    requires k <= |v| && LiteralFirst(p, v[k..])
    ensures AfterStar(p, v)
    decreases k
  {
    if k == 0 {
      assert v[0..] == v;
    } else {
      assert v[1..][k - 1..] == v[k..];
      AfterStarFrom(p, v[1..], k - 1);
    }
  }

  /**
   Once the value is used up one byte per pattern byte and a non-star pattern
   byte is left over, giving the opened star a longer run cannot help: a later
   start would have to cross the failed alignment.
   */
  lemma {:induction false} LeftoverFails(p: seq<Byte>, v: seq<Byte>, t: nat, k: nat)
    requires Aligned(p, v, |v|) && !AllStars(p[|v|..])
    requires t <= k <= |v|
    ensures !LiteralFirst(p[t..], v[k..])
    decreases |p| - t, |v| - k
  {
    if k == |v| {
      AllStarsDrop(p[t..], |v| - t);
      assert p[t..][|v| - t..] == p[|v|..];
    } else if Accepts(p[t], v[k]) {
      LeftoverFails(p, v, t + 1, k + 1);
      assert p[t..][1..] == p[t + 1..] && v[k..][1..] == v[k + 1..];
    } else {
      assert p[t..][1..] == p[t + 1..];
      if LiteralFirst(p[t..], v[k..]) {
        var j := AfterStarWitness(p[t + 1..], v[k..]);
        assert v[k..][j..] == v[k + j..];
        LeftoverFails(p, v, t + 1, k + j);
        assert false;
      }
    }
  }

  /**
   When an aligned scan meets a second star that faces no literal `*`, every
   later start of the first star is covered by that second star.
   */
  lemma {:induction false} SecondStarCovers(p: seq<Byte>, v: seq<Byte>, a: nat, t: nat, k: nat)
    requires a < |p| && Aligned(p, v, a) && p[a] == STAR
    requires t <= a && t <= k <= |v|
    requires LiteralFirst(p[t..], v[k..])
    ensures AfterStar(p[a + 1..], v[a..])
    decreases |p| - t, |v| - k
  {
    assert p[t..][1..] == p[t + 1..];
    if k == |v| {
      AllStarsDrop(p[t..], a + 1 - t);
      assert p[t..][a + 1 - t..] == p[a + 1..];
      AfterStarFrom(p[a + 1..], v[a..], |v| - a);
    } else if Accepts(p[t], v[k]) {
      assert v[k..][1..] == v[k + 1..];
      if t == a {
        assert v[a..][k + 1 - a..] == v[k + 1..];
        AfterStarFrom(p[a + 1..], v[a..], k + 1 - a);
      } else {
        SecondStarCovers(p, v, a, t + 1, k + 1);
      }
    } else {
      var j := AfterStarWitness(p[t + 1..], v[k..]);
      assert v[k..][j..] == v[k + j..];
      if t == a {
        assert v[a..][k + j - a..] == v[k + j..];
        AfterStarFrom(p[a + 1..], v[a..], k + j - a);
      } else {
        SecondStarCovers(p, v, a, t + 1, k + j);
      }
    }
  }

  /** The run of the first star may be replaced by the run of the second. */
  lemma OpenSecondStar(p: seq<Byte>, v: seq<Byte>, a: nat)
    requires a < |p| && a < |v| && Aligned(p, v, a)
    requires p[a] == STAR && !Accepts(p[a], v[a])
    ensures AfterStar(p, v) == AfterStar(p[a + 1..], v[a..])
  {
    AlignedStep(p, v, a);
    assert p[a..][1..] == p[a + 1..];
    if AfterStar(p, v) {
      var k := AfterStarWitness(p, v);
      assert p[0..] == p;
      SecondStarCovers(p, v, a, 0, k);
    }
  }

  /** At the end of the value only the current alignment counts. */
  lemma EndOfValue(p: seq<Byte>, v: seq<Byte>)
    requires Aligned(p, v, |v|)
    ensures AfterStar(p, v) == AllStars(p[|v|..])
  {
    AlignedStep(p, v, |v|);
    assert v[|v|..] == [];
    if AfterStar(p, v) && !AllStars(p[|v|..]) {
      var k := AfterStarWitness(p, v);
      assert p[0..] == p;
      LeftoverFails(p, v, 0, k);
      assert false;
    }
  }

  /**
   What the loop knows between rounds: with no star opened, the rest of the
   pattern faces the rest of the value; with one opened, everything since it is
   aligned and the answer is whether some run of that star works.
   */
  ghost predicate Tracks(pattern: seq<Byte>, value: seq<Byte>, p: nat, v: nat, star: Option<nat>, resume: nat) {
    && p <= |pattern| && v <= |value|
    && match star
       case None =>
         LiteralFirst(pattern, value) == LiteralFirst(pattern[p..], value[v..])
       case Some(s) =>
         && s < p && resume <= v && p - (s + 1) == v - resume
         && Aligned(pattern[s + 1..], value[resume..], v - resume)
         && LiteralFirst(pattern, value) == AfterStar(pattern[s + 1..], value[resume..])
  }

  lemma AcceptStep(pattern: seq<Byte>, value: seq<Byte>, p: nat, v: nat, star: Option<nat>, resume: nat)
    requires Tracks(pattern, value, p, v, star, resume)
    requires p < |pattern| && v < |value| && Accepts(pattern[p], value[v])
    ensures Tracks(pattern, value, p + 1, v + 1, star, resume)
  {
    assert pattern[p..][1..] == pattern[p + 1..] && value[v..][1..] == value[v + 1..];
  }

  lemma OpenStep(pattern: seq<Byte>, value: seq<Byte>, p: nat, v: nat, star: Option<nat>, resume: nat)
    requires Tracks(pattern, value, p, v, star, resume)
    requires p < |pattern| && v < |value| && !Accepts(pattern[p], value[v]) && pattern[p] == STAR
    ensures Tracks(pattern, value, p + 1, v, Some(p), v)
  {
    assert pattern[p..][1..] == pattern[p + 1..];
    match star {
      case None =>
      case Some(s) =>
        var tail, rest := pattern[s + 1..], value[resume..];
        OpenSecondStar(tail, rest, v - resume);
        assert tail[v - resume + 1..] == pattern[p + 1..];
        assert rest[v - resume..] == value[v..];
    }
  }

  lemma MismatchStep(pattern: seq<Byte>, value: seq<Byte>, p: nat, v: nat, star: Option<nat>, resume: nat)
    requires Tracks(pattern, value, p, v, star, resume) && v < |value|
    requires p < |pattern| ==> !Accepts(pattern[p], value[v]) && pattern[p] != STAR
    ensures match star
            case None => !LiteralFirst(pattern, value)
            case Some(s) => Tracks(pattern, value, s + 1, resume + 1, star, resume + 1)
  {
    match star {
      case None =>
      case Some(s) =>
        var tail, rest := pattern[s + 1..], value[resume..];
        AlignedStep(tail, rest, v - resume);
        assert tail[v - resume..] == pattern[p..] && rest[v - resume..] == value[v..];
        assert rest[1..] == value[resume + 1..];
    }
  }

  lemma RestOfRest(x: seq<Byte>, a: nat, b: nat)
    requires a + b <= |x|
    ensures x[a..][b..] == x[a + b..]
  {
  }

  lemma FinalStep(pattern: seq<Byte>, value: seq<Byte>, p: nat, star: Option<nat>, resume: nat)
    requires Tracks(pattern, value, p, |value|, star, resume)
    ensures LiteralFirst(pattern, value) == AllStars(pattern[p..])
  {
    match star {
      case None => assert value[|value|..] == [];
      case Some(s) =>
        var rest := value[resume..];
        RestOfRest(pattern, s + 1, |rest|);
        EndOfValue(pattern[s + 1..], rest);
    }
  }

  /** The greedy loop with one backtrack point. */
  method Wildcard(pattern: seq<Byte>, value: seq<Byte>) returns (matched: bool)
    ensures matched == LiteralFirst(pattern, value)
    ensures STAR !in value ==> matched == Match(pattern, value)
    ensures matched ==> Match(pattern, value)
  {
    LiteralFirstIsSound(pattern, value);
    if STAR !in value {
      AgreeWithoutStar(pattern, value);
    }
    var p: nat, v: nat, star: Option<nat>, resume: nat := 0, 0, None, 0;
    assert pattern[0..] == pattern && value[0..] == value;
    while v < |value|
      invariant p <= |pattern| && v <= |value|
      invariant star.Some? ==> star.value < |pattern| && resume <= |value|
      invariant Tracks(pattern, value, p, v, star, resume)
      decreases if star.None? then 1 else 0,
                if star.None? then 0 else |pattern| - star.value,
                if star.None? then 0 else |value| - resume,
                |value| - v
    {
      if p < |pattern| && (pattern[p] == QUESTION || Lower(pattern[p]) == Lower(value[v])) {
        AcceptStep(pattern, value, p, v, star, resume);
        p := p + 1;
        v := v + 1;
      } else if p < |pattern| && pattern[p] == STAR {
        OpenStep(pattern, value, p, v, star, resume);
        star := Some(p);
        p := p + 1;
        resume := v;
      } else if star.Some? {
        MismatchStep(pattern, value, p, v, star, resume);
        resume := resume + 1;
        v := resume;
        p := star.value + 1;
      } else {
        MismatchStep(pattern, value, p, v, star, resume);
        return false;
      }
    }
    FinalStep(pattern, value, p, star, resume);
    ghost var rest := pattern[p..];
    while p < |pattern| && pattern[p] == STAR
      invariant p <= |pattern| && AllStars(rest) == AllStars(pattern[p..])
    {
      assert pattern[p..][1..] == pattern[p + 1..];
      p := p + 1;
    }
    return p == |pattern|;
  }

  lemma {:induction false} MatchAllStars(p: seq<Byte>)
    ensures Match(p, []) == AllStars(p)
  {
    if p != [] {
      MatchAllStars(p[1..]);
    }
  }

  lemma {:induction false} StarTakes(p: seq<Byte>, v: seq<Byte>, k: nat)
    requires p != [] && p[0] == STAR && k <= |v| && Match(p[1..], v[k..])
    ensures Match(p, v)
    decreases k
  {
    if k == 0 {
      assert v[0..] == v;
    } else {
      assert v[1..][k - 1..] == v[k..];
      StarTakes(p, v[1..], k - 1);
    }
  }

  /** On every input the loop accepts only what the pattern language accepts. */
  lemma {:induction false} LiteralFirstIsSound(p: seq<Byte>, v: seq<Byte>)
    ensures LiteralFirst(p, v) ==> Match(p, v)
    decreases |p|
  {
    if LiteralFirst(p, v) {
      if v == [] {
        MatchAllStars(p);
      } else if Accepts(p[0], v[0]) {
        LiteralFirstIsSound(p[1..], v[1..]);
        if p[0] == STAR {
          StarTakes(p, v, 1);
        }
      } else {
        var k := AfterStarWitness(p[1..], v);
        LiteralFirstIsSound(p[1..], v[k..]);
        StarTakes(p, v, k);
      }
    }
  }

  lemma {:induction false} AgreeWithoutStar(p: seq<Byte>, v: seq<Byte>)
    requires STAR !in v
    ensures LiteralFirst(p, v) == Match(p, v)
    decreases |p| + |v|
  {
    if v == [] {
      MatchAllStars(p);
    } else if p != [] {
      assert STAR !in v[1..];
      AgreeWithoutStar(p[1..], v);
      AgreeWithoutStar(p[1..], v[1..]);
      AgreeWithoutStar(p, v[1..]);
      if p[0] == STAR {
        assert !Accepts(p[0], v[0]) by { assert v[0] in v; }
        if v[1..] == [] {
          MatchAllStars(p);
          assert AfterStar(p[1..], v[1..]) == AllStars(p[1..]);
        } else {
          assert v[1] in v;
        }
      }
    }
  }

  function Questions(n: nat): (p: seq<Byte>)
    ensures |p| == n && forall i :: 0 <= i < n ==> p[i] == QUESTION
  {
    seq(n, i => QUESTION)
  }

  lemma {:induction false} MatchQuestions(v: seq<Byte>)
    ensures Match(Questions(|v|), v)
  {
    if v != [] {
      MatchQuestions(v[1..]);
      assert Questions(|v|)[1..] == Questions(|v| - 1);
    }
  }

  lemma {:induction false} MatchPrefix(u: seq<Byte>, p: seq<Byte>, v: seq<Byte>)
    requires STAR !in u && Match(p, v)
    ensures Match(u + p, u + v)
  {
    if u == [] {
      assert u + p == p && u + v == v;
    } else {
      MatchPrefix(u[1..], p, v);
      assert (u + p)[1..] == u[1..] + p && (u + v)[1..] == u[1..] + v;
      assert u[0] in u;
    }
  }

  lemma {:induction false} FirstStar(v: seq<Byte>) returns (i: nat)
    requires STAR in v
    ensures i < |v| && v[i] == STAR && STAR !in v[..i]
  {
    if v[0] == STAR {
      i := 0;
    } else {
      i := FirstStar(v[1..]);
      assert v[..i + 1] == [v[0]] + v[1..][..i];
      i := i + 1;
    }
  }

  /** A value holding `*` has a pattern it fits that the loop refuses, such as `*?` on `*`. */
  lemma StarRefused(v: seq<Byte>) returns (p: seq<Byte>)
    requires STAR in v
    ensures Match(p, v) && !LiteralFirst(p, v)
  {
    var i := FirstStar(v);
    var n := |v| - i;
    p := v[..i] + ([STAR] + Questions(n));
    assert Match([STAR] + Questions(n), v[i..]) by {
      MatchQuestions(v[i..]);
      assert ([STAR] + Questions(n))[1..] == Questions(n);
    }
    MatchPrefix(v[..i], [STAR] + Questions(n), v[i..]);
    assert v[..i] + v[i..] == v;
    assert Aligned(p, v, |v|);
    AlignedStep(p, v, |v|);
    assert p[|v|..][0] == QUESTION;
  }

  /**
   The loop decides the pattern language for every pattern exactly when the
   value holds no `*`. Host strings never hold one.
   */
  lemma AgreesExactlyWithoutStar(v: seq<Byte>)
    ensures (forall p :: LiteralFirst(p, v) == Match(p, v)) <==> STAR !in v
  {
    if STAR in v {
      var p := StarRefused(v);
      assert LiteralFirst(p, v) != Match(p, v);
    } else {
      forall p ensures LiteralFirst(p, v) == Match(p, v) {
        AgreeWithoutStar(p, v);
      }
    }
  }
}
