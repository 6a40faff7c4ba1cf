/**
 * RVO_1_WithAccel.calculateVelocity: the sampling planner that keeps the
 * current velocity unless a candidate sampled around it has a strictly
 * smaller penalty. A candidate is the current velocity plus
 * magnitude * (cos angle, sin angle), for every sampled angle and, within
 * each angle, every sampled magnitude; candidates faster than the maximum
 * speed are skipped. The penalty is SAFETY_FACTOR / timeToCollision plus,
 * unless the collision flag is set, the distance to the preferred velocity.
 *
 * RVOBase, which computes the objects around the agent, the candidate
 * angles and magnitudes and the time to collision, is not part of this
 * model: the objects enter only through their number, the candidates as
 * sequences, and getMinTimeToCollision as a function of the candidate and
 * the collision flag that returns the time and the flag it leaves behind.
 */
module Sampling {
  import opened Wrappers
  import opened Geometry

  /** A time to collision: finite, or unbounded when no collision is predicted. */
  datatype Time = Finite(t: real) | Unbounded

  /** getMinTimeToCollision: the time, and the value it leaves in the collision field. */
  datatype Contact = Contact(time: Time, collision: bool)

  /** A penalty: a real, or +Infinity (the quotient of a positive factor by a zero time). */
  datatype Penalty = Score(value: real) | Infinite

  /** The strict comparison penalty < minPenalty. */
  predicate Less(a: Penalty, b: Penalty)
  {
    a.Score? && (b.Infinite? || a.value < b.value)
  }

  /** SAFETY_FACTOR / tc, for a positive safety factor. */
  function Quotient(safety: real, tc: Time): Penalty
  {
    match tc
    case Unbounded => Score(0.0)
    case Finite(t) => if t == 0.0 then Infinite else Score(safety / t)
  }

  function AddDeviation(p: Penalty, d: real): Penalty
  {
    match p
    case Score(v) => Score(v + d)
    case Infinite => Infinite
  }

  /** vCand for one angle and one magnitude. */
  function Candidate(n: Numerics, current: Vec, angle: real, magnitude: real): Vec
  {
    Vec(current.x + magnitude * n.cos(angle), current.y + magnitude * n.sin(angle))
  }

  /** The candidates of one angle, in magnitude order. */
  function Row(n: Numerics, current: Vec, angle: real, magnitudes: seq<real>): (r: seq<Vec>)
    ensures |r| == |magnitudes|
  {
    seq(|magnitudes|, j requires 0 <= j < |magnitudes| => Candidate(n, current, angle, magnitudes[j]))
  }

  /** All candidates, angle-major and magnitude-minor: the order of the nested loops. */
  function Candidates(n: Numerics, current: Vec, angles: seq<real>, magnitudes: seq<real>): (r: seq<Vec>)
    ensures |r| == |angles| * |magnitudes|
  {
    if angles == [] then []
    else
      Candidates(n, current, angles[..|angles| - 1], magnitudes)
      + Row(n, current, angles[|angles| - 1], magnitudes)
  }

  /** Candidate a * |magnitudes| + m is that of angle a and magnitude m. */
  lemma {:induction false} CandidatesOrder(n: Numerics, current: Vec, angles: seq<real>, magnitudes: seq<real>, a: nat, m: nat)
    requires a < |angles| && m < |magnitudes|
    ensures a * |magnitudes| + m < |Candidates(n, current, angles, magnitudes)|
    ensures Candidates(n, current, angles, magnitudes)[a * |magnitudes| + m] == Candidate(n, current, angles[a], magnitudes[m])
  {
    var init := angles[..|angles| - 1];
    var k := |magnitudes|;
    assert |Candidates(n, current, init, magnitudes)| == (|angles| - 1) * k;
    if a < |angles| - 1 {
      CandidatesOrder(n, current, init, magnitudes, a, m);
      MulMonotonicNat(a + 1, |angles|, k);
    } else {
      assert a * k + m == (|angles| - 1) * k + m;
    }
  }

  lemma MulMonotonicNat(a: nat, b: nat, k: nat)
    requires a <= b
    ensures a * k <= b * k
  {
  }

  // ------------------------------------------------------------------ search

  /**
   * The loop state: the collision field, minPenalty, selectedVelocity, and
   * which candidate was selected (None for the current velocity).
   */
  datatype Search = Search(collision: bool, minPenalty: Penalty, selected: Vec, choice: Option<nat>)

  /** The penalty of an admitted candidate, given the collision flag left before it. */
  function CandidatePenalty(n: Numerics, safety: real, ttc: (Vec, bool) -> Contact, preferred: Vec, st: Search, v: Vec): Penalty
  {
    var deviation := if st.collision then 0.0 else Length(n, Sub(v, preferred));
    AddDeviation(Quotient(safety, ttc(v, st.collision).time), deviation)
  }

  /** Whether the candidate is looked at: |vCand| <= maxSpeed. */
  predicate Admitted(v: Vec, maxSpeed: real)
  {
    WithinLength(v, maxSpeed)
  }

  /** One pass of the inner loop body, for candidate number k. */
  function Evaluate(n: Numerics, safety: real, ttc: (Vec, bool) -> Contact, preferred: Vec, maxSpeed: real,
                    st: Search, k: nat, v: Vec): Search
  {
    if !Admitted(v, maxSpeed) then st
    else
      var p := CandidatePenalty(n, safety, ttc, preferred, st, v);
      var flag := ttc(v, st.collision).collision;
      if Less(p, st.minPenalty) then Search(flag, p, v, Some(k))
      else st.(collision := flag)
  }

  /** The candidates evaluated in order from a start state. */
  function Fold(n: Numerics, safety: real, ttc: (Vec, bool) -> Contact, preferred: Vec, maxSpeed: real,
                st: Search, cands: seq<Vec>): (r: Search)
    ensures r.choice == st.choice || (r.choice.Some? && r.choice.value < |cands|)
  {
    if cands == [] then st
    else
      var init := cands[..|cands| - 1];
      Evaluate(n, safety, ttc, preferred, maxSpeed, Fold(n, safety, ttc, preferred, maxSpeed, st, init),
               |init|, cands[|cands| - 1])
  }

  lemma FoldAppend(n: Numerics, safety: real, ttc: (Vec, bool) -> Contact, preferred: Vec, maxSpeed: real,
                   st: Search, cands: seq<Vec>, v: Vec)
    ensures Fold(n, safety, ttc, preferred, maxSpeed, st, cands + [v])
            == Evaluate(n, safety, ttc, preferred, maxSpeed, Fold(n, safety, ttc, preferred, maxSpeed, st, cands), |cands|, v)
  {
    assert (cands + [v])[..|cands|] == cands;
  }

  /** One more magnitude of the current angle is one more evaluation of the fold. */
  lemma FoldRowStep(n: Numerics, safety: real, ttc: (Vec, bool) -> Contact, preferred: Vec, maxSpeed: real,
                    st: Search, current: Vec, done: seq<Vec>, angle: real, magnitudes: seq<real>, m: nat)
    requires m < |magnitudes|
    ensures Fold(n, safety, ttc, preferred, maxSpeed, st, done + Row(n, current, angle, magnitudes[..m + 1]))
            == Evaluate(n, safety, ttc, preferred, maxSpeed,
                        Fold(n, safety, ttc, preferred, maxSpeed, st, done + Row(n, current, angle, magnitudes[..m])),
                        |done + Row(n, current, angle, magnitudes[..m])|, Candidate(n, current, angle, magnitudes[m]))
  {
    var v := Candidate(n, current, angle, magnitudes[m]);
    assert Row(n, current, angle, magnitudes[..m + 1]) == Row(n, current, angle, magnitudes[..m]) + [v];
    assert done + Row(n, current, angle, magnitudes[..m + 1]) == (done + Row(n, current, angle, magnitudes[..m])) + [v];
    FoldAppend(n, safety, ttc, preferred, maxSpeed, st, done + Row(n, current, angle, magnitudes[..m]), v);
  }

  /** The state after the check of the current velocity, before the sampling. */
  function Baseline(safety: real, ttc: (Vec, bool) -> Contact, current: Vec, collision: bool): (r: Search)
    ensures r.selected == current && r.choice.None?
  {
    var c := ttc(current, collision);
    var p := Quotient(safety, c.time);
    Search(c.collision, if Less(p, Score(DOUBLE_MAX)) then p else Score(DOUBLE_MAX), current, None)
  }

  /**
   * calculateVelocity: the baseline, then the candidates when there are
   * objects around. With no objects the result is the current velocity.
   */
  function Calculated(n: Numerics, safety: real, ttc: (Vec, bool) -> Contact, current: Vec, preferred: Vec, maxSpeed: real,
                      objectCount: nat, angles: seq<real>, magnitudes: seq<real>, collision: bool): (r: Search)
    ensures objectCount == 0 ==> r.selected == current
  {
    var st := Baseline(safety, ttc, current, collision);
    if objectCount > 0 then Fold(n, safety, ttc, preferred, maxSpeed, st, Candidates(n, current, angles, magnitudes))
    else st
  }

  // ----------------------------------------------------------------- lemmas

  /** The penalty candidate k was given, from the flag the earlier candidates left. */
  function PenaltyAt(n: Numerics, safety: real, ttc: (Vec, bool) -> Contact, preferred: Vec, maxSpeed: real,
                     st: Search, cands: seq<Vec>, k: nat): Penalty
    requires k < |cands|
  {
    CandidatePenalty(n, safety, ttc, preferred, Fold(n, safety, ttc, preferred, maxSpeed, st, cands[..k]), cands[k])
  }

  /**
   * The selection is the start's, or an admitted candidate: the one whose
   * index the state records.
   */
  lemma {:induction false} FoldSelects(n: Numerics, safety: real, ttc: (Vec, bool) -> Contact, preferred: Vec, maxSpeed: real,
                                       st: Search, cands: seq<Vec>)
    ensures var r := Fold(n, safety, ttc, preferred, maxSpeed, st, cands);
            (r.choice == st.choice && r.selected == st.selected && r.minPenalty == st.minPenalty)
            || (r.choice.Some? && r.choice.value < |cands| && r.selected == cands[r.choice.value]
                && Admitted(cands[r.choice.value], maxSpeed)
                && r.minPenalty == PenaltyAt(n, safety, ttc, preferred, maxSpeed, st, cands, r.choice.value))
  {
    if cands != [] {
      var init := cands[..|cands| - 1];
      FoldSelects(n, safety, ttc, preferred, maxSpeed, st, init);
      var r0 := Fold(n, safety, ttc, preferred, maxSpeed, st, init);
      if r0.choice.Some? && r0.choice.value < |init| {
        assert init[r0.choice.value] == cands[r0.choice.value];
        assert init[..r0.choice.value] == cands[..r0.choice.value];
      }
      assert cands[..|init|] == init;
    }
  }

  /**
   * minPenalty never exceeds the start's, nor the penalty of any admitted
   * candidate.
   */
  lemma {:induction false} FoldMinimal(n: Numerics, safety: real, ttc: (Vec, bool) -> Contact, preferred: Vec, maxSpeed: real,
                                       st: Search, cands: seq<Vec>)
    ensures var r := Fold(n, safety, ttc, preferred, maxSpeed, st, cands);
            !Less(st.minPenalty, r.minPenalty)
            && forall k :: 0 <= k < |cands| && Admitted(cands[k], maxSpeed) ==>
                 !Less(PenaltyAt(n, safety, ttc, preferred, maxSpeed, st, cands, k), r.minPenalty)
  {
    if cands != [] {
      var init := cands[..|cands| - 1];
      FoldMinimal(n, safety, ttc, preferred, maxSpeed, st, init);
      forall k | 0 <= k < |init|
        ensures PenaltyAt(n, safety, ttc, preferred, maxSpeed, st, cands, k) == PenaltyAt(n, safety, ttc, preferred, maxSpeed, st, init, k)
      {
        assert cands[..k] == init[..k];
      }
      assert cands[..|init|] == init;
    }
  }

  /**
   * Ties go to the earlier: the selected candidate is strictly better than
   * the start and than every admitted candidate before it; when the start's
   * selection survives, no admitted candidate was strictly better.
   */
  lemma {:induction false} FoldFirstWins(n: Numerics, safety: real, ttc: (Vec, bool) -> Contact, preferred: Vec, maxSpeed: real,
                                         st: Search, cands: seq<Vec>)
    requires st.choice.None?
    ensures var r := Fold(n, safety, ttc, preferred, maxSpeed, st, cands);
            (r.choice.None? ==> r.selected == st.selected
                                && forall k :: 0 <= k < |cands| && Admitted(cands[k], maxSpeed) ==>
                                     !Less(PenaltyAt(n, safety, ttc, preferred, maxSpeed, st, cands, k), st.minPenalty))
            && (r.choice.Some? ==> r.choice.value < |cands| && Less(r.minPenalty, st.minPenalty)
                                   && forall k :: 0 <= k < r.choice.value && Admitted(cands[k], maxSpeed) ==>
                                        Less(r.minPenalty, PenaltyAt(n, safety, ttc, preferred, maxSpeed, st, cands, k)))
  {
    if cands != [] {
      var init := cands[..|cands| - 1];
      var last := |cands| - 1;
      FoldFirstWins(n, safety, ttc, preferred, maxSpeed, st, init);
      FoldMinimal(n, safety, ttc, preferred, maxSpeed, st, init);
      FoldSelects(n, safety, ttc, preferred, maxSpeed, st, init);
      forall k | 0 <= k < |init|
        ensures PenaltyAt(n, safety, ttc, preferred, maxSpeed, st, cands, k) == PenaltyAt(n, safety, ttc, preferred, maxSpeed, st, init, k)
      {
        assert cands[..k] == init[..k];
      }
      assert cands[..last] == init;
    }
  }

  /**
   * The result is the current velocity or an admitted candidate:
   * current + m * (cos a, sin a) for sampled a and m, no faster than
   * maxSpeed. The baseline skips the speed check, so the result is no faster
   * than maxSpeed unless it is the current velocity.
   */
  lemma CalculatedSelects(n: Numerics, safety: real, ttc: (Vec, bool) -> Contact, current: Vec, preferred: Vec, maxSpeed: real,
                          objectCount: nat, angles: seq<real>, magnitudes: seq<real>, collision: bool)
    ensures var r := Calculated(n, safety, ttc, current, preferred, maxSpeed, objectCount, angles, magnitudes, collision);
            (r.choice.None? ==> r.selected == current)
            && (r.choice.Some? ==>
                  objectCount > 0 && r.choice.value < |angles| * |magnitudes|
                  && r.selected == Candidates(n, current, angles, magnitudes)[r.choice.value]
                  && Admitted(r.selected, maxSpeed))
            && (r.selected == current || WithinLength(r.selected, maxSpeed))
  {
    if objectCount > 0 {
      FoldSelects(n, safety, ttc, preferred, maxSpeed, Baseline(safety, ttc, current, collision), Candidates(n, current, angles, magnitudes));
    }
  }

  /**
   * The selected velocity's penalty is no larger than the baseline's and
   * than every admitted candidate's. It is strictly smaller than the
   * baseline's and than every earlier admitted candidate's when a candidate
   * is selected; when the current velocity stays, no candidate was strictly
   * better than it.
   */
  lemma CalculatedOptimal(n: Numerics, safety: real, ttc: (Vec, bool) -> Contact, current: Vec, preferred: Vec, maxSpeed: real,
                          objectCount: nat, angles: seq<real>, magnitudes: seq<real>, collision: bool)
    requires objectCount > 0
    ensures var st := Baseline(safety, ttc, current, collision);
            var cands := Candidates(n, current, angles, magnitudes);
            var r := Calculated(n, safety, ttc, current, preferred, maxSpeed, objectCount, angles, magnitudes, collision);
            !Less(Quotient(safety, ttc(current, collision).time), r.minPenalty)
            && (forall k :: 0 <= k < |cands| && Admitted(cands[k], maxSpeed) ==>
                  !Less(PenaltyAt(n, safety, ttc, preferred, maxSpeed, st, cands, k), r.minPenalty))
            && (r.choice.None? ==>
                  forall k :: 0 <= k < |cands| && Admitted(cands[k], maxSpeed) ==>
                    !Less(PenaltyAt(n, safety, ttc, preferred, maxSpeed, st, cands, k), st.minPenalty))
            && (r.choice.Some? ==>
                  r.choice.value < |cands| && Less(r.minPenalty, st.minPenalty)
                  && forall k :: 0 <= k < r.choice.value && Admitted(cands[k], maxSpeed) ==>
                       Less(r.minPenalty, PenaltyAt(n, safety, ttc, preferred, maxSpeed, st, cands, k)))
  {
    var st := Baseline(safety, ttc, current, collision);
    var cands := Candidates(n, current, angles, magnitudes);
    FoldMinimal(n, safety, ttc, preferred, maxSpeed, st, cands);
    FoldFirstWins(n, safety, ttc, preferred, maxSpeed, st, cands);
  }

  /** The planner's state: the collision flag RVOBase keeps between time-to-collision calls. */
  class RVO1WithAccel {
    var collision: bool

    constructor()
      ensures !collision
    {
      collision := false;
    }

    /**
     * calculateVelocity: the baseline check, then the nested angle and
     * magnitude loops when there are objects around.
     */
    method CalculateVelocity(n: Numerics, safety: real, ttc: (Vec, bool) -> Contact, current: Vec, preferred: Vec, maxSpeed: real,
                             objectCount: nat, angles: seq<real>, magnitudes: seq<real>)
      returns (selectedVelocity: Vec)
      modifies this
      ensures var r := Calculated(n, safety, ttc, current, preferred, maxSpeed, objectCount, angles, magnitudes, old(collision));
              selectedVelocity == r.selected && collision == r.collision
    {
      ghost var st0 := Baseline(safety, ttc, current, collision);
      var selected := current;
      var minPenalty := Score(DOUBLE_MAX);
      var contact := ttc(current, collision);
      collision := contact.collision;
      var penalty := Quotient(safety, contact.time);
      if Less(penalty, minPenalty) {
        minPenalty := penalty;
        selected := current;
      }
      ghost var choice: Option<nat> := None;
      assert Search(collision, minPenalty, selected, choice) == st0;
      if objectCount > 0 {
        var a := 0;
        while a < |angles|
          invariant a <= |angles|
          invariant Search(collision, minPenalty, selected, choice)
                    == Fold(n, safety, ttc, preferred, maxSpeed, st0, Candidates(n, current, angles[..a], magnitudes))
        {
          var angle := angles[a];
          ghost var done := Candidates(n, current, angles[..a], magnitudes);
          var m := 0;
          assert done + Row(n, current, angle, magnitudes[..m]) == done;
          while m < |magnitudes|
            invariant m <= |magnitudes|
            invariant Search(collision, minPenalty, selected, choice)
                      == Fold(n, safety, ttc, preferred, maxSpeed, st0, done + Row(n, current, angle, magnitudes[..m]))
          {
            ghost var before := Search(collision, minPenalty, selected, choice);
            ghost var sofar := done + Row(n, current, angle, magnitudes[..m]);
            var vCand := Candidate(n, current, angle, magnitudes[m]);
            FoldRowStep(n, safety, ttc, preferred, maxSpeed, st0, current, done, angle, magnitudes, m);
            if !Admitted(vCand, maxSpeed) {
              m := m + 1;
              continue;
            }
            var distanceOfVels := 0.0;
            if collision {
              distanceOfVels := 0.0;
            } else {
              distanceOfVels := Length(n, Sub(vCand, preferred));
            }
            contact := ttc(vCand, collision);
            collision := contact.collision;
            penalty := AddDeviation(Quotient(safety, contact.time), distanceOfVels);
            if Less(penalty, minPenalty) {
              minPenalty := penalty;
              selected := vCand;
              choice := Some(|sofar|);
            }
            assert Search(collision, minPenalty, selected, choice)
                   == Evaluate(n, safety, ttc, preferred, maxSpeed, before, |sofar|, vCand);
            m := m + 1;
          }
          assert magnitudes[..m] == magnitudes;
          assert angles[..a + 1][..a] == angles[..a];
          a := a + 1;
        }
        assert angles[..a] == angles;
      }
      selectedVelocity := selected;
    }
  }
}
