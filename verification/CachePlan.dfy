/**
  Which queued tracks get their full file: the greedy pass over the queue within a budget.
 */
module CachePlan {
  import opened MediaNames

  const M4A_BYTES_PER_SEC := 16500
  const OPUS_BYTES_PER_SEC := 12500
  const LONG_TRACK_MS := 600000

  datatype PlanTrack = PlanTrack(id: string, sourceURL: string, durationMs: int, playing: bool)

  /** Integer division as Go does it, toward zero. */
  function TruncDiv(a: int, b: int): int
    requires b > 0
  {
    if a >= 0 then a / b else -((-a) / b)
  }

  function M4ABytes(durationMs: int): int {
    TruncDiv(durationMs, 1000) * M4A_BYTES_PER_SEC
  }

  function OpusBytes(durationMs: int): int {
    TruncDiv(durationMs, 1000) * OPUS_BYTES_PER_SEC
  }

  /** Uploads and short tracks have no full file of their own to plan. */
  predicate IsLong(t: PlanTrack) {
    !HasPrefix(t.sourceURL, UPLOAD_PREFIX) && t.durationMs >= LONG_TRACK_MS
  }

  datatype Pass = Pass(used: int, plan: map<string, bool>)

  function PlanOne(p: Pass, t: PlanTrack, budget: int): Pass {
    if !IsLong(t) then p.(used := p.used + OpusBytes(t.durationMs))
    else if p.used + M4ABytes(t.durationMs) <= budget then
      Pass(p.used + M4ABytes(t.durationMs), p.plan[t.id := true])
    else p.(plan := p.plan[t.id := false])
  }

  function PlanOf(tracks: seq<PlanTrack>, budget: int): Pass {
    if |tracks| == 0 then Pass(0, map[])
    else PlanOne(PlanOf(tracks[..|tracks| - 1], budget), tracks[|tracks| - 1], budget)
  }

  method PlanFull(tracks: seq<PlanTrack>, budgetMB: int) returns (plan: map<string, bool>)
    ensures plan == PlanOf(tracks, budgetMB * 1048576).plan
  {
    var budget := budgetMB * 1048576;
    var used := 0;
    plan := map[];
    var i := 0;
    while i < |tracks|
      invariant 0 <= i <= |tracks|
      invariant Pass(used, plan) == PlanOf(tracks[..i], budget)
    {
      var t := tracks[i];
      assert tracks[..i + 1][..i] == tracks[..i];
      if HasPrefix(t.sourceURL, UPLOAD_PREFIX) || t.durationMs < LONG_TRACK_MS {
        used := used + OpusBytes(t.durationMs);
      } else {
        var size := M4ABytes(t.durationMs);
        if used + size <= budget {
          used := used + size;
          plan := plan[t.id := true];
        } else {
          plan := plan[t.id := false];
        }
      }
      i := i + 1;
    }
    assert tracks[..i] == tracks;
  }

  predicate Wellformed(tracks: seq<PlanTrack>) {
    && (forall i :: 0 <= i < |tracks| ==> tracks[i].durationMs >= 0)
    && (forall i, j :: 0 <= i < j < |tracks| ==> tracks[i].id != tracks[j].id)
  }

  predicate Selected(plan: map<string, bool>, t: PlanTrack) {
    t.id in plan && plan[t.id]
  }

  /** The bytes of the full files the plan selects among the listed tracks. */
  function SelectedBytes(tracks: seq<PlanTrack>, plan: map<string, bool>): int {
    if |tracks| == 0 then 0
    else
      var t := tracks[|tracks| - 1];
      SelectedBytes(tracks[..|tracks| - 1], plan) + if Selected(plan, t) then M4ABytes(t.durationMs) else 0
  }

  /** The bytes the short and uploaded tracks are charged. */
  function ShortBytes(tracks: seq<PlanTrack>): int {
    if |tracks| == 0 then 0
    else
      var t := tracks[|tracks| - 1];
      ShortBytes(tracks[..|tracks| - 1]) + if IsLong(t) then 0 else OpusBytes(t.durationMs)
  }

  lemma {:induction false} PlanKeys(tracks: seq<PlanTrack>, budget: int)
    ensures forall id :: id in PlanOf(tracks, budget).plan <==>
              exists i :: 0 <= i < |tracks| && tracks[i].id == id && IsLong(tracks[i])
    decreases |tracks|
  {
    if |tracks| > 0 {
      var k := |tracks| - 1;
      PlanKeys(tracks[..k], budget);
      forall id ensures id in PlanOf(tracks, budget).plan <==>
                          exists i :: 0 <= i < |tracks| && tracks[i].id == id && IsLong(tracks[i])
      {
        if i :| 0 <= i < |tracks[..k]| && tracks[..k][i].id == id && IsLong(tracks[..k][i]) {
          assert tracks[i].id == id && IsLong(tracks[i]);
        }
        if i :| 0 <= i < |tracks| && tracks[i].id == id && IsLong(tracks[i]) {
          if i < k {
            assert tracks[..k][i].id == id && IsLong(tracks[..k][i]);
          }
        }
      }
    }
  }

  lemma NewIdIsUnplanned(tracks: seq<PlanTrack>, t: PlanTrack, budget: int)
    requires Wellformed(tracks + [t])
    ensures t.id !in PlanOf(tracks, budget).plan
    ensures forall i :: 0 <= i < |tracks| ==> tracks[i].id != t.id
  {
    PlanKeys(tracks, budget);
    var all := tracks + [t];
    assert all[|tracks|] == t;
    assert forall i :: 0 <= i < |tracks| ==> all[i] == tracks[i];
  }

  /** Appending a track never changes a decision already made. */
  lemma AppendingKeepsDecisions(tracks: seq<PlanTrack>, t: PlanTrack, budget: int)
    requires Wellformed(tracks + [t])
    ensures
      var before, after := PlanOf(tracks, budget).plan, PlanOf(tracks + [t], budget).plan;
      && (forall id :: id in before ==> id in after && after[id] == before[id])
      && after.Keys == before.Keys + if IsLong(t) then {t.id} else {}
  {
    assert (tracks + [t])[..|tracks|] == tracks;
    NewIdIsUnplanned(tracks, t, budget);
  }

  lemma {:induction false} SamePlanSameBytes(tracks: seq<PlanTrack>, p: map<string, bool>, q: map<string, bool>)
    requires forall i :: 0 <= i < |tracks| ==> Selected(p, tracks[i]) == Selected(q, tracks[i])
    ensures SelectedBytes(tracks, p) == SelectedBytes(tracks, q)
    decreases |tracks|
  {
    if |tracks| > 0 {
      SamePlanSameBytes(tracks[..|tracks| - 1], p, q);
    }
  }

  lemma AppendingKeepsBytes(tracks: seq<PlanTrack>, t: PlanTrack, budget: int)
    requires Wellformed(tracks + [t])
    ensures
      var before, after := PlanOf(tracks, budget).plan, PlanOf(tracks + [t], budget).plan;
      SelectedBytes(tracks, after) == SelectedBytes(tracks, before)
  {
    NewIdIsUnplanned(tracks, t, budget);
    assert (tracks + [t])[..|tracks|] == tracks;
    SamePlanSameBytes(tracks, PlanOf(tracks, budget).plan, PlanOf(tracks + [t], budget).plan);
  }

  /** What the pass has charged is exactly the short tracks plus the selected full files. */
  lemma {:induction false} ChargedExactly(tracks: seq<PlanTrack>, budget: int)
    requires Wellformed(tracks)
    ensures
      var pass := PlanOf(tracks, budget);
      && pass.used == ShortBytes(tracks) + SelectedBytes(tracks, pass.plan)
      && 0 <= ShortBytes(tracks) && 0 <= SelectedBytes(tracks, pass.plan)
      && (SelectedBytes(tracks, pass.plan) <= budget || SelectedBytes(tracks, pass.plan) == 0)
    decreases |tracks|
  {
    if |tracks| > 0 {
      var k := |tracks| - 1;
      assert tracks[..k] + [tracks[k]] == tracks;
      ChargedExactly(tracks[..k], budget);
      OneMoreCharge(tracks[..k], tracks[k], budget);
    }
  }

  /** Planning one more track adds its size to the short or the selected bytes, or refuses it. */
  lemma OneMoreCharge(tracks: seq<PlanTrack>, t: PlanTrack, budget: int)
    requires Wellformed(tracks + [t])
    ensures
      var before, after := PlanOf(tracks, budget), PlanOf(tracks + [t], budget);
      var short, full := OpusBytes(t.durationMs), M4ABytes(t.durationMs);
      var was := SelectedBytes(tracks, before.plan);
      && short >= 0 && full >= 0
      && (IsLong(t) ==> ShortBytes(tracks + [t]) == ShortBytes(tracks))
      && (!IsLong(t) ==>
            && ShortBytes(tracks + [t]) == ShortBytes(tracks) + short && after.used == before.used + short
            && SelectedBytes(tracks + [t], after.plan) == was)
      && (IsLong(t) && before.used + full <= budget ==>
            after.used == before.used + full && SelectedBytes(tracks + [t], after.plan) == was + full)
      && (IsLong(t) && before.used + full > budget ==>
            after.used == before.used && SelectedBytes(tracks + [t], after.plan) == was)
  {
    var all := tracks + [t];
    assert all[|tracks|] == t && all[..|tracks|] == tracks;
    NewIdIsUnplanned(tracks, t, budget);
    AppendingKeepsBytes(tracks, t, budget);
  }

  /** The full files selected never exceed the budget. */
  lemma PlanWithinBudget(tracks: seq<PlanTrack>, budgetMB: int)
    requires Wellformed(tracks) && budgetMB >= 0
    ensures SelectedBytes(tracks, PlanOf(tracks, budgetMB * 1048576).plan) <= budgetMB * 1048576
  {
    ChargedExactly(tracks, budgetMB * 1048576);
  }

  /** Greedy maximality: no refused track would have fitted on top of the final charge. */
  lemma {:induction false} RefusedWouldExceed(tracks: seq<PlanTrack>, budget: int, i: nat)
    requires Wellformed(tracks) && i < |tracks| && IsLong(tracks[i])
    ensures
      var pass := PlanOf(tracks, budget);
      && tracks[i].id in pass.plan
      && (!pass.plan[tracks[i].id] ==> pass.used + M4ABytes(tracks[i].durationMs) > budget)
    decreases |tracks|
  {
    var k := |tracks| - 1;
    var front, t := tracks[..k], tracks[k];
    if i < k {
      RefusedWouldExceed(front, budget, i);
      assert front + [t] == tracks;
      AppendingKeepsDecisions(front, t, budget);
    }
  }

  /**
    The estimates: a full file is charged 16500 and a short one 12500 bytes for each whole second,
    and a track of ten minutes or more counts as long unless it is an upload.
   */
  lemma EstimatesAreExact(t: PlanTrack)
    requires t.durationMs >= 0
    ensures 1000 * M4ABytes(t.durationMs) <= 16500 * t.durationMs < 1000 * (M4ABytes(t.durationMs) + 16500)
    ensures 1000 * OpusBytes(t.durationMs) <= 12500 * t.durationMs < 1000 * (OpusBytes(t.durationMs) + 12500)
    ensures M4ABytes(t.durationMs) % 16500 == 0 && OpusBytes(t.durationMs) % 12500 == 0
    ensures M4ABytes(-t.durationMs) == -M4ABytes(t.durationMs)
    ensures IsLong(t) <==> t.durationMs >= 10 * 60 * 1000 && !HasPrefix(t.sourceURL, "upload://")
  {
  }

  lemma AppendedDecision(tracks: seq<PlanTrack>, t: PlanTrack, budget: int)
    requires Wellformed(tracks + [t]) && IsLong(t)
    ensures
      var plan := PlanOf(tracks + [t], budget).plan;
      Selected(plan, t) <==> ShortBytes(tracks) + SelectedBytes(tracks, plan) + M4ABytes(t.durationMs) <= budget
  {
    var all := tracks + [t];
    assert all[..|tracks|] == tracks && all[|tracks|] == t;
    assert Wellformed(tracks) by {
      assert forall i :: 0 <= i < |tracks| ==> tracks[i] == all[i];
    }
    ChargedExactly(tracks, budget);
    AppendingKeepsBytes(tracks, t, budget);
  }

  lemma SameEarlierBytes(tracks: seq<PlanTrack>, t: PlanTrack, budget: int, n: nat)
    requires Wellformed(tracks + [t]) && n <= |tracks|
    ensures
      SelectedBytes(tracks[..n], PlanOf(tracks + [t], budget).plan) == SelectedBytes(tracks[..n], PlanOf(tracks, budget).plan)
  {
    NewIdIsUnplanned(tracks, t, budget);
    assert (tracks + [t])[..|tracks|] == tracks;
    SamePlanSameBytes(tracks[..n], PlanOf(tracks + [t], budget).plan, PlanOf(tracks, budget).plan);
  }

  /**
    The plan without the pass: a long track is selected exactly when it fits into the budget on top
    of the short tracks and the selected full files before it.
   */
  lemma {:induction false} SelectedIffFits(tracks: seq<PlanTrack>, budget: int, i: nat)
    requires Wellformed(tracks) && i < |tracks| && IsLong(tracks[i])
    ensures
      var plan := PlanOf(tracks, budget).plan;
      Selected(plan, tracks[i]) <==>
        ShortBytes(tracks[..i]) + SelectedBytes(tracks[..i], plan) + M4ABytes(tracks[i].durationMs) <= budget
    decreases |tracks|
  {
    var k := |tracks| - 1;
    var front, t := tracks[..k], tracks[k];
    assert front + [t] == tracks;
    if i == k {
      AppendedDecision(front, t, budget);
    } else {
      SelectedIffFits(front, budget, i);
      assert front[..i] == tracks[..i];
      SameEarlierBytes(front, t, budget, i);
      NewIdIsUnplanned(front, t, budget);
      assert tracks[i].id != t.id;
    }
  }
}
