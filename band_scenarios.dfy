/** The concrete scenarios of the repository's unit tests (band target 2.0, high 2.4,
    low 1.6), stated once on the value-level model and once through the object. */
module BandScenarios {
  import opened BandSpec
  import opened BandObject

  /** Construction and threshold updates that break low < target < high are refused,
      equality included. */
  lemma RejectedThresholds()
    ensures Init(2.0, 1.9, 1.6).Err? && Init(2.0, 2.0, 1.6).Err?
    ensures Init(2.0, 2.4, 2.1).Err? && Init(2.0, 2.4, 2.0).Err?
    ensures var b := Init(2.0, 2.4, 1.6).value;
            && UpdateHigh(b, 1.9).Err? && UpdateHigh(b, 2.0).Err?
            && UpdateLow(b, 2.1).Err? && UpdateLow(b, 2.0).Err?
  {
  }

  /** Above high sets SetFall and the fall flag. The consumer drains the flag;
      2.1 is inside the band but above the target, so SetFall sticks and the flag
      is raised again. After a second drain, 2.0 reaches the target and resets to
      Idle without raising any flag. */
  lemma SetResetHigh()
    ensures var b0 := Init(2.0, 2.4, 1.6).value;
            var b1 := Run(b0, 2.6);
            var b2 := Run(ClearFall(b1), 2.1);
            var b3 := Run(ClearFall(b2), 2.0);
            && b1.status == SetFall && b1.fallEvent
            && b2.status == SetFall && b2.fallEvent
            && b3.status == Idle && !b3.fallEvent && !b3.riseEvent
  {
  }

  /** The mirror image below the target, with the consumer draining the rise flag. */
  lemma SetResetLow()
    ensures var b0 := Init(2.0, 2.4, 1.6).value;
            var b1 := Run(b0, 1.5);
            var b2 := Run(ClearRise(b1), 1.7);
            var b3 := Run(ClearRise(b2), 2.1);
            && b1.status == SetRise && b1.riseEvent
            && b2.status == SetRise && b2.riseEvent
            && b3.status == Idle && !b3.fallEvent && !b3.riseEvent
  {
  }

  /** SetRise goes straight to SetFall without passing through Idle. */
  lemma RiseToFall()
    ensures var b := Init(2.0, 2.4, 1.6).value;
            && RunAll(b, [2.0], true).status == Idle
            && !RunAll(b, [2.0], true).fallEvent && !RunAll(b, [2.0], true).riseEvent
            && RunAll(b, [2.0, 1.5], true).status == SetRise
            && RunAll(b, [2.0, 1.5, 2.5], true).status == SetFall
            && RunAll(b, [2.0, 1.5, 2.5], true).fallEvent
  {
    var b := Init(2.0, 2.4, 1.6).value;
    assert [2.0, 1.5][..1] == [2.0];
    assert [2.0, 1.5, 2.5][..2] == [2.0, 1.5];
  }

  /** Widening high to 2.8 while SetFall at 2.6 recomputes silently and keeps
      SetFall, since 2.6 is still above the target. */
  lemma SilentReconfigurationKeepsFall()
    ensures var b := Run(Init(2.0, 2.4, 1.6).value, 2.6, true);
            && b.status == SetFall
            && UpdateHigh(b, 2.8).Ok?
            && UpdateHigh(b, 2.8).value.status == SetFall
            && UpdateHigh(b, 2.8).value.fallEvent
  {
  }

  /** A sample of 2.3 is inside the band; lowering high to 2.2 moves the band to
      SetFall without raising the fall flag. */
  lemma SilentReconfigurationRaisesNoFlag()
    ensures var b := Run(Init(2.0, 2.4, 1.6).value, 2.3, true);
            && b.status == Idle
            && UpdateHigh(b, 2.2).Ok?
            && UpdateHigh(b, 2.2).value.status == SetFall
            && !UpdateHigh(b, 2.2).value.fallEvent
  {
  }

  /** One wake-up of each consumer: a consumer whose flag is set clears it and
      counts one notification. */
  method ConsumersWake(sr: SRBand, fallCount: nat, riseCount: nat) returns (fallCount': nat, riseCount': nat)
    requires sr.Valid()
    modifies sr
    ensures sr.Valid()
    ensures fallCount' == fallCount + (if old(sr.fallEvent) then 1 else 0)
    ensures riseCount' == riseCount + (if old(sr.riseEvent) then 1 else 0)
    ensures sr.State() == old(sr.State()).(fallEvent := false, riseEvent := false)
  {
    fallCount', riseCount' := fallCount, riseCount;
    if sr.fallEvent {
      sr.ClearFallEvent();
      fallCount' := fallCount' + 1;
    }
    if sr.riseEvent {
      sr.ClearRiseEvent();
      riseCount' := riseCount' + 1;
    }
  }

  /** The rise-to-fall test driven through the object: after each sample the
      consumers wake, and the statuses and notification counts are recorded. */
  method RiseToFallOnObject() returns (statuses: seq<Status>, fallCounts: seq<nat>, riseCounts: seq<nat>)
    ensures statuses == [Idle, SetRise, SetFall]
    ensures fallCounts == [0, 0, 1]
    ensures riseCounts == [0, 1, 1]
  {
    var sr := new SRBand(2.0, 2.4, 1.6);
    var fallCount, riseCount := 0, 0;

    sr.Run(2.0);
    statuses := [sr.status];
    fallCount, riseCount := ConsumersWake(sr, fallCount, riseCount);
    fallCounts, riseCounts := [fallCount], [riseCount];

    sr.Run(1.5);
    statuses := statuses + [sr.status];
    fallCount, riseCount := ConsumersWake(sr, fallCount, riseCount);
    fallCounts, riseCounts := fallCounts + [fallCount], riseCounts + [riseCount];

    sr.Run(2.5);
    statuses := statuses + [sr.status];
    fallCount, riseCount := ConsumersWake(sr, fallCount, riseCount);
    fallCounts, riseCounts := fallCounts + [fallCount], riseCounts + [riseCount];
  }
}
