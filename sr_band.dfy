/** The band as the mutable object the source keeps: thresholds, the last sample,
    the status and the two notification flags are fields that the methods update
    in place. Each method is proved to take State() to the value that the matching
    function of BandSpec computes from the old State(). */
module BandObject {
  import opened BandSpec

  class SRBand {
    var target: real
    var high: real
    var low: real
    var value: Option<real>
    var status: Status
    /** The asyncio.Event objects, as the flags they hold. */
    var fallEvent: bool
    var riseEvent: bool

    /** The object invariant: low < target < high. */
    ghost predicate Valid()
      reads this
    {
      low < target < high
    }

    /** The abstract value of the object. */
    function State(): Band
      reads this
    {
      Band(Thresholds(target, high, low), value, status, fallEvent, riseEvent)
    }

    constructor (target: real, high: real, low: real)
      requires low < target < high
      ensures Valid()
      ensures Init(target, high, low) == Ok(State())
    {
      this.target := target;
      this.high := high;
      this.low := low;
      status := Idle;
      value := None;
      fallEvent := false;
      riseEvent := false;
    }

    /** __init__ with its check: null stands for the raised SRBandException. */
    static method Create(target: real, high: real, low: real) returns (band: SRBand?)
      ensures band == null <==> Init(target, high, low).Err?
      ensures band != null ==> fresh(band) && band.Valid() && Init(target, high, low) == Ok(band.State())
    {
      if !(low < target < high) {
        return null;
      }
      band := new SRBand(target, high, low);
    }

    /** run: store the sample, recompute the status in two steps, then raise the
        flag of the final status when triggerEvents holds. */
    method Run(newValue: real, triggerEvents: bool := true)
      requires Valid()
      modifies this
      ensures Valid()
      ensures State() == BandSpec.Run(old(State()), newValue, triggerEvents)
    {
      value := Some(newValue);

      if newValue > high {
        status := SetFall;
      } else if newValue < low {
        status := SetRise;
      }

      if status == SetFall && newValue <= target {
        status := Idle;
      } else if status == SetRise && newValue >= target {
        status := Idle;
      }

      if triggerEvents {
        if status == SetFall {
          fallEvent := true;
        } else if status == SetRise {
          riseEvent := true;
        }
      }
    }

    /** update_high: rejected (ok == false) with nothing changed, or applied followed
        by a silent recompute when the stored sample is truthy. */
    method UpdateHigh(newHigh: real) returns (ok: bool)
      requires Valid()
      modifies this
      ensures Valid()
      ensures ok <==> BandSpec.UpdateHigh(old(State()), newHigh).Ok?
      ensures ok ==> BandSpec.UpdateHigh(old(State()), newHigh) == Ok(State())
      ensures !ok ==> unchanged(this)
    {
      if !(low < target < newHigh) {
        return false;
      }
      high := newHigh;
      if Truthy(value) {
        Run(value.value, false);
      }
      return true;
    }

    /** update_low, with the same shape. */
    method UpdateLow(newLow: real) returns (ok: bool)
      requires Valid()
      modifies this
      ensures Valid()
      ensures ok <==> BandSpec.UpdateLow(old(State()), newLow).Ok?
      ensures ok ==> BandSpec.UpdateLow(old(State()), newLow) == Ok(State())
      ensures !ok ==> unchanged(this)
    {
      if !(newLow < target < high) {
        return false;
      }
      low := newLow;
      if Truthy(value) {
        Run(value.value, false);
      }
      return true;
    }

    /** update_target, with the same shape. */
    method UpdateTarget(newTarget: real) returns (ok: bool)
      requires Valid()
      modifies this
      ensures Valid()
      ensures ok <==> BandSpec.UpdateTarget(old(State()), newTarget).Ok?
      ensures ok ==> BandSpec.UpdateTarget(old(State()), newTarget) == Ok(State())
      ensures !ok ==> unchanged(this)
    {
      if !(low < newTarget < high) {
        return false;
      }
      target := newTarget;
      if Truthy(value) {
        Run(value.value, false);
      }
      return true;
    }

    /** A consumer's clear() of the fall event after waking on it. */
    method ClearFallEvent()
      requires Valid()
      modifies this
      ensures Valid()
      ensures State() == ClearFall(old(State()))
    {
      fallEvent := false;
    }

    /** A consumer's clear() of the rise event after waking on it. */
    method ClearRiseEvent()
      requires Valid()
      modifies this
      ensures Valid()
      ensures State() == ClearRise(old(State()))
    {
      riseEvent := false;
    }
  }
}
