/** The byte budget of a backup generation (scripts/admin_target_external_backup.py). */
module TransferBudget {
  const KIB: nat := 1024
  const PROGRESS_INTERVAL: nat := 256 * KIB * KIB
  const MIN_LIMIT: nat := KIB * KIB * KIB
  const MAX_LIMIT: nat := KIB * KIB * KIB * KIB * KIB

  /** `CallbackFailed`: the bytes were accepted, but the progress callback raised. */
  datatype Verdict = Accepted | Refused | CallbackFailed

  predicate LimitsOk(limit: int, percent: int, initial: int) {
    MIN_LIMIT <= limit <= MAX_LIMIT && 50 <= percent <= 99 && 0 <= initial <= limit
  }

  class Budget {
    const limit: nat
    const percent: nat
    const initial: nat
    var total: nat
    var warned: bool
    var lastReported: nat
    ghost var alerts: nat

    predicate Reached(bytes: nat) {
      bytes * 100 >= limit * percent
    }

    /** The warning is latched exactly while the threshold is reached, and printed at most once: not
        at all when the generation starts above it. */
    ghost predicate Valid()
      reads this
    {
      && LimitsOk(limit, percent, initial)
      && initial <= total <= limit
      && (warned <==> Reached(total))
      && lastReported <= total
      && total - lastReported < PROGRESS_INTERVAL
      && alerts == (if warned && !Reached(initial) then 1 else 0)
    }

    constructor (limit: nat, percent: nat, initial: nat)
      requires LimitsOk(limit, percent, initial)
      ensures Valid() && fresh(this)
      ensures this.limit == limit && this.percent == percent && this.initial == initial == total
    {
      this.limit, this.percent, this.initial := limit, percent, initial;
      total, lastReported, alerts := initial, initial, 0;
      warned := initial * 100 >= limit * percent;
    }

    /** A refused block changes nothing; an accepted one is counted, whatever the callback does. */
    method Accept(size: int, callbackFails: bool) returns (verdict: Verdict)
      requires Valid()
      modifies this
      ensures Valid()
      ensures verdict == Refused <==> size < 0 || old(total) + size > limit
      ensures verdict == Refused ==> unchanged(this)
      ensures verdict != Refused ==> total == old(total) + size
      ensures !callbackFails ==> verdict != CallbackFailed
      ensures alerts == old(alerts) + (if !old(warned) && warned then 1 else 0)
      ensures !old(warned) && warned ==> lastReported == total
    {
      if size < 0 || total + size > limit {
        return Refused;
      }
      total := total + size;
      var warnedNow := false;
      if !warned && Reached(total) {
        warned, warnedNow, alerts := true, true, alerts + 1;
      }
      if warnedNow || total - lastReported >= PROGRESS_INTERVAL {
        var told := Report(callbackFails);
        if !told {
          return CallbackFailed;
        }
      }
      return Accepted;
    }

    method Report(callbackFails: bool) returns (told: bool)
      modifies this`lastReported
      ensures lastReported == total && told == !callbackFails
    {
      lastReported := total;
      told := !callbackFails;
    }
  }
}
