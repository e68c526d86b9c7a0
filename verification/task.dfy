/** OmniTask: several drivers, served in turn until one yields a batch. */
module Task {
  import opened SqlValues
  import opened Pipeline
  import opened Driver

  class OmniTask<S(!new), B(!new)> {
    const drivers: seq<OmniDriver<S, B>>

    constructor (drivers: seq<OmniDriver<S, B>>)
      requires forall i, j | 0 <= i < j < |drivers| :: drivers[i] != drivers[j]
      requires forall i | 0 <= i < |drivers| :: drivers[i].Valid()
      ensures this.drivers == drivers && Valid()
    {
      this.drivers := drivers;
    }

    ghost predicate Valid()
      reads drivers
    {
      && (forall i, j | 0 <= i < j < |drivers| :: drivers[i] != drivers[j])
      && (forall i | 0 <= i < |drivers| :: drivers[i].Valid())
    }

    /** The next batch of any driver. Drivers are asked in order, finished ones are skipped. A round in which no driver
        was held up is followed by a batch or by the end; the caller allows `rounds` rounds. */
    method Next(rounds: nat) returns (result: Option<B>, ghost from: nat, heldUp: bool)
      requires Valid()
      modifies drivers
      ensures Valid()
      ensures result.Some? ==> from < |drivers|
      ensures forall i | 0 <= i < |drivers| ::
        drivers[i].delivered == old(drivers[i].delivered) + if result.Some? && i == from then [result.value] else []
      ensures result.None? && !heldUp && 2 <= rounds ==> forall i | 0 <= i < |drivers| :: drivers[i].finished
      ensures forall i | 0 <= i < |drivers| && old(drivers[i].finished) ::
        drivers[i].finished && !(result.Some? && i == from)
    {
      hide OmniDriver.Valid, OmniDriver.Whole;
      from := 0;
      heldUp := false;
      var round := 0;
      while round < rounds
        invariant round <= rounds && Valid() && forall i | 0 <= i < |drivers| ::
          drivers[i].delivered == old(drivers[i].delivered)
        invariant !heldUp && 1 <= round ==> forall i | 0 <= i < |drivers| :: drivers[i].finished
        invariant forall i | 0 <= i < |drivers| && old(drivers[i].finished) :: drivers[i].finished
      {
        var runnableDrivers := 0;
        for i := 0 to |drivers|
          invariant Valid() && forall k | 0 <= k < |drivers| :: drivers[k].delivered == old(drivers[k].delivered)
          invariant !heldUp ==> forall k | 0 <= k < i :: drivers[k].finished
          invariant runnableDrivers == 0 ==> forall k | 0 <= k < i :: drivers[k].finished
          invariant forall k | 0 <= k < |drivers| && old(drivers[k].finished) :: drivers[k].finished
        {
          if drivers[i].finished {
            continue;
          }
          runnableDrivers := runnableDrivers + 1;
          var batch, stopReason, blocked := drivers[i].Next();
          if batch.Some? {
            return batch, i, heldUp;
          }
          heldUp := heldUp || blocked || drivers[i].shouldStop;
        }
        if runnableDrivers == 0 {
          return None, 0, heldUp;
        }
        round := round + 1;
      }
      return None, 0, heldUp;
    }
  }
}
