/** The public watch document and its internal sidecar (backend/models/watch.py,
    backend/models/watch_runtime.py). Instants and durations are whole microseconds. */
module Watches {
  import opened Wrappers
  import ClaimText

  datatype Status = Active | Found | Booked | Expired | Cancelled {
    predicate IsTerminal() {
      this != Active
    }
  }

  datatype Slot = Slot(slotId: string, details: string)

  datatype Confirmation = Confirmation(bookingId: string, slot: Slot, createdAt: nat)

  datatype Watch = Watch(
    id: string,
    status: Status,
    autoBook: bool,
    createdAt: nat,
    updatedAt: nat,
    expiresAt: nat,
    attempts: nat,
    maxAttempts: nat,
    lastCheckedAt: Option<nat>,
    nextCheckAt: Option<nat>,
    foundSlots: seq<Slot>,
    booking: Option<Confirmation>,
    lastError: Option<string>)
  {
    /** The model validator, which model_copy never runs. */
    predicate ValidState() {
      && (status == Booked ==> booking.Some?)
      && (status == Found ==> foundSlots != [])
      && (status.IsTerminal() ==> nextCheckAt.None?)
      && attempts <= maxAttempts
    }

    predicate IsExhausted(now: nat) {
      attempts >= maxAttempts || now >= expiresAt
    }
  }

  datatype Phase = Polling | Booking

  datatype Runtime = Runtime(
    revision: nat,
    requiredAttempts: nat,
    supportsDeadline: bool,
    outages: nat,
    cadence: nat,
    window: Option<string>,
    scheduledFor: Option<nat>,
    phase: Option<Phase>,
    cancelRequested: bool,
    deleteAt: Option<nat>)

  /** The stable identity of one cadence window. */
  function WindowIdFor(id: string, cadence: nat): string {
    id + ":" + ClaimText.Print(cadence)
  }

  lemma WindowIdInjective(id: string, m: nat, n: nat)
    requires WindowIdFor(id, m) == WindowIdFor(id, n)
    ensures m == n
  {
    var k := |id| + 1;
    assert WindowIdFor(id, m)[k..] == ClaimText.Print(m);
    assert WindowIdFor(id, n)[k..] == ClaimText.Print(n);
    ClaimText.PrintInjective(m, n);
  }

  function InitialRuntime(watch: Watch, requiredAttempts: nat, supportsDeadline: bool): Runtime {
    Runtime(0, requiredAttempts, supportsDeadline, 0, 0, Some(WindowIdFor(watch.id, 0)),
            watch.nextCheckAt, None, false, None)
  }

  /** The sidecar once a watch is finished: nothing scheduled, one retention deadline. */
  function TerminalRuntime(runtime: Runtime, revision: nat, deadline: nat): Runtime {
    runtime.(revision := revision, window := None, scheduledFor := None, phase := None,
             cancelRequested := false, deleteAt := Some(deadline))
  }

  /** The deterministic identity of one terminal transition; the repository hashes these fields. */
  datatype EventId = EventId(watchId: string, status: Status, revision: nat)

  function TerminalEvent(watchId: string, status: Status, revision: nat): Option<EventId> {
    if status in {Found, Booked, Expired} then Some(EventId(watchId, status, revision)) else None
  }
}
