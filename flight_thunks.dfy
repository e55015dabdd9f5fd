/** The four thunks. Each dispatches its pending action (where the slice has a
    case for it), performs its storage step, and then dispatches its fulfilled
    action with the payload or its rejected action with the error. Thunks run
    one after another: no storage step of one overlaps another's. */
module FlightThunks {
  import opened FlightTypes
  import opened RecordLists
  import opened FlightStorage
  import opened FlightRecordsSlice

  /** The outcome a read-then-write storage step reports. */
  function StepOutcome(getItemFault: Option<SerializedError>, setItemFault: Option<SerializedError>): Outcome
  {
    if getItemFault.Some? then Fail(getItemFault.value)
    else if setItemFault.Some? then Fail(setItemFault.value)
    else Pass
  }

  /** Saves `records` as the whole stored list. The in-memory records are left
      alone whatever happens. */
  method SyncStorage(service: FlightStorageService, state: FlightRecordsState,
                     records: seq<FlightRecord>, setItemFault: Option<SerializedError>)
    returns (outcome: Outcome)
    modifies service, state
    ensures outcome == StepOutcome(None, setItemFault)
    ensures outcome.Pass? ==> service.slot == Some(records) && state.error == None
    ensures outcome.Fail? ==>
      && service.slot == old(service.slot)
      && state.error == Some(RejectionMessage(outcome.error, SyncFailedFallback))
    ensures state.records == old(state.records) && !state.loading
  {
    state.SyncStoragePending();
    outcome := service.SaveFlights(records, setItemFault);
    if outcome.Pass? {
      state.SyncStorageFulfilled();
    } else {
      state.SyncStorageRejected(outcome.error);
    }
  }

  /** Reads the stored list into the in-memory records. There is no pending
      and no rejected case: a failed read leaves the state exactly as it was. */
  method LoadFromStorage(service: FlightStorageService, state: FlightRecordsState,
                         getItemFault: Option<SerializedError>)
    returns (outcome: Outcome)
    modifies state
    ensures outcome == StepOutcome(getItemFault, None)
    ensures outcome.Pass? ==> state.records == StoredList(service.slot) && !state.loading && state.error == None
    ensures outcome.Fail? ==>
      && state.records == old(state.records)
      && state.loading == old(state.loading)
      && state.error == old(state.error)
  {
    var result := service.LoadFlights(getItemFault);
    if result.Ok? {
      state.LoadFromStorageFulfilled(result.value);
      outcome := Pass;
    } else {
      outcome := Fail(result.error);
    }
  }

  /** Deletes a flight from storage and then from memory. When memory and
      storage agreed before, they still agree afterwards, whether the storage
      step succeeded or failed. */
  method DeleteFlight(service: FlightStorageService, state: FlightRecordsState, flightId: string,
                      getItemFault: Option<SerializedError>, setItemFault: Option<SerializedError>)
    returns (outcome: Outcome)
    modifies service, state
    ensures outcome == StepOutcome(getItemFault, setItemFault)
    ensures outcome.Pass? ==>
      && service.slot == Some(WithoutId(StoredList(old(service.slot)), flightId))
      && state.records == WithoutId(old(state.records), flightId)
      && state.error == None
    ensures outcome.Fail? ==>
      && service.slot == old(service.slot)
      && state.records == old(state.records)
      && state.error == Some(RejectionMessage(outcome.error, DeleteFailedFallback))
    ensures !state.loading
    ensures old(state.records) == StoredList(old(service.slot)) ==> state.records == StoredList(service.slot)
  {
    state.DeleteFlightPending();
    outcome := service.DeleteFlight(flightId, getItemFault, setItemFault);
    if outcome.Pass? {
      state.DeleteFlightFulfilled(flightId);
    } else {
      state.DeleteFlightRejected(outcome.error);
    }
  }

  /** Appends a flight to storage and then to memory. When memory and storage
      agreed before, they still agree afterwards, whether the storage step
      succeeded or failed. */
  method AddFlight(service: FlightStorageService, state: FlightRecordsState, flight: FlightRecord,
                   getItemFault: Option<SerializedError>, setItemFault: Option<SerializedError>)
    returns (outcome: Outcome)
    modifies service, state
    ensures outcome == StepOutcome(getItemFault, setItemFault)
    ensures outcome.Pass? ==>
      && service.slot == Some(StoredList(old(service.slot)) + [flight])
      && state.records == old(state.records) + [flight]
      && state.error == None
    ensures outcome.Fail? ==>
      && service.slot == old(service.slot)
      && state.records == old(state.records)
      && state.error == Some(RejectionMessage(outcome.error, AddFailedFallback))
    ensures !state.loading
    ensures old(state.records) == StoredList(old(service.slot)) ==> state.records == StoredList(service.slot)
  {
    state.AddFlightPending();
    outcome := service.SaveNewFlight(flight, getItemFault, setItemFault);
    if outcome.Pass? {
      state.AddFlightFulfilled(flight);
    } else {
      state.AddFlightRejected(outcome.error);
    }
  }
}
