/** The in-memory state of the flight-record store and the reducer cases that
    act on it when a thunk's pending, fulfilled or rejected action arrives.
    Each case assigns the state's fields in place. */
module FlightRecordsSlice {
  import opened FlightTypes
  import opened RecordLists

  /** The fixed fallback messages of the rejected cases. */
  const SyncFailedFallback: string := "Storage sync failed"
  const DeleteFailedFallback: string := "Delete operation failed"
  const AddFailedFallback: string := "Add operation failed"

  /** `error.message || fallback`: the thrown error's message when it has a
      non-empty one, the action's fallback text otherwise. */
  function RejectionMessage(error: SerializedError, fallback: string): (message: string)
    ensures fallback != "" ==> message != ""
    ensures error.message.Some? && error.message.value != "" ==> message == error.message.value
    ensures error.message.None? || error.message.value == "" ==> message == fallback
  {
    if error.message.Some? && error.message.value != "" then error.message.value else fallback
  }

  class FlightRecordsState {
    /** The records on screen, in insertion order. */
    var records: seq<FlightRecord>
    var loading: bool
    var error: Option<string>

    /** The initial state: no records, not loading, no error. */
    constructor ()
      ensures records == [] && !loading && error == None
    {
      records := [];
      loading := false;
      error := None;
    }

    method SyncStoragePending()
      modifies this
      ensures loading
      ensures records == old(records) && error == old(error)
    {
      loading := true;
    }

    /** The payload (the list that was saved) is not copied into `records`. */
    method SyncStorageFulfilled()
      modifies this
      ensures !loading && error == None
      ensures records == old(records)
    {
      loading := false;
      error := None;
    }

    method SyncStorageRejected(actionError: SerializedError)
      modifies this
      ensures !loading && error == Some(RejectionMessage(actionError, SyncFailedFallback))
      ensures records == old(records)
    {
      loading := false;
      error := Some(RejectionMessage(actionError, SyncFailedFallback));
    }

    /** Replaces the records wholesale with what was read from storage. */
    method LoadFromStorageFulfilled(payload: seq<FlightRecord>)
      modifies this
      ensures records == payload && !loading && error == None
    {
      records := payload;
      loading := false;
      error := None;
    }

    method DeleteFlightPending()
      modifies this
      ensures loading
      ensures records == old(records) && error == old(error)
    {
      loading := true;
    }

    /** Drops every record whose id is the payload, keeping the rest in order. */
    method DeleteFlightFulfilled(flightId: string)
      modifies this
      ensures records == WithoutId(old(records), flightId)
      ensures !loading && error == None
    {
      records := WithoutId(records, flightId);
      loading := false;
      error := None;
    }

    method DeleteFlightRejected(actionError: SerializedError)
      modifies this
      ensures !loading && error == Some(RejectionMessage(actionError, DeleteFailedFallback))
      ensures records == old(records)
    {
      loading := false;
      error := Some(RejectionMessage(actionError, DeleteFailedFallback));
    }

    method AddFlightPending()
      modifies this
      ensures loading
      ensures records == old(records) && error == old(error)
    {
      loading := true;
    }

    /** Appends the payload as the last record. */
    method AddFlightFulfilled(flight: FlightRecord)
      modifies this
      ensures records == old(records) + [flight]
      ensures !loading && error == None
    {
      records := records + [flight];
      loading := false;
      error := None;
    }

    method AddFlightRejected(actionError: SerializedError)
      modifies this
      ensures !loading && error == Some(RejectionMessage(actionError, AddFailedFallback))
      ensures records == old(records)
    {
      loading := false;
      error := Some(RejectionMessage(actionError, AddFailedFallback));
    }
  }
}
