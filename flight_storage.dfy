/** The storage service: read-modify-write of the one list of flight records
    that device storage keeps under a single key. The stored JSON text is
    modelled by the list it encodes (a lossless round trip); each storage call
    is told by a parameter whether device storage rejects it. */
module FlightStorage {
  import opened FlightTypes
  import opened RecordLists

  /** The storage key the whole list lives under. */
  const FlightStorageKey: string := "flightRecords"

  /** The list a read hands back for what the key holds: nothing stored reads
      as the empty list, anything else as the list that was written. */
  function StoredList(slot: Option<seq<FlightRecord>>): seq<FlightRecord>
  {
    if slot.Some? then slot.value else []
  }

  class FlightStorageService {
    /** What device storage holds under FlightStorageKey; None when nothing
        has been written there. */
    var slot: Option<seq<FlightRecord>>

    /** A service over device storage that already holds `initial`. */
    constructor (initial: Option<seq<FlightRecord>>)
      ensures slot == initial
    {
      slot := initial;
    }

    /** Overwrites the stored list with `records`, unless the write is
        rejected with `setItemFault`, in which case nothing is written. */
    method SaveFlights(records: seq<FlightRecord>, setItemFault: Option<SerializedError>)
      returns (outcome: Outcome)
      modifies this
      ensures setItemFault.None? ==> outcome == Pass && slot == Some(records)
      ensures setItemFault.Some? ==> outcome == Fail(setItemFault.value) && slot == old(slot)
    {
      if setItemFault.Some? {
        return Fail(setItemFault.value);
      }
      slot := Some(records);
      outcome := Pass;
    }

    /** Reads the stored list: the empty list when the key holds nothing,
        otherwise the list last written; a rejected read reports its error. */
    method LoadFlights(getItemFault: Option<SerializedError>)
      returns (result: Result<seq<FlightRecord>>)
      ensures getItemFault.None? && slot.None? ==> result == Ok([])
      ensures getItemFault.None? && slot.Some? ==> result == Ok(slot.value)
      ensures getItemFault.Some? ==> result == Err(getItemFault.value)
    {
      if getItemFault.Some? {
        return Err(getItemFault.value);
      }
      result := Ok(StoredList(slot));
    }

    /** Loads the stored list, appends `flight` to it and saves the result. */
    method SaveNewFlight(flight: FlightRecord,
                         getItemFault: Option<SerializedError>, setItemFault: Option<SerializedError>)
      returns (outcome: Outcome)
      modifies this
      ensures getItemFault.Some? ==> outcome == Fail(getItemFault.value) && slot == old(slot)
      ensures getItemFault.None? && setItemFault.Some? ==>
        outcome == Fail(setItemFault.value) && slot == old(slot)
      ensures getItemFault.None? && setItemFault.None? ==>
        outcome == Pass && slot == Some(StoredList(old(slot)) + [flight])
    {
      var loaded := LoadFlights(getItemFault);
      if loaded.Err? {
        return Fail(loaded.error);
      }
      var existingFlights := loaded.value;
      existingFlights := existingFlights + [flight];
      outcome := SaveFlights(existingFlights, setItemFault);
    }

    /** Loads the stored list, drops every record whose id is `flightId` and
        saves what is left. */
    method DeleteFlight(flightId: string,
                        getItemFault: Option<SerializedError>, setItemFault: Option<SerializedError>)
      returns (outcome: Outcome)
      modifies this
      ensures getItemFault.Some? ==> outcome == Fail(getItemFault.value) && slot == old(slot)
      ensures getItemFault.None? && setItemFault.Some? ==>
        outcome == Fail(setItemFault.value) && slot == old(slot)
      ensures getItemFault.None? && setItemFault.None? ==>
        outcome == Pass && slot == Some(WithoutId(StoredList(old(slot)), flightId))
    {
      var loaded := LoadFlights(getItemFault);
      if loaded.Err? {
        return Fail(loaded.error);
      }
      var existingFlights := loaded.value;
      var updatedFlights := WithoutId(existingFlights, flightId);
      outcome := SaveFlights(updatedFlights, setItemFault);
    }
  }
}
