/** Sequential runs of the store as the screens drive it: load on mount, then
    adds and deletes one after another, each on a storage that may reject a
    read or a write. The run is checked against a reference that replays the
    successful steps on plain lists. */
module FlightSessions {
  import opened FlightTypes
  import opened RecordLists
  import opened FlightStorage
  import opened FlightRecordsSlice
  import opened FlightThunks

  /** One step a user takes, with what device storage does to its read and
      to its write. */
  datatype UserAction =
    | AddAction(flight: FlightRecord, getItemFault: Option<SerializedError>, setItemFault: Option<SerializedError>)
    | DeleteAction(flightId: string, getItemFault: Option<SerializedError>, setItemFault: Option<SerializedError>)

  predicate Succeeds(action: UserAction)
  {
    action.getItemFault.None? && action.setItemFault.None?
  }

  /** What a step does to a list of records: a successful add appends, a
      successful delete filters, a failed step does nothing. */
  function Applied(records: seq<FlightRecord>, action: UserAction): seq<FlightRecord>
  {
    if !Succeeds(action) then records
    else match action
      case AddAction(flight, _, _) => records + [flight]
      case DeleteAction(flightId, _, _) => WithoutId(records, flightId)
  }

  /** The steps applied one after another, first to last. */
  function Replayed(records: seq<FlightRecord>, actions: seq<UserAction>): seq<FlightRecord>
  {
    if actions == [] then records
    else Applied(Replayed(records, actions[..|actions| - 1]), actions[|actions| - 1])
  }

  /** Runs one step through its thunk. */
  method Dispatch(service: FlightStorageService, state: FlightRecordsState, action: UserAction)
    modifies service, state
    ensures state.records == Applied(old(state.records), action)
    ensures StoredList(service.slot) == Applied(StoredList(old(service.slot)), action)
    ensures !state.loading
  {
    match action
    case AddAction(flight, getItemFault, setItemFault) =>
      var _ := AddFlight(service, state, flight, getItemFault, setItemFault);
    case DeleteAction(flightId, getItemFault, setItemFault) =>
      var _ := DeleteFlight(service, state, flightId, getItemFault, setItemFault);
  }

  /** Starts on a device whose storage holds `initial`, loads it, then takes
      the steps in order. Storage ends with the successful steps replayed on
      the stored list, memory with them replayed on what the load produced;
      so after a successful load memory ends equal to storage. */
  method RunSession(initial: Option<seq<FlightRecord>>, loadFault: Option<SerializedError>,
                    actions: seq<UserAction>)
    returns (shown: seq<FlightRecord>, persisted: seq<FlightRecord>)
    ensures persisted == Replayed(StoredList(initial), actions)
    ensures shown == Replayed(if loadFault.None? then StoredList(initial) else [], actions)
    ensures loadFault.None? ==> shown == persisted
  {
    var service := new FlightStorageService(initial);
    var state := new FlightRecordsState();
    var _ := LoadFromStorage(service, state, loadFault);
    ghost var start := state.records;
    var i := 0;
    while i < |actions|
      invariant 0 <= i <= |actions|
      invariant state.records == Replayed(start, actions[..i])
      invariant StoredList(service.slot) == Replayed(StoredList(initial), actions[..i])
    {
      assert actions[..i + 1][..i] == actions[..i];
      Dispatch(service, state, actions[i]);
      i := i + 1;
    }
    assert actions[..|actions|] == actions;
    shown := state.records;
    persisted := StoredList(service.slot);
  }

  /** A save followed by a load reads back exactly the saved list, whatever
      was stored before. */
  method SaveThenLoad(initial: Option<seq<FlightRecord>>, records: seq<FlightRecord>)
    returns (read: Result<seq<FlightRecord>>)
    ensures read == Ok(records)
  {
    var service := new FlightStorageService(initial);
    var _ := service.SaveFlights(records, None);
    read := service.LoadFlights(None);
  }

  /** Adding a flight and starting the app afresh on the same storage shows
      the earlier records followed by the new one, with the same field values. */
  method AddThenRestart(initial: Option<seq<FlightRecord>>, flight: FlightRecord)
    returns (reloaded: seq<FlightRecord>)
    ensures reloaded == StoredList(initial) + [flight]
  {
    var service := new FlightStorageService(initial);
    var before := new FlightRecordsState();
    var _ := LoadFromStorage(service, before, None);
    var _ := AddFlight(service, before, flight, None, None);
    var after := new FlightRecordsState();
    var _ := LoadFromStorage(service, after, None);
    reloaded := after.records;
  }

  /** On empty storage, adding `a`, adding `b` and deleting `a` leaves only
      `b`, both on screen and in storage. */
  method AddAddDelete(a: FlightRecord, b: FlightRecord)
    returns (shown: seq<FlightRecord>, persisted: Option<seq<FlightRecord>>)
    requires a.id != b.id
    ensures shown == [b] && persisted == Some([b])
  {
    var service := new FlightStorageService(None);
    var state := new FlightRecordsState();
    var _ := LoadFromStorage(service, state, None);
    var _ := AddFlight(service, state, a, None, None);
    var _ := AddFlight(service, state, b, None, None);
    var _ := DeleteFlight(service, state, a.id, None, None);
    shown := state.records;
    persisted := service.slot;
  }
}
