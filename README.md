# Flightify flight-record store, modelled in Dafny

Flightify keeps a list of flight records (origin, destination, dates, colour)
and shows them on a map. The records live in two places. The first is device
storage: the whole list is stored as one JSON value under the key
`flightRecords`. The second is an in-memory slice of the Redux state:
`{records, loading, error}`. This project models the module that keeps the
two in step, `src/features/maps/slices/flightRecordsSlice/index.ts`:

- the storage service (`saveFlights`, `loadFlights`, `saveNewFlight`,
  `deleteFlight`) is the class `FlightStorage.FlightStorageService`. Its field
  `slot` holds what storage has under the key: `None` when nothing was
  written, otherwise the list that was written;
- the slice state is the class `FlightRecordsSlice.FlightRecordsState`. Each
  `extraReducers` case is one method that assigns the fields in place;
- each of the four thunks (`syncStorage`, `loadFromStorage`, `deleteFlight`,
  `addFlight`) is a method in `FlightThunks`. It dispatches the pending case
  if the slice has one, runs the storage step, then dispatches the fulfilled
  or the rejected case;
- the id filter of lines 21 and 96 is the function `RecordLists.WithoutId`.
  Lemmas beside it prove that it keeps exactly the other-id records, in
  their original order, and that it is idempotent;
- `FlightSessions` runs load, adds and deletes in sequence on fresh objects.
  It checks the run against a reference replay on plain lists
  (`Replayed`). This proves that memory and storage agree after every
  sequential step once a load has succeeded.

Device storage can reject a read (`getItem`) or a write (`setItem`). Each
storage call therefore takes a parameter `Option<SerializedError>` that says
whether it is rejected and with which error. A rejected write is assumed
to write nothing (see "## Left out").
JSON encoding is taken as a lossless round trip, so the stored text is
modelled by the list it encodes. Location coordinates are `real`s that are
carried along and never computed on.

## Behaviour worth knowing

- `addFlight` appends to the in-memory records only in its fulfilled case
  (src/features/maps/slices/flightRecordsSlice/index.ts:107-108). That case
  runs after storage has accepted the write (index.ts:64). A failed add
  leaves memory exactly as it was.
- The slice handles `loadFromStorage` only when it is fulfilled
  (index.ts:87-91). A failed load leaves `records`, `loading` and `error`
  exactly as they were, and records no error.
- The state has a single `loading` flag, shared by all thunks.

## Model

| member | source | states |
|---|---|---|
| `FlightStorage.FlightStorageService.SaveFlights` | src/features/maps/slices/flightRecordsSlice/index.ts:7-9 | storage holds exactly the given list afterwards; a rejected write leaves storage unchanged and reports the error |
| `FlightStorage.FlightStorageService.LoadFlights` | src/features/maps/slices/flightRecordsSlice/index.ts:10-13 | reads the empty list when nothing is stored and otherwise the stored list; a rejected read reports its error |
| `FlightStorage.FlightStorageService.SaveNewFlight` | src/features/maps/slices/flightRecordsSlice/index.ts:14-18 | on success storage holds the previously stored list with the flight appended last; a rejected read or write leaves storage unchanged and reports that error (read first) |
| `FlightStorage.FlightStorageService.DeleteFlight` | src/features/maps/slices/flightRecordsSlice/index.ts:19-23 | on success storage holds the stored list filtered by id; a rejected read or write leaves storage unchanged and reports that error |
| `RecordLists.WithoutId` | src/features/maps/slices/flightRecordsSlice/index.ts:21 | the result is no longer than the input, and every record in it is from the input and has another id |
| `RecordLists.WithoutIdMembers` | src/features/maps/slices/flightRecordsSlice/index.ts:21 | a record is in the filtered list if and only if it is in the input and its id differs |
| `RecordLists.WithoutIdPositions` | src/features/maps/slices/flightRecordsSlice/index.ts:21 | there are strictly increasing input positions at which the filtered list is read off, and they include every position whose record has another id: the survivors are exactly those records, in their original relative order |
| `RecordLists.WithoutIdAbsent` | src/features/maps/slices/flightRecordsSlice/index.ts:19-23 | filtering by an id no record carries returns the list unchanged (delete of a missing id is a no-op) |
| `RecordLists.WithoutIdIdempotent` | src/features/maps/slices/flightRecordsSlice/index.ts:19-23 | deleting the same id twice is the same as deleting it once |
| `RecordLists.WithoutIdConcat` | src/features/maps/slices/flightRecordsSlice/index.ts:96 | the filter of a concatenation is the concatenation of the filters, so records appended later stay after earlier ones |
| `FlightRecordsSlice.RejectionMessage` | src/features/maps/slices/flightRecordsSlice/index.ts:85 | the error's message when it is present and non-empty, the fallback otherwise; never empty when the fallback is not |
| `FlightRecordsSlice.FlightRecordsState.constructor` | src/features/maps/slices/flightRecordsSlice/index.ts:34-38 | the initial state has no records, is not loading and has no error |
| `FlightRecordsSlice.FlightRecordsState.SyncStoragePending` | src/features/maps/slices/flightRecordsSlice/index.ts:76-78 | sets `loading`; records and error unchanged |
| `FlightRecordsSlice.FlightRecordsState.SyncStorageFulfilled` | src/features/maps/slices/flightRecordsSlice/index.ts:79-82 | clears `loading` and `error`; records unchanged (the payload is not copied in) |
| `FlightRecordsSlice.FlightRecordsState.SyncStorageRejected` | src/features/maps/slices/flightRecordsSlice/index.ts:83-86 | clears `loading`; `error` is the message or 'Storage sync failed'; records unchanged |
| `FlightRecordsSlice.FlightRecordsState.LoadFromStorageFulfilled` | src/features/maps/slices/flightRecordsSlice/index.ts:87-91 | records become the payload wholesale; `loading` and `error` cleared |
| `FlightRecordsSlice.FlightRecordsState.DeleteFlightPending` | src/features/maps/slices/flightRecordsSlice/index.ts:92-94 | sets `loading`; records and error unchanged |
| `FlightRecordsSlice.FlightRecordsState.DeleteFlightFulfilled` | src/features/maps/slices/flightRecordsSlice/index.ts:95-99 | records become the old records without those whose id is the payload; `loading` and `error` cleared |
| `FlightRecordsSlice.FlightRecordsState.DeleteFlightRejected` | src/features/maps/slices/flightRecordsSlice/index.ts:100-103 | clears `loading`; `error` is the message or 'Delete operation failed'; records unchanged |
| `FlightRecordsSlice.FlightRecordsState.AddFlightPending` | src/features/maps/slices/flightRecordsSlice/index.ts:104-106 | sets `loading`; records and error unchanged |
| `FlightRecordsSlice.FlightRecordsState.AddFlightFulfilled` | src/features/maps/slices/flightRecordsSlice/index.ts:107-111 | records become the old records with the payload appended last; `loading` and `error` cleared |
| `FlightRecordsSlice.FlightRecordsState.AddFlightRejected` | src/features/maps/slices/flightRecordsSlice/index.ts:112-115 | clears `loading`; `error` is the message or 'Add operation failed'; records unchanged |
| `FlightThunks.SyncStorage` | src/features/maps/slices/flightRecordsSlice/index.ts:40-46 | storage holds the given list on success and is unchanged on failure; in-memory records never change; `loading` ends false; `error` is cleared or set to the rejection message |
| `FlightThunks.LoadFromStorage` | src/features/maps/slices/flightRecordsSlice/index.ts:48-51 | on success records equal the stored list and `loading`/`error` are cleared; on failure the whole state is unchanged; storage is never written |
| `FlightThunks.DeleteFlight` | src/features/maps/slices/flightRecordsSlice/index.ts:53-59 | on success both storage and memory are filtered by the id; on failure neither changes and `error` is set; if memory equalled storage before, it equals it after |
| `FlightThunks.AddFlight` | src/features/maps/slices/flightRecordsSlice/index.ts:61-67 | on success the flight is appended last both in storage and in memory; on failure neither changes and `error` is set; if memory equalled storage before, it equals it after |
| `FlightSessions.Dispatch` | src/features/maps/slices/flightRecordsSlice/index.ts:53-67 | a user step changes memory and the stored list exactly as the reference step `Applied` does |
| `FlightSessions.RunSession` | src/features/maps/slices/flightRecordsSlice/index.ts:48-67 | after a load and a sequence of adds and deletes, storage is the replay of the successful steps on the stored list, and memory is their replay on what the load produced; after a successful load memory equals storage |
| `FlightSessions.SaveThenLoad` | src/features/maps/slices/flightRecordsSlice/index.ts:7-13 | a load after a save reads back exactly the saved list, whatever was stored before |
| `FlightSessions.AddThenRestart` | src/features/maps/slices/flightRecordsSlice/index.ts:14-18 | adding a flight and loading into a fresh state shows the earlier stored records followed by the new one, with identical fields |
| `FlightSessions.AddAddDelete` | src/features/maps/slices/flightRecordsSlice/index.ts:14-23 | on empty storage, add `a`, add `b`, delete `a` leaves exactly `[b]` both in memory and in storage |

## Left out

- AsyncStorage itself and JSON stringify/parse. Storage is the optional list
  in `slot`, and JSON is taken as lossless. A stored text that fails to
  parse is covered by the injected read error, not modelled separately.
  The lossless round trip holds for the declared `FlightRecord`
  (src/features/maps/types/index.ts:8-15). The one caller builds its record
  differently (src/features/maps/components/addFlightBottomsheet/index.tsx:54-68):
  it has a `date: new Date()` field and no `departureDate`, `arrivalDate` or
  `code`. JSON turns that Date into a string, so for such a record the
  reloaded copy differs from the one in memory. `FlightSessions.AddThenRestart`'s
  "identical fields" holds only for the declared record type.
- A rejected write is assumed to write nothing. This is an assumption about
  AsyncStorage, not something the code states. The failure halves of the
  memory/storage agreement in `FlightThunks.AddFlight` and
  `FlightThunks.DeleteFlight` rest on it.
- Asynchrony. Thunks run one after another. This model does not capture the
  interleaving of overlapping thunks, the shared `loading` flag when
  operations overlap, or the lost update when two read-modify-writes overlap.
- Redux Toolkit's dispatch machinery: action type strings, the store, and
  selectors. Each case is called directly by its thunk.
- The storage key `flightRecords` is kept as a constant only. There is one key,
  so it makes no difference to any behaviour.
- The screens that dispatch the thunks, random colour generation, and the
  `Date.now()` ids. These are UI code, floating point and clock calls.
