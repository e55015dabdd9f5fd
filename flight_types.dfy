/** The values the flight-record store works with: a flight record and the
    places it joins, and the error a rejected storage call reports. */
module FlightTypes {

  datatype Option<T> = None | Some(value: T)

  /** The outcome of a storage call that yields a value. */
  datatype Result<T> = Ok(value: T) | Err(error: SerializedError)

  /** The outcome of a storage call that yields nothing. */
  datatype Outcome = Pass | Fail(error: SerializedError)

  /** An airport as a record stores it. The coordinates are carried along and
      never computed on. */
  datatype Location = Location(latitude: real, longitude: real, name: string, code: string)

  /** One recorded flight. Only `id` takes part in any decision of the store;
      the other fields travel with the record unchanged. */
  datatype FlightRecord = FlightRecord(
    id: string,
    departureDate: string,
    arrivalDate: Option<string>,
    origin: Location,
    destination: Location,
    color: string)

  /** The `error` of a rejected thunk action: the serialized form of whatever
      the payload creator threw. Its message may be missing. */
  datatype SerializedError = SerializedError(message: Option<string>)
}
