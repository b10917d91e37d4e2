/** The collaborators behind the services: the MySQL repositories, the mailer
    and the Google Geocoding API. They are one abstract store that records
    every call in order and answers it through an oracle, so a workflow is
    judged by the calls it makes and by what it does with the answers. */
module DataStore {
  import opened Common
  import opened Geocoding
  import opened ConnectorRepository

  /** A row of `rfid_cards` (the two timestamps are not represented). */
  datatype RfidRow = RfidRow(
    tag: Value,
    cpoOwnerId: Value,
    userDriverId: Value,
    balance: int,
    isCharging: int,
    rfidType: string,
    rfidStatus: string)

  /** A row of `cpo_locations`. `images` is the list the request carried. */
  datatype LocationRow = LocationRow(
    cpoOwnerId: Value,
    name: Value,
    address: Value,
    lat: real,
    lng: real,
    city: Value,
    region: string,
    postalCode: Value,
    images: seq<Value>)

  /** A row of `cpo_location_parking_types`. */
  datatype ParkingTypeRow = ParkingTypeRow(parkingTypeId: Value, locationId: int, tag: string)

  /** One call to a collaborator, with the arguments it was given. */
  datatype Call =
    // MerchantRepository and the mailer
    | SendCredentials(email: Value, username: Value)
    | RegisterCpo(form: seq<(string, Value)>)
    | CheckRegisterCpo(kind: string, value: Value)
    | AddRfid(cpoOwnerId: Value, tag: Value)
    | GetRfids
    | AddRfids(cards: seq<RfidRow>)
    | Topup(cpoOwnerId: Value, amount: real)
    | VoidTopup(referenceId: Value)
    | ActivateCpo(userId: Value)
    | DeactivateCpo(userId: Value)
    | ColumnValueExists(table: string, column: string, value: Value)
    | UpdateCpo(id: Value, query: string)
    | GetPartnerDetails
    | RegisterPartner(companyName: string, partyId: string, countryCode: Option<string>)
    | UpdatePartner(countryCode: Option<string>, id: Value)
    // the geocoder
    | Geocode(address: string)
    // EVSERepository and ConnectorRepository, and the transaction's connection
    | CountEvses
    | GetEvses(limit: int, offset: int)
    | RegisterEvse(uid: string, details: seq<(string, Value)>)
    | InsertConnectors(connectors: seq<ConnectorRow>)
    | InsertTimeslots(timeslots: seq<TimeslotRow>)
    | AddPaymentTypes(paymentTypes: seq<(string, Value)>)
    | AddCapabilities(capabilities: seq<(Value, string)>)
    | Commit
    | Rollback
    | Release
    | BindEvse(evseUid: Value, locationId: Value)
    | UnbindEvse(evseUid: Value, locationId: Value)
    // LocationRepository
    | CountLocations
    | GetLocations(limit: int, offset: int)
    | RegisterLocation(location: LocationRow)
    | AddFacilities(facilities: seq<(Value, int)>)
    | AddParkingTypes(parkingTypes: seq<ParkingTypeRow>)
    | AddRestrictions(restrictions: seq<(Value, int)>)
    | BindLocation(cpoOwnerId: Value, locationId: Value)
    | UnbindLocation(cpoOwnerId: Value, locationId: Value)
    // every repository's AuditTrail
    | Audit(entry: AuditEntry)

  /** `result[0][0]` of a stored procedure: its STATUS and the balance and
      reference columns some procedures add. */
  datatype StatusRow = StatusRow(status: string, currentBalance: Value, referenceNumber: Value)

  /** What MySQL reports for an INSERT or UPDATE. */
  datatype WriteResult = WriteResult(affectedRows: int, insertId: int)

  /** How the collaborators answer a call, given every call made before it.
      Each kind of answer has its own reply function. */
  datatype Oracle = Oracle(
    status: (seq<Call>, Call) -> Settled<StatusRow>,
    write: (seq<Call>, Call) -> Settled<WriteResult>,
    count: (seq<Call>, Call) -> Settled<nat>,
    records: (seq<Call>, Call) -> Settled<seq<Value>>,
    total: (seq<Call>, Call) -> Settled<Value>,
    geocode: (seq<Call>, Call) -> Settled<GeoResponse>)

  /** The store. `trace` is every call made so far, audit writes included. */
  class Store {
    const oracle: Oracle
    var trace: seq<Call>

    constructor(oracle: Oracle)
      ensures this.oracle == oracle && trace == []
    {
      this.oracle := oracle;
      trace := [];
    }

    /** A stored procedure answered by its first row. */
    method Status(c: Call) returns (r: Settled<StatusRow>)
      modifies this
      ensures r == oracle.status(old(trace), c)
      ensures trace == old(trace) + [c]
    {
      r := oracle.status(trace, c);
      trace := trace + [c];
    }

    /** An INSERT or UPDATE (an audit write or a sent e-mail included). */
    method Write(c: Call) returns (r: Settled<WriteResult>)
      modifies this
      ensures r == oracle.write(old(trace), c)
      ensures trace == old(trace) + [c]
    {
      r := oracle.write(trace, c);
      trace := trace + [c];
    }

    /** A query of which only the number of rows matters. */
    method Count(c: Call) returns (r: Settled<nat>)
      modifies this
      ensures r == oracle.count(old(trace), c)
      ensures trace == old(trace) + [c]
    {
      r := oracle.count(trace, c);
      trace := trace + [c];
    }

    /** A query answered by a list of rows, or one column of them. */
    method Records(c: Call) returns (r: Settled<seq<Value>>)
      modifies this
      ensures r == oracle.records(old(trace), c)
      ensures trace == old(trace) + [c]
    {
      r := oracle.records(trace, c);
      trace := trace + [c];
    }

    /** A `COUNT(*)` query, answered by its one value. */
    method Total(c: Call) returns (r: Settled<Value>)
      modifies this
      ensures r == oracle.total(old(trace), c)
      ensures trace == old(trace) + [c]
    {
      r := oracle.total(trace, c);
      trace := trace + [c];
    }

    /** A request to the Geocoding API. */
    method Geocode(c: Call) returns (r: Settled<GeoResponse>)
      modifies this
      ensures r == oracle.geocode(old(trace), c)
      ensures trace == old(trace) + [c]
    {
      r := oracle.geocode(trace, c);
      trace := trace + [c];
    }

    /** A call whose answer is not awaited: commit, rollback and release. */
    method Note(c: Call)
      modifies this
      ensures trace == old(trace) + [c]
    {
      trace := trace + [c];
    }
  }
}
