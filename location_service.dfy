/** `LocationService`: the listing of charging locations, the registration of
    a location from a geocoded address together with its facilities, parking
    types and parking restrictions, and binding a location to and unbinding
    it from a charging point operator (CPO). */
module LocationService {
  import opened Common
  import opened Geocoding
  import opened DataStore
  import opened Workflow
  import opened Text

  const INVALID_LIMIT := "Invalid limit. Limit must be in type of number"
  /** The offset message names the limit, as the service words it. */
  const INVALID_OFFSET := "Invalid offset. Limit must be in type of number"
  const LOCATION_NOT_FOUND := "LOCATION_NOT_FOUND"
  const ADD_LOCATION := "ADD new location"
  const ADD_LOCATION_ATTEMPT := "ATTEMPT to ADD new location"
  const ATTEMPT_TO := "ATTEMPT to "
  const BIND_LOCATION := "BIND location to CPO with ID of "
  const UNBIND_LOCATION := "UNBIND location from CPO with ID of "

  /** The name of the error reading `geometry.location` of a result without
      one throws. */
  const TYPE_ERROR := "TypeError"

  const LOCALITY := "locality"
  const REGION_TYPE := "administrative_area_level_1"
  const POSTAL_CODE := "postal_code"
  /** `String(undefined)` */
  const UNDEFINED := "undefined"

  const OUTDOOR := "OUTDOOR"
  const INDOOR := "INDOOR"
  /** The parking types the service files as outdoor. */
  const OUTDOOR_IDS: seq<int> := [1, 3, 4, 5]

  // --------------------------------------------------------------- GetLocations

  /** `GetLocations({ limit, offset })`: both must be numbers; then the count
      and the page are read, in that order. */
  function GetLocationsRun(o: Oracle, h: seq<Call>, limit: Value, offset: Value): Run<Page> {
    if !limit.Num? then Run(Rejected(BadRequest(INVALID_LIMIT, NoData)), [])
    else if !offset.Num? then Run(Rejected(BadRequest(INVALID_OFFSET, NoData)), [])
    else
      var count := CountLocations;
      var query := GetLocations(limit.n, offset.n);
      match o.total(h, count)
      case Rejected(e) => Run(Rejected(e), [count])
      case Resolved(total) =>
        match o.records(h + [count], query)
        case Rejected(e) => Run(Rejected(e), [count, query])
        case Resolved(rows) => Run(Resolved(Page(rows, |rows|, total, limit.n, offset.n)), [count, query])
  }

  /** A limit or an offset that is not a number is refused before the store
      is asked, the limit first; otherwise the count and then the page are
      read, and the page reports its rows, how many they are, the count, and
      the limit and offset it was asked for. Nothing is audited. */
  lemma GetLocationsSpec(o: Oracle, h: seq<Call>, limit: Value, offset: Value)
    ensures var r := GetLocationsRun(o, h, limit, offset);
      && (r.calls == [] <==> !limit.Num? || !offset.Num?)
      && (!limit.Num? ==> r.outcome == Rejected(BadRequest(INVALID_LIMIT, NoData)))
      && (limit.Num? && !offset.Num? ==> r.outcome == Rejected(BadRequest(INVALID_OFFSET, NoData)))
      && (limit.Num? && offset.Num? ==> r.calls <= [CountLocations, GetLocations(limit.n, offset.n)])
      && (r.outcome.Resolved? <==> limit.Num? && offset.Num? && o.total(h, CountLocations).Resolved? &&
                                   o.records(h + [CountLocations], GetLocations(limit.n, offset.n)).Resolved?)
      && (r.outcome.Resolved? ==>
            var page := r.outcome.value;
            && r.calls == [CountLocations, GetLocations(limit.n, offset.n)]
            && page.items == o.records(h + [CountLocations], GetLocations(limit.n, offset.n)).value
            && page.returned == |page.items|
            && page.total == o.total(h, CountLocations).value
            && limit == Num(page.limit) && offset == Num(page.offset))
      && AuditsOf(r.calls) == []
  {
    var r := GetLocationsRun(o, h, limit, offset);
    assert forall i :: 0 <= i < |r.calls| ==> !r.calls[i].Audit?;
    NoAudits(r.calls);
  }

  // ------------------------------------------------- RegisterLocation: the row

  /** The request body of `RegisterLocation`. */
  datatype LocationRegistration = LocationRegistration(
    cpoOwnerId: Value,
    name: Value,
    address: string,
    facilities: seq<Value>,
    parkingTypes: seq<Value>,
    restrictions: seq<Value>,
    images: seq<Value>,
    adminId: Value)

  /** An optional string read with `?.`: the string, or `undefined`. */
  function StringOrUndefined(s: Option<string>): (v: Value)
    ensures s.None? ==> v == Undefined
    ensures s.Some? ==> v == Str(s.value)
  {
    match s
    case None => Undefined
    case Some(x) => Str(x)
  }

  /** `String(find(administrative_area_level_1)?.short_name).slice(0, 3)
      .toUpperCase().trim()` */
  function Region(components: seq<Component>): string {
    var name := match ShortNameOf(components, REGION_TYPE) case None => UNDEFINED case Some(s) => s;
    Trim(Upper(Take(name, 3)))
  }

  /** The region code is at most three characters, upper-cased and without
      white space at either end; it is "UND" when no component is tagged as
      the region, and the upper-cased first three characters of the region's
      short name when those hold no white space. */
  lemma RegionSpec(components: seq<Component>)
    ensures var r := Region(components);
      && |r| <= 3
      && IsUpperCased(r)
      && (r == [] || (!IsWhitespace(r[0]) && !IsWhitespace(r[|r| - 1])))
      && (Find(components, REGION_TYPE).None? ==> r == "UND")
      && (Find(components, REGION_TYPE).Some? ==>
            var t := Take(Find(components, REGION_TYPE).value.shortName, 3);
            (forall i :: 0 <= i < |t| ==> !IsWhitespace(t[i])) ==> r == Upper(t))
  {
    var name := match ShortNameOf(components, REGION_TYPE) case None => UNDEFINED case Some(s) => s;
    var t := Take(name, 3);
    UpperIsUpperCased(t);
    TrimSpec(Upper(t));
    TrimKeepsUpperCased(Upper(t));
    UpperSpec(t);
    if Find(components, REGION_TYPE).None? {
      UndefinedRegion();
    } else if forall i :: 0 <= i < |t| ==> !IsWhitespace(t[i]) {
      UpperKeepsNoWhitespace(t);
      TrimWithoutWhitespace(Upper(t));
    }
  }

  /** `String(undefined).slice(0, 3).toUpperCase().trim()` */
  lemma UndefinedRegion()
    ensures Trim(Upper(Take(UNDEFINED, 3))) == "UND"
  {
    var t := Take(UNDEFINED, 3);
    assert t == "und";
    UpperSpec(t);
    assert Upper(t) == "UND";
    TrimWithoutWhitespace("UND");
  }

  /** The row `RegisterLocation` inserts, from the request and the first
      geocoding result, its components and its coordinates. */
  function LocationOf(data: LocationRegistration, result: GeoResult, components: seq<Component>, point: LatLng)
    : LocationRow
  {
    LocationRow(
      OrNull(data.cpoOwnerId),
      data.name,
      StringOrUndefined(result.formattedAddress),
      point.lat,
      point.lng,
      StringOrUndefined(LongNameOf(components, LOCALITY)),
      Region(components),
      OrNull(StringOrUndefined(LongNameOf(components, POSTAL_CODE))),
      data.images)
  }

  /** The inserted row keeps the name and the images of the request and the
      geocoded coordinates; a falsy owner becomes null; the address is the
      formatted one; the city is the long name of the first "locality"
      component; a missing or empty postal code becomes null. */
  lemma LocationRowSpec(data: LocationRegistration, result: GeoResult, components: seq<Component>, point: LatLng)
    ensures var row := LocationOf(data, result, components, point);
      var city := Find(components, LOCALITY);
      var postal := Find(components, POSTAL_CODE);
      && row.name == data.name && row.images == data.images
      && row.lat == point.lat && row.lng == point.lng
      && (Truthy(data.cpoOwnerId) ==> row.cpoOwnerId == data.cpoOwnerId)
      && (!Truthy(data.cpoOwnerId) ==> row.cpoOwnerId == Null)
      && (result.formattedAddress.Some? ==> row.address == Str(result.formattedAddress.value))
      && (result.formattedAddress.None? ==> row.address == Undefined)
      && (city.None? ==> row.city == Undefined)
      && (city.Some? ==> row.city == Str(city.value.longName) && LOCALITY in city.value.types)
      && (postal.None? || postal.value.longName == "" ==> row.postalCode == Null)
      && (postal.Some? && postal.value.longName != "" ==> row.postalCode == Str(postal.value.longName))
      && row.region == Region(components) && |row.region| <= 3
  {
    RegionSpec(components);
  }

  // ---------------------------------------------- RegisterLocation: child rows

  /** `items.map((item) => [item, LOCATION_ID])` */
  function Pairs(items: seq<Value>, locationId: int): seq<(Value, int)> {
    seq(|items|, i requires 0 <= i < |items| => (items[i], locationId))
  }

  /** `[1, 3, 4, 5].includes(parkingType) ? "OUTDOOR" : "INDOOR"`, with the
      strict equality of `includes`. */
  function ParkingTag(id: Value): string {
    if id.Num? && id.n in OUTDOOR_IDS then OUTDOOR else INDOOR
  }

  function ParkingTypeRows(ids: seq<Value>, locationId: int): seq<ParkingTypeRow> {
    seq(|ids|, i requires 0 <= i < |ids| => ParkingTypeRow(ids[i], locationId, ParkingTag(ids[i])))
  }

  /** One row per item, in order, each pointing at the new location. */
  lemma PairsSpec(items: seq<Value>, locationId: int)
    ensures var rows := Pairs(items, locationId);
      && |rows| == |items|
      && forall i :: 0 <= i < |items| ==> rows[i] == (items[i], locationId)
  {
  }

  /** One parking-type row per id, in order, pointing at the new location;
      exactly the numbers 1, 3, 4 and 5 are outdoor, every other value (the
      string "1" included) is indoor. */
  lemma ParkingTypeRowsSpec(ids: seq<Value>, locationId: int)
    ensures var rows := ParkingTypeRows(ids, locationId);
      && |rows| == |ids|
      && (forall i :: 0 <= i < |ids| ==> rows[i].parkingTypeId == ids[i] && rows[i].locationId == locationId)
      && (forall i :: 0 <= i < |ids| ==>
            (rows[i].tag == OUTDOOR <==> ids[i] in {Num(1), Num(3), Num(4), Num(5)}))
      && (forall i :: 0 <= i < |ids| ==> rows[i].tag == OUTDOOR || rows[i].tag == INDOOR)
  {
  }

  /** The tag depends on the value and its type alone. */
  lemma ParkingTagExamples()
    ensures ParkingTag(Num(1)) == OUTDOOR && ParkingTag(Num(5)) == OUTDOOR
    ensures ParkingTag(Num(2)) == INDOOR && ParkingTag(Str("1")) == INDOOR && ParkingTag(Null) == INDOOR
  {
  }

  // --------------------------------------------------- RegisterLocation: the run

  function LocationAttempt(admin: Value): AuditEntry {
    AuditEntry(admin, ADD_LOCATION_ATTEMPT, Failed)
  }

  /** `RegisterLocation`: the address is geocoded; without address components
      the call throws "LOCATION_NOT_FOUND"; a first result without a location
      throws a TypeError; otherwise the row is inserted. Every error reaches
      the outer catch block, which writes one "failed" entry and rethrows. */
  function RegisterLocationRun(o: Oracle, h: seq<Call>, data: LocationRegistration): Run<Reply<string>> {
    var g := Geocode(data.address);
    After([g],
      match o.geocode(h, g)
      case Rejected(e) => Caught(o, h + [g], LocationAttempt(data.adminId), e)
      case Resolved(response) => GeocodedRun(o, h + [g], data, response))
  }

  /** What the service reads from the geocoder's answer before the insert. */
  function GeocodedRun(o: Oracle, h: seq<Call>, data: LocationRegistration, response: GeoResponse)
    : Run<Reply<string>>
  {
    var failure := LocationAttempt(data.adminId);
    match AddressComponents(response)
    case None => Caught(o, h, failure, BadRequest(LOCATION_NOT_FOUND, NoData))
    case Some(components) =>
      var first := response.results[0];
      match first.location
      case None => Caught(o, h, failure, Fault(TYPE_ERROR))
      case Some(point) => InsertLocationRun(o, h, data, LocationOf(data, first, components, point))
  }

  /** The insert of the location row, which yields the new location's id. */
  function InsertLocationRun(o: Oracle, h: seq<Call>, data: LocationRegistration, row: LocationRow)
    : Run<Reply<string>>
  {
    var c := RegisterLocation(row);
    After([c],
      match o.write(h, c)
      case Rejected(e) => Caught(o, h + [c], LocationAttempt(data.adminId), e)
      case Resolved(location) => FacilitiesRun(o, h + [c], data, location))
  }

  function FacilitiesRun(o: Oracle, h: seq<Call>, data: LocationRegistration, location: WriteResult)
    : Run<Reply<string>>
  {
    var c := AddFacilities(Pairs(data.facilities, location.insertId));
    After([c],
      match o.write(h, c)
      case Rejected(e) => Caught(o, h + [c], LocationAttempt(data.adminId), e)
      case Resolved(_) => ParkingTypesRun(o, h + [c], data, location))
  }

  function ParkingTypesRun(o: Oracle, h: seq<Call>, data: LocationRegistration, location: WriteResult)
    : Run<Reply<string>>
  {
    var c := AddParkingTypes(ParkingTypeRows(data.parkingTypes, location.insertId));
    After([c],
      match o.write(h, c)
      case Rejected(e) => Caught(o, h + [c], LocationAttempt(data.adminId), e)
      case Resolved(_) => RestrictionsRun(o, h + [c], data, location))
  }

  /** The last insert decides: with at least one affected row the call
      returns "SUCCESS" after the success entry; otherwise it writes the
      "failed" entry and returns the location insert's own result. */
  function RestrictionsRun(o: Oracle, h: seq<Call>, data: LocationRegistration, location: WriteResult)
    : Run<Reply<string>>
  {
    var failure := LocationAttempt(data.adminId);
    var c := AddRestrictions(Pairs(data.restrictions, location.insertId));
    After([c],
      match o.write(h, c)
      case Rejected(e) => Caught(o, h + [c], failure, e)
      case Resolved(result) =>
        if result.affectedRows >= 1 then
          Audited(o, h + [c], AuditEntry(data.adminId, ADD_LOCATION, Success), Confirmed(SUCCESS), failure)
        else Audited(o, h + [c], failure, Unconfirmed(location), failure))
  }

  /** How a step that throws `e` after the calls `done` ends: one "failed"
      entry and no other call, and `e` again unless that entry is refused. */
  predicate Stopped(o: Oracle, h: seq<Call>, done: seq<Call>, failure: AuditEntry, e: Error, r: Run<Reply<string>>) {
    && r.calls == done + [Audit(failure)]
    && r.outcome.Rejected?
    && (o.write(h + done, Audit(failure)).Resolved? ==> r.outcome == Rejected(e))
  }

  /** The geocoder is asked first. A refused request, an address without
      components and a first result without a location each stop the call
      after one "failed" entry, before any insert; the missing components
      are reported as "LOCATION_NOT_FOUND". Otherwise the row built from the
      first result is inserted next. */
  lemma RegisterLocationGeocodes(o: Oracle, h: seq<Call>, data: LocationRegistration)
    ensures var r := RegisterLocationRun(o, h, data);
      var g := Geocode(data.address);
      var answer := o.geocode(h, g);
      var failure := LocationAttempt(data.adminId);
      && r.calls[0] == g
      && (answer.Rejected? ==> Stopped(o, h, [g], failure, answer.error, r))
      && (answer.Resolved? && AddressComponents(answer.value).None? ==>
            Stopped(o, h, [g], failure, BadRequest(LOCATION_NOT_FOUND, NoData), r))
      && (answer.Resolved? && AddressComponents(answer.value).Some? ==>
            var first := answer.value.results[0];
            && (first.location.None? ==> Stopped(o, h, [g], failure, Fault(TYPE_ERROR), r))
            && (first.location.Some? ==>
                  r == After([g], InsertLocationRun(o, h + [g], data,
                                    LocationOf(data, first, AddressComponents(answer.value).value, first.location.value)))))
  {
  }

  /** A refused location insert stops the call before the child rows;
      otherwise the facilities of the new id are inserted next. */
  lemma InsertLocationSpec(o: Oracle, h: seq<Call>, data: LocationRegistration, row: LocationRow)
    ensures var r := InsertLocationRun(o, h, data, row);
      var c := RegisterLocation(row);
      var answer := o.write(h, c);
      && r.calls[0] == c
      && (answer.Rejected? ==> Stopped(o, h, [c], LocationAttempt(data.adminId), answer.error, r))
      && (answer.Resolved? ==> r == After([c], FacilitiesRun(o, h + [c], data, answer.value)))
  {
  }

  /** A refused facilities insert stops the call before the parking types. */
  lemma FacilitiesSpec(o: Oracle, h: seq<Call>, data: LocationRegistration, location: WriteResult)
    ensures var r := FacilitiesRun(o, h, data, location);
      var c := AddFacilities(Pairs(data.facilities, location.insertId));
      var answer := o.write(h, c);
      && r.calls[0] == c
      && (answer.Rejected? ==> Stopped(o, h, [c], LocationAttempt(data.adminId), answer.error, r))
      && (answer.Resolved? ==> r == After([c], ParkingTypesRun(o, h + [c], data, location)))
  {
  }

  /** A refused parking-type insert stops the call before the restrictions. */
  lemma ParkingTypesSpec(o: Oracle, h: seq<Call>, data: LocationRegistration, location: WriteResult)
    ensures var r := ParkingTypesRun(o, h, data, location);
      var c := AddParkingTypes(ParkingTypeRows(data.parkingTypes, location.insertId));
      var answer := o.write(h, c);
      && r.calls[0] == c
      && (answer.Rejected? ==> Stopped(o, h, [c], LocationAttempt(data.adminId), answer.error, r))
      && (answer.Resolved? ==> r == After([c], RestrictionsRun(o, h + [c], data, location)))
  {
  }

  /** The outcome depends on the restriction insert's affected rows alone:
      one or more gives "SUCCESS" with the success entry; none gives the
      location insert's result, not an error, after one "failed" entry. A
      refused restriction insert is rethrown after one "failed" entry. */
  lemma RestrictionsSpec(o: Oracle, h: seq<Call>, data: LocationRegistration, location: WriteResult)
    ensures var r := RestrictionsRun(o, h, data, location);
      var c := AddRestrictions(Pairs(data.restrictions, location.insertId));
      var answer := o.write(h, c);
      var success := AuditEntry(data.adminId, ADD_LOCATION, Success);
      var failure := LocationAttempt(data.adminId);
      && r.calls[0] == c
      && (answer.Rejected? ==> Stopped(o, h, [c], failure, answer.error, r))
      && (answer.Resolved? && answer.value.affectedRows >= 1 ==>
            && r.calls[..2] == [c, Audit(success)]
            && (r.outcome.Resolved? <==> o.write(h + [c], Audit(success)).Resolved?)
            && (r.outcome.Resolved? ==> r == Run(Resolved(Confirmed(SUCCESS)), [c, Audit(success)])))
      && (answer.Resolved? && answer.value.affectedRows < 1 ==>
            && r.calls[..2] == [c, Audit(failure)]
            && (r.outcome.Resolved? <==> o.write(h + [c], Audit(failure)).Resolved?)
            && (r.outcome.Resolved? ==> r == Run(Resolved(Unconfirmed(location)), [c, Audit(failure)])))
  {
  }

  /** How every stage of the registration ends, as far as the audit trail
      tells: "SUCCESS" with the success entry alone; the location insert's
      result with the "failed" entry alone; or an error, after which the
      last call is a "failed" entry and at most one entry came before it. */
  predicate EndsAudited(r: Run<Reply<string>>, success: AuditEntry, failure: AuditEntry) {
    && r.calls != []
    && (r.outcome.Resolved? && r.outcome.value.Confirmed? ==>
          r.outcome.value.value == SUCCESS && AuditsOf(r.calls) == [success])
    && (r.outcome.Resolved? && r.outcome.value.Unconfirmed? ==> AuditsOf(r.calls) == [failure])
    && (r.outcome.Rejected? ==>
          && r.calls[|r.calls| - 1] == Audit(failure)
          && (AuditsOf(r.calls) == [failure] || AuditsOf(r.calls) == [success, failure] ||
              AuditsOf(r.calls) == [failure, failure]))
  }

  lemma CaughtEnds(o: Oracle, h: seq<Call>, success: AuditEntry, failure: AuditEntry, e: Error)
    ensures EndsAudited(Caught(o, h, failure, e), success, failure)
  {
    CaughtAudits<Reply<string>>(o, h, failure, e);
  }

  lemma AuditedEnds(o: Oracle, h: seq<Call>, entry: AuditEntry, v: Reply<string>, success: AuditEntry, failure: AuditEntry)
    requires v.Confirmed? ==> v.value == SUCCESS && entry == success
    requires v.Unconfirmed? ==> entry == failure
    ensures EndsAudited(Audited(o, h, entry, v, failure), success, failure)
  {
    AuditedAudits(o, h, entry, v, failure);
  }

  /** A call that is not an audit write, made first, changes none of it. */
  lemma AfterEnds(c: Call, r: Run<Reply<string>>, success: AuditEntry, failure: AuditEntry)
    requires !c.Audit? && EndsAudited(r, success, failure)
    ensures EndsAudited(After([c], r), success, failure)
  {
    AuditsOfConcat([c], r.calls);
    assert AuditsOf([c]) == [];
    assert After([c], r).calls[|After([c], r).calls| - 1] == r.calls[|r.calls| - 1];
  }

  lemma RestrictionsEnd(o: Oracle, h: seq<Call>, data: LocationRegistration, location: WriteResult)
    ensures EndsAudited(RestrictionsRun(o, h, data, location),
                        AuditEntry(data.adminId, ADD_LOCATION, Success), LocationAttempt(data.adminId))
  {
    var success := AuditEntry(data.adminId, ADD_LOCATION, Success);
    var failure := LocationAttempt(data.adminId);
    var c := AddRestrictions(Pairs(data.restrictions, location.insertId));
    match o.write(h, c)
    case Rejected(e) =>
      CaughtEnds(o, h + [c], success, failure, e);
      AfterEnds(c, Caught(o, h + [c], failure, e), success, failure);
    case Resolved(result) =>
      if result.affectedRows >= 1 {
        AuditedEnds(o, h + [c], success, Confirmed(SUCCESS), success, failure);
        AfterEnds(c, Audited(o, h + [c], success, Confirmed(SUCCESS), failure), success, failure);
      } else {
        AuditedEnds(o, h + [c], failure, Unconfirmed(location), success, failure);
        AfterEnds(c, Audited(o, h + [c], failure, Unconfirmed(location), failure), success, failure);
      }
  }

  lemma ParkingTypesEnd(o: Oracle, h: seq<Call>, data: LocationRegistration, location: WriteResult)
    ensures EndsAudited(ParkingTypesRun(o, h, data, location),
                        AuditEntry(data.adminId, ADD_LOCATION, Success), LocationAttempt(data.adminId))
  {
    var success := AuditEntry(data.adminId, ADD_LOCATION, Success);
    var failure := LocationAttempt(data.adminId);
    var c := AddParkingTypes(ParkingTypeRows(data.parkingTypes, location.insertId));
    match o.write(h, c)
    case Rejected(e) =>
      CaughtEnds(o, h + [c], success, failure, e);
      AfterEnds(c, Caught(o, h + [c], failure, e), success, failure);
    case Resolved(_) =>
      RestrictionsEnd(o, h + [c], data, location);
      AfterEnds(c, RestrictionsRun(o, h + [c], data, location), success, failure);
  }

  lemma FacilitiesEnd(o: Oracle, h: seq<Call>, data: LocationRegistration, location: WriteResult)
    ensures EndsAudited(FacilitiesRun(o, h, data, location),
                        AuditEntry(data.adminId, ADD_LOCATION, Success), LocationAttempt(data.adminId))
  {
    var success := AuditEntry(data.adminId, ADD_LOCATION, Success);
    var failure := LocationAttempt(data.adminId);
    var c := AddFacilities(Pairs(data.facilities, location.insertId));
    match o.write(h, c)
    case Rejected(e) =>
      CaughtEnds(o, h + [c], success, failure, e);
      AfterEnds(c, Caught(o, h + [c], failure, e), success, failure);
    case Resolved(_) =>
      ParkingTypesEnd(o, h + [c], data, location);
      AfterEnds(c, ParkingTypesRun(o, h + [c], data, location), success, failure);
  }

  lemma InsertLocationEnds(o: Oracle, h: seq<Call>, data: LocationRegistration, row: LocationRow)
    ensures EndsAudited(InsertLocationRun(o, h, data, row),
                        AuditEntry(data.adminId, ADD_LOCATION, Success), LocationAttempt(data.adminId))
  {
    var success := AuditEntry(data.adminId, ADD_LOCATION, Success);
    var failure := LocationAttempt(data.adminId);
    var c := RegisterLocation(row);
    match o.write(h, c)
    case Rejected(e) =>
      CaughtEnds(o, h + [c], success, failure, e);
      AfterEnds(c, Caught(o, h + [c], failure, e), success, failure);
    case Resolved(location) =>
      FacilitiesEnd(o, h + [c], data, location);
      AfterEnds(c, FacilitiesRun(o, h + [c], data, location), success, failure);
  }

  /** Whatever the collaborators answer, `RegisterLocation` resolves with
      "SUCCESS" only after exactly the success entry, resolves with a raw
      insert result only after exactly one "failed" entry, and rejects only
      with a "failed" entry as its last call. */
  lemma RegisterLocationAudits(o: Oracle, h: seq<Call>, data: LocationRegistration)
    ensures EndsAudited(RegisterLocationRun(o, h, data),
                        AuditEntry(data.adminId, ADD_LOCATION, Success), LocationAttempt(data.adminId))
  {
    var success := AuditEntry(data.adminId, ADD_LOCATION, Success);
    var failure := LocationAttempt(data.adminId);
    var g := Geocode(data.address);
    match o.geocode(h, g)
    case Rejected(e) =>
      CaughtEnds(o, h + [g], success, failure, e);
      AfterEnds(g, Caught(o, h + [g], failure, e), success, failure);
    case Resolved(response) =>
      GeocodedEnds(o, h + [g], data, response);
      AfterEnds(g, GeocodedRun(o, h + [g], data, response), success, failure);
  }

  lemma GeocodedEnds(o: Oracle, h: seq<Call>, data: LocationRegistration, response: GeoResponse)
    ensures EndsAudited(GeocodedRun(o, h, data, response),
                        AuditEntry(data.adminId, ADD_LOCATION, Success), LocationAttempt(data.adminId))
  {
    var success := AuditEntry(data.adminId, ADD_LOCATION, Success);
    var failure := LocationAttempt(data.adminId);
    match AddressComponents(response)
    case None =>
      CaughtEnds(o, h, success, failure, BadRequest(LOCATION_NOT_FOUND, NoData));
    case Some(components) =>
      var first := response.results[0];
      match first.location
      case None =>
        CaughtEnds(o, h, success, failure, Fault(TYPE_ERROR));
      case Some(point) =>
        InsertLocationEnds(o, h, data, LocationOf(data, first, components, point));
  }

  /** The four inserts of a geocoded registration, in the order they run. */
  function LocationWrites(data: LocationRegistration, row: LocationRow, locationId: int): seq<Call> {
    [ RegisterLocation(row),
      AddFacilities(Pairs(data.facilities, locationId)),
      AddParkingTypes(ParkingTypeRows(data.parkingTypes, locationId)),
      AddRestrictions(Pairs(data.restrictions, locationId)) ]
  }

  /** When all four inserts go through, the calls are exactly the insert of
      the row, then its facilities, parking types and restrictions under the
      new id, then the entry the restriction insert's affected rows pick. */
  lemma RegisterLocationInserts(o: Oracle, h: seq<Call>, data: LocationRegistration, row: LocationRow)
    requires o.write(h, RegisterLocation(row)).Resolved?
    ensures var location := o.write(h, RegisterLocation(row)).value;
      var ws := LocationWrites(data, row, location.insertId);
      var r := InsertLocationRun(o, h, data, row);
      o.write(h + ws[..1], ws[1]).Resolved? && o.write(h + ws[..2], ws[2]).Resolved? ==>
        r == After(ws[..3], RestrictionsRun(o, h + ws[..3], data, location))
  {
    var location := o.write(h, RegisterLocation(row)).value;
    var ws := LocationWrites(data, row, location.insertId);
    assert ws[..1] == [ws[0]] && ws[..2] == [ws[0], ws[1]] && ws[..3] == [ws[0], ws[1], ws[2]];
    assert h + ws[..2] == h + [ws[0]] + [ws[1]];
    assert h + ws[..3] == h + [ws[0]] + [ws[1]] + [ws[2]];
  }

  // ------------------------------------------------ BindLocation, UnbindLocation

  function BindAction(cpoOwnerId: Value): string {
    BIND_LOCATION + JsString(cpoOwnerId)
  }

  function UnbindAction(cpoOwnerId: Value): string {
    UNBIND_LOCATION + JsString(cpoOwnerId)
  }

  function BindLocationRun(o: Oracle, h: seq<Call>, cpoOwnerId: Value, locationId: Value, admin: Value)
    : Run<StatusRow>
  {
    StatusRun(o, h, BindLocation(cpoOwnerId, locationId),
      AuditEntry(admin, BindAction(cpoOwnerId), Success),
      AuditEntry(admin, ATTEMPT_TO + BindAction(cpoOwnerId), Failed))
  }

  function UnbindLocationRun(o: Oracle, h: seq<Call>, cpoOwnerId: Value, locationId: Value, admin: Value)
    : Run<StatusRow>
  {
    StatusRun(o, h, UnbindLocation(cpoOwnerId, locationId),
      AuditEntry(admin, UnbindAction(cpoOwnerId), Success),
      AuditEntry(admin, ATTEMPT_TO + UnbindAction(cpoOwnerId), Failed))
  }

  /** `BindLocation`: one procedure call; "SUCCESS" comes back after one
      entry naming the CPO; any other status is thrown as a bad request after
      one "failed" entry that names it too. */
  lemma BindLocationSpec(o: Oracle, h: seq<Call>, cpoOwnerId: Value, locationId: Value, admin: Value)
    ensures var r := BindLocationRun(o, h, cpoOwnerId, locationId, admin);
      var c := BindLocation(cpoOwnerId, locationId);
      var answer := o.status(h, c);
      var action := BIND_LOCATION + JsString(cpoOwnerId);
      var success := AuditEntry(admin, action, Success);
      var failure := AuditEntry(admin, ATTEMPT_TO + action, Failed);
      && r.calls[0] == c
      && (r.outcome.Resolved? <==> answer.Resolved? && answer.value.status == SUCCESS && o.write(h + [c], Audit(success)).Resolved?)
      && (r.outcome.Resolved? ==> r.outcome.value.status == SUCCESS && r.calls == [c, Audit(success)])
      && (answer.Resolved? && answer.value.status != SUCCESS ==>
            r.calls == [c, Audit(failure)] &&
            (o.write(h + [c], Audit(failure)).Resolved? ==> r.outcome == Rejected(BadRequest(answer.value.status, NoData))))
      && (answer.Rejected? ==> r.calls == [c, Audit(failure)])
      && (answer.Rejected? && o.write(h + [c], Audit(failure)).Resolved? ==> r.outcome == Rejected(answer.error))
      && (answer.Resolved? && answer.value.status == SUCCESS ==>
            AuditsOf(r.calls) == if r.outcome.Resolved? then [success] else [success, failure])
  {
    StatusRunSpec(o, h, BindLocation(cpoOwnerId, locationId),
      AuditEntry(admin, BindAction(cpoOwnerId), Success),
      AuditEntry(admin, ATTEMPT_TO + BindAction(cpoOwnerId), Failed));
  }

  /** `UnbindLocation`: the same shape as `BindLocation`, with its own
      procedure and entries. */
  lemma UnbindLocationSpec(o: Oracle, h: seq<Call>, cpoOwnerId: Value, locationId: Value, admin: Value)
    ensures var r := UnbindLocationRun(o, h, cpoOwnerId, locationId, admin);
      var c := UnbindLocation(cpoOwnerId, locationId);
      var answer := o.status(h, c);
      var action := UNBIND_LOCATION + JsString(cpoOwnerId);
      var success := AuditEntry(admin, action, Success);
      var failure := AuditEntry(admin, ATTEMPT_TO + action, Failed);
      && r.calls[0] == c
      && (r.outcome.Resolved? <==> answer.Resolved? && answer.value.status == SUCCESS && o.write(h + [c], Audit(success)).Resolved?)
      && (r.outcome.Resolved? ==> r.outcome.value.status == SUCCESS && r.calls == [c, Audit(success)])
      && (answer.Resolved? && answer.value.status != SUCCESS ==>
            r.calls == [c, Audit(failure)] &&
            (o.write(h + [c], Audit(failure)).Resolved? ==> r.outcome == Rejected(BadRequest(answer.value.status, NoData))))
      && (answer.Rejected? ==> r.calls == [c, Audit(failure)])
      && (answer.Rejected? && o.write(h + [c], Audit(failure)).Resolved? ==> r.outcome == Rejected(answer.error))
      && (answer.Resolved? && answer.value.status == SUCCESS ==>
            AuditsOf(r.calls) == if r.outcome.Resolved? then [success] else [success, failure])
  {
    StatusRunSpec(o, h, UnbindLocation(cpoOwnerId, locationId),
      AuditEntry(admin, UnbindAction(cpoOwnerId), Success),
      AuditEntry(admin, ATTEMPT_TO + UnbindAction(cpoOwnerId), Failed));
  }

  // ------------------------------------------------------------------ the class

  class LocationService {
    const store: Store

    constructor(store: Store)
      ensures this.store == store
    {
      this.store := store;
    }

    method GetLocations(limit: Value, offset: Value) returns (r: Settled<Page>)
      modifies store
      ensures var run := GetLocationsRun(store.oracle, old(store.trace), limit, offset);
        r == run.outcome && store.trace == old(store.trace) + run.calls
    {
      if !limit.Num? {
        return Rejected(BadRequest(INVALID_LIMIT, NoData));
      }
      if !offset.Num? {
        return Rejected(BadRequest(INVALID_OFFSET, NoData));
      }
      var totalLocationsInDb := store.Total(CountLocations);
      if totalLocationsInDb.Rejected? {
        return Rejected(totalLocationsInDb.error);
      }
      var result := store.Records(Call.GetLocations(limit.n, offset.n));
      if result.Rejected? {
        return Rejected(result.error);
      }
      r := Resolved(Page(result.value, |result.value|, totalLocationsInDb.value, limit.n, offset.n));
    }

    method RegisterLocation(data: LocationRegistration) returns (r: Settled<Reply<string>>)
      modifies store
      ensures var run := RegisterLocationRun(store.oracle, old(store.trace), data);
        r == run.outcome && store.trace == old(store.trace) + run.calls
    {
      ghost var h := store.trace;
      var geocoded := store.Geocode(Call.Geocode(data.address));
      if geocoded.Rejected? {
        r := Catch(store, LocationAttempt(data.adminId), geocoded.error);
        return;
      }
      r := Geocoded(data, geocoded.value);
      Associative(h, [Call.Geocode(data.address)], GeocodedRun(store.oracle, h + [Call.Geocode(data.address)], data, geocoded.value).calls);
    }

    method Geocoded(data: LocationRegistration, response: GeoResponse) returns (r: Settled<Reply<string>>)
      modifies store
      ensures var run := GeocodedRun(store.oracle, old(store.trace), data, response);
        r == run.outcome && store.trace == old(store.trace) + run.calls
    {
      var failure := LocationAttempt(data.adminId);
      var components := AddressComponents(response);
      if components.None? {
        r := Catch(store, failure, BadRequest(LOCATION_NOT_FOUND, NoData));
        return;
      }
      var first := response.results[0];
      if first.location.None? {
        r := Catch(store, failure, Fault(TYPE_ERROR));
        return;
      }
      var row := LocationOf(data, first, components.value, first.location.value);
      r := InsertLocation(data, row);
    }

    /** The location insert; a rejection goes to the outer catch block. */
    method InsertLocation(data: LocationRegistration, row: LocationRow) returns (r: Settled<Reply<string>>)
      modifies store
      ensures var run := InsertLocationRun(store.oracle, old(store.trace), data, row);
        r == run.outcome && store.trace == old(store.trace) + run.calls
    {
      var result := store.Write(Call.RegisterLocation(row));
      if result.Rejected? {
        r := Catch(store, LocationAttempt(data.adminId), result.error);
        return;
      }
      r := AddLocationFacilities(data, result.value);
    }

    /** The facilities insert, keyed by the new location id. */
    method AddLocationFacilities(data: LocationRegistration, location: WriteResult) returns (r: Settled<Reply<string>>)
      modifies store
      ensures var run := FacilitiesRun(store.oracle, old(store.trace), data, location);
        r == run.outcome && store.trace == old(store.trace) + run.calls
    {
      var result := store.Write(AddFacilities(Pairs(data.facilities, location.insertId)));
      if result.Rejected? {
        r := Catch(store, LocationAttempt(data.adminId), result.error);
        return;
      }
      r := AddLocationParkingTypes(data, location);
    }

    /** The parking-types insert, each type tagged outdoor or indoor. */
    method AddLocationParkingTypes(data: LocationRegistration, location: WriteResult) returns (r: Settled<Reply<string>>)
      modifies store
      ensures var run := ParkingTypesRun(store.oracle, old(store.trace), data, location);
        r == run.outcome && store.trace == old(store.trace) + run.calls
    {
      var result := store.Write(AddParkingTypes(ParkingTypeRows(data.parkingTypes, location.insertId)));
      if result.Rejected? {
        r := Catch(store, LocationAttempt(data.adminId), result.error);
        return;
      }
      r := AddLocationParkingRestrictions(data, location);
    }

    /** The restrictions insert, then the success entry and "SUCCESS" when
        a row was affected, or the "failed" entry and the location's raw
        result. */
    method AddLocationParkingRestrictions(data: LocationRegistration, location: WriteResult)
      returns (r: Settled<Reply<string>>)
      modifies store
      ensures var run := RestrictionsRun(store.oracle, old(store.trace), data, location);
        r == run.outcome && store.trace == old(store.trace) + run.calls
    {
      var failure := LocationAttempt(data.adminId);
      var result := store.Write(AddRestrictions(Pairs(data.restrictions, location.insertId)));
      if result.Rejected? {
        r := Catch(store, failure, result.error);
        return;
      }
      if result.value.affectedRows >= 1 {
        r := AuditThen(store, AuditEntry(data.adminId, ADD_LOCATION, Success), Confirmed(SUCCESS), failure);
        return;
      }
      r := AuditThen(store, failure, Unconfirmed(location), failure);
    }

    method BindLocation(cpoOwnerId: Value, locationId: Value, admin: Value) returns (r: Settled<string>)
      modifies store
      ensures var run := BindLocationRun(store.oracle, old(store.trace), cpoOwnerId, locationId, admin);
        r == StatusOf(run.outcome) && store.trace == old(store.trace) + run.calls
    {
      var result := StatusCall(store, Call.BindLocation(cpoOwnerId, locationId),
        AuditEntry(admin, BindAction(cpoOwnerId), Success),
        AuditEntry(admin, ATTEMPT_TO + BindAction(cpoOwnerId), Failed));
      r := StatusOf(result);
    }

    method UnbindLocation(cpoOwnerId: Value, locationId: Value, admin: Value) returns (r: Settled<string>)
      modifies store
      ensures var run := UnbindLocationRun(store.oracle, old(store.trace), cpoOwnerId, locationId, admin);
        r == StatusOf(run.outcome) && store.trace == old(store.trace) + run.calls
    {
      var result := StatusCall(store, Call.UnbindLocation(cpoOwnerId, locationId),
        AuditEntry(admin, UnbindAction(cpoOwnerId), Success),
        AuditEntry(admin, ATTEMPT_TO + UnbindAction(cpoOwnerId), Failed));
      r := StatusOf(result);
    }
  }
}
