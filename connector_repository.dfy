/** The rows `ConnectorRepository` builds before handing them to a single
    `INSERT ... VALUES ?` (the insert itself belongs to the store). */
module ConnectorRepository {
  import opened Common

  /** One element of the `connectors` array of an EVSE registration. */
  datatype Connector = Connector(
    standard: Value,
    format: Value,
    powerType: Value,
    maxVoltage: Value,
    maxAmperage: Value,
    maxElectricPower: Value,
    rateSetting: Value)

  /** A row of `evse_connectors` (the two timestamps are not represented). */
  datatype ConnectorRow = ConnectorRow(
    evseUid: string,
    connectorId: int,
    standard: Value,
    format: Value,
    powerTypeId: Value,
    maxVoltage: Value,
    maxAmperage: Value,
    maxElectricPower: Value,
    connectorTypeId: Value,
    rateSettingId: string,
    status: string)

  /** A row of `evse_timeslots`. */
  datatype TimeslotRow = TimeslotRow(evseUid: string, connectorId: int, settingTimeslotId: int, status: string)

  function RowFor(uid: string, position: nat, c: Connector): ConnectorRow {
    ConnectorRow(uid, position + 1, c.standard, c.format, c.powerType, c.maxVoltage,
                 c.maxAmperage, c.maxElectricPower, c.standard,
                 JsString(c.rateSetting) + " KW-H", "AVAILABLE")
  }

  /** The `values` of `AddConnector`: `data.map((connector, index) => [...])`. */
  function ConnectorRows(uid: string, data: seq<Connector>): (rows: seq<ConnectorRow>)
    ensures |rows| == |data|
    ensures forall i :: 0 <= i < |data| ==>
      && rows[i].evseUid == uid
      && rows[i].connectorId == i + 1
      && rows[i].standard == data[i].standard
      && rows[i].connectorTypeId == data[i].standard
      && rows[i].format == data[i].format
      && rows[i].powerTypeId == data[i].powerType
      && rows[i].maxVoltage == data[i].maxVoltage
      && rows[i].maxAmperage == data[i].maxAmperage
      && rows[i].maxElectricPower == data[i].maxElectricPower
      && rows[i].rateSettingId == JsString(data[i].rateSetting) + " KW-H"
      && rows[i].status == "AVAILABLE"
  {
    seq(|data|, i requires 0 <= i < |data| => RowFor(uid, i, data[i]))
  }

  /** The connector ordinals of an EVSE are exactly 1, 2, ..., N in input
      order: the same ids `AddTimeslots` derives from a start id of 1. */
  lemma ConnectorIdsAreDense(uid: string, data: seq<Connector>)
    ensures var rows := ConnectorRows(uid, data);
      seq(|rows|, i requires 0 <= i < |rows| => rows[i].connectorId) == ConnectorIds(1, |data|)
  {
  }

  /** The `switch (kwh)` of `AddTimeslots`: the inclusive band of
      `setting_timeslot_id`s for a kWh class. Matching is strict, so any
      other value (a string such as "22" included) has no band. */
  function Band(kwh: Value): (b: Option<(int, int)>)
    ensures b.Some? ==> 1 <= b.value.0 <= b.value.1 <= 27
    ensures b.Some? <==> kwh in {Num(7), Num(22), Num(60), Num(80)}
  {
    match kwh
    case Num(7) => Some((1, 3))
    case Num(22) => Some((4, 11))
    case Num(60) => Some((12, 19))
    case Num(80) => Some((20, 27))
    case _ => None
  }

  /** How many timeslots one connector gets. */
  function BandSize(kwh: Value): nat {
    match Band(kwh)
    case None => 0
    case Some((lo, hi)) => hi - lo + 1
  }

  /** The four bands, and their sizes 3, 8, 8 and 8. */
  lemma BandsPartitionSlots()
    ensures Band(Num(7)) == Some((1, 3)) && Band(Num(22)) == Some((4, 11))
    ensures Band(Num(60)) == Some((12, 19)) && Band(Num(80)) == Some((20, 27))
    ensures BandSize(Num(7)) == 3 && BandSize(Num(22)) == 8 && BandSize(Num(60)) == 8 && BandSize(Num(80)) == 8
  {
  }

  /** `Array.from({ length: connectorsCount }, (_, i) => lastInsertID + i)` */
  function ConnectorIds(lastInsertId: int, connectorsCount: nat): (ids: seq<int>)
    ensures |ids| == connectorsCount
    ensures forall i :: 0 <= i < connectorsCount ==> ids[i] == lastInsertId + i
  {
    seq(connectorsCount, i requires 0 <= i < connectorsCount => lastInsertId + i)
  }

  /** The rows one connector contributes: slots `lo..hi` in ascending order. */
  function SlotRows(uid: string, connectorId: int, lo: int, hi: int): (rows: seq<TimeslotRow>)
    ensures |rows| == if hi < lo then 0 else hi - lo + 1
    ensures forall j :: 0 <= j < |rows| ==> rows[j] == TimeslotRow(uid, connectorId, lo + j, "ONLINE")
  {
    if hi < lo then [] else seq(hi - lo + 1, j requires 0 <= j <= hi - lo => TimeslotRow(uid, connectorId, lo + j, "ONLINE"))
  }

  /** Reference definition of the timeslot rows: the slot rows of each
      connector in turn. */
  function Grid(uid: string, ids: seq<int>, lo: int, hi: int): seq<TimeslotRow>
    decreases |ids|
  {
    if ids == [] then [] else SlotRows(uid, ids[0], lo, hi) + Grid(uid, ids[1..], lo, hi)
  }

  function TimeslotRows(uid: string, ids: seq<int>, kwh: Value): seq<TimeslotRow> {
    match Band(kwh)
    case None => []
    case Some((lo, hi)) => Grid(uid, ids, lo, hi)
  }

  lemma {:induction false} GridSnoc(uid: string, ids: seq<int>, id: int, lo: int, hi: int)
    ensures Grid(uid, ids + [id], lo, hi) == Grid(uid, ids, lo, hi) + SlotRows(uid, id, lo, hi)
    decreases |ids|
  {
    if ids == [] {
      assert [id][1..] == [];
    } else {
      assert (ids + [id])[1..] == ids[1..] + [id];
      GridSnoc(uid, ids[1..], id, lo, hi);
    }
  }

  /** `GenerateTimeslots(connectorIDs, startingID, endingID)`: for each
      connector in order, push one row per slot from `startingID` up to
      `endingID`. */
  method GenerateTimeslots(uid: string, connectorIds: seq<int>, startingId: int, endingId: int)
    returns (values: seq<TimeslotRow>)
    ensures values == Grid(uid, connectorIds, startingId, endingId)
  {
    values := [];
    for k := 0 to |connectorIds|
      invariant values == Grid(uid, connectorIds[..k], startingId, endingId)
    {
      var connectorId := connectorIds[k];
      ghost var before := values;
      var j := startingId;
      while j <= endingId
        invariant startingId <= j <= if endingId < startingId then startingId else endingId + 1
        invariant values == before + SlotRows(uid, connectorId, startingId, j - 1)
        decreases endingId - j
      {
        values := values + [TimeslotRow(uid, connectorId, j, "ONLINE")];
        j := j + 1;
      }
      assert connectorIds[..k + 1] == connectorIds[..k] + [connectorId];
      GridSnoc(uid, connectorIds[..k], connectorId, startingId, endingId);
    }
    assert connectorIds[..|connectorIds|] == connectorIds;
  }

  /** The `values` of `AddTimeslots(uid, lastInsertID, kwh, connectorsCount)`. */
  method AddTimeslots(uid: string, lastInsertId: int, kwh: Value, connectorsCount: nat)
    returns (values: seq<TimeslotRow>)
    ensures values == TimeslotRows(uid, ConnectorIds(lastInsertId, connectorsCount), kwh)
  {
    var connectorIds := ConnectorIds(lastInsertId, connectorsCount);
    values := [];
    match kwh {
      case Num(7) => values := GenerateTimeslots(uid, connectorIds, 1, 3);
      case Num(22) => values := GenerateTimeslots(uid, connectorIds, 4, 11);
      case Num(60) => values := GenerateTimeslots(uid, connectorIds, 12, 19);
      case Num(80) => values := GenerateTimeslots(uid, connectorIds, 20, 27);
      case _ =>
    }
  }

  lemma {:induction false} GridSize(uid: string, ids: seq<int>, lo: int, hi: int)
    requires lo <= hi
    ensures |Grid(uid, ids, lo, hi)| == |ids| * (hi - lo + 1)
    decreases |ids|
  {
    if ids != [] {
      GridSize(uid, ids[1..], lo, hi);
      assert |ids| * (hi - lo + 1) == (hi - lo + 1) + (|ids| - 1) * (hi - lo + 1);
    }
  }

  lemma MulBound(c: nat, j: nat, n: nat, m: nat)
    requires c < m && j < n
    ensures c * n + j < m * n
  {
    assert (c + 1) * n <= m * n;
  }

  lemma MulStep(c: nat, n: nat)
    requires c > 0
    ensures c * n == n + (c - 1) * n
  {
  }

  lemma {:induction false} GridAt(uid: string, ids: seq<int>, lo: int, hi: int, c: nat, j: nat)
    requires lo <= hi && c < |ids| && j <= hi - lo
    ensures |Grid(uid, ids, lo, hi)| == |ids| * (hi - lo + 1)
    ensures c * (hi - lo + 1) + j < |ids| * (hi - lo + 1)
    ensures Grid(uid, ids, lo, hi)[c * (hi - lo + 1) + j] == TimeslotRow(uid, ids[c], lo + j, "ONLINE")
    decreases |ids|
  {
    var n := hi - lo + 1;
    GridSize(uid, ids, lo, hi);
    MulBound(c, j, n, |ids|);
    var head := SlotRows(uid, ids[0], lo, hi);
    var tail := Grid(uid, ids[1..], lo, hi);
    assert Grid(uid, ids, lo, hi) == head + tail;
    if c > 0 {
      GridAt(uid, ids[1..], lo, hi, c - 1, j);
      MulStep(c, n);
      assert ids[1..][c - 1] == ids[c];
    }
  }

  /** Row count: one row per connector and slot of the band; no rows at all
      for an unrecognised kWh value. */
  lemma TimeslotCount(uid: string, lastInsertId: int, kwh: Value, connectorsCount: nat)
    ensures |TimeslotRows(uid, ConnectorIds(lastInsertId, connectorsCount), kwh)| == connectorsCount * BandSize(kwh)
  {
    match Band(kwh)
    case None =>
    case Some((lo, hi)) => GridSize(uid, ConnectorIds(lastInsertId, connectorsCount), lo, hi);
  }

  /** Row layout: the rows come grouped by connector (ids `lastInsertID`,
      `lastInsertID + 1`, ...), with the band's slot ids ascending inside each
      group, every one for the same EVSE and "ONLINE". */
  lemma TimeslotLayout(uid: string, lastInsertId: int, kwh: Value, connectorsCount: nat, c: nat, j: nat)
    requires Band(kwh).Some? && c < connectorsCount && j < BandSize(kwh)
    ensures var rows := TimeslotRows(uid, ConnectorIds(lastInsertId, connectorsCount), kwh);
      c * BandSize(kwh) + j < |rows| &&
      rows[c * BandSize(kwh) + j] == TimeslotRow(uid, lastInsertId + c, Band(kwh).value.0 + j, "ONLINE")
  {
    var (lo, hi) := Band(kwh).value;
    GridAt(uid, ConnectorIds(lastInsertId, connectorsCount), lo, hi, c, j);
  }

  /** The silent no-op: an unrecognised kWh value yields no rows and no error. */
  lemma UnknownKwhYieldsNoTimeslots(uid: string, ids: seq<int>, kwh: Value)
    requires kwh !in {Num(7), Num(22), Num(60), Num(80)}
    ensures TimeslotRows(uid, ids, kwh) == []
  {
  }
}
