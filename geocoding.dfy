/** The part of a Google Geocoding API response that the services read, and
    the `find` lookups they run over its address components. */
module Geocoding {
  import opened Common

  datatype Component = Component(longName: string, shortName: string, types: seq<string>)

  /** Latitude and longitude are passed through untouched. */
  datatype LatLng = LatLng(lat: real, lng: real)

  /** One entry of `data.results`; absent properties are `None`. */
  datatype GeoResult = GeoResult(
    components: Option<seq<Component>>,
    location: Option<LatLng>,
    formattedAddress: Option<string>)

  datatype GeoResponse = GeoResponse(results: seq<GeoResult>)

  /** `data.results[0]?.address_components`. An empty array is still present
      (and truthy), so only a missing first result or a missing property
      count as "no components". */
  function AddressComponents(g: GeoResponse): (r: Option<seq<Component>>)
    ensures r.None? <==> g.results == [] || g.results[0].components.None?
    ensures r.Some? ==> r == g.results[0].components
  {
    if g.results == [] then None else g.results[0].components
  }

  /** `components.find((c) => c.types.includes(t))`: the first component
      tagged `t`, or nothing when none is. */
  function Find(cs: seq<Component>, t: string): (r: Option<Component>)
    ensures r.None? <==> forall i :: 0 <= i < |cs| ==> t !in cs[i].types
    ensures r.Some? ==> exists i :: 0 <= i < |cs| && cs[i] == r.value && t in cs[i].types &&
                                    forall j :: 0 <= j < i ==> t !in cs[j].types
  {
    if cs == [] then None
    else if t in cs[0].types then Some(cs[0])
    else
      var r := Find(cs[1..], t);
      assert r.Some? ==> exists i :: 0 <= i < |cs[1..]| && cs[1..][i] == r.value && t in cs[1..][i].types &&
                                   forall j :: 0 <= j < i ==> t !in cs[1..][j].types;
      assert forall i :: 0 < i < |cs| ==> cs[i] == cs[1..][i - 1];
      r
  }

  /** `find(...)?.long_name` */
  function LongNameOf(cs: seq<Component>, t: string): Option<string> {
    match Find(cs, t)
    case None => None
    case Some(c) => Some(c.longName)
  }

  /** `find(...)?.short_name` */
  function ShortNameOf(cs: seq<Component>, t: string): Option<string> {
    match Find(cs, t)
    case None => None
    case Some(c) => Some(c.shortName)
  }
}
