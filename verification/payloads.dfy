/** The parsed JSON body of a trips page, reduced to the fields the client
    inspects, and the per-version payload predicates (`_has_trips`,
    `_has_data`, `_has_next_link`, `_get_next_link`, `_get_response_version`).
    The 0.2.0 and 0.4.0 classes define these predicates with identical bodies,
    so they are defined once here. */
module Payloads {
  import opened Results

  /** One trip record, kept as opaque text: the client never looks inside. */
  datatype Trip = Trip(record: string)

  /** A JSON object member: missing, present with `null`, or present with a value. */
  datatype Field<+T> = Absent | Null | Present(value: T)

  /** The `data` object: its `trips` member (when present, a list) and how
      many other members it has. */
  datatype DataBlock = DataBlock(trips: Option<seq<Trip>>, otherKeys: nat)

  /** The `links` object. */
  datatype Links = Links(next: Field<string>)

  /** A response body. `data` and `links`, when present, are objects. */
  datatype Payload = Payload(data: Option<DataBlock>, links: Option<Links>, version: Field<string>)

  /** The `{}` payload of every error record. */
  const EmptyPayload := Payload(None, None, Absent)

  /** `payload.get("data", {}).get("trips", [])`. */
  function TripsOf(p: Payload): (t: seq<Trip>)
    ensures p.data.None? || p.data.value.trips.None? ==> t == []
    ensures p.data.Some? && p.data.value.trips.Some? ==> t == p.data.value.trips.value
  {
    match p.data
    case None => []
    case Some(d) => d.trips.GetOr([])
  }

  /** `_has_trips`: the page carries at least one trip. */
  function HasTrips(p: Payload): (b: bool)
    ensures b <==> p.data.Some? && p.data.value.trips.Some? && p.data.value.trips.value != []
  {
    |TripsOf(p)| > 0
  }

  /** `_has_data`: the `data` object has at least one member. */
  function HasData(p: Payload): (b: bool)
    ensures b <==> p.data.Some? && (p.data.value.trips.Some? || p.data.value.otherKeys > 0)
  {
    match p.data
    case None => false
    case Some(d) => (if d.trips.Some? then 1 else 0) + d.otherKeys > 0
  }

  /** `_get_next_link`: `links.next`, or `None` when it is missing or `null`. */
  function NextLink(p: Payload): (r: Option<string>)
    ensures r.Some? <==> p.links.Some? && p.links.value.next.Present?
    ensures r.Some? ==> r.value == p.links.value.next.value
  {
    match p.links
    case None => None
    case Some(l) =>
      match l.next
      case Present(url) => Some(url)
      case _ => None
  }

  /** `_has_next_link`: `True if links.next else False`, written without
      going through `NextLink`. */
  function HasNextLink(p: Payload): (b: bool)
    ensures b <==> NextLink(p).Some? && NextLink(p).value != ""
  {
    p.links.Some? && p.links.value.next.Present? && |p.links.value.next.value| > 0
  }

  /** `_get_response_version`: `payload.get("version", fallback)`; an explicit
      `null` yields `None`, not the fallback. */
  function ResponseVersion(p: Payload, fallback: string): (r: Option<string>)
    ensures p.version.Absent? ==> r == Some(fallback)
    ensures p.version.Null? ==> r == None
    ensures p.version.Present? ==> r == Some(p.version.value)
  {
    match p.version
    case Absent => Some(fallback)
    case Null => None
    case Present(v) => Some(v)
  }

  /** A page with trips always has data. */
  lemma TripsImplyData(p: Payload)
    ensures HasTrips(p) ==> HasData(p)
  {
  }

  /** The empty payload of a failed request has no trips, no data and no
      next link, and reports the fallback version. */
  lemma EmptyPayloadFacts()
    ensures !HasTrips(EmptyPayload) && !HasData(EmptyPayload) && !HasNextLink(EmptyPayload)
    ensures forall fallback :: ResponseVersion(EmptyPayload, fallback) == Some(fallback)
  {
  }
}
