/** `MDSTimeZone`: the query window ending at a reference time and starting
    `|offset|` seconds before it, made time-zone aware, and read back in the
    zone, in UTC, or as a Unix epoch. Date-times are whole seconds; a zone
    is a fixed offset from UTC (no daylight-saving rules). */
module TimeWindow {
  import opened Results
  import opened Configuration

  /** A time zone as `pytz` names it, reduced to its offset from UTC in seconds. */
  datatype Zone = Zone(name: string, utcOffset: int)

  const Utc := Zone("UTC", 0)

  /** An aware date-time: wall-clock seconds in a zone. */
  datatype Aware = Aware(local: int, zone: Zone)

  /** Seconds since the Unix epoch, what `timestamp()` gives. */
  function Epoch(a: Aware): int {
    a.local - a.zone.utcOffset
  }

  /** `astimezone(zone)`: the same instant, read in another zone. */
  function AsTimeZone(a: Aware, zone: Zone): (r: Aware)
    ensures Epoch(r) == Epoch(a) && r.zone == zone
  {
    Aware(Epoch(a) + zone.utcOffset, zone)
  }

  const DefaultOffset := 86400

  function Abs(x: int): nat {
    if x < 0 then -x else x
  }

  /** `get_time`: the reference moved by the offset and localized in the
      instance's zone; without a zone there is nothing to localize with.
      Both signs of the offset move the time back. */
  function GetTime(zone: Option<Zone>, offset: int, now: int): (r: Result<Aware>)
    ensures zone.None? ==> r == Err(NoTimeZone)
    ensures zone.Some? ==> r.Ok? && r.value.zone == zone.value
    ensures r.Ok? ==> r.value.local == now - Abs(offset)
  {
    if zone.None? then Err(NoTimeZone)
    else
      var moved := if offset > 0 then now - offset else now + offset;
      var time := if offset == 0 then now else moved;
      Ok(Aware(time, zone.value))
  }

  /** An instance attribute: an aware date-time or any other value a keyword
      argument set. */
  datatype Attr = Time(t: Aware) | Plain(v: Value)

  datatype TimeZone = TimeZone(zone: Option<Zone>, attrs: map<string, Attr>)

  /** `MDSTimeZone.__init__`: start and end from the reference, then every
      keyword argument set as an attribute, overriding either. */
  function NewTimeZone(now: int, zone: Option<Zone>, offset: int, kwargs: map<string, Attr>): (r: Result<TimeZone>)
    ensures r.Ok? <==> zone.Some?
    ensures r.Ok? ==> r.value.zone == zone && r.value.attrs.Keys == {"time_start", "time_end"} + kwargs.Keys
    ensures r.Ok? ==> forall k :: k in kwargs ==> r.value.attrs[k] == kwargs[k]
    ensures r.Ok? && "time_start" !in kwargs ==> r.value.attrs["time_start"] == Time(Aware(now - Abs(offset), zone.value))
    ensures r.Ok? && "time_end" !in kwargs ==> r.value.attrs["time_end"] == Time(Aware(now, zone.value))
  {
    var start :- GetTime(zone, offset, now);
    var end :- GetTime(zone, 0, now);
    Ok(TimeZone(zone, Overlay(map["time_start" := Time(start), "time_end" := Time(end)], kwargs)))
  }

  /** What `get_time_start`/`get_time_end` return: a date-time, an epoch,
      or an attribute that is not a date-time, as is. */
  datatype Output = Moment(a: Aware) | Seconds(epoch: int) | Raw(v: Value)

  /** The body shared by `get_time_start` and `get_time_end`: read the
      attribute (0 when missing), convert to UTC and to an epoch on request. */
  function ReadTime(tz: TimeZone, key: string, utc: bool, unix: bool): (r: Result<Output>)
    ensures var a := if key in tz.attrs then tz.attrs[key] else Plain(Int(0));
            a.Time? ==> r.Ok?
    ensures var a := if key in tz.attrs then tz.attrs[key] else Plain(Int(0));
            a.Time? && unix ==> r == Ok(Seconds(Epoch(a.t)))
    ensures var a := if key in tz.attrs then tz.attrs[key] else Plain(Int(0));
            a.Time? && !unix ==> r.value.Moment? && Epoch(r.value.a) == Epoch(a.t)
                                 && r.value.a.zone == (if utc then Utc else a.t.zone)
    ensures var a := if key in tz.attrs then tz.attrs[key] else Plain(Int(0));
            a.Plain? ==> (r.Ok? <==> !utc && !unix) && (r.Ok? ==> r.value == Raw(a.v))
  {
    var a := if key in tz.attrs then tz.attrs[key] else Plain(Int(0));
    match a
    case Plain(v) =>
      if utc || unix then Err(WrongType(key)) else Ok(Raw(v))
    case Time(t) =>
      var out := if utc then AsTimeZone(t, Utc) else t;
      if unix then Ok(Seconds(Epoch(out))) else Ok(Moment(out))
  }

  function GetTimeStart(tz: TimeZone, utc: bool, unix: bool): Result<Output> {
    ReadTime(tz, "time_start", utc, unix)
  }

  function GetTimeEnd(tz: TimeZone, utc: bool, unix: bool): Result<Output> {
    ReadTime(tz, "time_end", utc, unix)
  }

  /** The window never runs backwards: the start is `|offset|` seconds
      before the end, whatever the zone and the sign of the offset. */
  lemma WindowOrdered(now: int, zone: Zone, offset: int, kwargs: map<string, Attr>)
    requires "time_start" !in kwargs && "time_end" !in kwargs
    ensures var tz := NewTimeZone(now, Some(zone), offset, kwargs).value;
            && GetTimeStart(tz, false, true).Ok? && GetTimeEnd(tz, false, true).Ok?
            && GetTimeStart(tz, false, true).value.epoch + Abs(offset) == GetTimeEnd(tz, false, true).value.epoch
            && GetTimeStart(tz, false, true).value.epoch <= GetTimeEnd(tz, false, true).value.epoch
  {
  }

  /** The epoch does not depend on the `utc` flag. */
  lemma UnixIgnoresUtc(tz: TimeZone, key: string)
    ensures ReadTime(tz, key, true, true) == ReadTime(tz, key, false, true)
  {
  }

  /** With offset 0 the time is the reference itself; the default window
      starts one day before it. */
  lemma ReferenceOffsets(zone: Zone, now: int)
    ensures GetTime(Some(zone), 0, now) == Ok(Aware(now, zone))
    ensures GetTime(Some(zone), DefaultOffset, now) == Ok(Aware(now - 86400, zone))
  {
  }
}
