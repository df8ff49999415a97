/** Per-version request shaping: the logical-to-wire parameter tables of
    the 0.2.0 and 0.4.0 clients, and the loop both versions use to copy
    logical parameters into `self.params` through `param_schema`. */
module Shaping {
  import opened Results
  import opened Configuration
  import opened ClientBase

  /** `MDSClient020.param_schema`: every logical name is its own wire name. */
  const Schema020: Schema := map[
    "start_time" := "start_time",
    "end_time" := "end_time",
    "bbox" := "bbox",
    "device_id" := "device_id",
    "vehicle_id" := "vehicle_id"]

  /** `MDSClient040.param_schema`: the time window travels as the
      `min_end_time`/`max_end_time` trips query parameters. */
  const Schema040: Schema := map[
    "start_time" := "min_end_time",
    "end_time" := "max_end_time",
    "bbox" := "bbox",
    "device_id" := "device_id",
    "vehicle_id" := "vehicle_id"]

  /** The class attribute `version` each client falls back to. */
  const Version020 := "0.2.0"
  const Version040 := "0.4.0"

  /** One `(logical name, value)` pair of the parameter dictionary, in
      insertion order. */
  type Entry = (string, Value)

  /** The result of the copy loop: the parameters written so far, and the
      index of the entry whose name the schema lacks, if any. */
  datatype Shaped = Shaped(params: Params, failedAt: Option<nat>)

  /** The wire names the entries are written under. */
  function WireNames(schema: Schema, entries: seq<Entry>): (ws: set<string>)
    requires forall i :: 0 <= i < |entries| ==> entries[i].0 in schema
    ensures forall i :: 0 <= i < |entries| ==> schema[entries[i].0] in ws
    ensures forall w :: w in ws ==> exists i :: 0 <= i < |entries| && schema[entries[i].0] == w
  {
    set i | 0 <= i < |entries| :: schema[entries[i].0]
  }

  /** `for key, value in params.items(): self.params[self.param_schema[key]] = value`.
      It stops at the first unknown name (the `KeyError`), keeping what it
      wrote before that. */
  function Shape(params: Params, schema: Schema, entries: seq<Entry>): (r: Shaped)
    decreases |entries|
    ensures r.failedAt.None? <==> forall i :: 0 <= i < |entries| ==> entries[i].0 in schema
    ensures r.failedAt.Some? ==> && r.failedAt.value < |entries|
                                 && entries[r.failedAt.value].0 !in schema
                                 && forall j :: 0 <= j < r.failedAt.value ==> entries[j].0 in schema
  {
    if entries == [] then Shaped(params, None)
    else if entries[0].0 !in schema then Shaped(params, Some(0))
    else
      var rest := Shape(params[schema[entries[0].0] := entries[0].1], schema, entries[1..]);
      Shaped(rest.params, if rest.failedAt.Some? then Some(rest.failedAt.value + 1) else None)
  }

  /** No later entry is written under the same wire name as entry `i`. */
  predicate LastWriter(schema: Schema, entries: seq<Entry>, i: int)
    requires forall k :: 0 <= k < |entries| ==> entries[k].0 in schema
    requires 0 <= i < |entries|
  {
    forall j :: i < j < |entries| ==> schema[entries[j].0] != schema[entries[i].0]
  }

  /** When every name is known, the copy writes exactly the entries' wire
      names, each holding the value of the last entry written under it, and
      leaves every other parameter alone. */
  lemma {:induction false} ShapeWrites(params: Params, schema: Schema, entries: seq<Entry>)
    requires forall i :: 0 <= i < |entries| ==> entries[i].0 in schema
    ensures var r := Shape(params, schema, entries);
            && r.failedAt.None?
            && r.params.Keys == params.Keys + WireNames(schema, entries)
            && (forall i :: 0 <= i < |entries| && LastWriter(schema, entries, i) ==>
                  r.params[schema[entries[i].0]] == entries[i].1)
            && (forall w :: w in params && w !in WireNames(schema, entries) ==> r.params[w] == params[w])
    decreases |entries|
  {
    if entries != [] {
      var w0 := schema[entries[0].0];
      var next := params[w0 := entries[0].1];
      var tail := entries[1..];
      ShapeWrites(next, schema, tail);
      var r := Shape(params, schema, entries);
      var rest := Shape(next, schema, tail);
      assert r.params == rest.params;
      WireNamesCons(schema, entries);
      forall i | 0 <= i < |entries| && LastWriter(schema, entries, i)
        ensures r.params[schema[entries[i].0]] == entries[i].1
      {
        LastWriterCons(schema, entries, i);
      }
    }
  }

  /** The wire names of a non-empty list: the first entry's and the rest's. */
  lemma WireNamesCons(schema: Schema, entries: seq<Entry>)
    requires forall i :: 0 <= i < |entries| ==> entries[i].0 in schema
    requires entries != []
    ensures WireNames(schema, entries) == {schema[entries[0].0]} + WireNames(schema, entries[1..])
  {
    var tail := entries[1..];
    forall w | w in WireNames(schema, entries)
      ensures w in {schema[entries[0].0]} + WireNames(schema, tail)
    {
      var i :| 0 <= i < |entries| && schema[entries[i].0] == w;
      if i > 0 {
        assert tail[i - 1] == entries[i];
      }
    }
    forall w | w in WireNames(schema, tail)
      ensures w in WireNames(schema, entries)
    {
      var i :| 0 <= i < |tail| && schema[tail[i].0] == w;
      assert tail[i] == entries[i + 1];
    }
  }

  /** The last writer of a wire name in a non-empty list: the first entry
      when no later entry shares its name, otherwise the last writer of the rest. */
  lemma LastWriterCons(schema: Schema, entries: seq<Entry>, i: int)
    requires forall k :: 0 <= k < |entries| ==> entries[k].0 in schema
    requires 0 <= i < |entries| && LastWriter(schema, entries, i)
    ensures i == 0 ==> forall k :: 0 <= k < |entries| - 1 ==> schema[entries[1..][k].0] != schema[entries[0].0]
    ensures i > 0 ==> entries[1..][i - 1] == entries[i] && LastWriter(schema, entries[1..], i - 1)
  {
    var tail := entries[1..];
    if i == 0 {
      forall k | 0 <= k < |tail|
        ensures schema[tail[k].0] != schema[entries[0].0]
      {
        assert tail[k] == entries[k + 1];
      }
    } else {
      forall j | i - 1 < j < |tail|
        ensures schema[tail[j].0] != schema[tail[i - 1].0]
      {
        assert tail[j] == entries[j + 1];
      }
    }
  }

  /** Extra keyword arguments: distinct names, none of them a time bound
      (Python binds those to the named parameters). */
  predicate ValidExtras(extras: seq<Entry>) {
    && (forall i :: 0 <= i < |extras| ==> extras[i].0 != "start_time" && extras[i].0 != "end_time")
    && (forall i, j :: 0 <= i < j < |extras| ==> extras[i].0 != extras[j].0)
  }

  /** The parameter dictionary of `MDSClient020._load_params`: the times in
      whole seconds, then the extra keyword arguments. */
  function Entries020(start: int, end: int, extras: seq<Entry>): seq<Entry> {
    [("start_time", Int(start)), ("end_time", Int(end))] + extras
  }

  /** The parameter dictionary of `MDSClient040.get_trips`: the times in
      milliseconds, then the extra keyword arguments. */
  function Entries040(start: int, end: int, extras: seq<Entry>): seq<Entry> {
    [("start_time", Int(start * 1000)), ("end_time", Int(end * 1000))] + extras
  }

  /** `MDSClient020._load_params` with the built-in schema: `start_time` and
      `end_time` carry the seconds, the other parameters are kept. */
  lemma LoadParams020Default(params: Params, start: int, end: int)
    ensures var r := Shape(params, Schema020, Entries020(start, end, []));
            && r.failedAt.None?
            && r.params.Keys == params.Keys + {"start_time", "end_time"}
            && r.params["start_time"] == Int(start)
            && r.params["end_time"] == Int(end)
            && forall w :: w in params && w != "start_time" && w != "end_time" ==> r.params[w] == params[w]
  {
    var entries := Entries020(start, end, []);
    assert entries[0].0 == "start_time" && entries[1].0 == "end_time";
    ShapeWrites(params, Schema020, entries);
    assert WireNames(Schema020, entries) == {"start_time", "end_time"};
    assert LastWriter(Schema020, entries, 0) && LastWriter(Schema020, entries, 1);
  }

  /** Entries written under pairwise different wire names. */
  predicate DistinctWires(schema: Schema, entries: seq<Entry>)
    requires forall k :: 0 <= k < |entries| ==> entries[k].0 in schema
  {
    forall i, j :: 0 <= i < j < |entries| ==> schema[entries[i].0] != schema[entries[j].0]
  }

  /** The 0.4.0 entries for extra arguments the built-in schema knows are all
      known, and land under pairwise different wire names. */
  lemma Entries040Distinct(start: int, end: int, extras: seq<Entry>)
    requires ValidExtras(extras)
    requires forall i :: 0 <= i < |extras| ==> extras[i].0 in {"bbox", "device_id", "vehicle_id"}
    ensures var entries := Entries040(start, end, extras);
            && (forall i :: 0 <= i < |entries| ==> entries[i].0 in Schema040)
            && DistinctWires(Schema040, entries)
            && Schema040[entries[0].0] == "min_end_time"
            && Schema040[entries[1].0] == "max_end_time"
            && forall i :: 0 <= i < |extras| ==> entries[i + 2] == extras[i] && Schema040[extras[i].0] == extras[i].0
  {
    var entries := Entries040(start, end, extras);
    forall i | 0 <= i < |extras|
      ensures entries[i + 2] == extras[i] && extras[i].0 in Schema040 && Schema040[extras[i].0] == extras[i].0
    {
      Schema040Extra(extras[i].0);
    }
    forall i | 0 <= i < |entries|
      ensures entries[i].0 in Schema040
    {
      if i >= 2 {
        assert entries[i] == extras[i - 2];
      }
    }
    forall i, j | 0 <= i < j < |entries|
      ensures Schema040[entries[i].0] != Schema040[entries[j].0]
    {
      if j >= 2 {
        assert entries[j] == extras[j - 2];
        Schema040Extra(extras[j - 2].0);
      }
      if i >= 2 {
        assert entries[i] == extras[i - 2];
      }
    }
  }

  /** The extra arguments the built-in 0.4.0 schema knows keep their names,
      which differ from the time-window names. */
  lemma Schema040Extra(name: string)
    requires name in {"bbox", "device_id", "vehicle_id"}
    ensures name in Schema040 && Schema040[name] == name
    ensures name != "min_end_time" && name != "max_end_time"
  {
  }

  /** The 0.4.0 request shaping with the built-in schema: the window travels
      in milliseconds as `min_end_time`/`max_end_time`, every extra argument
      lands under its own name, other parameters are kept. */
  lemma Shape040Default(params: Params, start: int, end: int, extras: seq<Entry>)
    requires ValidExtras(extras)
    requires forall i :: 0 <= i < |extras| ==> extras[i].0 in {"bbox", "device_id", "vehicle_id"}
    ensures var r := Shape(params, Schema040, Entries040(start, end, extras));
            && r.failedAt.None?
            && "min_end_time" in r.params && r.params["min_end_time"] == Int(start * 1000)
            && "max_end_time" in r.params && r.params["max_end_time"] == Int(end * 1000)
            && (forall i :: 0 <= i < |extras| ==> extras[i].0 in r.params && r.params[extras[i].0] == extras[i].1)
            && (forall w :: w in params && w !in {"min_end_time", "max_end_time"} && !Names(extras, w) ==>
                  w in r.params && r.params[w] == params[w])
  {
    var entries := Entries040(start, end, extras);
    Entries040Distinct(start, end, extras);
    ShapeWrites(params, Schema040, entries);
    var r := Shape(params, Schema040, entries);
    assert LastWriter(Schema040, entries, 0) && LastWriter(Schema040, entries, 1);
    forall i | 0 <= i < |extras|
      ensures extras[i].0 in r.params && r.params[extras[i].0] == extras[i].1
    {
      assert LastWriter(Schema040, entries, i + 2);
    }
    forall w | w in params && w !in {"min_end_time", "max_end_time"} && !Names(extras, w)
      ensures w in r.params && r.params[w] == params[w]
    {
      forall k | 0 <= k < |entries|
        ensures Schema040[entries[k].0] != w
      {
        if k >= 2 {
          assert entries[k] == extras[k - 2];
        }
      }
    }
  }

  /** Some extra argument has the name `w`. */
  predicate Names(extras: seq<Entry>, w: string) {
    exists i :: 0 <= i < |extras| && extras[i].0 == w
  }

  /** A parameter override for `start_time` moves the start bound to the new
      wire name. */
  lemma OverrideMovesStart(params: Params, start: int, end: int, wire: string)
    requires wire != "end_time"
    ensures var schema := ApplyOverrides(Schema020, Dict(map["start_time" := wire]));
            var r := Shape(params, schema, Entries020(start, end, []));
            && r.failedAt.None?
            && wire in r.params && r.params[wire] == Int(start)
            && "end_time" in r.params && r.params["end_time"] == Int(end)
  {
    var schema := ApplyOverrides(Schema020, Dict(map["start_time" := wire]));
    var entries := Entries020(start, end, []);
    assert schema["start_time"] == wire && schema["end_time"] == "end_time";
    assert entries[0].0 == "start_time" && entries[1].0 == "end_time";
    ShapeWrites(params, schema, entries);
    assert LastWriter(schema, entries, 0) && LastWriter(schema, entries, 1);
  }

  /** Any logical name missing from the schema makes the copy fail, at the
      first such name. */
  lemma UnknownNameFails(params: Params, schema: Schema, entries: seq<Entry>, k: nat)
    requires k < |entries| && entries[k].0 !in schema
    requires forall j :: 0 <= j < k ==> entries[j].0 in schema
    ensures Shape(params, schema, entries).failedAt == Some(k)
  {
    var r := Shape(params, schema, entries);
    assert r.failedAt.Some?;
  }
}
