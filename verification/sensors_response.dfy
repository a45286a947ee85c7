/** The reshaping of a `GET /v1/sensors` answer. PurpleAir answers in columns:
    one `fields` list of names and one `data` list of rows, each row holding a
    sensor's values in the order of `fields`. The library turns that into a Hash
    keyed by each row's first value (the sensor index) whose values are Hashes
    from field name to value, and keeps five header entries beside it. */
module SensorsResponse {
  import opened Wrappers
  import opened RubyValues

  /** A Ruby Hash as built by the reshaping. */
  type Record = map<Value, Value>

  // ---------------------------------------------------------------------------
  // One row

  /** The record of one row: the value at position `j` is stored under
      `fields[j]`, position by position, so that a later position overwrites an
      earlier one with the same name. An empty row never looks at `fields`. */
  function RecordOf(fields: Value, row: seq<Value>): (r: Result<Record, Error>)
    ensures r.Success? <==> |row| == 0 || Indexable(fields)
    ensures r.Failure? ==> r.error == NoMethodError("[]")
    decreases |row|
  {
    if |row| == 0 then Success(map[])
    else
      var before :- RecordOf(fields, row[..|row| - 1]);
      var name :- Index(fields, |row| - 1);
      Success(before[name := row[|row| - 1]])
  }

  /** The name `fields` gives to position `j`. */
  function FieldName(fields: Value, j: nat): Value
    requires Indexable(fields)
  {
    Index(fields, j).value
  }

  /** No position after `j` of a row of length `n` carries the name of `j`. */
  predicate LastWithName(fields: Value, n: nat, j: nat)
    requires Indexable(fields)
  {
    forall later :: j < later < n ==> FieldName(fields, later) != FieldName(fields, j)
  }

  /** A record has one key per field name the row reaches. */
  lemma {:induction false} RecordKeys(fields: Value, row: seq<Value>)
    requires Indexable(fields)
    ensures RecordOf(fields, row).value.Keys == set j | 0 <= j < |row| :: FieldName(fields, j)
  {
    if |row| > 0 {
      var n := |row| - 1;
      var prefix := row[..n];
      RecordKeys(fields, prefix);
      var before := RecordOf(fields, prefix).value;
      assert RecordOf(fields, row).value == before[FieldName(fields, n) := row[n]];
      var reached := set j | 0 <= j < |row| :: FieldName(fields, j);
      var reachedBefore := set j | 0 <= j < n :: FieldName(fields, j);
      forall x | x in reached ensures x in reachedBefore + {FieldName(fields, n)} {
        var j :| 0 <= j < |row| && FieldName(fields, j) == x;
        if j < n {
          assert x in reachedBefore;
        }
      }
      forall x | x in reachedBefore ensures x in reached {
        var j :| 0 <= j < n && FieldName(fields, j) == x;
      }
    }
  }

  /** Under the name of position `j` a record holds `row[j]` when no later
      position has the same name: the last position with a name wins. */
  lemma {:induction false} RecordLastWins(fields: Value, row: seq<Value>, j: nat)
    requires Indexable(fields)
    requires j < |row| && LastWithName(fields, |row|, j)
    ensures FieldName(fields, j) in RecordOf(fields, row).value
    ensures RecordOf(fields, row).value[FieldName(fields, j)] == row[j]
  {
    var n := |row| - 1;
    var prefix := row[..n];
    var before := RecordOf(fields, prefix).value;
    assert RecordOf(fields, row).value == before[FieldName(fields, n) := row[n]];
    if j < n {
      assert LastWithName(fields, n, j);
      RecordLastWins(fields, prefix, j);
      assert FieldName(fields, n) != FieldName(fields, j);
    }
  }

  /** Names that all differ. */
  predicate Distinct(names: seq<Value>) {
    forall a, b :: 0 <= a < b < |names| ==> names[a] != names[b]
  }

  /** With distinct field names and a row no longer than the field list, the
      record pairs each name with the value at the same position (Ruby's
      `fields.zip(row).to_h`). */
  lemma RecordZipsFields(names: seq<Value>, row: seq<Value>)
    requires Distinct(names) && |row| <= |names|
    ensures RecordOf(Arr(names), row).Success?
    ensures RecordOf(Arr(names), row).value.Keys == set j | 0 <= j < |row| :: names[j]
    ensures forall j :: 0 <= j < |row| ==> RecordOf(Arr(names), row).value[names[j]] == row[j]
  {
    var fields := Arr(names);
    RecordKeys(fields, row);
    assert forall j :: 0 <= j < |row| ==> FieldName(fields, j) == names[j];
    assert (set j | 0 <= j < |row| :: FieldName(fields, j)) == set j | 0 <= j < |row| :: names[j];
    forall j | 0 <= j < |row| ensures RecordOf(fields, row).value[names[j]] == row[j] {
      RecordLastWins(fields, row, j);
    }
  }

  /** A row longer than the field list stores its surplus values under nil,
      the last one winning. */
  lemma RecordSurplusUnderNil(names: seq<Value>, row: seq<Value>)
    requires |row| > |names|
    ensures Nil in RecordOf(Arr(names), row).value
    ensures RecordOf(Arr(names), row).value[Nil] == row[|row| - 1]
  {
    var fields := Arr(names);
    assert FieldName(fields, |row| - 1) == Nil;
    RecordLastWins(fields, row, |row| - 1);
  }

  // ---------------------------------------------------------------------------
  // All rows

  /** The data Hash of `rows`: row after row, the row's first value is bound
      to a fresh record of that row, replacing what an earlier row with the
      same first value left there. A row that is not an Array has no `first`. */
  function DataHash(fields: Value, rows: seq<Value>): (r: Result<Record, Error>)
    decreases |rows|
  {
    if |rows| == 0 then Success(map[])
    else
      var before :- DataHash(fields, rows[..|rows| - 1]);
      var row := rows[|rows| - 1];
      if !row.Arr? then Failure(NoMethodError("first"))
      else
        var record :- RecordOf(fields, row.elems);
        Success(before[First(row.elems) := Hash(record)])
  }

  /** Every row is an Array. */
  predicate AllArrays(rows: seq<Value>) {
    forall i :: 0 <= i < |rows| ==> rows[i].Arr?
  }

  /** Every row is an empty Array. */
  predicate AllEmpty(rows: seq<Value>) {
    forall i :: 0 <= i < |rows| ==> rows[i] == Arr([])
  }

  /** The sensor index of row `i`. */
  function SensorIndexOf(rows: seq<Value>, i: nat): Value
    requires i < |rows| && rows[i].Arr?
  {
    First(rows[i].elems)
  }

  /** Reshaping succeeds exactly when every row is an Array and the field list
      answers `[]` (or no row has a value to name); a failure is the first
      missing `first` or `[]`. */
  lemma {:induction false} DataHashSucceeds(fields: Value, rows: seq<Value>)
    ensures DataHash(fields, rows).Success? <==> AllArrays(rows) && (Indexable(fields) || AllEmpty(rows))
    ensures DataHash(fields, rows).Failure? ==>
              DataHash(fields, rows).error in {NoMethodError("first"), NoMethodError("[]")}
  {
    if |rows| > 0 {
      var n := |rows| - 1;
      DataHashSucceeds(fields, rows[..n]);
      assert forall i :: 0 <= i < n ==> rows[..n][i] == rows[i];
      if rows[n].Arr? && !Indexable(fields) && rows[n] != Arr([]) {
        assert |rows[n].elems| > 0;
      }
    }
  }

  /** The first row that raises ends the reshaping: once some prefix of the
      rows fails, the whole fails with the same error. */
  lemma {:induction false} DataHashPrefixFails(fields: Value, rows: seq<Value>, i: nat)
    requires i <= |rows| && DataHash(fields, rows[..i]).Failure?
    ensures DataHash(fields, rows) == Failure(DataHash(fields, rows[..i]).error)
    decreases |rows| - i
  {
    if i == |rows| {
      assert rows[..i] == rows;
    } else {
      var n := |rows| - 1;
      assert rows[..n][..i] == rows[..i];
      DataHashPrefixFails(fields, rows[..n], i);
    }
  }

  /** The keys of the data Hash are the rows' sensor indices. */
  lemma {:induction false} DataHashKeys(fields: Value, rows: seq<Value>)
    requires DataHash(fields, rows).Success?
    ensures AllArrays(rows)
    ensures DataHash(fields, rows).value.Keys == set i | 0 <= i < |rows| :: SensorIndexOf(rows, i)
  {
    DataHashSucceeds(fields, rows);
    if |rows| > 0 {
      var n := |rows| - 1;
      var prefix := rows[..n];
      assert forall i :: 0 <= i < n ==> prefix[i] == rows[i];
      DataHashKeys(fields, prefix);
      var indices := set i | 0 <= i < |rows| :: SensorIndexOf(rows, i);
      var indicesBefore := set i | 0 <= i < n :: SensorIndexOf(prefix, i);
      assert DataHash(fields, rows).value.Keys == indicesBefore + {SensorIndexOf(rows, n)};
      forall x | x in indices ensures x in indicesBefore + {SensorIndexOf(rows, n)} {
        var i :| 0 <= i < |rows| && SensorIndexOf(rows, i) == x;
        if i < n {
          assert SensorIndexOf(prefix, i) == x;
        }
      }
      forall x | x in indicesBefore ensures x in indices {
        var i :| 0 <= i < n && SensorIndexOf(prefix, i) == x;
        assert SensorIndexOf(rows, i) == x;
      }
    }
  }

  /** No row after `i` has the sensor index of row `i`. */
  predicate LastRowFor(rows: seq<Value>, i: nat)
    requires i < |rows| && AllArrays(rows)
  {
    forall later :: i < later < |rows| ==> SensorIndexOf(rows, later) != SensorIndexOf(rows, i)
  }

  /** Under each sensor index sits the record of the last row with that index. */
  lemma {:induction false} DataHashLastRowWins(fields: Value, rows: seq<Value>, i: nat)
    requires DataHash(fields, rows).Success?
    requires i < |rows| && AllArrays(rows) && LastRowFor(rows, i)
    ensures RecordOf(fields, rows[i].elems).Success?
    ensures SensorIndexOf(rows, i) in DataHash(fields, rows).value
    ensures DataHash(fields, rows).value[SensorIndexOf(rows, i)] == Hash(RecordOf(fields, rows[i].elems).value)
  {
    var n := |rows| - 1;
    var prefix := rows[..n];
    DataHashSucceeds(fields, rows);
    var before := DataHash(fields, prefix).value;
    assert DataHash(fields, rows).value
        == before[SensorIndexOf(rows, n) := Hash(RecordOf(fields, rows[n].elems).value)];
    if i < n {
      assert forall k :: 0 <= k < n ==> prefix[k] == rows[k];
      assert AllArrays(prefix);
      assert LastRowFor(prefix, i) by {
        forall later | i < later < n ensures SensorIndexOf(prefix, later) != SensorIndexOf(prefix, i) {
          assert SensorIndexOf(rows, later) != SensorIndexOf(rows, i);
        }
      }
      DataHashLastRowWins(fields, prefix, i);
      assert SensorIndexOf(rows, n) != SensorIndexOf(rows, i);
    }
  }

  /** Rows with pairwise different sensor indices. */
  predicate DistinctIndices(rows: seq<Value>)
    requires AllArrays(rows)
  {
    forall a, b :: 0 <= a < b < |rows| ==> SensorIndexOf(rows, a) != SensorIndexOf(rows, b)
  }

  /** The data Hash has at most one entry per row, and exactly one per row
      precisely when no two rows share a sensor index. */
  lemma {:induction false} DataHashCount(fields: Value, rows: seq<Value>)
    requires DataHash(fields, rows).Success?
    ensures AllArrays(rows)
    ensures |DataHash(fields, rows).value| <= |rows|
    ensures |DataHash(fields, rows).value| == |rows| <==> DistinctIndices(rows)
  {
    DataHashSucceeds(fields, rows);
    if |rows| > 0 {
      var n := |rows| - 1;
      var prefix := rows[..n];
      assert forall k :: 0 <= k < n ==> prefix[k] == rows[k];
      DataHashCount(fields, prefix);
      DataHashKeys(fields, prefix);
      var before := DataHash(fields, prefix).value;
      var key := SensorIndexOf(rows, n);
      assert DataHash(fields, rows).value == before[key := Hash(RecordOf(fields, rows[n].elems).value)];
      var isNew := forall a :: 0 <= a < n ==> SensorIndexOf(rows, a) != key;
      assert key in before.Keys <==> !isNew by {
        if !isNew {
          var a :| 0 <= a < n && SensorIndexOf(rows, a) == key;
          assert SensorIndexOf(prefix, a) == key;
        }
        if key in before.Keys {
          var a :| 0 <= a < n && SensorIndexOf(prefix, a) == key;
          assert SensorIndexOf(rows, a) == key;
        }
      }
      assert DistinctIndices(rows) <==> DistinctIndices(prefix) && isNew by {
        if DistinctIndices(prefix) && isNew {
          forall a, b | 0 <= a < b < |rows| ensures SensorIndexOf(rows, a) != SensorIndexOf(rows, b) {
            if b < n {
              assert SensorIndexOf(prefix, a) != SensorIndexOf(prefix, b);
            }
          }
        }
        if DistinctIndices(rows) {
          forall a, b | 0 <= a < b < n ensures SensorIndexOf(prefix, a) != SensorIndexOf(prefix, b) {
            assert SensorIndexOf(rows, a) != SensorIndexOf(rows, b);
          }
        }
      }
    }
  }

  /** The record of a two-value row `[key, value]`. */
  lemma PairRecord(fields: Value, key: Value, value: Value)
    requires Indexable(fields)
    ensures RecordOf(fields, [key, value]) == Success(map[FieldName(fields, 0) := key][FieldName(fields, 1) := value])
  {
    assert [key, value][..1] == [key];
    assert [key, value][..1][..0] == [];
    assert RecordOf(fields, [key]) == Success(map[FieldName(fields, 0) := key]);
  }

  /** The records of the pairs of `m` whose keys are in `keys`, each under
      its key. */
  function PairRecords(fields: Value, m: map<Value, Value>, keys: set<Value>): Record
    requires Indexable(fields)
  {
    map key | key in keys && key in m :: Hash(RecordOf(fields, [key, m[key]]).value)
  }

  /** Walking one more pair adds its record under its key. */
  lemma PairRecordsStep(fields: Value, m: map<Value, Value>, keys: set<Value>, key: Value)
    requires Indexable(fields) && key in m
    ensures PairRecords(fields, m, keys + {key}) ==
              PairRecords(fields, m, keys)[key := Hash(RecordOf(fields, [key, m[key]]).value)]
  {
  }

  /** The reshaping of `data` with `fields`: an Array of rows as above; a Hash
      walked pair by pair, each `[key, value]` pair being a two-value row (its
      keys are distinct, so the order of the walk does not matter); anything
      else has no `each`. */
  function DataHashOf(fields: Value, data: Value): (r: Result<Record, Error>)
  {
    match data
    case Arr(rows) => DataHash(fields, rows)
    case Hash(m) =>
      if |m| == 0 then Success(map[])
      else if !Indexable(fields) then Failure(NoMethodError("[]"))
      else Success(PairRecords(fields, m, m.Keys))
    case _ => Failure(NoMethodError("each"))
  }

  // ---------------------------------------------------------------------------
  // The whole answer

  /** `values_at(:fields, :api_version, :time_stamp, :date_time_stamp,
      :max_age)` stored under five names. The fourth is looked up under
      `date_time_stamp` and stored under `data_time_stamp`. An Array answers
      `values_at` but refuses Symbols; other non-Hashes have no `values_at`. */
  function ResponseHeader(json: Value): (r: Result<Record, Error>)
    ensures r.Success? <==> json.Hash?
  {
    match json
    case Hash(m) =>
      Success(map[
        Sym("fields") := Get(m, Sym("fields")),
        Sym("api_version") := Get(m, Sym("api_version")),
        Sym("time_stamp") := Get(m, Sym("time_stamp")),
        Sym("data_time_stamp") := Get(m, Sym("date_time_stamp")),
        Sym("max_age") := Get(m, Sym("max_age"))])
    case Arr(_) => Failure(TypeError(NO_SYMBOL_CONVERSION))
    case _ => Failure(NoMethodError("values_at"))
  }

  /** What `parse_response` computes from the parsed body: the header, then
      the data Hash under `data`. */
  function ParseResponse(json: Value): Result<Value, Error> {
    var header :- ResponseHeader(json);
    var data :- DataHashOf(Get(json.m, Sym("fields")), Get(json.m, Sym("data")));
    Success(Hash(header[Sym("data") := Hash(data)]))
  }

  /** A successful reshaping holds exactly six entries: the four header values
      copied from the body under their own names, `data_time_stamp` copied from
      `date_time_stamp`, and the data Hash built from the body's `fields` and
      `data`; it fails exactly when the body is not a Hash or reshaping fails. */
  lemma ParseResponseRule(json: Value)
    ensures ParseResponse(json).Success? <==>
              json.Hash? && DataHashOf(Get(json.m, Sym("fields")), Get(json.m, Sym("data"))).Success?
    ensures ParseResponse(json).Success? ==>
              var m := json.m;
              var r := ParseResponse(json).value;
              && r.Hash?
              && r.m.Keys == {Sym("fields"), Sym("api_version"), Sym("time_stamp"), Sym("data_time_stamp"),
                              Sym("max_age"), Sym("data")}
              && r.m[Sym("fields")] == Get(m, Sym("fields"))
              && r.m[Sym("api_version")] == Get(m, Sym("api_version"))
              && r.m[Sym("time_stamp")] == Get(m, Sym("time_stamp"))
              && r.m[Sym("data_time_stamp")] == Get(m, Sym("date_time_stamp"))
              && r.m[Sym("max_age")] == Get(m, Sym("max_age"))
              && r.m[Sym("data")] == Hash(DataHashOf(Get(m, Sym("fields")), Get(m, Sym("data"))).value)
  {
  }

  /** The header is read under `date_time_stamp`, a key the answer does not
      carry (its stamp comes as `data_time_stamp`): whatever the body holds
      under `data_time_stamp`, a body without `date_time_stamp` comes out with
      nil there. */
  lemma DataTimeStampDropped(json: Value)
    requires json.Hash? && Sym("date_time_stamp") !in json.m
    requires ParseResponse(json).Success?
    ensures ParseResponse(json).value.m[Sym("data_time_stamp")] == Nil
  {
  }

  // ---------------------------------------------------------------------------
  // Worked examples

  /** Fields `["a", "b"]` and the one row `[1, "x", 2]` give sensor 1 the record
      `{"a" => 1, "b" => "x", nil => 2}`. */
  lemma SurplusValueExample(fields: Value, rows: seq<Value>)
    requires fields == Arr([Str("a"), Str("b")])
    requires rows == [Arr([Int(1), Str("x"), Int(2)])]
    ensures DataHash(fields, rows) ==
              Success(map[Int(1) := Hash(map[Str("a") := Int(1), Str("b") := Str("x"), Nil := Int(2)])])
  {
    var row := rows[0].elems;
    assert row[..2][..1] == [Int(1)];
    assert RecordOf(fields, row[..2][..1]) == Success(map[Str("a") := Int(1)]);
    assert RecordOf(fields, row[..2]) == Success(map[Str("a") := Int(1), Str("b") := Str("x")]);
    assert RecordOf(fields, row) == Success(map[Str("a") := Int(1), Str("b") := Str("x"), Nil := Int(2)]);
    assert rows[..0] == [];
  }

  /** Two rows for the same sensor: the later row's record replaces the
      earlier one entirely. */
  lemma RepeatedSensorExample(fields: Value, rows: seq<Value>)
    requires fields == Arr([Str("sensor_index"), Str("name")])
    requires rows == [Arr([Int(20), Str("Oakdale")]), Arr([Int(20)])]
    ensures DataHash(fields, rows) == Success(map[Int(20) := Hash(map[Str("sensor_index") := Int(20)])])
  {
    var first := rows[0].elems;
    var second := rows[1].elems;
    assert first[..1] == [Int(20)];
    assert RecordOf(fields, first[..1]) == Success(map[Str("sensor_index") := Int(20)]);
    assert RecordOf(fields, first) == Success(map[Str("sensor_index") := Int(20), Str("name") := Str("Oakdale")]);
    assert second[..0] == [];
    assert RecordOf(fields, second) == Success(map[Str("sensor_index") := Int(20)]);
    assert rows[..1][..0] == [];
    assert rows[..1] == [rows[0]];
    assert DataHash(fields, rows[..1][..0]) == Success(map[]);
    assert DataHash(fields, rows[..1]) ==
             Success(map[Int(20) := Hash(map[Str("sensor_index") := Int(20), Str("name") := Str("Oakdale")])]);
    assert rows[..|rows| - 1] == rows[..1];
    assert First(second) == Int(20);
    var earlier := map[Int(20) := Hash(map[Str("sensor_index") := Int(20), Str("name") := Str("Oakdale")])];
    var later := Hash(map[Str("sensor_index") := Int(20)]);
    assert DataHash(fields, rows) == Success(earlier[Int(20) := later]);
    assert earlier[Int(20) := later] == map[Int(20) := later];
  }
}
