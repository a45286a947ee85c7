/** The translation of the bulk query's options into the query parameters of
    `GET /v1/sensors`: one rule per recognised option, each returning a small
    Hash of parameters or raising, and `create_options_hash`, which evaluates
    them in order and merges what they return. Options the rules do not name
    are ignored. */
module SensorsOptions {
  import opened Wrappers
  import opened RubyValues

  /** A Ruby Hash with Symbol keys: the caller's keyword options, or the query
      parameters. */
  type Params = map<Value, Value>

  /** The fields requested when the caller names none. */
  const DEFAULT_FIELDS: seq<string> := ["icon", "name", "latitude", "longitude", "altitude", "pm2.5"]

  const FIELDS_ERROR := "fields must be an array of strings specifying the fields you want returned"
  const SHOW_ONLY_ERROR := "show_only must be an array of integers specifying the sensor indices you data returned for"
  const LOCATION_TYPE_ERROR := "location_type must be an array of strings specifying either ['inside'], ['outside'], or both"
  const TIMESTAMP_ERROR := "timestamp must be a valid Integer"
  const SECONDS_ERROR := "seconds must be a valid Integer"
  const COORDINATES_ERROR := "coordinates must be a Hash with a :nw and :se array containing [lat, long]"
  const READ_KEYS_ERROR := "read_keys must be an Array of Strings"

  /** Every parameter name a rule can produce. */
  const PARAMETER_NAMES: set<Value> := {
    Sym("fields"), Sym("location_type"), Sym("show_only"), Sym("modified_since"), Sym("max_age"),
    Sym("nwlat"), Sym("nwlng"), Sym("selat"), Sym("selng"), Sym("read_keys")
  }

  /** Ruby Integers holding `ids`. */
  function Ints(ids: seq<int>): (r: seq<Value>)
    ensures |r| == |ids|
    ensures forall k :: 0 <= k < |ids| ==> r[k] == Int(ids[k])
  {
    seq(|ids|, k requires 0 <= k < |ids| => Int(ids[k]))
  }

  /** An Array whose first element is a String (the only element checked). */
  predicate StartsWithString(v: Value) {
    v.Arr? && |v.elems| > 0 && v.elems[0].Str?
  }

  /** An Array whose first element is an Integer (the only element checked). */
  predicate StartsWithInteger(v: Value) {
    v.Arr? && |v.elems| > 0 && v.elems[0].Int?
  }

  predicate AllIntegers(elems: seq<Value>) {
    forall k :: 0 <= k < |elems| ==> elems[k].Int?
  }

  // ---------------------------------------------------------------------------
  // One rule per option

  function Fields(fieldsArray: Value): (r: Result<Params, Error>)
    ensures r.Success? ==> r.value.Keys == {Sym("fields")}
  {
    if StartsWithString(fieldsArray) then Success(map[Sym("fields") := Str(Join(fieldsArray.elems, ","))])
    else Failure(OptionsError(FIELDS_ERROR))
  }

  function ShowOnly(sensorIndices: Value): (r: Result<Params, Error>)
    ensures r.Success? ==> r.value.Keys == if sensorIndices == Nil then {} else {Sym("show_only")}
  {
    if sensorIndices == Nil then Success(map[])
    else if StartsWithInteger(sensorIndices) then Success(map[Sym("show_only") := Str(Join(sensorIndices.elems, ","))])
    else Failure(OptionsError(SHOW_ONLY_ERROR))
  }

  /** `Array#map(&:downcase)`: raises at the first element without `downcase`. */
  function DowncaseAll(elems: seq<Value>): Result<seq<Value>, Error> {
    if |elems| == 0 then Success([])
    else
      var head :- DowncaseValue(elems[0]);
      var tail :- DowncaseAll(elems[1..]);
      Success([head] + tail)
  }

  function LocationType(locationType: Value): (r: Result<Params, Error>)
    ensures r.Success? ==> r.value.Keys <= {Sym("location_type")}
    ensures r.Success? && locationType == Nil ==> r.value == map[]
  {
    if locationType == Nil then Success(map[])
    else if !StartsWithString(locationType) then Failure(OptionsError(LOCATION_TYPE_ERROR))
    else
      var lowered :- DowncaseAll(locationType.elems);
      LocationTypeParameter(lowered)
  }

  function LocationTypeParameter(locationType: seq<Value>): (r: Result<Params, Error>)
    ensures r.Success? ==> r.value.Keys <= {Sym("location_type")}
  {
    if Str("outside") in locationType && Str("inside") in locationType then Success(map[])
    else if Str("inside") in locationType then Success(map[Sym("location_type") := Int(1)])
    else if Str("outside") in locationType then Success(map[Sym("location_type") := Int(0)])
    else Failure(OptionsError(LOCATION_TYPE_ERROR))
  }

  /** `modified_since`: absent adds nothing, an Integer passes through
      unchanged, anything else is refused. */
  function ModifiedSince(timestamp: Value): (r: Result<Params, Error>)
    ensures r.Success? <==> timestamp == Nil || timestamp.Int?
    ensures r.Failure? ==> r.error == OptionsError(TIMESTAMP_ERROR)
    ensures r.Success? ==> r.value == if timestamp == Nil then map[] else map[Sym("modified_since") := timestamp]
  {
    if timestamp == Nil then Success(map[])
    else if !timestamp.Int? then Failure(OptionsError(TIMESTAMP_ERROR))
    else Success(map[Sym("modified_since") := timestamp])
  }

  /** `max_age`: absent adds nothing, an Integer passes through unchanged,
      anything else is refused. */
  function MaxAge(seconds: Value): (r: Result<Params, Error>)
    ensures r.Success? <==> seconds == Nil || seconds.Int?
    ensures r.Failure? ==> r.error == OptionsError(SECONDS_ERROR)
    ensures r.Success? ==> r.value == if seconds == Nil then map[] else map[Sym("max_age") := seconds]
  {
    if seconds == Nil then Success(map[])
    else if !seconds.Int? then Failure(OptionsError(SECONDS_ERROR))
    else Success(map[Sym("max_age") := seconds])
  }

  /** The corner check short-circuits: `:se` is looked at only when `:nw` has
      length 2, and a corner without `length` (nil, when the key is missing)
      raises NoMethodError rather than OptionsError. */
  function BoundingBox(coordinates: Value): (r: Result<Params, Error>)
    ensures r.Success? ==> r.value.Keys == if coordinates == Nil then {} else {Sym("nwlat"), Sym("nwlng"), Sym("selat"), Sym("selng")}
  {
    if coordinates == Nil then Success(map[])
    else if !coordinates.Hash? then Failure(OptionsError(COORDINATES_ERROR))
    else
      var nw := Get(coordinates.m, Sym("nw"));
      var nwLength :- Length(nw);
      if nwLength != 2 then Failure(OptionsError(COORDINATES_ERROR))
      else
        var se := Get(coordinates.m, Sym("se"));
        var seLength :- Length(se);
        if seLength != 2 then Failure(OptionsError(COORDINATES_ERROR))
        else
          // a corner that answers `length` also answers `[]`
          Success(map[Sym("nwlat") := Index(nw, 0).value, Sym("nwlng") := Index(nw, 1).value,
                      Sym("selat") := Index(se, 0).value, Sym("selng") := Index(se, 1).value])
  }

  function ReadKeys(keys: Value): (r: Result<Params, Error>)
    ensures r.Success? ==> r.value.Keys == if keys == Nil then {} else {Sym("read_keys")}
  {
    if keys == Nil then Success(map[])
    else if StartsWithString(keys) then Success(map[Sym("read_keys") := Str(Join(keys.elems, ","))])
    else Failure(OptionsError(READ_KEYS_ERROR))
  }

  /** The query parameters for the caller's options: the rules evaluated in
      the order of the code, the first that raises deciding the error, and the
      results merged. A missing or falsy `:fields` falls back to the default
      fields. */
  function TranslateOptions(options: Params): Result<Params, Error> {
    var given := Get(options, Sym("fields"));
    var fields :- Fields(if Truthy(given) then given else Arr(Strs(DEFAULT_FIELDS)));
    var locationType :- LocationType(Get(options, Sym("location_type")));
    var showOnly :- ShowOnly(Get(options, Sym("show_only")));
    var modifiedSince :- ModifiedSince(Get(options, Sym("modified_since")));
    var maxAge :- MaxAge(Get(options, Sym("max_age")));
    var boundingBox :- BoundingBox(Get(options, Sym("bounding_box")));
    var readKeys :- ReadKeys(Get(options, Sym("read_keys")));
    Success(fields + locationType + showOnly + modifiedSince + maxAge + boundingBox + readKeys)
  }

  // ---------------------------------------------------------------------------
  // What each rule promises

  /** `fields` accepts exactly the Arrays whose first element is a String (an
      empty Array is refused) and yields the one parameter `fields`; when no
      element is an Array or has a comma in its text, cutting the parameter at
      its commas gives back the elements' texts in order. */
  lemma {:induction false} FieldsRule(fieldsArray: Value)
    ensures Fields(fieldsArray).Success? <==> StartsWithString(fieldsArray)
    ensures Fields(fieldsArray).Failure? ==> Fields(fieldsArray).error == OptionsError(FIELDS_ERROR)
    ensures Fields(fieldsArray).Success? ==> Fields(fieldsArray).value.Keys == {Sym("fields")}
    ensures Fields(fieldsArray).Success? && JoinsBack(fieldsArray.elems, ',') ==>
              Split(Fields(fieldsArray).value[Sym("fields")].s, ',') == Texts(fieldsArray.elems)
  {
    if StartsWithString(fieldsArray) && JoinsBack(fieldsArray.elems, ',') {
      SplitJoin(fieldsArray.elems, ',');
    }
  }

  /** `read_keys` adds nothing when absent, otherwise follows the same rule as
      `fields`: an Array starting with a String, comma-joined, and split back
      into the keys' texts when none contains a comma. */
  lemma {:induction false} ReadKeysRule(keys: Value)
    ensures keys == Nil ==> ReadKeys(keys) == Success(map[])
    ensures keys != Nil ==> (ReadKeys(keys).Success? <==> StartsWithString(keys))
    ensures ReadKeys(keys).Failure? ==> ReadKeys(keys).error == OptionsError(READ_KEYS_ERROR)
    ensures ReadKeys(keys).Success? && keys != Nil ==> ReadKeys(keys).value.Keys == {Sym("read_keys")}
    ensures ReadKeys(keys).Success? && keys != Nil && JoinsBack(keys.elems, ',') ==>
              Split(ReadKeys(keys).value[Sym("read_keys")].s, ',') == Texts(keys.elems)
  {
    if StartsWithString(keys) && JoinsBack(keys.elems, ',') {
      SplitJoin(keys.elems, ',');
    }
  }

  lemma IntegersJoinBack(elems: seq<Value>)
    requires AllIntegers(elems)
    ensures JoinsBack(elems, ',')
  {
    forall k | 0 <= k < |elems|
      ensures !elems[k].Arr? && !elems[k].Hash? && ',' !in ToS(elems[k])
    {
    }
  }

  /** `show_only` adds nothing when absent, refuses everything but an Array
      starting with an Integer, and for an Array of Integers yields a
      `show_only` parameter whose comma-separated pieces read back as exactly
      those integers, in order. */
  lemma {:induction false} ShowOnlyRule(sensorIndices: Value)
    ensures sensorIndices == Nil ==> ShowOnly(sensorIndices) == Success(map[])
    ensures sensorIndices != Nil ==> (ShowOnly(sensorIndices).Success? <==> StartsWithInteger(sensorIndices))
    ensures ShowOnly(sensorIndices).Failure? ==> ShowOnly(sensorIndices).error == OptionsError(SHOW_ONLY_ERROR)
    ensures ShowOnly(sensorIndices).Success? && sensorIndices != Nil ==>
              ShowOnly(sensorIndices).value.Keys == {Sym("show_only")}
    ensures ShowOnly(sensorIndices).Success? && sensorIndices != Nil && AllIntegers(sensorIndices.elems) ==>
              var pieces := Split(ShowOnly(sensorIndices).value[Sym("show_only")].s, ',');
              |pieces| == |sensorIndices.elems| &&
              forall k :: 0 <= k < |pieces| ==> ParseDecimal(pieces[k]) == Some(sensorIndices.elems[k].i)
  {
    if StartsWithInteger(sensorIndices) && AllIntegers(sensorIndices.elems) {
      var elems := sensorIndices.elems;
      IntegersJoinBack(elems);
      SplitJoin(elems, ',');
      forall k | 0 <= k < |elems|
        ensures ParseDecimal(Texts(elems)[k]) == Some(elems[k].i)
      {
        DecimalRoundTrip(elems[k].i);
      }
    }
  }

  /** The lower-cased texts of the Strings among `elems`. */
  function LowerNames(elems: seq<Value>): set<string> {
    set k | 0 <= k < |elems| && elems[k].Str? :: Downcase(elems[k].s)
  }

  /** Every element answers `downcase`. */
  predicate AllNames(elems: seq<Value>) {
    forall k :: 0 <= k < |elems| ==> elems[k].Str? || elems[k].Sym?
  }

  lemma {:induction false} DowncaseAllRule(elems: seq<Value>)
    ensures AllNames(elems) ==> DowncaseAll(elems).Success?
    ensures AllNames(elems) ==> |DowncaseAll(elems).value| == |elems|
    ensures AllNames(elems) ==>
              forall k :: 0 <= k < |elems| ==> DowncaseAll(elems).value[k] == DowncaseValue(elems[k]).value
    ensures AllNames(elems) ==> forall x :: Str(x) in DowncaseAll(elems).value <==> x in LowerNames(elems)
    ensures !AllNames(elems) ==> DowncaseAll(elems) == Failure(NoMethodError("downcase"))
  {
    if |elems| > 0 {
      var rest := elems[1..];
      DowncaseAllRule(rest);
      assert AllNames(elems) ==> AllNames(rest) by {
        if AllNames(elems) {
          forall k | 0 <= k < |rest| ensures rest[k].Str? || rest[k].Sym? {
            assert rest[k] == elems[k + 1];
          }
        }
      }
      assert !AllNames(elems) && (elems[0].Str? || elems[0].Sym?) ==> !AllNames(rest) by {
        if !AllNames(elems) && (elems[0].Str? || elems[0].Sym?) {
          var k :| 0 <= k < |elems| && !(elems[k].Str? || elems[k].Sym?);
          assert rest[k - 1] == elems[k];
        }
      }
      if AllNames(elems) {
        var out := DowncaseAll(elems).value;
        assert out == [DowncaseValue(elems[0]).value] + DowncaseAll(rest).value;
        forall k | 0 < k < |elems| ensures out[k] == DowncaseValue(elems[k]).value {
          assert rest[k - 1] == elems[k];
        }
      }
      var head := if elems[0].Str? then {Downcase(elems[0].s)} else {};
      assert LowerNames(elems) == head + LowerNames(rest) by {
        forall x | x in LowerNames(elems) ensures x in head + LowerNames(rest) {
          var k :| 0 <= k < |elems| && elems[k].Str? && Downcase(elems[k].s) == x;
          if k > 0 {
            assert rest[k - 1] == elems[k];
          }
        }
        forall x | x in LowerNames(rest) ensures x in LowerNames(elems) {
          var k :| 0 <= k < |rest| && rest[k].Str? && Downcase(rest[k].s) == x;
          assert elems[k + 1] == rest[k];
        }
      }
    }
  }

  /** `location_type` adds nothing when absent; refuses with OptionsError a
      value that is not an Array starting with a String; raises NoMethodError
      when a later element has no `downcase`; and otherwise compares the names
      case-insensitively: both `inside` and `outside` add nothing, only
      `inside` gives code 1, only `outside` gives code 0, neither is refused. */
  lemma {:induction false} LocationTypeRule(locationType: Value)
    ensures locationType == Nil ==> LocationType(locationType) == Success(map[])
    ensures locationType != Nil && !StartsWithString(locationType) ==>
              LocationType(locationType) == Failure(OptionsError(LOCATION_TYPE_ERROR))
    ensures StartsWithString(locationType) && !AllNames(locationType.elems) ==>
              LocationType(locationType) == Failure(NoMethodError("downcase"))
    ensures StartsWithString(locationType) && AllNames(locationType.elems) ==>
              var names := LowerNames(locationType.elems);
              LocationType(locationType) ==
                if "inside" in names && "outside" in names then Success(map[])
                else if "inside" in names then Success(map[Sym("location_type") := Int(1)])
                else if "outside" in names then Success(map[Sym("location_type") := Int(0)])
                else Failure(OptionsError(LOCATION_TYPE_ERROR))
  {
    if StartsWithString(locationType) {
      DowncaseAllRule(locationType.elems);
    }
  }

  /** `bounding_box` adds nothing when absent and refuses a non-Hash with
      OptionsError; a Hash whose `:nw` and `:se` are Arrays is accepted exactly
      when both have two elements and then expands to the four corner
      parameters; a Hash without `:nw` raises NoMethodError instead. */
  lemma BoundingBoxRule(coordinates: Value)
    ensures coordinates == Nil ==> BoundingBox(coordinates) == Success(map[])
    ensures coordinates != Nil && !coordinates.Hash? ==>
              BoundingBox(coordinates) == Failure(OptionsError(COORDINATES_ERROR))
    ensures coordinates.Hash? && Sym("nw") !in coordinates.m ==>
              BoundingBox(coordinates) == Failure(NoMethodError("length"))
    ensures coordinates.Hash? && Get(coordinates.m, Sym("nw")).Arr? && Get(coordinates.m, Sym("se")).Arr? ==>
              var nw := Get(coordinates.m, Sym("nw")).elems;
              var se := Get(coordinates.m, Sym("se")).elems;
              BoundingBox(coordinates) ==
                if |nw| == 2 && |se| == 2
                then Success(map[Sym("nwlat") := nw[0], Sym("nwlng") := nw[1], Sym("selat") := se[0], Sym("selng") := se[1]])
                else Failure(OptionsError(COORDINATES_ERROR))
  {
  }

  // ---------------------------------------------------------------------------
  // What the whole translation promises

  /** The rule results a successful translation is made of. */
  predicate RulesSucceed(options: Params) {
    var given := Get(options, Sym("fields"));
    && Fields(if Truthy(given) then given else Arr(Strs(DEFAULT_FIELDS))).Success?
    && LocationType(Get(options, Sym("location_type"))).Success?
    && ShowOnly(Get(options, Sym("show_only"))).Success?
    && ModifiedSince(Get(options, Sym("modified_since"))).Success?
    && MaxAge(Get(options, Sym("max_age"))).Success?
    && BoundingBox(Get(options, Sym("bounding_box"))).Success?
    && ReadKeys(Get(options, Sym("read_keys"))).Success?
  }

  /** The translation succeeds exactly when every rule does, and then merges
      the rules' parameters. */
  lemma TranslateOptionsMerges(options: Params)
    ensures TranslateOptions(options).Success? <==> RulesSucceed(options)
    ensures RulesSucceed(options) ==>
              var given := Get(options, Sym("fields"));
              TranslateOptions(options).value ==
                Fields(if Truthy(given) then given else Arr(Strs(DEFAULT_FIELDS))).value
                + LocationType(Get(options, Sym("location_type"))).value
                + ShowOnly(Get(options, Sym("show_only"))).value
                + ModifiedSince(Get(options, Sym("modified_since"))).value
                + MaxAge(Get(options, Sym("max_age"))).value
                + BoundingBox(Get(options, Sym("bounding_box"))).value
                + ReadKeys(Get(options, Sym("read_keys"))).value
  {
  }

  /** A successful translation names only known parameters; always carries
      `fields` (the default list joined when `:fields` is missing or falsy);
      carries `show_only`, `read_keys`, `modified_since`, `max_age` and the
      four corners exactly when the option is given (not nil), the two
      integers passed through unchanged; and carries `location_type` only when
      that option is given. */
  lemma TranslateOptionsRule(options: Params)
    ensures var r := TranslateOptions(options);
      r.Success? ==>
        && r.value.Keys <= PARAMETER_NAMES
        && Sym("fields") in r.value
        && (!Truthy(Get(options, Sym("fields"))) ==>
              r.value[Sym("fields")] == Str("icon,name,latitude,longitude,altitude,pm2.5"))
        && (Sym("show_only") in r.value <==> Get(options, Sym("show_only")) != Nil)
        && (Sym("read_keys") in r.value <==> Get(options, Sym("read_keys")) != Nil)
        && (Sym("modified_since") in r.value <==> Get(options, Sym("modified_since")) != Nil)
        && (Sym("modified_since") in r.value ==>
              r.value[Sym("modified_since")] == Get(options, Sym("modified_since")))
        && (Sym("max_age") in r.value <==> Get(options, Sym("max_age")) != Nil)
        && (Sym("max_age") in r.value ==> r.value[Sym("max_age")] == Get(options, Sym("max_age")))
        && (Sym("nwlat") in r.value <==> Get(options, Sym("bounding_box")) != Nil)
        && (Sym("location_type") in r.value ==> Get(options, Sym("location_type")) != Nil)
  {
    TranslateOptionsMerges(options);
    if RulesSucceed(options) {
      var given := Get(options, Sym("fields"));
      MergeKeys(Fields(if Truthy(given) then given else Arr(Strs(DEFAULT_FIELDS))).value,
                LocationType(Get(options, Sym("location_type"))).value,
                ShowOnly(Get(options, Sym("show_only"))).value,
                ModifiedSince(Get(options, Sym("modified_since"))).value,
                MaxAge(Get(options, Sym("max_age"))).value,
                BoundingBox(Get(options, Sym("bounding_box"))).value,
                ReadKeys(Get(options, Sym("read_keys"))).value);
      MergedKeysKnown(Fields(if Truthy(given) then given else Arr(Strs(DEFAULT_FIELDS))).value,
                      LocationType(Get(options, Sym("location_type"))).value,
                      ShowOnly(Get(options, Sym("show_only"))).value,
                      ModifiedSince(Get(options, Sym("modified_since"))).value,
                      MaxAge(Get(options, Sym("max_age"))).value,
                      BoundingBox(Get(options, Sym("bounding_box"))).value,
                      ReadKeys(Get(options, Sym("read_keys"))).value);
      if !Truthy(given) {
        var names := DEFAULT_FIELDS;
        DefaultFieldsJoined(names);
      }
    }
  }

  /** Merging one result per rule: every key comes from the rule that owns it,
      and `fields`, `modified_since` and `max_age` keep that rule's value. */
  lemma MergeKeys(f: Params, l: Params, s: Params, m: Params, a: Params, b: Params, k: Params)
    requires f.Keys == {Sym("fields")}
    requires l.Keys <= {Sym("location_type")}
    requires s.Keys <= {Sym("show_only")}
    requires m.Keys <= {Sym("modified_since")}
    requires a.Keys <= {Sym("max_age")}
    requires b.Keys <= {Sym("nwlat"), Sym("nwlng"), Sym("selat"), Sym("selng")}
    requires k.Keys <= {Sym("read_keys")}
    ensures var u := f + l + s + m + a + b + k;
      && u[Sym("fields")] == f[Sym("fields")]
      && (Sym("location_type") in u ==> Sym("location_type") in l)
      && (Sym("show_only") in u <==> Sym("show_only") in s)
      && (Sym("modified_since") in u <==> Sym("modified_since") in m)
      && (Sym("modified_since") in m ==> u[Sym("modified_since")] == m[Sym("modified_since")])
      && (Sym("max_age") in u <==> Sym("max_age") in a)
      && (Sym("max_age") in a ==> u[Sym("max_age")] == a[Sym("max_age")])
      && (Sym("nwlat") in u <==> Sym("nwlat") in b)
      && (Sym("read_keys") in u <==> Sym("read_keys") in k)
  {
  }

  /** Merging one result per rule names only known parameters. */
  lemma MergedKeysKnown(f: Params, l: Params, s: Params, m: Params, a: Params, b: Params, k: Params)
    requires f.Keys == {Sym("fields")}
    requires l.Keys <= {Sym("location_type")}
    requires s.Keys <= {Sym("show_only")}
    requires m.Keys <= {Sym("modified_since")}
    requires a.Keys <= {Sym("max_age")}
    requires b.Keys <= {Sym("nwlat"), Sym("nwlng"), Sym("selat"), Sym("selng")}
    requires k.Keys <= {Sym("read_keys")}
    ensures (f + l + s + m + a + b + k).Keys <= PARAMETER_NAMES
  {
  }

  /** The default fields travel as `icon,name,latitude,longitude,altitude,pm2.5`. */
  lemma DefaultFieldsJoined(names: seq<string>)
    requires names == DEFAULT_FIELDS
    ensures Join(Strs(names), ",") == "icon,name,latitude,longitude,altitude,pm2.5"
  {
    JoinStrs(names, ",");
    DefaultFieldsText();
  }

  lemma DefaultFieldsText()
    ensures JoinNames(DEFAULT_FIELDS, ",") == "icon,name,latitude,longitude,altitude,pm2.5"
  {
    DefaultFieldsUnfolded();
    DefaultFieldsSpelled();
  }

  /** `JoinNames` unfolded over the six names. */
  lemma DefaultFieldsUnfolded()
    ensures JoinNames(DEFAULT_FIELDS, ",") == "icon" + "," + "name" + "," + "latitude" + "," + "longitude" + "," + "altitude" + "," + "pm2.5"
  {
    JoinNamesStep("altitude", ["pm2.5"], "pm2.5");
    JoinNamesStep("longitude", ["altitude", "pm2.5"], "altitude" + "," + "pm2.5");
    JoinNamesStep("latitude", ["longitude", "altitude", "pm2.5"], "longitude" + "," + ("altitude" + "," + "pm2.5"));
    JoinNamesStep("name", ["latitude", "longitude", "altitude", "pm2.5"], "latitude" + "," + ("longitude" + "," + ("altitude" + "," + "pm2.5")));
    JoinNamesStep("icon", ["name", "latitude", "longitude", "altitude", "pm2.5"], "name" + "," + ("latitude" + "," + ("longitude" + "," + ("altitude" + "," + "pm2.5"))));
    assert ["icon"] + ["name", "latitude", "longitude", "altitude", "pm2.5"] == DEFAULT_FIELDS;
  }

  /** The names and commas spelled out as one text. */
  lemma DefaultFieldsSpelled()
    ensures "icon" + "," + "name" + "," + "latitude" + "," + "longitude" + "," + "altitude" + "," + "pm2.5" == "icon,name,latitude,longitude,altitude,pm2.5"
  {
  }

  /** One step of the comma-joined text: the first name, a comma, the rest. */
  lemma JoinNamesStep(name: string, rest: seq<string>, restText: string)
    requires |rest| > 0 && JoinNames(rest, ",") == restText
    ensures JoinNames([name] + rest, ",") == name + "," + restText
  {
    assert ([name] + rest)[1..] == rest;
  }

  /** The fields requested by the library's own test with every option given. */
  const EXAMPLE_FIELDS: seq<string> := ["icon", "name", "latitude", "longitude", "altitude", "pm1.0"]

  /** The options of the library's own test with every option given translate
      to exactly the ten expected parameters. */
  lemma AllOptionsExample(options: Params)
    requires Get(options, Sym("fields")) == Arr(Strs(EXAMPLE_FIELDS))
    requires Get(options, Sym("location_type")) == Arr([Str("inside")])
    requires Get(options, Sym("show_only")) == Arr(Ints([50, 70, 90]))
    requires Get(options, Sym("modified_since")) == Int(1614480946)
    requires Get(options, Sym("max_age")) == Int(3600)
    requires Get(options, Sym("bounding_box")) ==
               Hash(map[Sym("nw") := Arr([Int(49), Int(33)]), Sym("se") := Arr([Int(22), Int(27)])])
    requires Get(options, Sym("read_keys")) == Arr(Strs(["key-one", "key-two"]))
    ensures TranslateOptions(options) == Success(map[
              Sym("fields") := Str("icon,name,latitude,longitude,altitude,pm1.0"),
              Sym("max_age") := Int(3600),
              Sym("modified_since") := Int(1614480946),
              Sym("nwlat") := Int(49),
              Sym("nwlng") := Int(33),
              Sym("read_keys") := Str("key-one,key-two"),
              Sym("selat") := Int(22),
              Sym("selng") := Int(27),
              Sym("show_only") := Str("50,70,90"),
              Sym("location_type") := Int(1)])
  {
    TranslateOptionsMerges(options);
    AllOptionsJoined(options);
    AllOptionsPassed(options);
    ExampleParametersMerged();
  }

  /** What the three joining rules make of the options of the test with every
      option given. */
  lemma AllOptionsJoined(options: Params)
    requires Get(options, Sym("fields")) == Arr(Strs(EXAMPLE_FIELDS))
    requires Get(options, Sym("show_only")) == Arr(Ints([50, 70, 90]))
    requires Get(options, Sym("read_keys")) == Arr(Strs(["key-one", "key-two"]))
    ensures Truthy(Get(options, Sym("fields")))
    ensures Fields(Get(options, Sym("fields"))) ==
              Success(map[Sym("fields") := Str("icon,name,latitude,longitude,altitude,pm1.0")])
    ensures ShowOnly(Get(options, Sym("show_only"))) == Success(map[Sym("show_only") := Str("50,70,90")])
    ensures ReadKeys(Get(options, Sym("read_keys"))) == Success(map[Sym("read_keys") := Str("key-one,key-two")])
  {
    var names := EXAMPLE_FIELDS;
    FieldsExample(names);
    var ids := [50, 70, 90];
    ShowOnlyExample(ids);
    var keys := ["key-one", "key-two"];
    ReadKeysExample(keys);
  }

  /** What the other four rules make of the options of the test with every
      option given. */
  lemma AllOptionsPassed(options: Params)
    requires Get(options, Sym("location_type")) == Arr([Str("inside")])
    requires Get(options, Sym("modified_since")) == Int(1614480946)
    requires Get(options, Sym("max_age")) == Int(3600)
    requires Get(options, Sym("bounding_box")) ==
               Hash(map[Sym("nw") := Arr([Int(49), Int(33)]), Sym("se") := Arr([Int(22), Int(27)])])
    ensures LocationType(Get(options, Sym("location_type"))) == Success(map[Sym("location_type") := Int(1)])
    ensures ModifiedSince(Get(options, Sym("modified_since"))) ==
              Success(map[Sym("modified_since") := Int(1614480946)])
    ensures MaxAge(Get(options, Sym("max_age"))) == Success(map[Sym("max_age") := Int(3600)])
    ensures BoundingBox(Get(options, Sym("bounding_box"))) ==
              Success(map[Sym("nwlat") := Int(49), Sym("nwlng") := Int(33), Sym("selat") := Int(22), Sym("selng") := Int(27)])
  {
    LocationTypeExample(Get(options, Sym("location_type")));
    BoundingBoxExample(Get(options, Sym("bounding_box")));
  }

  /** With only `:fields` given, the parameters are that one joined list. */
  lemma OnlyFieldsExample(options: Params)
    requires Get(options, Sym("fields")) == Arr(Strs(EXAMPLE_FIELDS))
    requires Get(options, Sym("location_type")) == Nil && Get(options, Sym("show_only")) == Nil
    requires Get(options, Sym("modified_since")) == Nil && Get(options, Sym("max_age")) == Nil
    requires Get(options, Sym("bounding_box")) == Nil && Get(options, Sym("read_keys")) == Nil
    ensures TranslateOptions(options) == Success(map[Sym("fields") := Str("icon,name,latitude,longitude,altitude,pm1.0")])
  {
    TranslateOptionsMerges(options);
    var names := EXAMPLE_FIELDS;
    FieldsExample(names);
    assert LocationType(Nil) == Success(map[]) && ShowOnly(Nil) == Success(map[]);
    assert ModifiedSince(Nil) == Success(map[]) && MaxAge(Nil) == Success(map[]);
    assert BoundingBox(Nil) == Success(map[]) && ReadKeys(Nil) == Success(map[]);
    var fields: Params := map[Sym("fields") := Str("icon,name,latitude,longitude,altitude,pm1.0")];
    assert TranslateOptions(options).value == fields + map[] + map[] + map[] + map[] + map[] + map[];
    assert fields + map[] == fields;
  }

  lemma ExampleParametersMerged()
    ensures map[Sym("fields") := Str("icon,name,latitude,longitude,altitude,pm1.0")]
      + map[Sym("location_type") := Int(1)]
      + map[Sym("show_only") := Str("50,70,90")]
      + map[Sym("modified_since") := Int(1614480946)]
      + map[Sym("max_age") := Int(3600)]
      + map[Sym("nwlat") := Int(49), Sym("nwlng") := Int(33), Sym("selat") := Int(22), Sym("selng") := Int(27)]
      + map[Sym("read_keys") := Str("key-one,key-two")]
      == map[
              Sym("fields") := Str("icon,name,latitude,longitude,altitude,pm1.0"),
              Sym("max_age") := Int(3600),
              Sym("modified_since") := Int(1614480946),
              Sym("nwlat") := Int(49),
              Sym("nwlng") := Int(33),
              Sym("read_keys") := Str("key-one,key-two"),
              Sym("selat") := Int(22),
              Sym("selng") := Int(27),
              Sym("show_only") := Str("50,70,90"),
              Sym("location_type") := Int(1)]
  {
  }

  lemma FieldsExample(names: seq<string>)
    requires names == EXAMPLE_FIELDS
    ensures Fields(Arr(Strs(names))) == Success(map[Sym("fields") := Str("icon,name,latitude,longitude,altitude,pm1.0")])
  {
    JoinStrs(names, ",");
    ExampleFieldsText();
  }

  lemma ExampleFieldsText()
    ensures JoinNames(EXAMPLE_FIELDS, ",") == "icon,name,latitude,longitude,altitude,pm1.0"
  {
    ExampleFieldsUnfolded();
    ExampleFieldsSpelled();
  }

  /** `JoinNames` unfolded over the six names. */
  lemma ExampleFieldsUnfolded()
    ensures JoinNames(EXAMPLE_FIELDS, ",") == "icon" + "," + "name" + "," + "latitude" + "," + "longitude" + "," + "altitude" + "," + "pm1.0"
  {
    JoinNamesStep("altitude", ["pm1.0"], "pm1.0");
    JoinNamesStep("longitude", ["altitude", "pm1.0"], "altitude" + "," + "pm1.0");
    JoinNamesStep("latitude", ["longitude", "altitude", "pm1.0"], "longitude" + "," + ("altitude" + "," + "pm1.0"));
    JoinNamesStep("name", ["latitude", "longitude", "altitude", "pm1.0"], "latitude" + "," + ("longitude" + "," + ("altitude" + "," + "pm1.0")));
    JoinNamesStep("icon", ["name", "latitude", "longitude", "altitude", "pm1.0"], "name" + "," + ("latitude" + "," + ("longitude" + "," + ("altitude" + "," + "pm1.0"))));
    assert ["icon"] + ["name", "latitude", "longitude", "altitude", "pm1.0"] == EXAMPLE_FIELDS;
  }

  /** The names and commas spelled out as one text. */
  lemma ExampleFieldsSpelled()
    ensures "icon" + "," + "name" + "," + "latitude" + "," + "longitude" + "," + "altitude" + "," + "pm1.0" == "icon,name,latitude,longitude,altitude,pm1.0"
  {
  }

  lemma ReadKeysExample(keys: seq<string>)
    requires keys == ["key-one", "key-two"]
    ensures ReadKeys(Arr(Strs(keys))) == Success(map[Sym("read_keys") := Str("key-one,key-two")])
  {
    JoinStrs(keys, ",");
    assert keys[1..] == ["key-two"];
    assert Join(Strs(keys), ",") == "key-one,key-two";
  }

  lemma ShowOnlyExample(ids: seq<int>)
    requires ids == [50, 70, 90]
    ensures ShowOnly(Arr(Ints(ids))) == Success(map[Sym("show_only") := Str("50,70,90")])
  {
    var v := Ints(ids);
    assert IntToDecimal(90) == "90";
    assert IntToDecimal(70) == "70";
    assert IntToDecimal(50) == "50";
    assert v[2..] == [Int(90)];
    assert Join(v[2..], ",") == "90";
    assert v[1..][1..] == v[2..];
    assert v[1..][0] == Int(70);
    assert Join(v[1..], ",") == "70,90";
    assert Join(v, ",") == "50,70,90";
  }

  lemma LocationTypeExample(locationType: Value)
    requires locationType == Arr([Str("inside")])
    ensures LocationType(locationType) == Success(map[Sym("location_type") := Int(1)])
  {
    var elems := locationType.elems;
    DowncaseOfLower("inside");
    assert DowncaseValue(elems[0]) == Success(Str("inside"));
    assert elems[1..] == [];
    assert DowncaseAll(elems[1..]) == Success([]);
    assert [Str("inside")] + [] == [Str("inside")];
    assert DowncaseAll(elems).Success?;
  }

  lemma BoundingBoxExample(coordinates: Value)
    requires coordinates == Hash(map[Sym("nw") := Arr([Int(49), Int(33)]), Sym("se") := Arr([Int(22), Int(27)])])
    ensures BoundingBox(coordinates) ==
              Success(map[Sym("nwlat") := Int(49), Sym("nwlng") := Int(33), Sym("selat") := Int(22), Sym("selng") := Int(27)])
  {
  }

  /** The message of the rule that reads option `name`. */
  function RuleError(name: string): string {
    if name == "fields" then FIELDS_ERROR
    else if name == "show_only" then SHOW_ONLY_ERROR
    else if name == "location_type" then LOCATION_TYPE_ERROR
    else if name == "modified_since" then TIMESTAMP_ERROR
    else if name == "max_age" then SECONDS_ERROR
    else if name == "bounding_box" then COORDINATES_ERROR
    else READ_KEYS_ERROR
  }

  /** Any one option given alone as a plain String is refused with the
      message of its own rule. */
  lemma PlainStringOptionRejected(name: string, text: string)
    requires name in {"fields", "show_only", "location_type", "modified_since", "max_age", "bounding_box", "read_keys"}
    ensures TranslateOptions(map[Sym(name) := Str(text)]) == Failure(OptionsError(RuleError(name)))
  {
    var options := map[Sym(name) := Str(text)];
    if name != "fields" {
      var names := DEFAULT_FIELDS;
      DefaultFieldsJoined(names);
      assert Fields(Arr(Strs(DEFAULT_FIELDS))).Success?;
    }
  }
}
