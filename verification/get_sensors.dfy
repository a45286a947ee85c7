/** `GetSensors`: a request for many sensors at once. Building one translates
    the caller's options into query parameters; `Request` stores the answer;
    `JsonResponse` and `ParsedResponse` parse it once and keep the result. */
module BulkSensors {
  import opened Wrappers
  import opened RubyValues
  import opened SensorsOptions
  import opened SensorsResponse
  import opened HttpAnswer

  /** The endpoint of the sensors list. */
  const URL := "https://api.purpleair.com/v1/sensors"

  /** What `parsed_response` yields when its memo is not yet set. */
  function FreshParse(jsonMemo: Value, response: Option<Body>): Result<Value, Error> {
    var json :- JsonOf(jsonMemo, response);
    ParseResponse(json)
  }

  class GetSensors {
    /** `@request_options`: the query parameters. */
    var requestOptions: Params
    /** `@http_response`: the answer, once requested. */
    var httpResponse: Option<Body>
    /** `@json_response`, nil until parsed. */
    var jsonMemo: Value
    /** `@parsed_response`, nil until reshaped. */
    var parsedMemo: Value
    /** The `data` and `fields` of the parsed body, kept for the reshaping. */
    var data: Value
    var dataFields: Value

    /** `initialize` before `create_options_hash`: empty parameters, nothing
        requested. */
    constructor ()
      ensures requestOptions == map[] && httpResponse == None
      ensures jsonMemo == Nil && parsedMemo == Nil && data == Nil && dataFields == Nil
    {
      requestOptions := map[];
      httpResponse := None;
      jsonMemo := Nil;
      parsedMemo := Nil;
      data := Nil;
      dataFields := Nil;
    }

    /** `create_options_hash`: every rule runs before anything is merged, so
        a rule that raises leaves the parameters untouched. */
    method CreateOptionsHash(options: Params) returns (o: Outcome<Error>)
      modifies this
      ensures o.Pass? <==> TranslateOptions(options).Success?
      ensures o.Pass? ==> requestOptions == old(requestOptions) + TranslateOptions(options).value
      ensures o.Fail? ==> o.error == TranslateOptions(options).error && requestOptions == old(requestOptions)
      ensures httpResponse == old(httpResponse) && jsonMemo == old(jsonMemo) && parsedMemo == old(parsedMemo)
      ensures data == old(data) && dataFields == old(dataFields)
    {
      var translated := TranslateOptions(options);
      if translated.Failure? {
        return Fail(translated.error);
      }
      requestOptions := requestOptions + translated.value;
      o := Pass;
    }

    /** `request`: the GET this object sends, and the answer stored. The
        client is not modelled; its answer is the parameter `response`. */
    method Request(response: Body) returns (sent: HttpGet)
      modifies this
      ensures sent == HttpGet(URL, requestOptions)
      ensures httpResponse == Some(response)
      ensures requestOptions == old(requestOptions) && jsonMemo == old(jsonMemo) && parsedMemo == old(parsedMemo)
      ensures data == old(data) && dataFields == old(dataFields)
    {
      sent := HttpGet(URL, requestOptions);
      httpResponse := Some(response);
    }

    /** `json_response`: the body parsed once; a truthy memo is returned as
        it is, whatever answer was stored since. */
    method JsonResponse() returns (r: Result<Value, Error>)
      modifies this
      ensures r == JsonOf(old(jsonMemo), httpResponse)
      ensures jsonMemo == (if r.Success? then r.value else old(jsonMemo))
      ensures requestOptions == old(requestOptions) && httpResponse == old(httpResponse)
      ensures parsedMemo == old(parsedMemo) && data == old(data) && dataFields == old(dataFields)
    {
      if Truthy(jsonMemo) {
        return Success(jsonMemo);
      }
      if httpResponse.None? {
        return Failure(NoMethodError("body"));
      }
      r := ParseJson(httpResponse.value);
      if r.Success? {
        jsonMemo := r.value;
      }
    }

    /** `generate_data_hash`: row after row, a fresh record under the row's
        first value, filled position by position from `data_fields`. */
    method GenerateDataHash() returns (r: Result<Record, Error>)
      ensures r == DataHashOf(dataFields, data)
    {
      match data
      case Arr(rows) =>
        r := ReshapeRows(rows);
      case Hash(m) =>
        r := ReshapePairs(m);
      case _ =>
        r := Failure(NoMethodError("each"));
    }

    /** The loops of `generate_data_hash` over an Array of rows. */
    method ReshapeRows(rows: seq<Value>) returns (r: Result<Record, Error>)
      ensures r == DataHash(dataFields, rows)
    {
      var dataHash: Record := map[];
      var i := 0;
      while i < |rows|
        invariant i <= |rows|
        invariant DataHash(dataFields, rows[..i]) == Success(dataHash)
      {
        var sensor := rows[i];
        assert rows[..i + 1][..i] == rows[..i];
        if !sensor.Arr? {
          DataHashPrefixFails(dataFields, rows, i + 1);
          return Failure(NoMethodError("first"));
        }
        var sensorIndex := First(sensor.elems);
        var record: Record := map[];
        var j := 0;
        while j < |sensor.elems|
          invariant j <= |sensor.elems|
          invariant RecordOf(dataFields, sensor.elems[..j]) == Success(record)
        {
          assert sensor.elems[..j + 1][..j] == sensor.elems[..j];
          var name := Index(dataFields, j);
          if name.Failure? {
            DataHashPrefixFails(dataFields, rows, i + 1);
            return Failure(name.error);
          }
          record := record[name.value := sensor.elems[j]];
          j := j + 1;
        }
        assert sensor.elems[..j] == sensor.elems;
        dataHash := dataHash[sensorIndex := Hash(record)];
        i := i + 1;
      }
      assert rows[..i] == rows;
      r := Success(dataHash);
    }

    /** The loops of `generate_data_hash` over a Hash: each pair is a row of
        two values, its key first. The keys differ, so the walk's order does
        not change the result. */
    method ReshapePairs(m: map<Value, Value>) returns (r: Result<Record, Error>)
      ensures r == DataHashOf(dataFields, Hash(m))
    {
      var dataHash: Record := map[];
      var remaining := m.Keys;
      while remaining != {}
        invariant remaining <= m.Keys
        invariant remaining == m.Keys ==> dataHash == map[]
        invariant remaining != m.Keys ==> Indexable(dataFields)
        invariant remaining != m.Keys ==> dataHash == PairRecords(dataFields, m, m.Keys - remaining)
        decreases remaining
      {
        var key :| key in remaining;
        var first := Index(dataFields, 0);
        if first.Failure? {
          return Failure(first.error);
        }
        var second := Index(dataFields, 1);
        var record: Record := map[first.value := key][second.value := m[key]];
        PairRecord(dataFields, key, m[key]);
        PairRecordsStep(dataFields, m, m.Keys - remaining, key);
        assert remaining == m.Keys ==> PairRecords(dataFields, m, m.Keys - remaining) == map[];
        assert m.Keys - (remaining - {key}) == (m.Keys - remaining) + {key};
        remaining := remaining - {key};
        dataHash := dataHash[key := Hash(record)];
      }
      assert m.Keys - remaining == m.Keys;
      r := Success(dataHash);
    }

    /** `parsed_response`: a truthy memo is returned as it is; otherwise the
        body is parsed and reshaped. The header is stored in the memo before
        the rows are reshaped, so a reshaping that raises leaves a memo with
        the header and no `data`, which the next call returns. */
    method ParsedResponse() returns (r: Result<Value, Error>)
      modifies this
      ensures Truthy(old(parsedMemo)) ==> r == Success(old(parsedMemo)) && parsedMemo == old(parsedMemo)
      ensures !Truthy(old(parsedMemo)) ==> r == FreshParse(old(jsonMemo), httpResponse)
      ensures !Truthy(old(parsedMemo)) && r.Success? ==> parsedMemo == r.value
      ensures !Truthy(old(parsedMemo)) && r.Failure? ==>
                var json := JsonOf(old(jsonMemo), httpResponse);
                parsedMemo == (if json.Success? && json.value.Hash? then Hash(ResponseHeader(json.value).value)
                               else old(parsedMemo))
      ensures Truthy(old(parsedMemo)) ==> jsonMemo == old(jsonMemo) && data == old(data) && dataFields == old(dataFields)
      ensures !Truthy(old(parsedMemo)) ==>
                var json := JsonOf(old(jsonMemo), httpResponse);
                && jsonMemo == (if json.Success? then json.value else old(jsonMemo))
                && (json.Success? && json.value.Hash? ==>
                      data == Get(json.value.m, Sym("data")) && dataFields == Get(json.value.m, Sym("fields")))
                && (!(json.Success? && json.value.Hash?) ==> data == old(data) && dataFields == old(dataFields))
      ensures requestOptions == old(requestOptions) && httpResponse == old(httpResponse)
    {
      if Truthy(parsedMemo) {
        return Success(parsedMemo);
      }
      var json := JsonResponse();
      if json.Failure? {
        return Failure(json.error);
      }
      var header := ResponseHeader(json.value);
      if header.Failure? {
        return Failure(header.error);
      }
      parsedMemo := Hash(header.value);
      data := Get(json.value.m, Sym("data"));
      dataFields := Get(json.value.m, Sym("fields"));
      var dataHash := GenerateDataHash();
      if dataHash.Failure? {
        return Failure(dataHash.error);
      }
      parsedMemo := Hash(parsedMemo.m[Sym("data") := Hash(dataHash.value)]);
      r := Success(parsedMemo);
    }
  }

  /** `GetSensors.new(client:, **options)`: the object, or the error of the
      first rule that raises. */
  method New(options: Params) returns (r: Result<GetSensors, Error>)
    ensures r.Success? <==> TranslateOptions(options).Success?
    ensures r.Success? ==> fresh(r.value) && r.value.requestOptions == TranslateOptions(options).value
    ensures r.Success? ==> r.value.httpResponse == None && r.value.parsedMemo == Nil && r.value.jsonMemo == Nil
    ensures r.Success? ==> r.value.data == Nil && r.value.dataFields == Nil
    ensures r.Failure? ==> r.error == TranslateOptions(options).error
  {
    var sensors := new GetSensors();
    var o := sensors.CreateOptionsHash(options);
    if o.Fail? {
      return Failure(o.error);
    }
    assert map[] + TranslateOptions(options).value == TranslateOptions(options).value;
    r := Success(sensors);
  }

  /** `GetSensors.call(...)`: build, then request. */
  method Call(options: Params, response: Body) returns (r: Result<GetSensors, Error>, sent: Option<HttpGet>)
    ensures r.Success? <==> TranslateOptions(options).Success?
    ensures r.Success? ==> fresh(r.value) && r.value.httpResponse == Some(response)
    ensures r.Success? ==> sent == Some(HttpGet(URL, TranslateOptions(options).value))
    ensures r.Success? ==> r.value.requestOptions == TranslateOptions(options).value
    ensures r.Success? ==> r.value.jsonMemo == Nil && r.value.parsedMemo == Nil
    ensures r.Success? ==> r.value.data == Nil && r.value.dataFields == Nil
    ensures r.Failure? ==> r.error == TranslateOptions(options).error && sent == None
  {
    r := New(options);
    if r.Failure? {
      return r, None;
    }
    var get := r.value.Request(response);
    sent := Some(get);
  }

  /** A reshaping that raises leaves the header in the memo: the next
      `parsed_response` returns that header, without `data`, instead of
      raising again. */
  method RetryAfterFailedReshape(sensors: GetSensors) returns (first: Result<Value, Error>, second: Result<Value, Error>)
    requires sensors.parsedMemo == Nil
    requires JsonOf(sensors.jsonMemo, sensors.httpResponse).Success?
    requires JsonOf(sensors.jsonMemo, sensors.httpResponse).value.Hash?
    requires var m := JsonOf(sensors.jsonMemo, sensors.httpResponse).value.m;
             DataHashOf(Get(m, Sym("fields")), Get(m, Sym("data"))).Failure?
    modifies sensors
    ensures var m := JsonOf(old(sensors.jsonMemo), old(sensors.httpResponse)).value.m;
            first == Failure(DataHashOf(Get(m, Sym("fields")), Get(m, Sym("data"))).error)
    ensures second == Success(Hash(ResponseHeader(JsonOf(old(sensors.jsonMemo), old(sensors.httpResponse)).value).value))
    ensures second.value.Hash? && Sym("data") !in second.value.m
  {
    first := sensors.ParsedResponse();
    second := sensors.ParsedResponse();
  }
}
