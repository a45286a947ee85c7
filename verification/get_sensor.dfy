/** `GetSensor`: a request for one sensor. Building one checks the sensor
    index and the optional read key; the index, as decimal text, ends the URL
    and the read key becomes the one query parameter. The parsed answer is
    the parsed body as it is. */
module SingleSensor {
  import opened Wrappers
  import opened RubyValues
  import opened HttpAnswer

  /** The endpoint prefix; the sensor index follows it. */
  const URL := "https://api.purpleair.com/v1/sensors/"

  const SENSOR_INDEX_ERROR := "sensor_index must be an Integer"
  const READ_KEY_ERROR := "read_key must be a String"

  /** `sensor_index`: an Integer is accepted and kept as its decimal text;
      anything else (a String of digits too) is refused. */
  function SensorIndex(index: Value): (r: Result<string, Error>)
    ensures r.Success? <==> index.Int?
    ensures r.Success? ==> ParseDecimal(r.value) == Some(index.i) && CanonicalDecimal(r.value)
    ensures r.Failure? ==> r.error == OptionsError(SENSOR_INDEX_ERROR)
  {
    if index.Int? then
      DecimalRoundTrip(index.i);
      DecimalCanonical(index.i);
      Success(IntToDecimal(index.i))
    else Failure(OptionsError(SENSOR_INDEX_ERROR))
  }

  /** `read_key`: no key adds no parameter, a String becomes `read_key`, and
      anything else is refused. */
  function ReadKey(key: Value): (r: Result<map<Value, Value>, Error>)
    ensures r.Success? <==> key.Nil? || key.Str?
    ensures r.Success? ==> r.value.Keys <= {Sym("read_key")}
    ensures r.Success? ==> (Sym("read_key") in r.value <==> key.Str?)
    ensures r.Success? && key.Str? ==> r.value[Sym("read_key")] == key
    ensures r.Failure? ==> r.error == OptionsError(READ_KEY_ERROR)
  {
    if key.Nil? then Success(map[])
    else if key.Str? then Success(map[Sym("read_key") := key])
    else Failure(OptionsError(READ_KEY_ERROR))
  }

  /** Ruby's name for a value in "no implicit conversion" messages. */
  function ConversionName(v: Value): string {
    match v
    case Nil => "nil"
    case Bool(b) => if b then "true" else "false"
    case Int(_) => "Integer"
    case Str(_) => "String"
    case Sym(_) => "Symbol"
    case Arr(_) => "Array"
    case Hash(_) => "Hash"
    case Opaque(_) => "Object"
  }

  /** `url`: the prefix followed by the index, which must be a String; the
      index is a public accessor, so it may have been replaced by anything. */
  function UrlFor(index: Value): (r: Result<string, Error>)
    ensures r.Success? <==> index.Str?
    ensures r.Success? ==> |r.value| == |URL| + |index.s| && r.value[..|URL|] == URL && r.value[|URL|..] == index.s
    ensures r.Failure? ==> r.error == TypeError("no implicit conversion of " + ConversionName(index) + " into String")
  {
    if index.Str? then Success(URL + index.s)
    else Failure(TypeError("no implicit conversion of " + ConversionName(index) + " into String"))
  }

  /** The URL built from an accepted sensor index ends in text that reads
      back as that index. */
  lemma SensorUrlRoundTrip(n: int)
    ensures SensorIndex(Int(n)).Success?
    ensures var url := UrlFor(Str(SensorIndex(Int(n)).value));
            && url.Success?
            && url.value[..|URL|] == URL
            && ParseDecimal(url.value[|URL|..]) == Some(n)
  {
  }

  /** Sensor 20 is fetched from `.../v1/sensors/20`. */
  lemma SensorTwentyUrl()
    ensures UrlFor(Str(SensorIndex(Int(20)).value)) == Success("https://api.purpleair.com/v1/sensors/20")
  {
    assert NatToDecimal(2) == "2" && DigitChar(0) == '0';
    assert IntToDecimal(20) == NatToDecimal(2) + [DigitChar(0)] == "20";
    assert SensorIndex(Int(20)) == Success("20");
    assert URL + "20" == "https://api.purpleair.com/v1/sensors/20";
  }

  class GetSensor {
    /** `@request_options`: the query parameters. */
    var requestOptions: map<Value, Value>
    /** `@index`: the sensor index as decimal text, nil until set. */
    var index: Value
    /** `@http_response`: the answer, once requested. */
    var httpResponse: Option<Body>
    /** `@json_response`, nil until parsed. */
    var jsonMemo: Value

    /** `initialize` before `create_options_hash`: empty parameters, no
        index, nothing requested. */
    constructor ()
      ensures requestOptions == map[] && index == Nil && httpResponse == None && jsonMemo == Nil
    {
      requestOptions := map[];
      index := Nil;
      httpResponse := None;
      jsonMemo := Nil;
    }

    /** `create_options_hash`: the index is checked and stored first, then
        the read key is checked and merged; a refused read key leaves the
        index already stored. */
    method CreateOptionsHash(sensorIndex: Value, readKey: Value) returns (o: Outcome<Error>)
      modifies this
      ensures SensorIndex(sensorIndex).Failure? ==>
                o == Fail(SensorIndex(sensorIndex).error) && index == old(index) && requestOptions == old(requestOptions)
      ensures SensorIndex(sensorIndex).Success? ==> index == Str(SensorIndex(sensorIndex).value)
      ensures SensorIndex(sensorIndex).Success? && ReadKey(readKey).Failure? ==>
                o == Fail(ReadKey(readKey).error) && requestOptions == old(requestOptions)
      ensures SensorIndex(sensorIndex).Success? && ReadKey(readKey).Success? ==>
                o == Pass && requestOptions == old(requestOptions) + ReadKey(readKey).value
      ensures httpResponse == old(httpResponse) && jsonMemo == old(jsonMemo)
    {
      var text := SensorIndex(sensorIndex);
      if text.Failure? {
        return Fail(text.error);
      }
      index := Str(text.value);
      var key := ReadKey(readKey);
      if key.Failure? {
        return Fail(key.error);
      }
      requestOptions := requestOptions + key.value;
      o := Pass;
    }

    /** `request`: the URL is built before the GET is sent, so an index that
        is not a String raises and nothing is stored. The client is not
        modelled; its answer is the parameter `response`. */
    method Request(response: Body) returns (r: Result<HttpGet, Error>)
      modifies this
      ensures UrlFor(index).Failure? ==> r == Failure(UrlFor(index).error) && httpResponse == old(httpResponse)
      ensures UrlFor(index).Success? ==>
                r == Success(HttpGet(UrlFor(index).value, requestOptions)) && httpResponse == Some(response)
      ensures requestOptions == old(requestOptions) && index == old(index) && jsonMemo == old(jsonMemo)
    {
      var url := UrlFor(index);
      if url.Failure? {
        return Failure(url.error);
      }
      r := Success(HttpGet(url.value, requestOptions));
      httpResponse := Some(response);
    }

    /** `json_response`: the body parsed once; a truthy memo is returned as
        it is, whatever answer was stored since. */
    method JsonResponse() returns (r: Result<Value, Error>)
      modifies this
      ensures r == JsonOf(old(jsonMemo), httpResponse)
      ensures jsonMemo == (if r.Success? then r.value else old(jsonMemo))
      ensures requestOptions == old(requestOptions) && index == old(index) && httpResponse == old(httpResponse)
    {
      if Truthy(jsonMemo) {
        return Success(jsonMemo);
      }
      if httpResponse.None? {
        return Failure(NoMethodError("body"));
      }
      r := ParseJson(httpResponse.value);
      if r.Success? {
        jsonMemo := r.value;
      }
    }

    /** `parsed_response`: the parsed body, not reshaped. */
    method ParsedResponse() returns (r: Result<Value, Error>)
      modifies this
      ensures r == JsonOf(old(jsonMemo), httpResponse)
      ensures jsonMemo == (if r.Success? then r.value else old(jsonMemo))
      ensures requestOptions == old(requestOptions) && index == old(index) && httpResponse == old(httpResponse)
    {
      r := JsonResponse();
    }
  }

  /** `GetSensor.new(client:, sensor_index:, read_key:)`: the object, or the
      first refusal. */
  method New(sensorIndex: Value, readKey: Value) returns (r: Result<GetSensor, Error>)
    ensures r.Success? <==> SensorIndex(sensorIndex).Success? && ReadKey(readKey).Success?
    ensures SensorIndex(sensorIndex).Failure? ==> r == Failure(SensorIndex(sensorIndex).error)
    ensures SensorIndex(sensorIndex).Success? && ReadKey(readKey).Failure? ==> r == Failure(ReadKey(readKey).error)
    ensures r.Success? ==> fresh(r.value) && r.value.index == Str(SensorIndex(sensorIndex).value)
    ensures r.Success? ==> r.value.requestOptions == ReadKey(readKey).value
    ensures r.Success? ==> r.value.httpResponse == None && r.value.jsonMemo == Nil
  {
    var sensor := new GetSensor();
    var o := sensor.CreateOptionsHash(sensorIndex, readKey);
    if o.Fail? {
      return Failure(o.error);
    }
    assert map[] + ReadKey(readKey).value == ReadKey(readKey).value;
    r := Success(sensor);
  }

  /** `GetSensor.call(...)`: build, then request `.../v1/sensors/<index>`
      with the read key, if any, as the query. */
  method Call(sensorIndex: Value, readKey: Value, response: Body) returns (r: Result<GetSensor, Error>, sent: Option<HttpGet>)
    ensures r.Success? <==> SensorIndex(sensorIndex).Success? && ReadKey(readKey).Success?
    ensures r.Success? ==> fresh(r.value) && r.value.httpResponse == Some(response)
    ensures SensorIndex(sensorIndex).Failure? ==> r == Failure(SensorIndex(sensorIndex).error)
    ensures SensorIndex(sensorIndex).Success? && ReadKey(readKey).Failure? ==> r == Failure(ReadKey(readKey).error)
    ensures r.Success? ==> sent == Some(HttpGet(URL + SensorIndex(sensorIndex).value, ReadKey(readKey).value))
    ensures r.Success? ==> r.value.index == Str(SensorIndex(sensorIndex).value)
    ensures r.Success? ==> r.value.requestOptions == ReadKey(readKey).value && r.value.jsonMemo == Nil
    ensures r.Failure? ==> sent == None
  {
    r := New(sensorIndex, readKey);
    if r.Failure? {
      return r, None;
    }
    var get := r.value.Request(response);
    sent := Some(get.value);
  }
}
