# purple_air_api core in Dafny

This is a model of the request core of the `purple_air_api` Ruby client for PurpleAir's v1 API, with proofs about it.

- **Bulk query** (`PurpleAirApi::V1::GetSensors`):
  - It translates the caller's options into query parameters for `GET /v1/sensors`: `fields`, `show_only`, `location_type`, `modified_since`, `max_age`, `bounding_box` and `read_keys`.
  - It keeps the answer and parses it once.
  - It reshapes the columnar answer into a Hash keyed by sensor index. The answer has a `fields` list of names and a `data` list of rows.
  - It copies the answer's header values. The code reads the time stamp under `date_time_stamp`, but the answer carries it as `data_time_stamp`. The model follows the code, so the parsed `data_time_stamp` is nil (`SensorsResponse.DataTimeStampDropped`).
- **Single-sensor query** (`PurpleAirApi::V1::GetSensor`):
  - It checks the sensor index and the optional read key.
  - It builds `/v1/sensors/<index>`.
  - Its parsed response is the parsed body as it is.
- **Error middleware** (`PurpleAirApi::V1::RaiseHttpException`):
  - It classifies a completed response by status: 400 by the body's `error` tag, 403, 500, and anything else passes.
  - It builds the error message.
  - It keeps the parsed body in a memo that outlives the response.

Ruby's run-time values are one datatype, `RubyValues.Value`. Raising is a `Failure` of a `Result`.

The three Ruby classes are Dafny classes holding the instance variables the modelled methods use; the HTTP client (`@http_client`) and the next middleware (`@app`) are left out. Their methods update those fields, and each method is proved against a specification function:

- `TranslateOptions`
- `DataHash` / `DataHashOf`
- `ParseResponse`
- `SensorIndex` / `ReadKey` / `UrlFor`
- `Classify`

The lemmas state what the code promises about those functions.

Files:

- `wrappers.dfy`: `Option`, `Result` and `Outcome`.
- `ruby_values.dfy`: Ruby values and the core-library operations the code relies on:
  - `to_s`, `inspect` and `Array#join`;
  - `Integer#to_s` and its read-back;
  - `split`, `downcase` and `upcase`;
  - `[]`, `length` and `first`.
- `sensors_options.dfy`: the option rules of `get_sensors.rb` and `create_options_hash`.
- `sensors_response.dfy`: the reshaping of the bulk answer.
- `http_answer.dfy`: the GET handed to the client, and the memoised `json_response`.
- `get_sensors.dfy`: class `GetSensors`.
- `get_sensor.dfy`: class `GetSensor`.
- `raise_http_exception.dfy`: class `RaiseHttpException` and its classification.

Where the code and the library's own description or tests disagree, the model follows the code:

- Only 400, 403 and 500 raise. A 404, a 415 or any other status passes through.
- A 400 or 403 body that does not parse raises the parser's error. No fallback message is substituted.
- A 500 never parses the body. Its detail is "The server returned an invalid or incomplete response."
- The 400 and 403 messages are `"<METHOD> <url>: <status> <description>"`, not the description alone.
- A 403 is `ApiKeyInvalidError` whatever its tag.
- Fields `["a", "b"]` with the row `[1, "x", 2]` give `{1 => {"a" => 1, "b" => "x", nil => 2}}`. Every position is stored, the sensor index included, and positions beyond `fields` go under nil.
- Two rows with the same sensor index collapse into one entry, the later row's.
- Only the first element of `fields`, `show_only`, `read_keys` and `location_type` is type-checked. A later element without `downcase` in `location_type` raises NoMethodError, not OptionsError.
- `parsed_response` is kept only once it is truthy. A reshaping that raises leaves a header-only memo behind.

## Model

| member | source | states |
|---|---|---|
| `RubyValues.DecimalRoundTrip` | lib/purple_air_api/V1/sensors/get_sensor.rb:121 | The decimal text `Integer#to_s` gives reads back as the same integer, negative numbers included. |
| `RubyValues.SplitJoin` | lib/purple_air_api/V1/sensors/get_sensors.rb:116 | Cutting `join(',')` at its commas gives back the elements' texts, provided no element is an Array or a Hash and no element's text contains a comma. |
| `RubyValues.DecimalCanonical` | lib/purple_air_api/V1/sensors/get_sensor.rb:121 | `Integer#to_s` text has no leading zero (a lone "0" aside) and never reads "-0". |
| `RubyValues.NatDecimalLeadingDigit` | lib/purple_air_api/V1/sensors/get_sensor.rb:121 | The first digit of a natural number's text is a zero exactly when the number is zero. |
| `SensorsOptions.FieldsRule` | lib/purple_air_api/V1/sensors/get_sensors.rb:111-117 | Accepted exactly when the value is an Array whose first element is a String; otherwise the fields OptionsError. The one key is `fields`, and its value splits back into the element texts. |
| `SensorsOptions.Fields` | lib/purple_air_api/V1/sensors/get_sensors.rb:111-117 | The `fields` rule; `FieldsRule` states what it promises. |
| `SensorsOptions.ShowOnly` | lib/purple_air_api/V1/sensors/get_sensors.rb:119-128 | The `show_only` rule; `ShowOnlyRule` states what it promises. |
| `SensorsOptions.LocationType` | lib/purple_air_api/V1/sensors/get_sensors.rb:130-136 | The `location_type` rule; `LocationTypeRule` states what it promises. |
| `SensorsOptions.LocationTypeParameter` | lib/purple_air_api/V1/sensors/get_sensors.rb:138-149 | Both names give no key, inside gives 1, outside gives 0, neither raises; `LocationTypeRule` states it for the rule as a whole. |
| `SensorsOptions.BoundingBox` | lib/purple_air_api/V1/sensors/get_sensors.rb:165-175 | The `bounding_box` rule; `BoundingBoxRule` states what it promises. |
| `SensorsOptions.ReadKeys` | lib/purple_air_api/V1/sensors/get_sensors.rb:177-185 | The `read_keys` rule; `ReadKeysRule` states what it promises. |
| `SensorsOptions.TranslateOptions` | lib/purple_air_api/V1/sensors/get_sensors.rb:99-109 | `create_options_hash` as a value; `TranslateOptionsMerges` and `TranslateOptionsRule` state what it promises. |
| `SensorsOptions.ShowOnlyRule` | lib/purple_air_api/V1/sensors/get_sensors.rb:119-128 | Absent gives no key. Otherwise accepted exactly when the Array starts with an Integer, else the show_only OptionsError. For all-Integer Arrays the pieces read back as the indices, in order. |
| `SensorsOptions.DowncaseAllRule` | lib/purple_air_api/V1/sensors/get_sensors.rb:135 | `map(&:downcase)` succeeds exactly when every element is a String or Symbol. It then has one element per input, each the lower-cased input, and so holds exactly the lower-cased names; otherwise NoMethodError. |
| `SensorsOptions.LocationTypeRule` | lib/purple_air_api/V1/sensors/get_sensors.rb:130-149 | Absent gives no key; a non-Array or one not starting with a String gives OptionsError. Case-insensitively: both names give no key, only inside gives 1, only outside gives 0, neither gives OptionsError. |
| `SensorsOptions.ModifiedSince` | lib/purple_air_api/V1/sensors/get_sensors.rb:151-156 | Succeeds exactly for nil or an Integer; otherwise the timestamp OptionsError. The Integer passes through unchanged under `modified_since`; nil adds nothing. |
| `SensorsOptions.MaxAge` | lib/purple_air_api/V1/sensors/get_sensors.rb:158-163 | Succeeds exactly for nil or an Integer; otherwise the seconds OptionsError. The Integer passes through unchanged under `max_age`; nil adds nothing. |
| `SensorsOptions.BoundingBoxRule` | lib/purple_air_api/V1/sensors/get_sensors.rb:165-175 | Absent gives no key; a non-Hash gives OptionsError; a missing `:nw` raises NoMethodError. Array corners are accepted exactly when both have two elements, and then give exactly nwlat, nwlng, selat and selng. |
| `SensorsOptions.ReadKeysRule` | lib/purple_air_api/V1/sensors/get_sensors.rb:177-185 | Absent gives no key. Otherwise accepted exactly when the Array starts with a String, else the read_keys OptionsError. The one key `read_keys` splits back into the key texts. |
| `SensorsOptions.TranslateOptionsMerges` | lib/purple_air_api/V1/sensors/get_sensors.rb:99-109 | The translation succeeds exactly when all seven rules do, and is then the merge of their results. |
| `SensorsOptions.MergeKeys` | lib/purple_air_api/V1/sensors/get_sensors.rb:100-108 | Each merged key comes from the rule that owns it, and the passed-through values survive the merge. |
| `SensorsOptions.TranslateOptionsRule` | lib/purple_air_api/V1/sensors/get_sensors.rb:99-109 | Only known parameter names appear, and `fields` is always there (the joined default when absent or falsy). Each optional key is present exactly when its option is given, with integers unchanged; `location_type` appears only when given. |
| `SensorsOptions.DefaultFieldsJoined` | lib/purple_air_api/V1/sensors/get_sensors.rb:12 | The default fields travel as `icon,name,latitude,longitude,altitude,pm2.5`. |
| `SensorsOptions.AllOptionsExample` | spec/V1/sensors/get_sensors_spec.rb:17-40 | The test's full set of options translates to exactly the expected ten parameters. |
| `SensorsOptions.OnlyFieldsExample` | spec/V1/sensors/get_sensors_spec.rb:12-15 | With only `:fields` given, the parameters are exactly the joined field list. |
| `SensorsOptions.PlainStringOptionRejected` | spec/V1/sensors/get_sensors_spec.rb:43-55 | Any one option given alone as a String is refused with its own rule's OptionsError. |
| `SensorsResponse.RecordOf` | lib/purple_air_api/V1/sensors/get_sensors.rb:220-222 | Building a row's record fails exactly when the row is non-empty and `fields` has no `[]`, and then with NoMethodError. |
| `SensorsResponse.RecordKeys` | lib/purple_air_api/V1/sensors/get_sensors.rb:220-222 | A record's keys are exactly the field names the row's positions reach. |
| `SensorsResponse.RecordLastWins` | lib/purple_air_api/V1/sensors/get_sensors.rb:220-222 | Under a name, the record holds the value of the last position with that name. |
| `SensorsResponse.RecordZipsFields` | lib/purple_air_api/V1/sensors/get_sensors.rb:220-222 | With distinct names and a row no longer than `fields`, the record pairs each name with the value at its position, and has no other keys. |
| `SensorsResponse.RecordSurplusUnderNil` | lib/purple_air_api/V1/sensors/get_sensors.rb:220-222 | Values beyond `fields` are stored under nil, the last one winning. |
| `SensorsResponse.DataHashSucceeds` | lib/purple_air_api/V1/sensors/get_sensors.rb:215-225 | Reshaping rows succeeds exactly when every row is an Array and `fields` has `[]` (or all rows are empty). Failures are NoMethodError for `first` or `[]`. |
| `SensorsResponse.DataHash` | lib/purple_air_api/V1/sensors/get_sensors.rb:215-225 | `generate_data_hash` over an Array of rows; `DataHashSucceeds`, `DataHashKeys`, `DataHashLastRowWins` and `DataHashCount` state what it promises. |
| `SensorsResponse.DataHashOf` | lib/purple_air_api/V1/sensors/get_sensors.rb:215-225 | `generate_data_hash` for any `data`: rows, a Hash's pairs (`PairRecord`), or NoMethodError for `each`. |
| `SensorsResponse.DataHashPrefixFails` | lib/purple_air_api/V1/sensors/get_sensors.rb:217-223 | The first row that raises ends the reshaping with its error. |
| `SensorsResponse.DataHashKeys` | lib/purple_air_api/V1/sensors/get_sensors.rb:215-225 | The data Hash's keys are exactly the rows' first values. |
| `SensorsResponse.DataHashLastRowWins` | lib/purple_air_api/V1/sensors/get_sensors.rb:217-222 | Under a sensor index sits the record of the last row with that index; `merge!(index => {})` resets earlier rows. |
| `SensorsResponse.DataHashCount` | lib/purple_air_api/V1/sensors/get_sensors.rb:215-225 | There are at most as many entries as rows, and exactly as many exactly when no two rows share an index. |
| `SensorsResponse.PairRecord` | lib/purple_air_api/V1/sensors/get_sensors.rb:217-222 | A Hash given as `data` is walked pair by pair. The pair `[key, value]` gives the record `{fields[0] => key, fields[1] => value}`. |
| `SensorsResponse.ResponseHeader` | lib/purple_air_api/V1/sensors/get_sensors.rb:198-209 | The header is built exactly when the parsed body is a Hash. An Array refuses the Symbol keys; anything else has no `values_at`. |
| `SensorsResponse.ParseResponseRule` | lib/purple_air_api/V1/sensors/get_sensors.rb:187-213 | Parsing succeeds exactly for a Hash body whose data reshapes. The result has exactly six keys: four copied header values, `data_time_stamp` from `date_time_stamp`, and the data Hash. |
| `SensorsResponse.ParseResponse` | lib/purple_air_api/V1/sensors/get_sensors.rb:187-213 | `parse_response` as a value; `ParseResponseRule` states what it promises. |
| `SensorsResponse.DataTimeStampDropped` | lib/purple_air_api/V1/sensors/get_sensors.rb:200-206 | The header is read under `date_time_stamp`, which the answer does not carry; without that key, `data_time_stamp` is nil whatever the body holds under `data_time_stamp`. |
| `SensorsResponse.SurplusValueExample` | lib/purple_air_api/V1/sensors/get_sensors.rb:215-225 | Fields `["a","b"]` with the row `[1,"x",2]` give `{1 => {"a"=>1, "b"=>"x", nil=>2}}`. |
| `SensorsResponse.RepeatedSensorExample` | lib/purple_air_api/V1/sensors/get_sensors.rb:219 | A second row for sensor 20 replaces the first row's record entirely. |
| `HttpAnswer.JsonOf` | lib/purple_air_api/V1/sensors/get_sensors.rb:91-93 | A truthy memo is the answer. With no response yet, `body` raises NoMethodError; otherwise parsing succeeds exactly when the body is JSON. |
| `BulkSensors.GetSensors.constructor` | lib/purple_air_api/V1/sensors/get_sensors.rb:32-34 | The object starts with no parameters, no response and empty memos. |
| `BulkSensors.GetSensors.CreateOptionsHash` | lib/purple_air_api/V1/sensors/get_sensors.rb:99-109 | The translated parameters are merged into `request_options`. A rule that raises leaves them unchanged, since all rules run before the merge. |
| `BulkSensors.GetSensors.Request` | lib/purple_air_api/V1/sensors/get_sensors.rb:42-45 | It sends GET `https://api.purpleair.com/v1/sensors` with `request_options` and stores the answer; nothing else changes. |
| `BulkSensors.GetSensors.JsonResponse` | lib/purple_air_api/V1/sensors/get_sensors.rb:91-93 | The result is `JsonOf` of the old memo and the answer. The memo becomes a successful parse; a stale truthy memo wins over a newer answer. |
| `BulkSensors.GetSensors.GenerateDataHash` | lib/purple_air_api/V1/sensors/get_sensors.rb:215-225 | It computes exactly `DataHashOf(data_fields, data)`: rows for an Array, pairs for a Hash, and NoMethodError for anything else. |
| `BulkSensors.GetSensors.ReshapeRows` | lib/purple_air_api/V1/sensors/get_sensors.rb:216-224 | The nested loops over rows and positions compute `DataHash`, including the error of the first row that raises. |
| `BulkSensors.GetSensors.ReshapePairs` | lib/purple_air_api/V1/sensors/get_sensors.rb:216-224 | The loop over a Hash's pairs computes each pair's record under its key, whatever the walk order. |
| `BulkSensors.GetSensors.ParsedResponse` | lib/purple_air_api/V1/sensors/get_sensors.rb:69-71 | A truthy memo is returned unchanged and nothing else changes. Otherwise the result is the parse of the JSON; the memo becomes it on success, or the header alone when reshaping raised. `@json_response` takes the parsed body, and `data`/`data_fields` are read from it when it is a Hash. |
| `BulkSensors.New` | lib/purple_air_api/V1/sensors/get_sensors.rb:32-36 | A fresh object with exactly the translated parameters and no memo, data or fields yet, or the translation's error. |
| `BulkSensors.Call` | lib/purple_air_api/V1/sensors/get_sensors.rb:23-25 | Build, then request. The GET carries the translated parameters; nothing is sent when the options are refused. The returned object holds the translated parameters and no memo, data or fields yet. |
| `BulkSensors.RetryAfterFailedReshape` | lib/purple_air_api/V1/sensors/get_sensors.rb:187-213 | After a reshaping that raises, a second `parsed_response` returns the header without `data` instead of raising. |
| `SingleSensor.SensorIndex` | lib/purple_air_api/V1/sensors/get_sensor.rb:118-122 | Accepted exactly for an Integer, kept as decimal text that reads back as it and has no leading zero and no `-0`; otherwise the sensor_index OptionsError. |
| `SingleSensor.ReadKey` | lib/purple_air_api/V1/sensors/get_sensor.rb:124-130 | Accepted exactly for nil or a String. `read_key` is present exactly for a String and holds it; otherwise the read_key OptionsError. |
| `SingleSensor.UrlFor` | lib/purple_air_api/V1/sensors/get_sensor.rb:132-134 | Succeeds exactly when the index is a String, giving the prefix followed by the index; otherwise a TypeError naming the index's class. |
| `SingleSensor.SensorUrlRoundTrip` | lib/purple_air_api/V1/sensors/get_sensor.rb:118-134 | The URL for an accepted index starts with the endpoint and ends in text that reads back as the index. |
| `SingleSensor.SensorTwentyUrl` | spec/V1/sensors/get_sensor_spec.rb:18 | Sensor 20 is stored as "20" and fetched from `https://api.purpleair.com/v1/sensors/20`. |
| `SingleSensor.GetSensor.constructor` | lib/purple_air_api/V1/sensors/get_sensor.rb:26-28 | The object starts with no parameters, no index, no response and no memo. |
| `SingleSensor.GetSensor.CreateOptionsHash` | lib/purple_air_api/V1/sensors/get_sensor.rb:111-116 | The index is checked and stored before the read key is checked. A refused read key leaves the index stored and the parameters unchanged. |
| `SingleSensor.GetSensor.Request` | lib/purple_air_api/V1/sensors/get_sensor.rb:36-39 | The URL is built before sending. A non-String index raises and stores nothing; otherwise GET of that URL with `request_options`. |
| `SingleSensor.GetSensor.JsonResponse` | lib/purple_air_api/V1/sensors/get_sensor.rb:105-107 | The result is `JsonOf` of the old memo and the answer; a successful parse becomes the memo. |
| `SingleSensor.GetSensor.ParsedResponse` | lib/purple_air_api/V1/sensors/get_sensor.rb:43-45 | The same as `json_response`: the parsed body with no reshaping. |
| `SingleSensor.New` | lib/purple_air_api/V1/sensors/get_sensor.rb:26-30 | Succeeds exactly when both checks pass, and then holds the index text and exactly the read-key parameters. Otherwise the first refusal, the index first. |
| `SingleSensor.Call` | lib/purple_air_api/V1/sensors/get_sensor.rb:16-18 | Build, then GET `…/v1/sensors/<index>` with the read key as the query. A bad index gives its error first, then a bad read key; nothing is sent when refused. The returned object holds the index text, the read-key query and no memo. |
| `HttpStatus.NextMemo` | lib/purple_air_api/V1/raise_http_exception.rb:47-49 | A truthy memo stays. A successful parse replaces a falsy memo; a failed one leaves it. |
| `HttpStatus.ParsedBody` | lib/purple_air_api/V1/raise_http_exception.rb:47-49 | `parsed_response`'s result; `NextMemo`, `UnparseableBodyRaisesParseError` and `SecondResponseReusesFirstBody` state what it promises. |
| `HttpStatus.Message400` | lib/purple_air_api/V1/raise_http_exception.rb:37-40 | Built exactly when the parsed body is a Hash; otherwise the error of `[:description]`. |
| `HttpStatus.Message400Layout` | lib/purple_air_api/V1/raise_http_exception.rb:37-40 | The message is the method in capitals, the URL, the status and the description's text, in that order. |
| `HttpStatus.Message500WithDetail` | lib/purple_air_api/V1/raise_http_exception.rb:42-45 | With a detail, the message ends in `"<status>: <detail>"`. |
| `HttpStatus.Message500` | lib/purple_air_api/V1/raise_http_exception.rb:42-45 | `error_message500`; `Message500WithDetail` and `Message500WithoutDetail` state what it promises. |
| `HttpStatus.Message500WithoutDetail` | lib/purple_air_api/V1/raise_http_exception.rb:42-45 | A nil detail is compacted away, and the message ends in `"<status>:"`. |
| `HttpStatus.Handle400` | lib/purple_air_api/V1/raise_http_exception.rb:29-35 | Always raises, leaving the memo that the parse leaves. |
| `HttpStatus.Classify` | lib/purple_air_api/V1/raise_http_exception.rb:7-20 | Passes exactly for statuses other than 400, 403 and 500, and API errors carry the response. The 400 classes occur exactly for 400; 403 is `ApiKeyInvalidError`; 500 is `InternalServerError` with the fixed detail and the memo untouched. |
| `HttpStatus.Status400Classes` | lib/purple_air_api/V1/raise_http_exception.rb:29-35 | For a Hash body: `InvalidFieldError` exactly when `error` is "InvalidFieldValueError", else `UnknownApiError` (a missing tag too). The 400 message is used, and the body becomes the memo. |
| `HttpStatus.Status403IgnoresTag` | lib/purple_air_api/V1/raise_http_exception.rb:12-13 | A 403 raises `ApiKeyInvalidError` with the 400-style message, and its `error` tag changes nothing. |
| `HttpStatus.Status500NeverParses` | lib/purple_air_api/V1/raise_http_exception.rb:14-17 | A 500 raises the same error whatever its body, with the message ending in the fixed detail, and the memo is kept. |
| `HttpStatus.UnparseableBodyRaisesParseError` | lib/purple_air_api/V1/raise_http_exception.rb:47-49 | With no memo, a 400 or 403 body that does not parse raises the parser's error. |
| `HttpStatus.SecondResponseReusesFirstBody` | lib/purple_air_api/V1/raise_http_exception.rb:47-49 | Once a 400/403 body parsed to a truthy value, a later 400/403 is classified as if it had carried that first body. |
| `HttpStatus.RaiseHttpException.constructor` | lib/purple_air_api/V1/raise_http_exception.rb:22-25 | The middleware starts with no parsed body. |
| `HttpStatus.RaiseHttpException.ParsedResponse` | lib/purple_air_api/V1/raise_http_exception.rb:47-49 | The result is the memo or the parse, and the memo becomes `NextMemo`. |
| `HttpStatus.RaiseHttpException.ErrorMessage400` | lib/purple_air_api/V1/raise_http_exception.rb:37-40 | The message is built from the memoised parse, and the memo is updated. |
| `HttpStatus.RaiseHttpException.ErrorHandler400` | lib/purple_air_api/V1/raise_http_exception.rb:29-35 | The outcome and new memo are `Handle400`'s. The second parse finds the memo the first one set. |
| `HttpStatus.RaiseHttpException.Call` | lib/purple_air_api/V1/raise_http_exception.rb:7-20 | The outcome and new memo are `Classify`'s. |

## Left out

- **HTTP transport and client.** The Faraday connection, the `X-API-KEY` header and `client.rb` are not modelled. `Request` takes the answer as a parameter and returns the GET it would send. `lib/purple_air_api/V1/client.rb` is not part of this model.
- **JSON parsing.** FastJsonparser is a foreign library. A body is either a parsed value (`Json`) or text that does not parse (`NotJson`), and Hash keys are assumed to be Symbols, as the parser is used.
- **Ordered Hashes.** Ruby Hashes keep insertion order; the model's maps do not. As a result:
  - `Hash#inspect` text is a fixed placeholder.
  - A Hash given as `data` is walked in an unspecified order, which the proof shows does not matter.
  - A Hash row inside an Array `data` would answer `first` with its first pair. It is modelled as NoMethodError.
- **Floats and other classes.** Floats and other classes the code never looks inside are opaque values carrying their `to_s` text. In `UrlFor`'s TypeError message they are named "Object".
- **String handling.**
  - `downcase` and `upcase` map ASCII letters only.
  - `String#inspect` does not escape quotes.
- **Error classes.** `ApiKeyInvalidError`, `InternalServerError`, `InvalidFieldError` and `UnknownApiError` are not defined in lib/purple_air_api/V1/errors.rb, and `BaseError.new` takes three arguments, not two. As written, Ruby would raise NameError at each `raise`. The model records the class the code names, with its message and response. No `error_type` tag is recorded.
- **Unused code and accessors.**
  - `@parser = nil` in the middleware's `initialize` is never used and is not modelled.
  - The public writers (`attr_writer :parsed_response`, `attr_accessor :index` and others) are not separate operations. `UrlFor` does cover an index replaced by any value.
- **Constructors.** `BulkSensors.GetSensors.constructor` and `SingleSensor.GetSensor.constructor` model only the field initialisation. The option handling is in `CreateOptionsHash`, and `New` composes the two.
