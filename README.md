# go-switchbot: a verified model of the wire layer

This project models the wire encoding and decoding layer of the Go client
library for the SwitchBot API (`nasa9084/go-switchbot`):

- the device command constructors, which build the `{command, parameter,
  commandType}` record a command call posts;
- the two values that arrive either as a JSON integer or as a JSON string:
  a device's firmware `DeviceVersion` and the `brightness` field
  (`BrightnessState`);
- the three status tables: the envelope codes of the command call, the
  envelope codes of the list and status calls, and the HTTP statuses every
  call goes through;
- the webhook event parser (peek at `context.deviceType`, put the bytes back,
  decode the whole body into the event type the token names) and the
  request bodies of the four webhook management calls;
- the client constructor `New` with its options, the request URL and the
  string that is signed.

The modules follow the source files:

| file | module | models |
|---|---|---|
| `wrappers.dfy` | `Wrappers` | `Option`, `Result` and the errors the library returns |
| `text.dfy` | `Text` | `strconv.Itoa`/`%d`, `strings.Split`, ASCII case mapping, `len` of a Go string |
| `json.dfy` | `Json` | JSON values, how `encoding/json` stores one into a Go field, how `json.Marshal` quotes a string |
| `device_version.dfy` | `DeviceVersionCodec` | `DeviceVersion.go` |
| `brightness.dfy` | `Brightness` | `BrightnessState` in `device.go` |
| `device_responses.dfy` | `DeviceResponses` | the status tables of `List`, `Status` and `Command` in `device.go` |
| `commands.dfy` | `Commands` | the command constructors in `device.go` |
| `webhook.dfy` | `Webhook` | `webhook.go` |
| `client.dfy` | `SwitchBot` | `New`, the options, `do` and `hmacSHA256String` in `switchbot.go` |

Every rendering is proved against a reference decoder that reads it back.
Integers are rendered by `Itoa` and read by `ParseInt`. Separated parameters
are read by `Split`. The key-creation parameter is read by
`DecodeKeyParameters`, and quoted strings by `ReadQuoted`. An event
written by `EncodeEvent` is read back by `ParseWebhook`.

Go's `int` is 64 bits wide here (`Int64`), as on the platforms the
library targets. JSON input is an abstract value (`JValue`), not bytes. The
webhook parser alone works on a byte body. For that body, the JSON decoder
is a parameter that reads some prefix of the stream and yields a value.
The HMAC, the clock and the nonce are parameters too.

Where the code and the design notes of the library disagree, the model
follows the code:

- JSON `null` is accepted wherever an integer or a string is read, and keeps
  the field's previous value. `encoding/json` does this. So a null
  `DeviceVersion` becomes `"0"`, and a null brightness leaves the integer
  reading at 0 with no error.
- The webhook dispatch has exactly eleven tokens, each for its own event type.
  No token maps to a shared event type.
- The password length that `CreateKeyCommand` checks is Go's `len`, in UTF-8
  bytes, not in characters.

## Model

| member | source | states |
|---|---|---|
| `Text.Itoa` | device.go:398-409 | the decimal text of `n` reads back as `n`, starts with `-` exactly for negatives, and has no leading zero after the sign |
| `Text.ItoaInjective` | device.go:398-409 | two integers render to the same text only if they are equal |
| `Text.ToLowerAscii` | device.go:179-181 | same length, no upper-case letter left, other characters unchanged, letters shifted by 32 |
| `Text.ToUpperAscii` | switchbot.go:284 | same length, no lower-case letter left, other characters unchanged |
| `Text.Utf8Length` | device.go:577-579 | `len` of a Go string lies between the number of characters and four times that, and equals it exactly for ASCII text |
| `Json.Lookup` | webhook.go:365 | a name reads the value of a member with that name that no later member repeats, and nothing when no member has it |
| `Json.DecodeInt` | DeviceVersion.go:11-12 | storing into an `int` succeeds exactly for null or an integer that fits 64 bits; null keeps the old value; a failure is a type error naming the Go type |
| `Json.DecodeString` | DeviceVersion.go:13-17 | storing into a `string` succeeds exactly for null or a string; a string is stored unchanged; null keeps the old value |
| `Json.DecodeFloat` | webhook.go:217 | storing into a `float64` succeeds exactly for null or a number |
| `Json.DecodeStruct` | webhook.go:159 | storing into a struct succeeds exactly for null or an object; null gives no members |
| `Json.MemberBefore` | webhook.go:365 | members after the last one with a name do not change what that name reads |
| `Json.HexRoundTrip` | device.go:592-595 | the fixed-width hexadecimal of a `\u` escape reads back as the number written |
| `Json.EscapePlain` | device.go:592-595 | `json.Marshal` writes text without quotes, backslashes, control or HTML-sensitive characters unchanged |
| `Json.ReadEscaped` | device.go:592-595 | escaped text followed by readable text reads back as the text followed by what that reads |
| `Json.ReadStringOfEscape` | device.go:592-595 | the string decoder recovers every string `json.Marshal` escapes and stops just after the closing quote |
| `Json.ReadQuotedOfQuote` | device.go:592-595 | reading a quoted string recovers the string and leaves exactly what followed it |
| `DeviceVersionCodec.DecodeVersion` | DeviceVersion.go:10-22 | succeeds exactly for null, a string or a 64-bit integer; an integer gives text that reads back as it, a string is kept, null gives "0"; other kinds fail with a string type error |
| `DeviceVersionCodec.IntegerAndTextAgree` | DeviceVersion.go:11-20 | the integer `n` and the string of its digits decode to the same version |
| `DeviceVersionCodec.DecodeIdempotent` | DeviceVersion.go:13-20 | decoding the string form of a decoded version gives it back |
| `DeviceVersionCodec.IntegerReadingFirst` | DeviceVersion.go:11-20 | whenever the integer reading succeeds it decides the result |
| `DeviceVersionCodec.VersionExamples` | DeviceVersion_test.go:15-17 | `"string"` gives "string", `42` and `"42"` both give "42", an object fails |
| `DeviceVersionCodec.DeviceVersion.constructor` | DeviceVersion.go:8 | a fresh version is the empty string |
| `DeviceVersionCodec.DeviceVersion.UnmarshalJSON` | DeviceVersion.go:10-22 | no error exactly when the decode succeeds; then the receiver holds the decoded text, otherwise it is unchanged and the error is returned |
| `Brightness.Int` | device.go:216-222 | succeeds exactly for a non-negative stored integer and returns it; otherwise -1 and the colour-bulb error |
| `Brightness.AmbientBrightness` | device.go:224-230 | succeeds exactly for a non-empty stored word and returns it; otherwise "" and the sensor error |
| `Brightness.Unmarshal` | device.go:196-214 | null, strings and 64-bit integers succeed; an integer n makes `Int` give n (or fail for n < 0) and leaves the ambient word; a string makes `Int` fail and `AmbientBrightness` give it; failure leaves the sentinel -1 and wraps the string error |
| `Brightness.BrightnessState.constructor` | device.go:191-194 | the zero value holds 0 and "" |
| `Brightness.BrightnessState.UnmarshalJSON` | device.go:196-214 | the new fields and the error are those of `Unmarshal` on the old fields |
| `Brightness.DecodeBrightnessField` | device.go:196-230 | an absent field gives `Int() = (0, nil)` and a failing `AmbientBrightness`; a present one is decoded into the zero value |
| `Brightness.BrightnessExamples` | device_test.go:216-243 | 100 gives `Int() = 100` and no ambient word; "bright" and "dim" give the word and `Int() = -1` with its error |
| `DeviceResponses.StatusPath` | device.go:267 | the status path is the devices path, a slash, the id and `/status`, the id recoverable from it |
| `DeviceResponses.CommandPath` | device.go:306 | the command path is the devices path, a slash, the id and `/commands`, the id recoverable from it |
| `DeviceResponses.CommandStatusError` | device.go:319-334 | a command call fails exactly on 151, 152, 160, 161, 171 and 190 |
| `DeviceResponses.ListStatusError` | device.go:117-121 | a list call succeeds exactly on 100; 190 has its own message, every other code the unknown-code message |
| `DeviceResponses.StatusStatusError` | device.go:280-284 | a status call succeeds exactly on 100; 190 has its own message, every other code the unknown-code message |
| `DeviceResponses.CommandTableIsNarrower` | device.go:319-336 | every code a command call refuses is refused by list and status; list and status refuse the same codes |
| `DeviceResponses.CommandAcceptsUnknownCodes` | device.go:319-336 | a code that is neither 100 nor in the command table is success for a command call and an error for a list call |
| `DeviceResponses.CommandMessagesDistinct` | device.go:319-334 | each refused command code has its own message |
| `DeviceResponses.UnknownCodeErrorInjective` | device.go:120 | the unknown-code message names the code, so different codes give different errors |
| `DeviceResponses.ListErrorIdentifiesCode` | device.go:117-121 | the list call's error tells every failing code apart |
| `DeviceResponses.StatusCodeExamples` | device.go:280-284 | 100 succeeds everywhere, 190 fails everywhere, 200 fails only outside the command call |
| `Commands.NullaryByNameOf` | device.go:343-882 | the command name of every argument-less constructor reads back as that constructor |
| `Commands.NullaryByNameNone` | device.go:343-882 | a name the reference reading rejects is sent by no argument-less constructor |
| `Commands.NullaryNamesDistinct` | device.go:343-882 | no two argument-less constructors send the same name |
| `Commands.NullaryRequest` | device.go:343-882 | an argument-less request has parameter "default", type "command" and a name that identifies the constructor |
| `Commands.Clamp` | device.go:392-396 | the position sent lies in [0,100]: below 0 becomes 0, above 100 becomes 100, in range unchanged |
| `Commands.ModeToken` | device.go:402-407 | the mode field is "ff" exactly for modes other than performance and silent, and otherwise reads back as the mode |
| `Commands.SetPosition` | device.go:391-416 | command "setPosition", type "command", parameter splits at commas into index, mode token and clamped position, the first and last reading back as numbers; the result equals `PositionRequest` |
| `Commands.PositionRequest` | device.go:391-416 | the request with the three comma-separated fields; `SetPosition` is proved to return exactly this value |
| `Commands.SetModeCommand` | device.go:448-462 | the parameter is "auto" exactly for the auto mode and otherwise reads back as the mode |
| `Commands.PowerToLower` | device.go:179-181 | the power state lower-cased: same length, each upper-case ASCII letter shifted by 32, every other character unchanged |
| `Commands.SetAllStatusCommand` | device.go:472-478 | the parameter splits into the lower-cased power, then fan mode, fan speed and shake range in decimal |
| `Commands.SetBrightnessCommand` | device.go:490-496 | the parameter reads back as the brightness |
| `Commands.SetColorCommand` | device.go:499-505 | the parameter splits at colons into red, green and blue in decimal |
| `Commands.SetColorTemperatureCommand` | device.go:508-514 | the parameter reads back as the temperature |
| `Commands.PowLevelCommand` | device.go:553-559 | the parameter reads back as the power level |
| `Commands.SetChannelCommand` | device.go:705-711 | the parameter reads back as the channel number |
| `Commands.KeyParametersRoundTrip` | device.go:561-601 | the marshalled key parameters decode back to the same five fields |
| `Commands.KeyTimesRoundTrip` | device.go:561-601 | the two time fields and the closing brace decode back to the two times |
| `Commands.CreateKeyCommand` | device.go:576-602 | fails exactly when the byte length is outside 6..12 or a timed passcode has a zero start or end; the length is checked first; on success the parameter decodes to the name, type, password and the two Unix times |
| `Commands.DeleteKeyCommand` | device.go:605-611 | the parameter `{"id": n}` reads back as the id |
| `Commands.ButtonPushCommand` | device.go:614-620 | the caller's name is the command, verbatim, with parameter "default" and type "customize" |
| `Commands.BlindTiltSetPositionCommand` | device.go:631-639 | the parameter splits at `;` into the direction's fields and the position, unclamped |
| `Commands.ACSetAllCommand` | device.go:696-702 | the parameter splits at commas into temperature, mode and fan speed in decimal, then the lower-cased power |
| `Commands.CommandTypes` | device.go:343-882 | only key creation can fail; a request has type "customize" exactly when it is a button push, "command" otherwise |
| `Commands.ParametersNonEmpty` | device.go:294-298 | no constructor sends an empty parameter, so `omitempty` never drops it |
| `Commands.SetPositionShared` | device.go:391-416 | curtain and blind tilt send the same command name; the curtain's parameter has three comma-separated fields |
| `Commands.ACSetAllExample` | device_test.go:358-372 | `ACSetAll(26, ACAuto, ACMedium, PowerOn)` sends "26,1,3,on" |
| `Commands.SetColorExample` | device_test.go:342-356 | `SetColorCommand(122, 80, 20)` sends "122:80:20" |
| `Commands.SetModeExamples` | device.go:448-462 | the auto mode sends "auto", the low mode "101" |
| `Commands.ButtonPushExample` | device_test.go:374-388 | a push of "ボタン" sends that name with "default" and "customize" |
| `Commands.PasscodeTypesNeedingTimes` | device.go:581-583 | only time-limited and one-time passcodes need times, and the Unix epoch is not the zero time |
| `Commands.ShortPasswordRefused` | device.go:577-579 | a five-byte password fails with the length error naming 5 |
| `Commands.SixBytePasswordAccepted` | device.go:577-601 | a six-byte permanent password succeeds whatever the times |
| `Commands.PasswordLengthInBytes` | device.go:577-579 | six kana are eighteen bytes and are refused |
| `Webhook.KindOf` | webhook.go:361-440 | a token that selects an event type is that type's token |
| `Webhook.KindOfToken` | webhook.go:361-438 | every device type's token selects that device type |
| `Webhook.TokensDistinct` | webhook.go:361-438 | no two event types share a token |
| `Webhook.PeekDeviceType` | webhook.go:151-166 | a body or context that does not decode gives its error; a missing or null device type reads as "", a string as itself, any other kind as a string type error |
| `Webhook.DecodeContext` | webhook.go:168-353 | a decoded event has the requested type and the given header |
| `Webhook.DecodeEvent` | webhook.go:365-438 | a decoded event has the requested type, and the peek on the same value reads its device type |
| `Webhook.ParseWebhook` | webhook.go:355-442 | a failed peek returns its error; an unknown token fails with "unknown device type: " and the token; an event is returned only for the type its peeked token names |
| `Webhook.MissingDeviceTypeFails` | webhook.go:151-166 | every body whose context decodes without a `deviceType` (or with null there) fails as the unknown empty token |
| `Webhook.HeaderRoundTrip` | webhook.go:168-177 | the header fields read back from the context an event is written with |
| `Webhook.ContextRoundTrip` | webhook.go:168-353 | each event type's own fields read back from the context it is written with |
| `Webhook.ParseWebhookOfEncode` | webhook.go:355-442 | every event whose device type is its own token parses back from the body it is written as |
| `Webhook.DecodeEventOf` | webhook.go:365-438 | a body carrying the header fields decodes into what the context decoder builds on that header, and the peek reads its device type |
| `Webhook.MotionReport` | webhook.go:361-368 | a motion report whose context has the detection state before the sample time parses to a motion event with its fields |
| `Webhook.DeviceTypeFromWebhookRequest` | webhook.go:151-166 | on success the token is the peeked device type and the body becomes exactly the bytes the decoder read; on failure the error is returned and the body keeps the unread bytes |
| `Webhook.ParseWebhookRequest` | webhook.go:355-442 | the result is `ParseWebhook` of the value the first decode read, so the full decode sees what the peek saw; the body ends as the bytes not yet read |
| `Webhook.SetupCall` | webhook.go:37-57 | fails exactly for a device list other than "ALL"; otherwise posts to the setup path with the action, the device list, and the url only when non-empty |
| `Webhook.QueryCall` | webhook.go:74-97 | fails exactly for the details action with an empty url; posts to the query path; `urls` is `[url]` for the details action and null otherwise |
| `Webhook.UpdateCallAsWritten` | webhook.go:109-127 | posts action "updateWebhook" with config `{url, enable}` to the query path |
| `Webhook.UpdateHitsQueryPath` | webhook.go:109-110 | the update as written goes to the query path, not the update path, with an action the query endpoint does not name |
| `Webhook.UpdateCall` | webhook.go:109-127 | the update with the path its action names |
| `Webhook.DeleteCall` | webhook.go:129-149 | deletes at the delete path with action "deleteWebhook" and the url always present |
| `Webhook.WebhookPathsDistinct` | webhook.go:38-135 | with the update path corrected, the four calls have four paths, each ending in its action |
| `Webhook.Perform` | webhook.go:50-56 | a management call returns no error exactly when it validates and the transport succeeds; the envelope is never read |
| `Webhook.EnvelopeIgnored` | webhook.go:142-148 | any envelope at all, even one with an error code, counts as success |
| `SwitchBot.DefaultConfig` | switchbot.go:137-144 | `New` starts from the default endpoint and HTTP client, debug off, and the given tokens |
| `SwitchBot.ApplyAllSnoc` | switchbot.go:150-152 | applying one more option acts on the configuration the earlier ones left |
| `SwitchBot.ApplyAllEffect` | switchbot.go:150-176 | after the options, the endpoint and HTTP client are those of the last option that sets them, or unchanged; the tokens are unchanged; debug is on exactly when it was or some option turns it on |
| `SwitchBot.LaterEndpointWins` | switchbot.go:150-169 | of two endpoints the later is used; a later debug option does not touch the endpoint |
| `SwitchBot.DeviceService.constructor` | device.go:20-22 | a service holds the client it was created for |
| `SwitchBot.SceneService.constructor` | scene.go:15-17 | a service holds the client it was created for |
| `SwitchBot.WebhookService.constructor` | webhook.go:17-19 | a service holds the client it was created for |
| `SwitchBot.Client.New` | switchbot.go:137-155 | the client's settings are the defaults with the options applied in order, and the three new services point back to it |
| `SwitchBot.Client.ApplyOption` | switchbot.go:157-176 | one option closure assigns the one field it names and leaves the services alone |
| `SwitchBot.HttpStatusError` | switchbot.go:235-252 | `do` fails exactly on 400, 401, 403, 406, 415, 422, 429 and 500 |
| `SwitchBot.CheckResponse` | switchbot.go:235-254 | a listed status gives its error and no response; any other is passed on unchanged |
| `SwitchBot.HttpMessagesDistinct` | switchbot.go:235-252 | each refused status has its own message |
| `SwitchBot.UnlistedStatusesPassThrough` | switchbot.go:254 | 404, 503 and 200 are passed on for the envelope to be decoded |
| `SwitchBot.RequestURL` | switchbot.go:201 | the URL is the endpoint followed by the path, nothing added or removed |
| `SwitchBot.TrailingSlashDoubles` | switchbot.go:201 | an endpoint ending in a slash gives a doubled slash |
| `SwitchBot.SignatureInput` | switchbot.go:198-199 | the signed string is the token, then `Itoa` of the time, then the nonce; the middle reads back as the time |
| `SwitchBot.Sign` | switchbot.go:281-285 | the signature is the encoded MAC upper-cased: same length, each lower-case ASCII letter shifted by -32, every other character unchanged, none lower-case left |
| `SwitchBot.RequestVerifies` | switchbot.go:196-211 | the headers carry the token, the nonce and the time; `sign` is the upper-cased MAC of their concatenation; the URL is endpoint plus path |

## Left out

- The HTTP transport is left out, and so are `get`, `post` and `del`. They do network I/O. `do` is kept only up to its status table.
- Request bodies are encoded by `json.NewEncoder`. Management calls are modelled by the JSON value they send.
- The debug dumps of requests and responses are left out. They only write to the log.
- HMAC-SHA256 and base64 are a parameter, `encodedMac`. `uuid.New` and `time.Now` give `nonce` and `millis`, which are parameters too.
- The envelope decoding of `List` and `Status` is left out, as is the decoding of the `Device` and `DeviceStatus` records. Only their status checks are modelled. A status's `brightness` field is modelled in `Brightness`.
- `scene.go` is not part of this model. It is CRUD around a single 190 check.
- The device-type constant tables in `switchbot.go` are left out. They are data without behaviour.
- `Json.Lookup`: key matching is exact. `encoding/json` also matches a key that differs from the field's tag only in letter case.
- `Json.DecodeFloat`: a number stored into a `float64` is kept as its literal text, without rounding. The meter's temperature is this text.
- `Json.DecodeFloat`: a number literal outside the `float64` range, such as `1e400`, is accepted; `encoding/json` refuses it with a type error.
- `Json.Lookup` and `Json.Member`: a repeated member is read as its last occurrence. `encoding/json` differs in two cases. A later null leaves a string or integer field as the earlier member set it. A later object is decoded into the nested struct the earlier one filled. For `{"context":{"deviceType":"WoLock","deviceType":null}}` the library peeks `WoLock`; the model peeks the empty token.
- `Webhook.DecodeEvent`: when several fields have the wrong kind, the model reports the first in struct-field order; `encoding/json` reports the first in document order.
- `Json.DecodeInt`: decoding an integer literal too large for 64 bits is refused. The exact wording of Go's overflow error is not modelled.
- JSON syntax is not modelled. `JValue` stands for a decoded value. In the webhook parser, the byte-level decoder is a parameter. That decoder only has to read some prefix of the stream that decodes to the same value on its own. How far Go's buffered decoder reads ahead is therefore not fixed.
- `Json.EscapeChar`: `U+0008` and `U+000C` are written as `\u0008` and `\u000c`. Go releases from 1.22 on write `\b` and `\f` instead. The reference decoder reads both forms. Invalid UTF-8 is never replaced, because a Dafny string holds only Unicode scalar values.
- `Commands.PowerToLower`, `Text.ToLowerAscii` and `Text.ToUpperAscii` map ASCII letters only. Power states and base64 text are ASCII.
- `Commands.CreateKeyCommand`: the error branch of `json.Marshal` is not modelled. It cannot be reached for this record of strings and integers.
- `Commands.CreateKeyCommand`: the test's literal request body is not reproduced character by character. The layout is fixed by `EncodeKeyParameters`, and `KeyParametersRoundTrip` proves it decodes.
- `Commands.Time` keeps only the Unix seconds and nanoseconds of a `time.Time`. Time zones and monotonic readings do not reach the encoder.
- `Request()` of `DeviceCommandRequest` is left out. It returns its receiver.

## Findings

| source | as written | input that shows it | evidently intended | confidence | as-written member | corrected member |
|---|---|---|---|---|---|---|
| webhook.go:109-110 | `Update` posts its `updateWebhook` body to `/v1.0/webhook/queryWebhook` | any call, e.g. `Update(ctx, "https://example.com", true)`; `UpdateHitsQueryPath` shows the path is the query path | post to `/v1.0/webhook/updateWebhook`, as `Setup` and `Delete` use the path their action names | not executed | `Webhook.UpdateCallAsWritten` | `Webhook.UpdateCall` |
