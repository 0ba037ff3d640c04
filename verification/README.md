# Exporter settings of the OpenTelemetry tracing demo page

The demo page (`src/app.js`, `src/otel.js`) asks the user for a collector URL,
a stream name and optional Basic-Auth credentials, and initialises a browser
trace exporter with them. Everything else in the page delegates to the
tracing SDK, the DOM and timers. This project models the page's own logic in
two steps and proves what each step promises:

1. `window.initializeOtel` turns the four input fields into a `config` object.
   It trims the username, the URL and the stream name but not the password.
   It falls back to literal defaults for an empty URL or stream name. It adds
   the credentials only when both are non-empty (module `App`).
2. `otelProvider.init(conf)` turns `config` into the exporter's options. It
   fills a `headers` object in place: `stream-name`, then an optional
   `Authorization: Basic <base64(username:password)>`, then the caller's own
   headers through `Object.assign`. It then resolves `url` and `timeout`
   (module `Otel`).

Supporting modules:
- `JsText`: `String.prototype.trim`, with the white space and line terminators of ECMA-262.
- `Base64`: the base-64 encoding of section 4 of RFC 4648, and `btoa`. `btoa` encodes the Latin-1 code of a string and throws `InvalidCharacterError` on any other character.
- `JsObject`: an ordinary object as an ordered list of own properties, `o[k] = v`, `Object.assign`, and the class `Dict` for the `headers` object that `init` mutates. Assigning a string to the key `__proto__` reaches the setter inherited from `Object.prototype`, which ignores it, so no property is made; `Object.assign` therefore drops a caller header named `__proto__`.
- `Wrappers`: `Option` stands for `null`/`undefined`; `Result` stands for a thrown error.

The DOM is not modelled. The four input values become the parameter `App.Form`, and
`init`'s `conf` becomes `Otel.Config`. `btoa` is defined in full, and the
exporter receives `Otel.CollectorOptions`.

JavaScript truthiness is explicit. A string field counts only when present
and non-empty. The timeout counts only when present and non-zero, so a
timeout of `0` also gives 10000.

`init` runs `btoa` inside its own `try`. If the credentials are not Latin-1,
`btoa` throws and the `catch` swallows the error, so no exporter is built.
The model states this as `Failure(InvalidCharacterError)`; there is no
precondition on the credentials.

## Model

| member | source | states |
|---|---|---|
| `JsText.TrimInfix` | src/app.js:36-39 | `trim()` returns the infix of the field left after a blank prefix and a blank suffix are removed. |
| `JsText.TrimEnds` | src/app.js:36-39 | The trimmed value neither starts nor ends with white space. |
| `JsText.TrimEmptyIffBlank` | src/app.js:36-39 | The trimmed value is empty exactly when the field holds only white space, or nothing. |
| `JsText.TrimIdempotent` | src/app.js:36-39 | Trimming an already trimmed value changes nothing. |
| `JsText.TrimKeepsUnpadded` | src/app.js:36-39 | A value with no white space at either end is its own trim. |
| `Base64.Btoa` | src/otel.js:30 | `btoa` succeeds exactly on Latin-1 input. Its output decodes back to the Latin-1 bytes of the input. |
| `Base64.BtoaInjective` | src/otel.js:30 | Two strings that `btoa` accepts give the same code only when they are the same string. |
| `Base64.DecodeEncode` | src/otel.js:30 | Decoding undoes the RFC 4648 encoding, so two different byte strings never share an encoding. |
| `Base64.EncodeLength` | src/otel.js:30 | Every three bytes, and a final shorter group, become four characters. |
| `Base64.EncodeAlphabet` | src/otel.js:30 | Every output character is an alphabet digit or the pad `=`. |
| `JsObject.Get` | src/otel.js:24-38 | `o` has an own property `k` exactly when `k` is one of its keys, and the value read is that own property's. |
| `JsObject.GetSetProp` | src/otel.js:25-31 | After `o[k] = v`, the own property `k` is `v` and every other key reads as before. Assigning `__proto__` leaves the own properties unchanged. |
| `JsObject.KeysSetProp` | src/otel.js:25-31 | `o[k] = v` keeps the key order. It appends `k` only when `k` is new and is not `__proto__`. |
| `JsObject.DistinctSetProp` | src/otel.js:25-31 | `o[k] = v` never creates a second property with the same name. |
| `JsObject.GetAssignAll` | src/otel.js:36-38 | After `Object.assign(t, s)`, every key of `s` other than `__proto__` reads as in `s`, and every other key as in `t`. |
| `JsObject.KeysAssignAll` | src/otel.js:36-38 | `Object.assign(t, s)` keeps the keys of `t` in front and in order. It ends with exactly the keys of `t` and the keys of `s` other than `__proto__`, each once. |
| `JsObject.Dict.constructor` | src/otel.js:24 | `const headers = {}` starts with no properties. |
| `JsObject.Dict.Put` | src/otel.js:25-31 | `headers[k] = v` updates the object in place as `o[k] = v` specifies and keeps the keys distinct. |
| `JsObject.Dict.Assign` | src/otel.js:36-38 | `Object.assign(headers, src)` assigns the source's properties one by one, in order, and keeps the keys distinct. |
| `Otel.Init` | src/otel.js:24-44 | Filling `headers` in place and resolving `url` and `timeout` gives exactly `CollectorOptionsOf(conf)`, with distinct header keys. A `btoa` error ends in `Failure`, as the `catch` at src/otel.js:81-83 does. |
| `Otel.InitFailsOnlyOnNonLatin1` | src/otel.js:28-31 | `init` fails exactly when both credentials are given and `username:password` is not Latin-1. |
| `Otel.HeadersAsExpected` | src/otel.js:24-38 | Each header key has the value that an independent key-by-key definition gives. A caller header wins, except one named `__proto__`, which is dropped. Otherwise `stream-name` always has a value, and `Authorization` has one only with both credentials. No other key has a value. |
| `Otel.StreamNameHeaderValue` | src/otel.js:24-25 | `stream-name` is a non-empty `conf.streamName`, else `default`, unless the caller's headers set it. |
| `Otel.AuthorizationIdentifiesCredentials` | src/otel.js:28-31 | Two configurations with the same `Authorization` value carry the same `username:password` string: different credential strings never share a header. |
| `Otel.AuthorizationHeaderValue` | src/otel.js:28-31 | Unless the caller's headers set it, `Authorization` is present exactly when both credentials are non-empty. Its value is `Basic ` followed by text that decodes to the Latin-1 bytes of `username:password`. |
| `Otel.CustomHeadersWin` | src/otel.js:36-38 | The caller's headers override every key they name, including `stream-name` and `Authorization`. A caller header named `__proto__` gives no header. |
| `Otel.HeaderKeys` | src/otel.js:24-38 | The keys are distinct, and `stream-name` comes first. `Authorization` comes second when there are credentials. The key set is `stream-name`, plus `Authorization` with credentials, plus the caller's keys other than `__proto__`, and nothing else. `__proto__` is never a key. |
| `Otel.HeaderKeysWithoutCustom` | src/otel.js:24-38 | Without caller headers, the keys are exactly `[stream-name]`, or `[stream-name, Authorization]` with credentials. |
| `Otel.UrlResolution` | src/otel.js:41 | `url` is a non-empty `conf.url`, else `http://localhost:5080/api/default/v1/traces`. It is never empty. |
| `Otel.TimeoutResolution` | src/otel.js:43 | `timeout` is a non-zero `conf.timeout`, else 10000: an absent timeout, a `conf` that is null or undefined, and a supplied `0` all give 10000. It is never 0. |
| `Otel.NoConfig` | src/otel.js:24-44 | With `conf` null or undefined, the result is the headers `{stream-name: default}`, the default URL and timeout 10000. |
| `App.InitializeOtel` | src/app.js:36-57 | Building `config` step by step and passing it to `init` gives `ConfigOf(form)` and `init`'s result for it. |
| `App.ConfigUrl` | src/app.js:38 | The URL is the trimmed field, or the default endpoint when the field is blank. It is never empty. |
| `App.ConfigStreamName` | src/app.js:39 | The stream name is the trimmed field, or `default` when the field is blank. It is never empty. |
| `App.ConfigCredentials` | src/app.js:36-50 | The config carries credentials exactly when the username is not blank and the password is non-empty. The username is trimmed and the password is kept as typed. The config never carries `headers` or `timeout`. |
| `App.BlankPasswordCounts` | src/app.js:36-50 | For every form with a non-blank username, a non-empty password made only of white space is kept as typed, next to the trimmed username, and `init` counts the credentials as given. |
| `App.InitFallbacksUnused` | src/app.js:38-45 | The page always passes a non-empty URL and stream name, so the fallbacks at src/otel.js:25 and 41 never apply. |
| `App.PageCredentials` | src/app.js:42-50 | On the page path, `init` sees credentials exactly when the form gives both. They are the trimmed username, a colon and the raw password. There are no caller headers. |
| `App.PageFailure` | src/app.js:36-57 | On the page path, `init` fails exactly for credentials outside Latin-1. |
| `App.PageUrlAndTimeout` | src/app.js:38-57 | On the page path, the timeout is always 10000 and the URL is the normalised URL field. |
| `App.PageHeaderKeys` | src/app.js:36-57 | On the page path, the header keys are `stream-name`, followed by `Authorization` exactly when the trimmed username and the raw password are both non-empty. |
| `App.PageHeaderValues` | src/app.js:36-57 | On the page path, `stream-name` is the normalised stream-name field. With credentials, `Authorization` is `Basic` plus the base-64 encoding of the trimmed username, a colon and the raw password. |
| `App.AsWrittenReportsFailedInit` | src/app.js:57-61 | For the username `€`, `init` fails, yet the page as written reports success. |
| `App.StatusIsTruthful` | src/app.js:57-70 | The corrected report (`App.StatusReported`, which passes on the outcome of `init`) is a failure exactly when the form gives a non-blank username and a non-empty password whose `username:password` is not Latin-1. |

## Findings

| source | as written | input that shows it | evidently intended | confidence | as-written member | corrected member |
|---|---|---|---|---|---|---|
| src/app.js:57-70 with src/otel.js:81-83 | `init` catches the `btoa` error itself and returns normally. So the page's `catch` never runs, and it logs "initialized successfully", marks the status connected and disables the form, although no exporter was built. | username `€` (U+20AC), password `secret` | The page reports the initialisation error, which its own `catch` is written to do. | medium, not executed | `App.AsWrittenReportsFailedInit` (on `App.StatusAsWritten`) | `App.StatusReported` with `App.StatusIsTruthful` |

The model of `init` (`Otel.Init`, `Otel.CollectorOptionsOf`) follows the code
as written: the error stays inside `init`. Only the page's report has a
corrected form.

## Left out

- SDK wiring is not modelled: the resource attributes, `OTLPTraceExporter`, `BatchSpanProcessor`, `WebTracerProvider`, `register` and the `provider` field (src/otel.js:45-71). These are foreign library calls with no behaviour visible here. The model ends with the options handed to the exporter.
- The self-test spans (src/otel.js:73-79) and `getTracer` (src/otel.js:86-88) are not modelled. Both delegate to the tracing API.
- Console and page logging is not modelled (src/otel.js:32, 82; src/app.js:4-12, 33, 51-53, 59-60, 68-69), and neither are the status and button updates (src/app.js:15-28, 61-66). These are UI output. The finding above models only which report the page gives.
- The scenario flows (src/app.js:74-258) are not modelled. They are driven by timers and promises on SDK span objects. vite.config.js is build configuration.
- Field types are fixed. The `conf` fields are strings or absent, `headers` maps strings to strings, and `timeout` is a whole number. JavaScript allows other values, such as a non-string stream name, a `NaN` or fractional timeout, or symbol-keyed headers; these are not modelled.
- Property order: JavaScript lists integer-like keys such as `"42"` before other keys. The model keeps every key in insertion order, so the order claims of `Otel.HeaderKeys` hold only for keys that are not integer-like. The key sets and values do not depend on this.
- Inherited properties: `JsObject.Get` reads own properties only. In JavaScript `headers[k]` also finds names inherited from `Object.prototype`, such as `toString`; `init` never reads its headers back, so the model states what the object owns.
- Characters are Unicode scalar values, while JavaScript strings are UTF-16 code units. Lone surrogates cannot be written. A character above U+FFFF is one character here, but two code units in JavaScript. `btoa` rejects both forms, and `trim` treats them the same.
- `Base64.Decode` is only the inverse used to state what `Authorization` carries. It accepts non-zero unused bits in the last group, which section 3.5 of RFC 4648 allows decoders to reject.
