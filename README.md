# tap-twilio in Dafny

tap-twilio is a Singer.io tap. It reads a config file with Twilio credentials, pages through a
Twilio resource list and writes one Singer `RECORD` message per instance, each on its own line.
This project models the tap's core and proves properties of the model:

- the constructor's guard sequence, with its thrown messages and precedence;
- the page options built from the config;
- `streamInstances`, the page walker. It is a class whose `Pull` method is one run of the
  stream generator. It keeps a `lastPage` cursor, a log of the fetches made and the events
  pushed so far. Its invariant ties what it has pushed to a pure reference sequence `Expected`;
- `streamMessages`, which turns every instance into `formatRecord(...) + "\n"`;
- `SingerIO.formatRecord`. It is the compact JSON text of `{type: "RECORD", stream, record}`,
  written the way `JSON.stringify` writes it, for integers up to 2^53 in magnitude. Escaping follows RFC 8259, section 7. A parser
  for that text gives a round-trip proof.

Modules:

- `Wrappers`: `Option` and `Result`.
- `Json`: values, serialiser, parser, round trip, and the absence of characters below U+0020.
- `SingerIO`: the record message.
- `Tap`: construction, page options, the walker and record lines.

The Twilio page API is an oracle, `fetches: seq<FetchResult>`. Entry `k` is what the k-th fetch
gave: a page of instances, no page (`undefined`), or a rejected promise. Fetches past the end
find no page. The first fetch is `api.page(pageOptions)`. Every later fetch is `nextPage()` on
the page the previous fetch returned.

`pageOptions` is passed only to the first `api.page` call. `nextPage()` takes no options
(app/Tap.js:87-90). The model does not track page sizes.

The code and its tests disagree in one place: `start` wires only the `IncomingPhoneNumbers`
stream (app/Tap.js:39-44), although its test expects a `MessageServices` stream too. `start` is
not modelled (see below).

After a rejected fetch, the walker pushes the error and does not call `next()`
(app/Tap.js:101). The generator is not run again, so the stream never pushes an end after an
error. The model's `Failed` phase means this: no further `Pull` is allowed.

## Model

| member | source | states |
|---|---|---|
| Tap.Construct | app/Tap.js:12-30 | A truthy discovery flag throws "Discovery mode not supported", whatever else is given. Otherwise a falsy config argument throws the usage message. Otherwise a failed read, a `null` config or a falsy `accountSid`/`authToken` each fail. Success holds exactly when none of these apply. On success the tap stores the parsed config, which is an object, and a client made from both credentials. |
| Tap.ArgumentChecksIgnoreConfigFile | app/Tap.js:14-23 | When the discovery or usage check fires, the result is the same whatever reading the config file would give. The config is not consulted before those checks. |
| Tap.EmptyCredentialRejected | app/Tap.js:25-27 | An empty-string `accountSid` or `authToken` is rejected with "Config file must have accountSid and authToken". |
| Tap.ConstructExample | test/app/TapTest.js:31-44 | The tests' config builds a tap whose client gets `<account-sid>` and `<auth-token>`. |
| Tap.Get | app/Tap.js:25 | For a key that is no built-in property or index, such as `accountSid`, `authToken` and `pageSize`: property access on a parsed non-null value gives the value of the last member with that key, as `JSON.parse` keeps the last duplicate. It is `undefined` exactly when no member has the key, or when the value is not an object. |
| Tap.PageOptions | app/Tap.js:77-81 | The options are an object. They hold exactly one `pageSize` member carrying the configured value when that value is truthy, and no members otherwise. |
| Tap.PageOptionsKeys | app/Tap.js:77-81 | Reading any key back from the options gives the configured `pageSize` for key `pageSize` when it is truthy, and `undefined` in every other case. |
| Tap.PageWalker.constructor | app/Tap.js:73-83 | A new walker builds its options by adding `pageSize` to an empty object, and they equal `PageOptions` of the tap's config. It starts with no cursor, no fetches and nothing pushed, and its invariant holds. |
| Tap.PageWalker.NextCall | app/Tap.js:86-91 | With no cursor the next fetch is `api.page(pageOptions)`. Otherwise it is `nextPage()` on the cursor's page. |
| Tap.CallLog | app/Tap.js:86-91 | After n fetches the log is `api.page(options)` first, then `nextPage()` on the page fetch k-1 returned, for every k > 0. |
| Tap.PageWalker.Pull | app/Tap.js:85-102 | One generator run appends exactly the fetch `NextCall` names. It pushes every instance of a returned page in order, moves the cursor to that page and waits. Otherwise it pushes the end (no page) or the error (rejection) and stops. The cursor only moves forward, and the invariant tying pushed events to `Expected` is kept. |
| Tap.PageWalker.PushAll | app/Tap.js:98 | Pushes the page's instances in order, changing nothing but the pushed events. |
| Tap.PageWalker.Drain | app/Tap.js:85-102 | Pulling until the stream stops delivers exactly `Expected(fetches)`, after exactly one fetch per page before the first stop, plus one fetch for the stop. The stream has ended when that fetch found no page and has failed when it was rejected. The cursor rests on the last page returned, or is unset when the first fetch stopped. |
| Tap.WalkStep | app/Tap.js:92-101 | One run keeps the walker's account: after a page, what was pushed plus the remaining walk is `Expected`. After a stop, what was pushed is all of `Expected` and the stop is the first one. |
| Tap.FirstStop | app/Tap.js:92-96 | The index of the first fetch that does not return a page: every earlier fetch returned a page. |
| Tap.ExpectedClosedForm | app/Tap.js:92-101 | The stream is the in-order concatenation of the instances of every page before the first stop, then exactly one terminal event. That event is the error of a rejected fetch, or the end. |
| Tap.ExpectedShape | app/Tap.js:93-101 | Every event but the last is an instance. The last is the end or an error. |
| Tap.ExpectedErrorIff | app/Tap.js:101 | The stream carries error e if and only if the first fetch without a page was rejected with e. It ends normally if and only if that fetch found no page. |
| Tap.StopAfterPages | app/Tap.js:92-101 | Pages, then a fetch with no page or a rejection: the pages' instances, then the end or the error. Nothing comes from later fetches. |
| Tap.EmptyPageFollowed | app/Tap.js:93-99 | A page with no instances does not end the stream. The walk continues with the next page. |
| Tap.ThreePagesExample | test/app/TapTest.js:205-221 | Pages of sizes 2, 2 and 1, then no page, give the five instances in order, then the end. |
| Tap.SinglePageExample | test/app/TapTest.js:223-234 | One page of two instances, then no page, gives those two, then the end. |
| Tap.EmptyExample | test/app/TapTest.js:236-245 | An empty first page, then no page, gives only the end, with no error. |
| Tap.FailureExample | test/app/TapTest.js:247-261 | A rejected first fetch gives only its error, whatever later fetches would give. |
| Tap.StreamMessages | app/Tap.js:61-65 | Record lines keep the length and order of the instance stream. Event i of the output is event i of the input, formatted. |
| Tap.FormatEvent | app/Tap.js:64 | An instance becomes a line: its record message followed by one line feed, which decodes back to the stream name and the instance. Errors and the end pass through unchanged. |
| Tap.RecordHasNoLineFeed | app/Tap.js:64 | A record message holds no line feed, so the appended one ends its line. |
| Tap.RecordLines | app/Tap.js:61-65 | The text written for a stream of instances splits at line feeds into exactly the record messages of those instances, in order. |
| Tap.RecordsFromOutput | app/Tap.js:61-103 | Reading a walk's output back line by line gives one record per instance the walker delivered, in order, each with the stream name. |
| SingerIO.RecordMessage | lib/SingerIO.js:16-20 | The message is an object with exactly three members, in order: `type` is "RECORD", then `stream`, then `record`. |
| SingerIO.FormatRecord | lib/SingerIO.js:15-21 | The text parses back as the record message and holds no character below U+0020, in particular no line feed. (That U+007F and U+0080 to U+009F are written as themselves is `Json.EscapePlainChars`.) |
| SingerIO.FormatRecordText | lib/SingerIO.js:16-20 | The text is `{"type":"RECORD","stream":` then the quoted stream name, then `,"record":` then the record's own text, then `}`. |
| SingerIO.DecodeFormatRecord | lib/SingerIO.js:15-21 | Decoding the text recovers the stream name and the record. |
| SingerIO.FormatRecordInjective | lib/SingerIO.js:15-21 | Different stream names or records never give the same text. |
| SingerIO.FormatPlainStrings | lib/SingerIO.js:16-20 | For a string record, and a stream name and record with nothing to escape, the text is the two strings in a fixed frame. |
| SingerIO.FormatRecordExample | test/lib/SingerIOTest.js:7-14 | The message for `<stream>` and `<record>` is exactly `{"type":"RECORD","stream":"<stream>","record":"<record>"}`. |
| SingerIO.EnvelopeText | lib/SingerIO.js:16-20 | A three-member object whose keys and first value need no escaping is written as its quoted keys and values, comma-separated, in member order. |
| Json.Stringify | lib/SingerIO.js:16 | The text of a value is never empty. It opens with a character that starts a value. |
| Json.RoundTrip | lib/SingerIO.js:16 | Parsing the text of any value gives back that value. |
| Json.ParseStringified | lib/SingerIO.js:16 | A value's text followed by any text that cannot continue it reads back as the value, leaving that text. |
| Json.ParseEscapedChars | lib/SingerIO.js:16 | Escaped string contents, then the closing quote, read back as the original characters. |
| Json.ParseIntText | lib/SingerIO.js:16 | The decimal text of an integer reads back as that integer. |
| Json.StringifyPrintable | lib/SingerIO.js:16 | The text of any value holds no character below U+0020: each of them is escaped and no whitespace is added. |
| Json.EscapePlainChars | lib/SingerIO.js:16 | Characters other than those below U+0020, quote and backslash are written as themselves. |
| Json.NatText | lib/SingerIO.js:16 | The decimal text of a natural number is all digits and non-empty. It has a leading zero only for zero. |

## Left out

- Reading the config file (`fs.readFileSync`) and `JSON.parse` (app/Tap.js:23) are file I/O and a library parser. `Tap.Construct` takes their outcome as a parameter.
- `Tap.newTwilio` and the Twilio client (app/Tap.js:29-35) are a foreign network client. The client is reduced to the two credentials it receives. The network calls behind `api.page` and `nextPage` become the fetch oracle.
- Tap.Construct: "success exactly when none of the checks fail" assumes the Twilio client constructor (app/Tap.js:29) does not throw. Whatever it may throw is not modelled.
- `start` (app/Tap.js:37-52) is left out. It wraps the stream in a Highland `merge` and a promise, and its output order depends on asynchronous scheduling.
- When Highland decides to pull again (backpressure) is not modelled. `Pull` is an explicit call and `Drain` is a consumer that pulls until the stream stops.
- The command-line entry point (app/Tap.js:108-116) is process I/O: minimist, `process.stdout`, `process.exitCode`.
- Tap.Construct: an argument that is truthy but names no readable file is covered only through `loaded`. The `TypeError` for a `null` config is `NullConfig`, not a JavaScript error object.
- Json.Stringify: `Num` is an unbounded integer written in full in decimal. This matches `JSON.stringify` only for magnitudes up to 2^53. Above that a JavaScript number is a double, and `JSON.stringify` writes the shortest digits that read back to it, padded with zeros (2^60 is written `1152921504606847000`).
- Json: numbers are integers only, and special values such as NaN are not modelled. JavaScript's fractions and exponent forms need floating point.
- Json: `undefined` members, functions and `toJSON` methods are not modelled. Records are plain JSON values, not Twilio instance objects with their own serialisation.
- Json: JavaScript puts integer-like keys first in an object. Members here keep the order they are given in.
- Json: surrogate pairs are not modelled. `JSON.stringify` escapes a lone surrogate as `\udxxx`; here a string is a sequence of characters, and lone surrogates are not `char` values.
- Json.ParseValue reads only the compact form `JSON.stringify` writes, with no whitespace. It is a partner for the round trip, not a general JSON parser.
- Tap.Get: built-in properties are not modelled. JavaScript finds `length` on arrays and inherited members such as `constructor` or `toString` on every object; `Get` gives `undefined` for them. Index keys such as `"0"` on arrays, which JavaScript finds, are not modelled either. Property access on `null` throws a `TypeError` and is not a case of `Get`. The tap reads only `accountSid`, `authToken` and `pageSize` on a non-null config, which are none of these.
- Tap.FetchAt: fetches past the end of the oracle find no page, so every modelled walk ends. A page chain that never ends, on which the source would keep pulling forever, cannot be expressed, and `Drain`'s termination relies on this.
- Tap.PageWalker.Pull: a rejection is assumed to carry a truthy reason, as the Twilio client's `Error` objects do. A Highland generator treats only a truthy first argument of `push` as an error, so a rejection with `undefined` or `null` would be pushed as a value instead. Highland is not part of this model.
- Pages without an `instances` list (the `TypeError` that `forEach` would throw) are not modelled. A page is its instance sequence.
