# f-up-counter-bot, modelled in Dafny

The bot is a chat-platform interaction webhook that counts the days since the last
incident ("f-up"). One AWS Lambda handler (`lambdaHandler` in `src/main.ts`) takes each
request and runs these steps in order:

- it rejects a request without a body (400);
- it checks the Ed25519 signature over `timestamp + body` and rejects a bad one (401);
- it answers a Ping with a Pong;
- it handles two application commands:
  - `days` reads the table `last-fup` and replies with the number of days since the stored
    day start;
  - `reset` overwrites the two `last-fup` rows with today's day start and a description, and
    appends the same pair to the log table `all-fups` under a fresh id;
- it answers anything else with 500.

Each command posts exactly one reply to the interaction's callback address and then returns
`200 "Ok."`.

The model has six modules:

- `Optional` (`optional.dfy`): `Option`, which stands for JavaScript's `undefined`.
- `JsNumbers` (`js_numbers.dfy`): `Number#toString` on integers and `parseInt` with no radix
  argument. These are how a time is stored and read back. The round trip
  `parseInt(n.toString()) == n` is proved.
- `DayClock` (`day_clock.dfy`): truncating a time to the start of its day, and the whole days
  between two day starts, in integer seconds.
- `Interactions` (`interactions.dfy`):
  - the request and the parsed interaction;
  - `Route`, the pure branch decision;
  - `FindReason`, the loop that finds the reset reason among the options.
- `IncidentStore` (`incident_store.dfy`):
  - the two tables as an abstract state;
  - the `getLastFUp` item scan;
  - `submitFUp`'s batch write;
  - the invariant that resets starting from empty tables keep;
  - the class `Database`, whose methods read and update the tables in place.
- `Webhook` (`webhook.dfy`):
  - the outcome of one request as a pure function `Handle`: the result, the ordered trace of
    `StoreRead`, `StoreWrite` and `Reply` effects, and the tables afterwards;
  - the class `Lambda`, whose `LambdaHandler` method is proved to produce exactly that outcome;
  - lemmas that relate several requests.

The model stands in for these external pieces:

- The signature check is a function-valued parameter `verify(message, signature, publicKey)`.
  It is never given a definition.
- The clock reading `now` (integer seconds since the epoch) is a parameter.
- The id `uuid()` would return is a parameter `freshId`. It must differ from every id already
  in the log.
- Whether the read of `last-fup` throws is a parameter `readFails`.

## Model

| member | source | states |
|---|---|---|
| JsNumbers.NatDigits | src/main.ts:57 | the decimal text of a natural number is non-empty, all decimal digits, and has no leading zero |
| JsNumbers.IntToString | src/main.ts:57 | `n.toString()` starts with `-` exactly when n is negative and is otherwise made of decimal digits |
| JsNumbers.TrimStart | src/main.ts:153 | `parseInt` drops the leading white space: every dropped character is white space, what remains is a suffix of the text, and it does not start with white space |
| JsNumbers.DigitPrefix | src/main.ts:153 | the digits `parseInt` reads are the longest prefix of digits of the radix: all of them are digits and the next character is not |
| JsNumbers.ParseInt | src/main.ts:153 | `parseInt(last_time)` is NaN when the text is blank or, after the white space, starts with neither a digit nor a sign; a negative result needs a leading `-`; the round trip with `toString` is `ParseIntToString` |
| JsNumbers.ParseIntToString | src/main.ts:153 | reading back a stored time gives the stored integer: `parseInt(n.toString()) == n` for every integer n |
| DayClock.StartOfDay | src/main.ts:47-49 | `startOf("day")` yields a multiple of 86400 that is at most the instant and less than a day before it |
| DayClock.StartOfDayUnique | src/main.ts:155 | any day start within a day before an instant is that instant's truncation, so two instants share a day exactly when their truncations agree |
| DayClock.StartOfDayOfDayStart | src/main.ts:155 | truncating a day start leaves it unchanged |
| DayClock.ElapsedDays | src/main.ts:153-156 | the day count is the floor of (start of today minus the stored time) / 86400, and exact when the stored time is a day start |
| DayClock.SameDayIsZeroDays | src/main.ts:153-156 | a time truncated on the day of `now` is zero days old |
| Interactions.FirstReasonIn | src/main.ts:173-179 | the reason is undefined exactly when no option is named "reason" with a value; otherwise it is the value of the first such option |
| Interactions.FirstReason | src/main.ts:170-180 | the reason is undefined exactly when the command has no options or none of them is named "reason" with a value; otherwise it is the value of the first such option |
| Interactions.FindReason | src/main.ts:170-180 | the loop that breaks at the first option named "reason" that has a value returns exactly that option's value, and undefined when there is none |
| Interactions.LaterReasonsIgnored | src/main.ts:175-177 | options after the first one named "reason" with a value never change the reason |
| Interactions.Route | src/main.ts:106-199 | each branch and its exact condition: 400 iff no body or an empty one; 401 iff a body whose signature over timestamp + body fails; Pong iff verified and kind 1; `days`/`reset` iff verified, kind 2 and that name, carrying the interaction's id and token and, for `reset`, the first reason; 500 iff verified and any other kind or name |
| IncidentStore.Latest | src/main.ts:36-39 | the scan's value for a key is the field of the last item with that key (a later item wins), undefined when no item has the key |
| IncidentStore.ScanResponses | src/main.ts:33-40 | the item loop computes both `last_time` (the N field of the last `last-fup-time` item) and `last_content` (the S field of the last `last-fup-content` item); both are undefined when the response has no items |
| IncidentStore.ReadLastOfStore | src/main.ts:21-42 | a read that does not throw reports the number stored under `last-fup-time` and the string under `last-fup-content`, each undefined when its row is missing or has the other type |
| IncidentStore.Description | src/main.ts:65 | the description is the reason when it is a non-empty string, and "Unknown" when it is undefined or empty |
| IncidentStore.NewEntryReadsBack | src/main.ts:74 | the time a reset logs is today's day start as decimal text, which `parseInt` reads back as that day start |
| IncidentStore.Submit | src/main.ts:45-82 | a reset sets `last-fup-time` and `last-fup-content` and leaves every other row unchanged; it appends exactly one log row and leaves earlier rows unchanged; the new row holds today's day start as decimal text, `Description` of the reason and the fresh id, and `last-fup-time` and `last-fup-content` hold its time and its description |
| IncidentStore.SubmitPreservesValid | src/main.ts:50-82 | a reset with a fresh id preserves the store invariant: unique log ids, day-aligned logged times, only the two `last-fup` rows, and those rows repeating the last log row |
| IncidentStore.ReadLastOfValid | src/main.ts:21-42 | in a valid store a read reports nothing before the first reset and otherwise the time and description of the last logged reset |
| IncidentStore.Database.constructor | src/main.ts:19 | the client opens the two existing tables with whatever they already hold, and its state is exactly that content |
| IncidentStore.Database.GetLastFUp | src/main.ts:21-43 | `getLastFUp` returns nothing exactly when the read throws, and otherwise the two stored values as the scan reports them |
| IncidentStore.Database.SubmitFUp | src/main.ts:45-84 | `submitFUp` changes any tables exactly as `Submit` says, and keeps the store invariant when it held before and the id is fresh |
| Webhook.DaysText | src/main.ts:153-157 | `days.toString()` is the decimal text of the whole days d with d * 86400 <= start of today - stored time < (d + 1) * 86400, and "NaN" when the stored time did not parse or lies beyond 8.64e12 seconds either side of the epoch, where `moment.unix` gives an invalid moment |
| Webhook.ElapsedMessage | src/main.ts:153-157 | the reply for a stored time names the whole days from that time, read back with `parseInt`, to the start of today ("NaN" when it does not parse or is outside the range of a Date), followed by the description or "undefined" |
| Webhook.DaysMessage | src/main.ts:148-159 | the `days` reply is the fixed fallback when the read threw or found no time; when the stored time parses to p within the range of a Date it is the report of the d whole days with d * 86400 <= start of today - p < (d + 1) * 86400 and of the description ("undefined" when missing); otherwise the report says "NaN" |
| Webhook.Handle | src/main.ts:102-200 | 400, 401, Pong and 500 are returned with no effect and the tables unchanged; `days` does one read, then one reply, and changes nothing; `reset` does one write (the store changing as `Submit` states), then one reply; both commands return 200 "Ok."; status 200 occurs exactly for a verified Ping, `days` or `reset`; a read failure gives the fallback reply |
| Webhook.MissingBodySkipsVerification | src/main.ts:106-113 | without a body the outcome does not depend on the signature check at all |
| Webhook.HandlePreservesValid | src/main.ts:181 | every request, whatever its branch, keeps the store invariant, so successive resets get distinct log ids |
| Webhook.DaysBeforeAnyReset | src/main.ts:148-159 | before the first reset, `days` replies with the fallback text |
| Webhook.DaysReportsLastReset | src/main.ts:150-157 | after a reset, `days` reports the exact whole number of days between the last logged day start and the start of today ("NaN" when that day start is outside the range of a Date), and the last logged description |
| Webhook.ResetThenDaysSameDay | src/main.ts:146-189 | from any tables, a reset at a valid clock reading followed on the same day by `days` produces the reply "It has been 0 day(s) since the last incident. The last incident was " plus the reset's description |
| Webhook.Lambda.constructor | src/main.ts:17-19 | the handler holds the process-wide public key and database |
| Webhook.Lambda.LambdaHandler | src/main.ts:102-200 | on any tables, the handler's result, effect trace and new tables are exactly those that `Handle` gives for the tables before; it keeps the store invariant when it held before and the id is fresh |
| Webhook.Lambda.DaysCommand | src/main.ts:146-167 | the `days` branch reads once, then replies once with `DaysMessage` of that read, and returns 200 "Ok." |
| Webhook.Lambda.ResetCommand | src/main.ts:168-189 | the `reset` branch writes both tables as `Submit` says, then replies once with the fixed confirmation, and returns 200 "Ok."; it keeps the store invariant when it held before and the id is fresh |

## Left out

- Ed25519 verification (`tweetnacl`) and the hex decoding of the signature and key are not
  modelled. They are the uninterpreted parameter `verify`.
- Interactions.Route: a signature header or public key that does not decode to 64 or 32 bytes
  makes `nacl.sign.detached.verify` throw in the source, an uncaught exception. The total
  `verify` of the model answers such a request with 401 instead.
- `JSON.parse` of the body is not modelled. An `Event` carries the raw body, for the signature,
  together with the interaction parsing it would give. A body that does not parse throws in
  the source, which has no branch for it.
- `JSON.stringify` of the results is not modelled. Each result body is its fixed JSON text, and
  a reply is recorded as `(id, token, type, content)`.
- The DynamoDB client, credentials and network are not modelled. A read that throws is the
  flag `readFails`; the `days` branch catches it, and its trace still records the attempted
  read.
- A write or reply that throws is an uncaught exception in the source and is not modelled.
  The model's write always stores both rows; a batch write that comes back with unprocessed
  items, which the source confirms all the same, is not modelled.
- The HTTP callback made with `fetch` is not modelled. It is the `Reply` effect.
- `moment`'s local time zone and daylight-saving time are not modelled. Days are UTC days of
  86400 integer seconds.
- Webhook.DaysText: the model floors the day count. The source prints the floating-point
  `asDays()`, which has a fractional part when a stored time is not a day start. The store
  invariant rules that out for times the bot writes itself.
- JsNumbers.IntToString: does not model the exponent form `toString` uses at magnitude 1e21
  and above.
- JsNumbers.ParseInt: does not model the rounding of `parseInt` results beyond 2^53, since
  numbers are doubles in the source.
- `uuid()` is not modelled. It is the parameter `freshId`, which must be fresh.
- Console logging and loading `PUBLIC_KEY` from the environment are not modelled. The key is
  the `publicKey` field of `Lambda`.
- Missing signature headers are not modelled. The source asserts they are present, so headers
  are plain strings here.
- Option values that are not strings are not modelled. The source only casts them to a string
  type.
- Items without a `value` attribute are not modelled. In the source they throw inside the
  catch, which gives the fallback reply.
- The order of the items a real batch read returns is not fixed. `ReadItems` uses the
  requested order, while `Latest` and `ScanResponses` are proved for any order.
- The tables' contents when the bot starts are not fixed by the code. The store invariant
  (`ValidState`) and the results built on it (`SubmitPreservesValid`, `HandlePreservesValid`,
  `DaysBeforeAnyReset`, `DaysReportsLastReset`, `ReadLastOfValid` and the `Valid()` clauses of
  the methods) hold for tables that start empty (`EmptyIsValid`) and are written only by this
  bot's resets. For other contents, such as a `last-fup-time` row without a
  `last-fup-content` row, only `Handle` and `LambdaHandler` describe the behaviour.
- The clock reading `now` is taken to be a valid Date, as `moment()` always is. Only the
  stored time is checked against the Date range of 8.64e12 seconds either side of the epoch.
- Concurrent requests and racing resets are not modelled. Each request is handled on its own.

## Where the code is followed

These are behaviours of the code that the model keeps as they are:

- A body that does not parse is not answered with 400. `JSON.parse` throws, and that case is
  left out above.
- A batch write that throws is not caught. The handler rejects, no reply is sent and the
  invocation fails; this is left out above. A batch write that returns unprocessed items is
  confirmed all the same.
- With a stored time but no stored description, `days` reports the day count followed by the
  text "undefined".
