# bou-responder, modelled in Dafny

bou-responder answers the "is anyone in the room?" slash command. It
subscribes to a Beebotte MQTT topic, asks a status endpoint how many people
are in the room, and posts an ephemeral Slack reply to the command's response
URL. The program is one TypeScript file, `index.ts`. This project models the
deterministic decisions in it. The MQTT, HTTPS and file plumbing around them
is not modelled.

- `json.dfy`: module `JsValues` holds the parsed values (`Json`: null, bool,
  number, string, array, object). It also holds `JsValue`, which adds
  JavaScript's `undefined`, and the JavaScript rules the program relies on:
  truthiness, `typeof x === 'object'` and named property reads. Module
  `Wrappers` holds `Option`.
- `config.dfy` (module `Config`): the `implementsBouOptions` type guard,
  `getBouOptionsFromConfigYaml`, and the two exits at the top of `run`.
- `status.dfy` (module `Status`): `getCountOfUsers`, from the parsed response
  body to what the function resolves to.
- `response.dfy` (module `Response`): `setupResponse`, the `Message` class
  and `postEphemeralTo`, which gives the request it would send.
- `ephemeral.dfy` (module `Ephemeral`): the Slack payload literal, and a
  reader that gets the message back out of it.
- `subscription.dfy` (module `Subscription`): the subscribed topic, the
  subscription callback's early exits, the connection-error exit, and
  `split('/')` with its inverse `join`.

Choices in the model:
- Exits are returned as values (`Startup.Exit(1)`, `Outcome.Exit(-1)`).
- An exception that ends a callback is the outcome `Thrown`.
- A rejected `setupResponse` promise is a `null` message.
- `getCountOfUsers` returns exactly what the JavaScript returns, so it is
  not limited to `null` or a count. For truthy non-array `data` the result is
  its own outcome: a string's length, the `length` field of an object, or
  `undefined` for a number or `true`.
- `setupResponse` works on any such count as JavaScript's `repeat` does:
  `undefined` gives zero markers, and a count of -1 or below throws
  RangeError. The engine's own limit on string length is not modelled.

The code checks less than a reader might expect; the model follows the code:
- Only the token is checked for emptiness. An empty channel, resource or
  endpoint is accepted (`Config.OnlyTokenChecked`).
- A granted topic that does not split into two segments is only left
  unlogged. It does not fail.
- `data` that is truthy but not an array does not fail the query
  (`Status.CountAgreesWithUsersInRoom`).

## Model

| member | source | states |
|---|---|---|
| `Config.BouOptionsFromConfig` | index.ts:33-66 | The settings come back exactly when the document is not null and its `bouOptions` is an object whose four settings are all strings. The result holds those same strings. An unreadable or unparsable file gives none. |
| `Config.ReadsBackOptions` | index.ts:46-60 | A `bouOptions` object carrying four string settings, with or without extra keys, is read back as exactly those settings. |
| `Config.RejectsNonString` | index.ts:46-59 | If any one of the four settings is missing or is not a string, the result is none. |
| `Config.StartupOf` | index.ts:149-165 | Startup exits with code 1 exactly when there is no configuration or the token is empty. Otherwise it connects with a non-empty token. |
| `Config.OnlyTokenChecked` | index.ts:160-165 | Any settings with a non-empty token connect with exactly those settings; empty channel, resource and endpoint included. |
| `Status.CountOfUsers` | index.ts:68-84 | A failed fetch or parse, a null or non-object body, or a falsy `data` gives null. Otherwise the result is `data.length`: an array's or string's length, an object's own `length` field (or `undefined` without one), or `undefined` for a number or boolean. |
| `Status.CountAgreesWithUsersInRoom` | index.ts:72-79 | Where the body is an object with a `data` array, the result is that array's length. The result is null exactly on the rejected bodies, plus objects whose own `length` is null. A truthy non-array `data` gives no intended count. |
| `Status.CountExamples` | index.ts:72-79 | `{"data":[]}` gives 0, two users give 2, and an array, `{}`, `{"data":0}`, a string or a parse failure gives null. `{"data":"abc"}` gives 3 and `{"data":5}` gives undefined. |
| `Response.RepeatLength` | index.ts:98 | `s.repeat(n)` has length n·\|s\|. |
| `Response.CopiesOfRepeat` | index.ts:98 | `m.repeat(n)` consists of exactly n back-to-back copies of `m`. |
| `Response.OpenFooterShows` | index.ts:96-98 | The open footer shows exactly n markers after the presence phrase, and its length is 22 + 20·n. |
| `Response.OpenRepliesDiffer` | index.ts:96-98 | Different numbers of people give different footers. |
| `Response.RepeatTimes` | index.ts:98 | `repeat(count)` throws RangeError for a number of -1 or below. Otherwise it makes the count truncated toward zero (0 for -1 < x < 0), 1 for `true`, and 0 for `false`, `undefined` or null. |
| `Response.Compose` | index.ts:86-102 | A null count gives exactly the error headline and apology footer, and 0 exactly the closed headline and "No one is currently in the room."; those headlines appear for no other count. Any other count gives the open headline with one marker per counted person, or nothing when `repeat` throws. Every reply sets both fields to non-empty strings. |
| `Response.ReplyForBody` | index.ts:86-99 | A rejected reply body gives the error message and footer. An empty user list gives the closed message and "No one is currently in the room.". n > 0 users give the open message with n markers in a footer of length 22 + 20·n. |
| `Response.SetupResponse` | index.ts:86-102 | Returns a fresh message whose headline and footer are the composed reply for the body's count, or null exactly when `repeat` throws. |
| `Response.Message.constructor` | index.ts:108-111 | A new message has an empty text and an empty footer. |
| `Response.Message.PostEphemeralTo` | index.ts:113-146 | The request is a POST to the given URL with content type `application/json`. Its body is the ephemeral payload of this message, from which the message reads back unchanged. |
| `Ephemeral.EphemeralPayload` | index.ts:114-135 | The payload has exactly the keys `text`, `response_type` and `blocks`, with `text` "from boushitsu", `response_type` "ephemeral" and two blocks. |
| `Ephemeral.ReadBackPayload` | index.ts:114-135 | The section block's mrkdwn text is the headline. The context block's single mrkdwn element is the footer. |
| `Ephemeral.PayloadInjective` | index.ts:114-135 | Two messages give the same payload exactly when they are equal. |
| `Ephemeral.OnlyTextsVary` | index.ts:114-135 | Every payload is the empty message's payload with the two text leaves replaced, so nothing else depends on the message. |
| `Subscription.Split` | index.ts:201 | `split('/')` always yields at least one piece, and no piece contains '/'. |
| `Subscription.JoinSplit` | index.ts:201 | Joining the pieces of a split with '/' gives back the topic. |
| `Subscription.SplitJoin` | index.ts:180-201 | Pieces without '/', once joined with '/', split back into the same pieces. |
| `Subscription.SubscribeTopicSplits` | index.ts:175-180 | The topic `channel + '/' + res` splits into [channel, resource] when neither contains '/'. |
| `Subscription.OnSubscribe` | index.ts:180-206 | The exit is -1 exactly when there is an error, a falsy `granted`, a non-array or empty `granted`, or a first grant with no truthy `topic`. A truthy non-string topic throws. Otherwise the result is the topic's `split('/')`, whose pieces hold no '/' and join back to it. |
| `Subscription.OnBrokerEvent` | index.ts:178-223 | A connection error always exits with -1. A subscription acknowledgment is decided by the callback's checks. |
| `Subscription.GrantedSubscriptionSucceeds` | index.ts:175-206 | An error-free grant of the requested topic at QoS 1 succeeds with the pieces [channel, resource]. |

## Left out

- Reading `config.yml`, `YAML.parse` and `JSON.parse`: the model takes the parsed value. A read or parse exception is `None`, and so is an empty document, whose `bouOptions` read throws as it does on null.
- YAML values that JSON cannot express (dates, other custom tags): `Json` covers only JSON's value kinds.
- The MQTT connection, the CA file, the broker URL and the `token:` username (index.ts:166-173): network plumbing in a foreign library.
- `fetch`, `resp.text()` and the HTTPS request itself: `Message.PostEphemeralTo` returns the request it would send instead of sending it.
- The inbound-message handler (index.ts:208-217): the async handler, `JSON.parse` of the message, and reading `data.response_url` before the post. Its registration inside `connect` adds one more handler on every reconnect, which is event-loop behaviour. Concurrent handlers and their ordering are not modelled.
- Logging, including the log of the two topic segments, and `process.exit` as actual termination.
- `ecosystem.config.js`: a process-manager configuration with no logic.
- `Response.Compose`: requires the count to be `undefined`, null, a boolean or a number. A string, array or object count can only come from a reply like `{"data":{"length":"x"}}`, and JavaScript's string and object to number conversion inside `repeat` is not modelled.
- `Response.RepeatTimes`: requires the count to be `undefined`, null, a boolean or a number; JavaScript's `repeat` also accepts strings, arrays and objects by converting them to numbers, which is not modelled.
- `Response.RepeatTimes`: the RangeError `repeat` throws when the result would exceed the engine's maximum string length (about 2^29 characters in Node) is not modelled, nor the one for an infinite count. For a reply like `{"data":{"length":1e9}}` the program's `setupResponse` rejects, while `Response.Compose` and `Response.SetupResponse` give the open reply with 10^9 markers.
- `Response.SetupResponse`: carries the same requirement on the count as `Response.Compose`, for the same reason.
- `Status.CountOfUsers`: a string's length is counted in characters, not UTF-16 code units. A number too large for a double (JavaScript's `Infinity`) is not represented.
- `JsValues.Prop`: models only the named, non-index properties the program reads. Properties inherited from `Object.prototype` are not modelled.
