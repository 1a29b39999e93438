# Flight-change SMS notifier, modelled in Dafny

The notifier listens for flight-change alerts and turns each one into at most
one SMS request. `build_message` fills a fixed three-line template with nine
fields taken from the alert's `user`, `departure` and `arrival` records.
`on_message` handles one bus message. It parses the payload and reads the
three gateway credentials (`TWILIO_SID`, `TWILIO_TOKEN`, `TWILIO_PHONE`) from
the environment. If any credential is unset or empty, it returns without
sending. Otherwise it renders the body and asks the gateway to send it from
the configured number to the user's phone.

Files:

- `wrappers.dfy` (module `Wrappers`): `Option` and `Result`.
- `str_format.dfy` (module `PyFormat`): Python's `str.format` for format
  strings whose fields are all `{}`, with `{{`/`}}` escapes and the
  too-few-arguments and lone-brace errors. Also general lemmas: formatting
  pieces joined by `{}` interleaves the pieces with the arguments, the result
  is exactly as long as its parts, and each argument appears verbatim at a
  known offset.
- `notifier.dfy` (module `Notifier`): the template and `build_message`, kept
  as the source's own format string. It is proved equal to the explicit
  concatenation of literal text and fields, including the leading eight
  spaces on lines two and three and the missing space in `gate{}`.
  `on_message` appears twice. `Handle` is a function that gives the outcome
  of one message. `Gateway.OnMessage` is the imperative handler, and it
  appends to the gateway's `outbox`.
- `scenarios.dfy` (module `NotifierScenarios`): three scenarios
  whose outcomes are proved from `Handle` and `BuildMessage`.

Modelling decisions:

- The parsed payload is `Option<Alert>`. `None` means UTF-8 decoding or
  `ast.literal_eval` raised. An `Alert` is a dict of string-keyed,
  string-valued dicts, so every missing key is an explicit `KeyError`
  outcome.
- The environment is a `map<string, string>`. `os.getenv(name, None)` is
  `Getenv`, and Python's `not x` is the negation of `Truthy`, which is false
  for both `None` and `""`.
- The gateway is a class whose `outbox` records each `messages.create`
  request. A request also records the account id and token that the client
  was built with on line 33.
- On missing or empty credentials the handler returns silently (`Dropped`).
  Keys are subscripted one at a time in argument order, with no check up
  front, so the first missing one raises `KeyError`. Fields are not checked for emptiness and are rendered as they
  are.

## Model

| member | source | states |
|---|---|---|
| PyFormat.Format | notifier/notifier.py:7-9 | `str.format` with `{}` fields: a format string without braces is reproduced unchanged (substitution and the error cases are stated by the lemmas below) |
| PyFormat.FormatLiteral | notifier/notifier.py:7-9 | brace-free text at the front of a format string is copied unchanged to the front of the result |
| PyFormat.FormatField | notifier/notifier.py:7-9 | brace-free text followed by `{}` copies the text and substitutes the next argument, then formats the rest with the remaining arguments |
| PyFormat.FormatJoin | notifier/notifier.py:7-17 | formatting brace-free pieces joined by `{}` with enough arguments succeeds and interleaves the pieces with the arguments in order |
| PyFormat.FormatJoinTooFew | notifier/notifier.py:7-9 | formatting brace-free pieces joined by `{}` with fewer arguments than fields raises IndexError |
| PyFormat.FormatTrailingOpenBrace | notifier/notifier.py:7-9 | after brace-free text, a `{` ending the format string raises ValueError |
| PyFormat.FormatSingleCloseBrace | notifier/notifier.py:7-9 | a `}` that is the first brace and is not doubled raises ValueError |
| PyFormat.InterleaveLength | notifier/notifier.py:7-17 | the rendered text is exactly as long as its literal pieces plus its arguments: nothing is trimmed or added |
| PyFormat.InterleaveAt | notifier/notifier.py:10-17 | every argument appears verbatim, at the offset determined by the pieces and arguments before it |
| Notifier.TemplatePieces | notifier/notifier.py:7-9 | the three-line format string is the ten literal pieces joined by nine `{}` fields |
| Notifier.FormatTemplate | notifier/notifier.py:7-17 | formatting the template with nine arguments never fails and interleaves them with the literal pieces |
| Notifier.MessageText | notifier/notifier.py:7-9 | the interleaving of the template's pieces with nine arguments, written out as literal text and arguments |
| Notifier.Render | notifier/notifier.py:7-17 | the filled template equals `"Dear " + a0 + ", your flight from " + a1 + ...` with the verbatim line breaks, indentation and `gate{}` |
| Notifier.LiteralsLength | notifier/notifier.py:7-9 | the template text outside its fields is 115 characters long |
| Notifier.RenderLayout | notifier/notifier.py:7-17 | the body is 115 characters plus the field lengths, and each field appears verbatim at its offset in the template |
| Notifier.FirstMissing | notifier/notifier.py:9-17 | finds the first of the nine format arguments, in argument order, whose key is absent, and states that all earlier ones are present |
| Notifier.FirstMissingInOrder | notifier/notifier.py:9-17 | the nine lookups happen in the order userName, departure iataCode, arrival iataCode, departure scheduledTime/terminal/gate, arrival scheduledTime/terminal/gate |
| Notifier.BuildMessage | notifier/notifier.py:6-17 | succeeds exactly when the nine keys are present; otherwise raises KeyError for the first missing one; the body is the template with the fields substituted in source order, and its length is 115 plus the field lengths |
| Notifier.BodyReadsOnlyUserName | notifier/notifier.py:9 | only `userName` is read from `user`: two users that agree on it (both lacking it, or both holding the same name) give the same outcome |
| Notifier.BodyIgnoresPhoneNumber | notifier/notifier.py:9 | in particular, changing the phone number never changes the outcome |
| Notifier.FirstMissingKey | notifier/notifier.py:9-39 | for an alert lacking some key `on_message` reads, names the first one read (user, departure, arrival, then the nine format fields in argument order, then phoneNumber), and that key is indeed missing |
| Notifier.Dispatch | notifier/notifier.py:35-43 | with credentials set, the handler forms a request exactly when every key it reads is present; the request carries the credentials, `build_message(...)`, `TWILIO_PHONE` and `user['phoneNumber']`; otherwise it raises KeyError for the first missing key |
| Notifier.Handle | notifier/notifier.py:22-44 | parse failure raises before the credentials are read; the message is dropped exactly when parsing succeeded and a credential is missing or empty; a request is formed exactly when parsing succeeded, all credentials are set and every key is present; its body is `build_message(...)`, its sender `TWILIO_PHONE`, its recipient `user['phoneNumber']`; any other outcome is KeyError for exactly the first missing key, which is actually missing |
| Notifier.CredentialsBeforePayload | notifier/notifier.py:26-37 | an alert lacking a top-level record is dropped without error when credentials are incomplete, and raises KeyError for the first missing of user, departure, arrival when they are complete |
| Notifier.Gateway.CreateMessage | notifier/notifier.py:41-44 | one send appends exactly one request to the outbox |
| Notifier.Gateway.OnMessage | notifier/notifier.py:22-44 | the outcome is `Handle`'s; the outbox gains exactly the sent request when one is sent and nothing otherwise, and earlier requests are unchanged |
| NotifierScenarios.AliceMessage | notifier/notifier.py:6-17 | Alice's JFK to LAX alert renders to the expected three lines, ending in `gate22` |
| NotifierScenarios.AliceIsNotified | notifier/notifier.py:22-44 | with all credentials set, Alice's alert yields one request from the configured number to `+15551234567` |
| NotifierScenarios.MissingArrivalSendsNothing | notifier/notifier.py:35-37 | the same alert without `arrival` raises KeyError('arrival') and sends nothing |
| NotifierScenarios.EmptyTokenSendsNothing | notifier/notifier.py:26-31 | the same alert with an empty token is dropped |

## Left out

- The MQTT client, the `on_connect` subscription to `flight/update`, the connection to `broker:1883`, `loop_forever` and the connection-refused message (notifier/notifier.py:19-20, 46-57). These are network I/O and event-loop plumbing.
- UTF-8 decoding and `ast.literal_eval` (notifier/notifier.py:23-24). These are library calls, so the handler receives their result as `Option<Alert>`.
- Payloads that parse to something other than a dict of string-valued dicts. The source would raise `TypeError` when it subscripts a non-dict, and it would format a non-string field with `str()`. The model's payload type cannot express either case.
- Construction of the Twilio client and the remote `messages.create` call (notifier/notifier.py:33, 41-44). A send is modelled only as appending a request to the outbox. It always succeeds, so gateway rejections and network errors are not modelled, and the unused return value is dropped.
- `os.getenv` as a real process environment. The environment is passed in as a map.
- PyFormat.Format: replacement fields with a name, index, conversion or format spec are reported as `UnsupportedField` instead of being interpreted. The template uses only `{}`.
