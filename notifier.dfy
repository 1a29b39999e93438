/**
 * The flight-change notifier: `build_message` renders the SMS text from the
 * `user`, `departure` and `arrival` records of an alert, and `on_message`
 * turns one parsed alert into at most one request to the SMS gateway,
 * provided the three gateway credentials are configured.
 */
module Notifier {
  import opened Wrappers
  import PyFormat

  /** One of the `user`, `departure`, `arrival` dicts of an alert. */
  type Record = map<string, string>

  /** The alert as `ast.literal_eval` returns it: a dict of dicts. */
  type Alert = map<string, Record>

  /** The process environment `os.getenv` consults. */
  type Env = map<string, string>

  /** The exceptions `on_message` can raise. */
  datatype Error =
    | ParseError          // the payload is not UTF-8 or not a Python literal
    | KeyError(key: string)

  /**
   * The arguments of one `client.messages.create` call, together with the
   * account identifier and token the client was constructed with;
   * `sender` is the `from_` argument and `recipient` the `to` argument.
   */
  datatype Request = Request(accountSid: string, authToken: string, body: string, sender: string, recipient: string)

  /** How handling one message ends: an early return, one send, or an exception. */
  datatype Outcome = Dropped | Sent(request: Request) | Raised(error: Error)

  /** `d[key]` on a Python dict. */
  function Subscript<V>(d: map<string, V>, key: string): Result<V, Error> {
    if key in d then Ok(d[key]) else Err(KeyError(key))
  }

  // ---------------------------------------------------------------------
  // build_message

  /** The format string of `build_message`, one constant per line of the triple-quoted literal. */
  const Template := Line1 + Line2 + Line3
  const Line1 := "Dear {}, your flight from {} to {} has changed:\n"
  const Line2 := "        departure at {} terminal {} gate {}.\n"
  const Line3 := "        arrival at {} terminal {} gate{}"

  /** The text of `Template` between its replacement fields. */
  const Literals: seq<string> := [
    "Dear ", ", your flight from ", " to ", " has changed:\n        departure at ",
    " terminal ", " gate ", ".\n        arrival at ", " terminal ", " gate", ""]

  /** Which record a format argument is taken from. */
  datatype Part = User | Departure | Arrival

  /** The nine format arguments, in the order `build_message` passes them. */
  const MessageFields: seq<(Part, string)> := [
    (User, "userName"), (Departure, "iataCode"), (Arrival, "iataCode"),
    (Departure, "scheduledTime"), (Departure, "terminal"), (Departure, "gate"),
    (Arrival, "scheduledTime"), (Arrival, "terminal"), (Arrival, "gate")]

  function Pick(p: Part, user: Record, departure: Record, arrival: Record): Record {
    match p
    case User => user
    case Departure => departure
    case Arrival => arrival
  }

  /** Format argument `i` can be looked up. */
  predicate Present(i: nat, user: Record, departure: Record, arrival: Record)
    requires i < |MessageFields|
  {
    MessageFields[i].1 in Pick(MessageFields[i].0, user, departure, arrival)
  }

  /** The keys a departure or arrival record must hold. */
  const LegKeys: set<string> := {"iataCode", "scheduledTime", "terminal", "gate"}

  /** The first format argument at or after `from` whose key is missing, if any. */
  function FirstMissing(user: Record, departure: Record, arrival: Record, from: nat): (r: Option<nat>)
    requires from <= |MessageFields|
    ensures r.Some? ==> from <= r.value < |MessageFields| && !Present(r.value, user, departure, arrival)
    ensures r.Some? ==> forall j :: from <= j < r.value ==> Present(j, user, departure, arrival)
    ensures r.None? ==> forall j :: from <= j < |MessageFields| ==> Present(j, user, departure, arrival)
    decreases |MessageFields| - from
  {
    if from == |MessageFields| then None
    else if !Present(from, user, departure, arrival) then Some(from)
    else FirstMissing(user, departure, arrival, from + 1)
  }

  // The template is the literal pieces joined by `{}`. The solver cannot compare
  // a long string literal with a concatenation of many pieces in one step, so
  // the lemmas below split each line into its pieces separately and regroup
  // the pieces on symbolic strings (JoinTen, RegroupLines, RegroupMessage).

  lemma JoinTen(lits: seq<string>, sep: string)
    requires |lits| == 10
    ensures PyFormat.Join(lits, sep) == lits[0] + sep + (lits[1] + sep + (lits[2] + sep + (lits[3] + sep
      + (lits[4] + sep + (lits[5] + sep + (lits[6] + sep + (lits[7] + sep + (lits[8] + sep + lits[9]))))))))
  {
    assert lits[8..][1..] == lits[9..];
    assert PyFormat.Join(lits[8..], sep) == lits[8] + sep + PyFormat.Join(lits[9..], sep);
    assert lits[7..][1..] == lits[8..];
    assert PyFormat.Join(lits[7..], sep) == lits[7] + sep + PyFormat.Join(lits[8..], sep);
    assert lits[6..][1..] == lits[7..];
    assert PyFormat.Join(lits[6..], sep) == lits[6] + sep + PyFormat.Join(lits[7..], sep);
    assert lits[5..][1..] == lits[6..];
    assert PyFormat.Join(lits[5..], sep) == lits[5] + sep + PyFormat.Join(lits[6..], sep);
    assert lits[4..][1..] == lits[5..];
    assert PyFormat.Join(lits[4..], sep) == lits[4] + sep + PyFormat.Join(lits[5..], sep);
    assert lits[3..][1..] == lits[4..];
    assert PyFormat.Join(lits[3..], sep) == lits[3] + sep + PyFormat.Join(lits[4..], sep);
    assert lits[2..][1..] == lits[3..];
    assert PyFormat.Join(lits[2..], sep) == lits[2] + sep + PyFormat.Join(lits[3..], sep);
    assert lits[1..][1..] == lits[2..];
    assert PyFormat.Join(lits[1..], sep) == lits[1] + sep + PyFormat.Join(lits[2..], sep);
    assert lits[0..][1..] == lits[1..];
    assert PyFormat.Join(lits[0..], sep) == lits[0] + sep + PyFormat.Join(lits[1..], sep);
    assert lits[0..] == lits;
  }

  lemma Line1Pieces()
    ensures Line1 == "Dear " + "{}" + ", your flight from " + "{}" + " to " + "{}" + " has changed:\n"
  {}

  lemma Line2Pieces()
    ensures Line2 == "        departure at " + "{}" + " terminal " + "{}" + " gate " + "{}" + ".\n"
  {}

  lemma Line3Pieces()
    ensures Line3 == "        arrival at " + "{}" + " terminal " + "{}" + " gate" + "{}"
  {}

  lemma RegroupLines(lits: seq<string>, a3: string, b3: string, a6: string, b6: string, sep: string)
    requires |lits| == 10 && lits[3] == a3 + b3 && lits[6] == a6 + b6 && lits[9] == []
    ensures (lits[0] + sep + lits[1] + sep + lits[2] + sep + a3)
          + (b3 + sep + lits[4] + sep + lits[5] + sep + a6)
          + (b6 + sep + lits[7] + sep + lits[8] + sep)
         == lits[0] + sep + (lits[1] + sep + (lits[2] + sep + (lits[3] + sep + (lits[4] + sep
          + (lits[5] + sep + (lits[6] + sep + (lits[7] + sep + (lits[8] + sep + lits[9]))))))))
  {}

  /** No literal piece of the template holds a brace. */
  lemma LiteralsBraceFree()
    ensures forall i :: 0 <= i < |Literals| ==> PyFormat.NoBraces(Literals[i])
  {
  }

  lemma LiteralsSplit()
    ensures Literals[3] == " has changed:\n" + "        departure at "
    ensures Literals[6] == ".\n" + "        arrival at "
    ensures Literals[9] == []
  {}

  /** The template consists of `Literals` separated by nine `{}` fields. */
  lemma TemplatePieces()
    ensures |Literals| == 10
    ensures Template == PyFormat.Join(Literals, "{}")
  {
    JoinTen(Literals, "{}");
    Line1Pieces();
    Line2Pieces();
    Line3Pieces();
    LiteralsSplit();
    RegroupLines(Literals, " has changed:\n", "        departure at ", ".\n", "        arrival at ", "{}");
  }

  lemma InterleaveNine(lits: seq<string>, args: seq<string>)
    requires |lits| == 10 && |args| == 9
    ensures PyFormat.Interleave(lits, args)
         == lits[0] + args[0] + (lits[1] + args[1] + (lits[2] + args[2] + (lits[3] + args[3] + (lits[4] + args[4]
          + (lits[5] + args[5] + (lits[6] + args[6] + (lits[7] + args[7] + (lits[8] + args[8] + lits[9]))))))))
  {
    assert lits[8..][1..] == lits[9..] && args[8..][1..] == args[9..];
    assert PyFormat.Interleave(lits[8..], args[8..]) == lits[8] + args[8] + PyFormat.Interleave(lits[9..], args[9..]);
    assert lits[7..][1..] == lits[8..] && args[7..][1..] == args[8..];
    assert PyFormat.Interleave(lits[7..], args[7..]) == lits[7] + args[7] + PyFormat.Interleave(lits[8..], args[8..]);
    assert lits[6..][1..] == lits[7..] && args[6..][1..] == args[7..];
    assert PyFormat.Interleave(lits[6..], args[6..]) == lits[6] + args[6] + PyFormat.Interleave(lits[7..], args[7..]);
    assert lits[5..][1..] == lits[6..] && args[5..][1..] == args[6..];
    assert PyFormat.Interleave(lits[5..], args[5..]) == lits[5] + args[5] + PyFormat.Interleave(lits[6..], args[6..]);
    assert lits[4..][1..] == lits[5..] && args[4..][1..] == args[5..];
    assert PyFormat.Interleave(lits[4..], args[4..]) == lits[4] + args[4] + PyFormat.Interleave(lits[5..], args[5..]);
    assert lits[3..][1..] == lits[4..] && args[3..][1..] == args[4..];
    assert PyFormat.Interleave(lits[3..], args[3..]) == lits[3] + args[3] + PyFormat.Interleave(lits[4..], args[4..]);
    assert lits[2..][1..] == lits[3..] && args[2..][1..] == args[3..];
    assert PyFormat.Interleave(lits[2..], args[2..]) == lits[2] + args[2] + PyFormat.Interleave(lits[3..], args[3..]);
    assert lits[1..][1..] == lits[2..] && args[1..][1..] == args[2..];
    assert PyFormat.Interleave(lits[1..], args[1..]) == lits[1] + args[1] + PyFormat.Interleave(lits[2..], args[2..]);
    assert lits[0..][1..] == lits[1..] && args[0..][1..] == args[1..];
    assert PyFormat.Interleave(lits[0..], args[0..]) == lits[0] + args[0] + PyFormat.Interleave(lits[1..], args[1..]);
    assert lits[0..] == lits && args[0..] == args;
  }

  /** The template filled with nine arguments, written out piece by piece. */
  lemma MessageText(args: seq<string>)
    requires |args| == 9
    ensures PyFormat.Interleave(Literals, args)
         == "Dear " + args[0] + ", your flight from " + args[1] + " to " + args[2]
          + " has changed:\n        departure at " + args[3] + " terminal " + args[4] + " gate " + args[5]
          + ".\n        arrival at " + args[6] + " terminal " + args[7] + " gate" + args[8]
  {
    InterleaveNine(Literals, args);
    RegroupMessage(Literals, args);
    LiteralsValues();
  }

  lemma LiteralsValues()
    ensures Literals == ["Dear ", ", your flight from ", " to ", " has changed:\n        departure at ",
      " terminal ", " gate ", ".\n        arrival at ", " terminal ", " gate", ""]
  {}

  lemma RegroupMessage(lits: seq<string>, args: seq<string>)
    requires |lits| == 10 && |args| == 9
    ensures lits[0] + args[0] + (lits[1] + args[1] + (lits[2] + args[2] + (lits[3] + args[3] + (lits[4] + args[4]
          + (lits[5] + args[5] + (lits[6] + args[6] + (lits[7] + args[7] + (lits[8] + args[8] + lits[9]))))))))
         == lits[0] + args[0] + lits[1] + args[1] + lits[2] + args[2] + lits[3] + args[3] + lits[4] + args[4]
          + lits[5] + args[5] + lits[6] + args[6] + lits[7] + args[7] + lits[8] + args[8] + lits[9]
  {}

  /** Formatting the template with nine arguments succeeds and interleaves them with the literal pieces. */
  lemma FormatTemplate(args: seq<string>)
    requires |args| == 9
    ensures PyFormat.Format(Template, args) == Ok(PyFormat.Interleave(Literals, args))
  {
    TemplatePieces();
    LiteralsBraceFree();
    PyFormat.FormatJoin(Literals, args);
    assert args[..9] == args;
  }

  /** The first missing format argument, spelled out in argument order. */
  lemma FirstMissingInOrder(user: Record, departure: Record, arrival: Record)
    ensures FirstMissing(user, departure, arrival, 0)
         == if "userName" !in user then Some(0)
            else if "iataCode" !in departure then Some(1)
            else if "iataCode" !in arrival then Some(2)
            else if "scheduledTime" !in departure then Some(3)
            else if "terminal" !in departure then Some(4)
            else if "gate" !in departure then Some(5)
            else if "scheduledTime" !in arrival then Some(6)
            else if "terminal" !in arrival then Some(7)
            else if "gate" !in arrival then Some(8)
            else None
  {
  }

  /** The literal text of the template is 115 characters long. */
  lemma LiteralsLength()
    ensures PyFormat.TotalLength(Literals) == 115
  {
  }

  /** The template filled with nine arguments, each substituted verbatim. */
  function Render(args: seq<string>): (r: string)
    requires |args| == 9
    ensures r == "Dear " + args[0] + ", your flight from " + args[1] + " to " + args[2]
               + " has changed:\n        departure at " + args[3] + " terminal " + args[4] + " gate " + args[5]
               + ".\n        arrival at " + args[6] + " terminal " + args[7] + " gate" + args[8]
  {
    FormatTemplate(args);
    MessageText(args);
    PyFormat.Format(Template, args).value
  }

  /** The rendered body is 115 characters of template text plus the fields,
      and each field appears verbatim at its offset in the template. */
  lemma RenderLayout(args: seq<string>)
    requires |args| == 9
    ensures |Render(args)| == 115 + PyFormat.TotalLength(args)
    ensures forall k :: 0 <= k < 9 ==>
      && PyFormat.Offset(Literals, args, k) + |args[k]| <= |Render(args)|
      && Render(args)[PyFormat.Offset(Literals, args, k)..PyFormat.Offset(Literals, args, k) + |args[k]|] == args[k]
  {
    FormatTemplate(args);
    PyFormat.InterleaveLength(Literals, args);
    LiteralsLength();
    forall k | 0 <= k < 9
      ensures PyFormat.Offset(Literals, args, k) + |args[k]| <= |Render(args)|
      ensures Render(args)[PyFormat.Offset(Literals, args, k)..PyFormat.Offset(Literals, args, k) + |args[k]|] == args[k]
    {
      PyFormat.InterleaveAt(Literals, args, k);
    }
  }

  /**
   * `build_message(user, departure, arrival)`: the nine fields are looked up in
   * argument order (the first missing one raises KeyError) and substituted
   * verbatim into the template.
   */
  function BuildMessage(user: Record, departure: Record, arrival: Record): (r: Result<string, Error>)
    ensures r.Ok? <==> "userName" in user && LegKeys <= departure.Keys && LegKeys <= arrival.Keys
    ensures r.Err? ==> var m := FirstMissing(user, departure, arrival, 0);
      m.Some? && r.error == KeyError(MessageFields[m.value].1)
    ensures r.Ok? ==>
      r.value == "Dear " + user["userName"] + ", your flight from " + departure["iataCode"] + " to " + arrival["iataCode"]
       + " has changed:\n        departure at " + departure["scheduledTime"]
       + " terminal " + departure["terminal"] + " gate " + departure["gate"]
       + ".\n        arrival at " + arrival["scheduledTime"]
       + " terminal " + arrival["terminal"] + " gate" + arrival["gate"]
    ensures r.Ok? ==>
      |r.value| == 115 + |user["userName"]|
      + |departure["iataCode"]| + |departure["scheduledTime"]| + |departure["terminal"]| + |departure["gate"]|
      + |arrival["iataCode"]| + |arrival["scheduledTime"]| + |arrival["terminal"]| + |arrival["gate"]|
  {
    FirstMissingInOrder(user, departure, arrival);
    assert MessageFields[0].1 == "userName";
    assert MessageFields[1].1 == MessageFields[2].1 == "iataCode";
    assert MessageFields[3].1 == MessageFields[6].1 == "scheduledTime";
    assert MessageFields[4].1 == MessageFields[7].1 == "terminal";
    assert MessageFields[5].1 == MessageFields[8].1 == "gate";
    var userName :- Subscript(user, "userName");
    var departureCode :- Subscript(departure, "iataCode");
    var arrivalCode :- Subscript(arrival, "iataCode");
    var departureTime :- Subscript(departure, "scheduledTime");
    var departureTerminal :- Subscript(departure, "terminal");
    var departureGate :- Subscript(departure, "gate");
    var arrivalTime :- Subscript(arrival, "scheduledTime");
    var arrivalTerminal :- Subscript(arrival, "terminal");
    var arrivalGate :- Subscript(arrival, "gate");
    Ok(Render([userName, departureCode, arrivalCode, departureTime, departureTerminal,
               departureGate, arrivalTime, arrivalTerminal, arrivalGate]))
  }

  /** `build_message` looks at no key of `user` but `userName`: two users that agree on it give the same outcome. */
  lemma BodyReadsOnlyUserName(u1: Record, u2: Record, departure: Record, arrival: Record)
    requires ("userName" in u1) == ("userName" in u2)
    requires "userName" in u1 ==> u1["userName"] == u2["userName"]
    ensures BuildMessage(u1, departure, arrival) == BuildMessage(u2, departure, arrival)
  {
  }

  /** In particular the phone number never reaches the body. */
  lemma BodyIgnoresPhoneNumber(user: Record, departure: Record, arrival: Record, phone: string)
    ensures BuildMessage(user["phoneNumber" := phone], departure, arrival) == BuildMessage(user, departure, arrival)
  {
    BodyReadsOnlyUserName(user["phoneNumber" := phone], user, departure, arrival);
  }

  // ---------------------------------------------------------------------
  // on_message

  /** `os.getenv(name, None)`. */
  function Getenv(env: Env, name: string): Option<string> {
    if name in env then Some(env[name]) else None
  }

  /** Python truthiness of a `getenv` result: `not v` holds for None and for "". */
  predicate Truthy(v: Option<string>) {
    v.Some? && v.value != ""
  }

  /** The three gateway credentials are all set and non-empty. */
  predicate CredentialsComplete(env: Env) {
    && "TWILIO_SID" in env && env["TWILIO_SID"] != ""
    && "TWILIO_TOKEN" in env && env["TWILIO_TOKEN"] != ""
    && "TWILIO_PHONE" in env && env["TWILIO_PHONE"] != ""
  }

  /** The top-level keys `on_message` subscripts. */
  const AlertKeys: set<string> := {"user", "departure", "arrival"}

  /** The keys of the `user` record that `on_message` reads. */
  const UserKeys: set<string> := {"userName", "phoneNumber"}

  /** Every key `on_message` reads is present. */
  predicate AlertComplete(alert: Alert) {
    && AlertKeys <= alert.Keys
    && UserKeys <= alert["user"].Keys
    && LegKeys <= alert["departure"].Keys
    && LegKeys <= alert["arrival"].Keys
  }

  /** The keys `on_message` reads that are absent, at either level of the alert. */
  function MissingKeys(alert: Alert): set<string> {
    (AlertKeys - alert.Keys)
    + (if "user" in alert then UserKeys - alert["user"].Keys else {})
    + (if "departure" in alert then LegKeys - alert["departure"].Keys else {})
    + (if "arrival" in alert then LegKeys - alert["arrival"].Keys else {})
  }

  /**
   * The key whose lookup raises first in an incomplete alert: the records
   * `user`, `departure`, `arrival`, then the nine template fields in argument
   * order, then the user's `phoneNumber`. It is always one of the missing keys.
   */
  function FirstMissingKey(alert: Alert): (k: string)
    requires !AlertComplete(alert)
    ensures k in MissingKeys(alert)
  {
    if "user" !in alert then "user"
    else if "departure" !in alert then "departure"
    else if "arrival" !in alert then "arrival"
    else
      match FirstMissing(alert["user"], alert["departure"], alert["arrival"], 0)
      case Some(i) =>
        MessageFields[i].1
      case None =>
        "phoneNumber"
  }

  /**
   * What `on_message` does once the credentials are known to be set: look up
   * the three records, render the body, look up the destination phone number
   * and form the request. It succeeds exactly when every key it reads is
   * present, and otherwise raises KeyError for the first missing one.
   */
  function Dispatch(alert: Alert, accountSid: string, authToken: string, twilioPhone: string): (r: Result<Request, Error>)
    ensures r.Ok? <==> AlertComplete(alert)
    ensures r.Ok? ==>
      r.value == Request(accountSid, authToken,
                         BuildMessage(alert["user"], alert["departure"], alert["arrival"]).value,
                         twilioPhone, alert["user"]["phoneNumber"])
    ensures r.Err? ==> r.error == KeyError(FirstMissingKey(alert))
  {
    var user :- Subscript(alert, "user");
    var departure :- Subscript(alert, "departure");
    var arrival :- Subscript(alert, "arrival");
    var body :- BuildMessage(user, departure, arrival);
    var destination :- Subscript(user, "phoneNumber");
    Ok(Request(accountSid, authToken, body, twilioPhone, destination))
  }

  /**
   * The outcome of `on_message` for a payload that parsed to `parsed` (None
   * when decoding or `ast.literal_eval` raised) in environment `env`.
   */
  function Handle(parsed: Option<Alert>, env: Env): (r: Outcome)
    ensures parsed.None? ==> r == Raised(ParseError)
    ensures r == Dropped <==> parsed.Some? && !CredentialsComplete(env)
    ensures r.Sent? <==> parsed.Some? && CredentialsComplete(env) && AlertComplete(parsed.value)
    ensures r.Sent? ==>
      var alert := parsed.value;
      r.request == Request(env["TWILIO_SID"], env["TWILIO_TOKEN"],
                           BuildMessage(alert["user"], alert["departure"], alert["arrival"]).value,
                           env["TWILIO_PHONE"], alert["user"]["phoneNumber"])
    ensures r.Raised? && parsed.Some? ==>
      && CredentialsComplete(env) && !AlertComplete(parsed.value)
      && r.error == KeyError(FirstMissingKey(parsed.value))
      && r.error.key in MissingKeys(parsed.value)
  {
    if parsed.None? then Raised(ParseError)
    else
      var accountSid := Getenv(env, "TWILIO_SID");
      var authToken := Getenv(env, "TWILIO_TOKEN");
      var twilioPhone := Getenv(env, "TWILIO_PHONE");
      if !Truthy(accountSid) || !Truthy(authToken) || !Truthy(twilioPhone) then Dropped
      else
        match Dispatch(parsed.value, accountSid.value, authToken.value, twilioPhone.value)
        case Ok(request) => Sent(request)
        case Err(e) => Raised(e)
  }

  /**
   * The credentials are consulted before any key of the alert: without them an
   * alert missing a top-level record is dropped quietly; with them the first
   * missing record, in the order user, departure, arrival, raises KeyError.
   */
  lemma CredentialsBeforePayload(alert: Alert, env: Env)
    requires !(AlertKeys <= alert.Keys)
    ensures !CredentialsComplete(env) ==> Handle(Some(alert), env) == Dropped
    ensures CredentialsComplete(env) ==> Handle(Some(alert), env) == Raised(KeyError(
      if "user" !in alert then "user" else if "departure" !in alert then "departure" else "arrival"))
  {}

  /** The SMS gateway; `outbox` holds every request `client.messages.create` was given, oldest first. */
  class Gateway {
    var outbox: seq<Request>

    constructor ()
      ensures outbox == []
    {
      outbox := [];
    }

    /** `client.messages.create(body=..., from_=..., to=...)`: one more request leaves. */
    method CreateMessage(request: Request)
      modifies this`outbox
      ensures outbox == old(outbox) + [request]
    {
      outbox := outbox + [request];
    }

    /**
     * `on_message`: sends nothing when parsing raised, when a credential is
     * missing or empty, or when a key is missing; otherwise sends exactly one
     * request. Earlier requests are left as they were.
     */
    method OnMessage(parsed: Option<Alert>, env: Env) returns (outcome: Outcome)
      modifies this`outbox
      ensures outcome == Handle(parsed, env)
      ensures outbox == old(outbox) + (if outcome.Sent? then [outcome.request] else [])
    {
      if parsed.None? {
        return Raised(ParseError);
      }
      var alertMsg := parsed.value;

      var accountSid := Getenv(env, "TWILIO_SID");
      var authToken := Getenv(env, "TWILIO_TOKEN");
      var twilioPhone := Getenv(env, "TWILIO_PHONE");
      if !Truthy(accountSid) || !Truthy(authToken) || !Truthy(twilioPhone) {
        return Dropped;
      }

      if "user" !in alertMsg {
        return Raised(KeyError("user"));
      }
      if "departure" !in alertMsg {
        return Raised(KeyError("departure"));
      }
      if "arrival" !in alertMsg {
        return Raised(KeyError("arrival"));
      }
      var msg := BuildMessage(alertMsg["user"], alertMsg["departure"], alertMsg["arrival"]);
      if msg.Err? {
        return Raised(msg.error);
      }

      if "phoneNumber" !in alertMsg["user"] {
        return Raised(KeyError("phoneNumber"));
      }
      var destinationPhone := alertMsg["user"]["phoneNumber"];

      var request := Request(accountSid.value, authToken.value, msg.value, twilioPhone.value, destinationPhone);
      CreateMessage(request);
      outcome := Sent(request);
    }
  }
}
