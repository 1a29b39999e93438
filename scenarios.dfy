/** Concrete flight-change alerts and the outcomes `Handle` gives them. */
module NotifierScenarios {
  import opened Wrappers
  import opened Notifier

  const Alice: Record := map["userName" := "Alice", "phoneNumber" := "+15551234567"]
  const JfkDeparture: Record := map["iataCode" := "JFK", "scheduledTime" := "14:00", "terminal" := "4", "gate" := "B12"]
  const LaxArrival: Record := map["iataCode" := "LAX", "scheduledTime" := "17:30", "terminal" := "1", "gate" := "22"]
  const AliceAlert: Alert := map["user" := Alice, "departure" := JfkDeparture, "arrival" := LaxArrival]

  const Configured: Env := map["TWILIO_SID" := "AC0001", "TWILIO_TOKEN" := "token", "TWILIO_PHONE" := "+15550000000"]

  const AliceLine1 := "Dear Alice, your flight from JFK to LAX has changed:\n"
  const AliceLine2 := "        departure at 14:00 terminal 4 gate B12.\n"
  const AliceLine3 := "        arrival at 17:30 terminal 1 gate22"

  // The expected lines are long literals. The solver cannot compare one with a
  // concatenation of many pieces in one step, so the lemmas below split each
  // line into its pieces separately (the first line in two halves) and regroup
  // the whole message on symbolic strings.

  /** Regrouping a rendered message at its two line breaks. */
  lemma Regroup(f: seq<string>, p3a: string, p3b: string, p6a: string, p6b: string)
    requires |f| == 9
    ensures "Dear " + f[0] + ", your flight from " + f[1] + " to " + f[2]
          + (p3a + p3b) + f[3] + " terminal " + f[4] + " gate " + f[5]
          + (p6a + p6b) + f[6] + " terminal " + f[7] + " gate" + f[8]
         == ("Dear " + f[0] + ", your flight from " + f[1] + " to " + f[2] + p3a)
          + (p3b + f[3] + " terminal " + f[4] + " gate " + f[5] + p6a)
          + (p6b + f[6] + " terminal " + f[7] + " gate" + f[8])
  {}

  lemma AliceLine1Pieces()
    ensures AliceLine1 == "Dear " + "Alice" + ", your flight from " + "JFK" + " to " + "LAX" + " has changed:\n"
  {
    AliceLine1Halves();
    AliceGreeting();
    AliceRoute();
  }

  lemma AliceGreeting()
    ensures "Dear Alice, your flight from " == "Dear " + "Alice" + ", your flight from "
  {}

  lemma AliceRoute()
    ensures "JFK to LAX has changed:\n" == "JFK" + " to " + "LAX" + " has changed:\n"
  {}

  lemma AliceLine1Halves()
    ensures AliceLine1 == "Dear Alice, your flight from " + "JFK to LAX has changed:\n"
  {}

  lemma AliceLine2Pieces()
    ensures AliceLine2 == "        departure at " + "14:00" + " terminal " + "4" + " gate " + "B12" + ".\n"
  {}

  lemma AliceLine3Pieces()
    ensures AliceLine3 == "        arrival at " + "17:30" + " terminal " + "1" + " gate" + "22"
  {}

  lemma AliceFields()
    ensures BuildMessage(Alice, JfkDeparture, LaxArrival) == Ok(
      "Dear " + "Alice" + ", your flight from " + "JFK" + " to " + "LAX"
      + " has changed:\n        departure at " + "14:00" + " terminal " + "4" + " gate " + "B12"
      + ".\n        arrival at " + "17:30" + " terminal " + "1" + " gate" + "22")
  {}

  lemma BreakSplits()
    ensures " has changed:\n        departure at " == " has changed:\n" + "        departure at "
    ensures ".\n        arrival at " == ".\n" + "        arrival at "
  {}

  /** Alice's alert renders to the three expected lines. */
  lemma AliceMessage()
    ensures BuildMessage(Alice, JfkDeparture, LaxArrival) == Ok(AliceLine1 + AliceLine2 + AliceLine3)
  {
    AliceFields();
    BreakSplits();
    Regroup(["Alice", "JFK", "LAX", "14:00", "4", "B12", "17:30", "1", "22"],
            " has changed:\n", "        departure at ", ".\n", "        arrival at ");
    AliceLine1Pieces();
    AliceLine2Pieces();
    AliceLine3Pieces();
  }

  /** A complete alert with all credentials set produces one request to Alice's phone, from the configured number. */
  lemma AliceIsNotified()
    ensures Handle(Some(AliceAlert), Configured)
         == Sent(Request("AC0001", "token", AliceLine1 + AliceLine2 + AliceLine3, "+15550000000", "+15551234567"))
  {
    assert AlertComplete(AliceAlert);
    AliceMessage();
  }

  /** The same alert without its `arrival` record raises KeyError('arrival') and sends nothing. */
  lemma MissingArrivalSendsNothing()
    ensures Handle(Some(AliceAlert - {"arrival"}), Configured) == Raised(KeyError("arrival"))
  {
  }

  /** The same alert with an empty token is dropped. */
  lemma EmptyTokenSendsNothing()
    ensures Handle(Some(AliceAlert), Configured["TWILIO_TOKEN" := ""]) == Dropped
  {
  }
}
