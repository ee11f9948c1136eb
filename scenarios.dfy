/** End-to-end request sequences against `AskAi`'s contract alone: client code
    that sees only the pipeline's postconditions, never its body. */
module AskScenarios {
  import opened Wrappers
  import opened Usage
  import opened Orchestrator
  import opened ClassifierExamples

  /** Rejected requests: a fixed message, nothing sent, nothing written. */
  method RejectionScenarios(complete: string -> string, user: string, q: string)
  {
    var ledger := new Ledger();
    var gateway := new Gateway(complete);

    // not logged in
    var r := AskAi(ledger, gateway, None, Some(q), 7, 7);
    assert r == Reply("Please login first");

    // logged in, no query, or an empty one
    r := AskAi(ledger, gateway, Some(user), None, 7, 7);
    assert r == Reply("Please enter a valid query.");
    r := AskAi(ledger, gateway, Some(user), Some(""), 7, 7);
    assert r == Reply("Please enter a valid query.");

    // logged in, off-topic query
    var offTopic := "weather today";
    WeatherQueryRejected(offTopic);
    r := AskAi(ledger, gateway, Some(user), Some(offTopic), 7, 7);
    assert r == Reply("Query not matched. Kindly enter BCA related concepts.");

    assert ledger.entries == [] && gateway.sent == [];
  }

  /** A first accepted request: one request sent, one row, the cost of one query. */
  method FirstQueryScenario(complete: string -> string, asha: string, dbms: string)
    requires Admit(Some(asha), Some(dbms)).Accept?
  {
    var ledger := new Ledger();
    var gateway := new Gateway(complete);

    var r := AskAi(ledger, gateway, Some(asha), Some(dbms), 7, 7);
    assert |ledger.entries| == 1 && |gateway.sent| == 1;
    assert r == Answered(complete(dbms), "GPT-3.5 Turbo (Estimated)", Summary(1, 0.00034, 0.000238));
  }

  /** Another user's requests leave a user's figures alone. */
  method IsolationScenario(complete: string -> string, asha: string, ravi: string, dbms: string)
    requires asha != ravi
    requires Admit(Some(asha), Some(dbms)).Accept? && Admit(Some(ravi), Some(dbms)).Accept?
  {
    var ledger := new Ledger();
    var gateway := new Gateway(complete);

    var r := AskAi(ledger, gateway, Some(asha), Some(dbms), 7, 7);
    r := AskAi(ledger, gateway, Some(ravi), Some(dbms), 7, 7);
    assert r.stats.count == 1;
    ghost var before := ledger.entries;
    r := AskAi(ledger, gateway, Some(asha), Some(dbms), 7, 7);
    SummarizeIgnores([before[0]], before[1], [], asha, 7);
    assert r.stats == Summary(2, 0.00068, 0.000476);
  }

  /** The count starts afresh on a new day. */
  method NextDayScenario(complete: string -> string, asha: string, dbms: string)
    requires Admit(Some(asha), Some(dbms)).Accept?
  {
    var ledger := new Ledger();
    var gateway := new Gateway(complete);

    var r := AskAi(ledger, gateway, Some(asha), Some(dbms), 7, 7);
    r := AskAi(ledger, gateway, Some(asha), Some(dbms), 8, 8);
    assert r.stats.count == 1;
    assert |ledger.entries| == 2;
  }
}
