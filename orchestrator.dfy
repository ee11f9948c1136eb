/** The `/ask` request pipeline: authentication gate, input check, domain
    filter, one call to the completion service, cost estimate, ledger append,
    and the daily usage report. Each rejection ends the request with a fixed
    message before the completion service or the ledger is touched. */
module Orchestrator {
  import opened Wrappers
  import opened Classifier
  import opened Usage

  const LoginMsg: string := "Please login first"
  const InvalidQueryMsg: string := "Please enter a valid query."
  const DomainMsg: string := "Query not matched. Kindly enter BCA related concepts."

  /** The model identifier named in every completion request. */
  const TargetModel: string := "openai/gpt-3.5-turbo"
  /** The engine label of a successful response. */
  const EngineLabel: string := "GPT-3.5 Turbo (Estimated)"

  datatype ChatMessage = ChatMessage(role: string, content: string)
  datatype ChatRequest = ChatRequest(model: string, messages: seq<ChatMessage>)

  /** What the endpoint returns: `{response}` on a rejection, or
      `{response, engine, stats}` on success. */
  datatype Response =
    | Reply(response: string)
    | Answered(response: string, engine: string, stats: Summary)

  /** The outcome of the three checks that come before the completion call. */
  datatype Gate = Reject(message: string) | Accept(username: string, query: string)

  /** Python truthiness of the `query` field: missing (or null) and "" are falsy. */
  predicate Present(query: Option<string>) {
    query.Some? && query.value != ""
  }

  /** Authentication first, then the input check, then the domain filter; the
      first check that fails decides the message. */
  function Admit(session: Option<string>, query: Option<string>): (g: Gate)
    ensures g == Reject(LoginMsg) <==> session.None?
    ensures g == Reject(InvalidQueryMsg) <==> session.Some? && !Present(query)
    ensures g == Reject(DomainMsg)
        <==> session.Some? && Present(query) && !IsBcaRelated(query.value)
    ensures g.Accept?
        <==> session.Some? && Present(query) && IsBcaRelated(query.value)
    ensures g.Accept? ==> g.username == session.value && g.query == query.value
  {
    if session.None? then Reject(LoginMsg)
    else if !Present(query) then Reject(InvalidQueryMsg)
    else if !IsBcaRelated(query.value) then Reject(DomainMsg)
    else Accept(session.value, query.value)
  }

  /** The input check only decides which message a user sees for an empty query:
      the domain filter would have rejected it as well. */
  lemma EmptyQueryFailsBothChecks(session: Option<string>)
    requires session.Some?
    ensures Admit(session, Some("")) == Reject(InvalidQueryMsg)
    ensures !IsBcaRelated("")
  {
    EmptyNotRelated();
  }

  /** The completion service. `complete` stands for the answer the remote model
      gives to a single-message conversation; `sent` logs every request made. */
  class Gateway {
    const complete: string -> string
    var sent: seq<ChatRequest>

    constructor (complete: string -> string)
      ensures this.complete == complete && sent == []
    {
      this.complete := complete;
      sent := [];
    }

    /** One outbound request naming the target model with the query as the only
        user message; the answer is the first choice's message content. */
    method Complete(query: string) returns (answer: string)
      modifies this
      ensures sent == old(sent) + [ChatRequest(TargetModel, [ChatMessage("user", query)])]
      ensures answer == complete(query)
    {
      sent := sent + [ChatRequest(TargetModel, [ChatMessage("user", query)])];
      answer := complete(query);
    }
  }

  /** `ask_ai`. `session` is the logged-in username, `query` the request's `query`
      field. The database clock is read twice: `insertDay` is the day of the new
      row's creation time, `reportDay` is CURDATE() at the aggregate query. */
  method AskAi(ledger: Ledger, gateway: Gateway, session: Option<string>,
               query: Option<string>, insertDay: Day, reportDay: Day)
    returns (resp: Response)
    modifies ledger, gateway
    // rejections: fixed message, no ledger write, no completion request
    ensures Admit(session, query).Reject? ==>
              && resp == Reply(Admit(session, query).message)
              && ledger.entries == old(ledger.entries)
              && gateway.sent == old(gateway.sent)
    // acceptance: one request, one appended row, the report of the day
    ensures Admit(session, query).Accept? ==>
              var u, q := session.value, query.value;
              var answer := gateway.complete(q);
              && gateway.sent == old(gateway.sent) + [ChatRequest(TargetModel, [ChatMessage("user", q)])]
              && ledger.entries == old(ledger.entries) + [Entry(u, q, answer, 0.00034, 0.000238, insertDay)]
              && resp == Answered(answer, EngineLabel, Summarize(ledger.entries, u, reportDay))
              && (insertDay == reportDay ==>
                    resp.stats == Tally(Summarize(old(ledger.entries), u, reportDay), ledger.entries[|ledger.entries| - 1])
                    && resp.stats.count >= 1)
              && (insertDay != reportDay ==>
                    resp.stats == Summarize(old(ledger.entries), u, reportDay))
    // every row carries the cost model's figures, so the totals follow from the count
    ensures old(ledger.AllCosted()) ==> ledger.AllCosted()
    ensures resp.Answered? && old(ledger.AllCosted()) ==>
              CostDerived(resp.stats)
  {
    if session.None? {
      return Reply(LoginMsg);
    }
    if !Present(query) {
      return Reply(InvalidQueryMsg);
    }
    var u, q := session.value, query.value;
    if !IsBcaRelated(q) {
      return Reply(DomainMsg);
    }

    var answer := gateway.Complete(q);

    var cost := EstimateCost();

    ledger.Record(u, q, answer, cost.energy, cost.co2, insertDay);
    SummarizeAppend(old(ledger.entries), ledger.entries[|ledger.entries| - 1], u, reportDay);

    var row := ledger.DailyAggregate(u, reportDay);
    SummarizeIsFilteredSum(ledger.entries, u, reportDay);
    SummarizeZero(ledger.entries, u, reportDay);
    var stats := Summary(row.count, row.energySum.GetOr(0.0), row.co2Sum.GetOr(0.0));
    assert stats == Summarize(ledger.entries, u, reportDay);
    resp := Answered(answer, EngineLabel, stats);
    if old(ledger.AllCosted()) {
      assert ledger.AllCosted();
      CostedStats(ledger.entries, u, reportDay, stats);
    }
  }
}
