/** The unified chatbot widget: each send classifies the trimmed text,
    asks the agent server under that intent, and appends the agent's answer
    or a fixed apology when the call fails. */
module UnifiedChat {
  import opened Wrappers
  import opened Text
  import opened Intents
  import opened ChatSession

  /** What the assistant side of the log shows. */
  datatype BotReply = AgentText(text: string) | Apology

  /** The apology shown when the agent call throws. */
  const ApologyText := "I apologize, but I'm having trouble responding right now. Please try again."

  function ReplyText(b: BotReply): string {
    match b
    case AgentText(t) => t
    case Apology => ApologyText
  }

  /** The body posted to the agent server. */
  datatype AgentRequest = AgentRequest(userId: string, intent: string, message: string)

  /** The request for one query: the browser's intent label, the trimmed text. */
  function RequestFor(userId: string, query: string): (r: AgentRequest)
    ensures r.userId == userId && r.message == query
    ensures FromLabel(r.intent) == Some(DetermineIntent(query))
  {
    LabelRoundTrip(DetermineIntent(query));
    AgentRequest(userId, Label(DetermineIntent(query)), query)
  }

  /** `handleSend`. `agent` stands for the server round trip: the
      `agent_response` text, or `None` when the call throws. The request
      actually sent, if any, is returned beside the new state. */
  function HandleSend(c: Chat<BotReply>, userId: string, agent: AgentRequest -> Option<string>): (r: (Chat<BotReply>, Option<AgentRequest>))
    ensures IsBlank(c.input) || c.loading ==> r == (c, None)
    ensures !IsBlank(c.input) && !c.loading ==>
      var q := Trim(c.input);
      && r.1 == Some(RequestFor(userId, q))
      && r.0.messages == c.messages + [UserMsg(q), AssistantMsg(Answer(agent(RequestFor(userId, q))))]
      && !r.0.loading && r.0.input == ""
  {
    var sent := if IsBlank(c.input) || c.loading then None else Some(RequestFor(userId, Trim(c.input)));
    (Send(c, q => Answer(agent(RequestFor(userId, q)))), sent)
  }

  /** The reply for an agent outcome: its text, or the apology. */
  function Answer(outcome: Option<string>): (b: BotReply)
    ensures outcome.Some? ==> ReplyText(b) == outcome.value
    ensures outcome.None? ==> ReplyText(b) == ApologyText
  {
    match outcome
    case Some(t) => AgentText(t)
    case None => Apology
  }

  /** A query naming glucose or blood sugar, or holding a free-standing
      number, is sent as a glucose log whatever else it says. */
  lemma GlucoseQueriesLogCgm(userId: string, query: string)
    requires Contains(Lower(query), "glucose") || Contains(Lower(query), "blood sugar") || HasStandaloneNumber(Lower(query))
    ensures RequestFor(userId, query).intent == "log_cgm"
  {
    var t := Lower(query);
    if Contains(t, "glucose") {
      assert "glucose" in CgmWords;
    } else if Contains(t, "blood sugar") {
      assert "blood sugar" in CgmWords;
    }
  }
}
