/** The message log shared by the two chat widgets. A send is split in two
    halves around the awaited reply: `Begin` records the user's message and
    raises the loading flag, `Finish` records the one reply and lowers it.
    The reply type `R` is whatever the widget answers with. */
module ChatSession {
  import opened Wrappers
  import opened Text

  datatype Message<R> = UserMsg(text: string) | AssistantMsg(reply: R)

  datatype Chat<R> = Chat(messages: seq<Message<R>>, input: string, loading: bool)

  /** A widget freshly opened: its greeting, an empty input, not loading. */
  function Open<R>(greeting: R): (c: Chat<R>)
    ensures c.messages == [AssistantMsg(greeting)] && !c.loading
  {
    Chat([AssistantMsg(greeting)], "", false)
  }

  /** The first half of `handleSend`: a blank input or a request already in
      flight changes nothing and yields no query; otherwise the trimmed
      input is appended as a user message, the box is cleared and loading
      starts. */
  function Begin<R>(c: Chat<R>): (r: (Chat<R>, Option<string>))
    ensures IsBlank(c.input) || c.loading ==> r == (c, None)
    ensures !IsBlank(c.input) && !c.loading ==>
      && r.1 == Some(Trim(c.input))
      && r.0 == Chat(c.messages + [UserMsg(Trim(c.input))], "", true)
  {
    if IsBlank(c.input) || c.loading then (c, None)
    else
      var q := Trim(c.input);
      (Chat(c.messages + [UserMsg(q)], "", true), Some(q))
  }

  /** The second half: exactly one reply is appended and loading ends. */
  function Finish<R>(c: Chat<R>, reply: R): (r: Chat<R>)
    ensures r.messages == c.messages + [AssistantMsg(reply)]
    ensures !r.loading && r.input == c.input
  {
    c.(messages := c.messages + [AssistantMsg(reply)], loading := false)
  }

  /** A whole send, the reply computed from the query by `respond`. */
  function Send<R>(c: Chat<R>, respond: string -> R): (r: Chat<R>)
    ensures IsBlank(c.input) || c.loading ==> r == c
    ensures !IsBlank(c.input) && !c.loading ==>
      && r.messages == c.messages + [UserMsg(Trim(c.input)), AssistantMsg(respond(Trim(c.input)))]
      && !r.loading && r.input == ""
  {
    if IsBlank(c.input) || c.loading then c
    else
      var q := Trim(c.input);
      Finish(Begin(c).0, respond(q))
  }

  /** While a reply is awaited no second message can be sent. */
  lemma NoSendInFlight<R>(c: Chat<R>, typed: string)
    requires !IsBlank(c.input) && !c.loading
    ensures var mid := Begin(c).0;
      Begin(mid.(input := typed)) == (mid.(input := typed), None)
  {
  }

  /** After the greeting, messages come in user/assistant pairs, every user
      message is non-empty and has no outer spaces. */
  predicate Paired<R>(messages: seq<Message<R>>) {
    && |messages| % 2 == 1
    && messages[0].AssistantMsg?
    && forall i :: 1 <= i < |messages| ==>
         (if i % 2 == 1 then messages[i].UserMsg? && messages[i].text != [] && HasNoOuterSpace(messages[i].text)
          else messages[i].AssistantMsg?)
  }

  /** What the user does between sends. */
  datatype Action = Type(text: string) | Submit

  function Step<R>(c: Chat<R>, a: Action, respond: string -> R): (r: Chat<R>)
    requires !c.loading
    ensures !r.loading
    ensures c.messages <= r.messages
    ensures Paired(c.messages) ==> Paired(r.messages)
  {
    match a
    case Type(text) => c.(input := text)
    case Submit =>
      if IsBlank(c.input) then c
      else
        var q := Trim(c.input);
        AppendPair(c.messages, q, respond(q));
        Send(c, respond)
  }

  lemma AppendPair<R>(messages: seq<Message<R>>, q: string, reply: R)
    requires q != [] && HasNoOuterSpace(q)
    ensures Paired(messages) ==> Paired(messages + [UserMsg(q), AssistantMsg(reply)])
  {
    var m := messages + [UserMsg(q), AssistantMsg(reply)];
    if Paired(messages) {
      assert forall i :: 0 <= i < |messages| ==> m[i] == messages[i];
      assert m[|messages|] == UserMsg(q) && m[|messages| + 1] == AssistantMsg(reply);
    }
  }

  function Run<R>(c: Chat<R>, actions: seq<Action>, respond: string -> R): Chat<R>
    requires !c.loading
    decreases |actions|
  {
    if actions == [] then c else Run(Step(c, actions[0], respond), actions[1..], respond)
  }

  /** The log is append-only and stays paired under any sequence of edits
      and sends, starting from a freshly opened widget. */
  lemma {:induction false} RunKeepsLog<R>(c: Chat<R>, actions: seq<Action>, respond: string -> R)
    requires !c.loading && Paired(c.messages)
    ensures c.messages <= Run(c, actions, respond).messages
    ensures Paired(Run(c, actions, respond).messages)
    decreases |actions|
  {
    if actions != [] {
      var c' := Step(c, actions[0], respond);
      RunKeepsLog(c', actions[1..], respond);
    }
  }
}
