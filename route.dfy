/**
  The `/api/chat` handler (app/api/chat/route.ts): it formats the conversation
  into Mistral-instruct prompt text, makes one call to the hosted model, and
  answers with the trimmed generated text, or with a 500 error body for any
  failure on the way.
 */
module ChatRoute {
  import opened Js

  /** One conversation turn as the client sends it; the role is whatever
      string the JSON body holds. */
  datatype Message = Message(role: string, content: string)

  /** What `await req.json()` gives the handler. */
  datatype RequestBody =
    | Unreadable(thrown: Thrown)             // req.json() threw
    | NoMessages                             // the body has no `messages` field
    | WithMessages(messages: seq<Message>)

  /** How the one call to the inference provider turns out. */
  datatype Upstream =
    | Unreachable(thrown: Thrown)            // fetch rejected
    | HttpError(status: nat, text: string)   // !response.ok, with the body text
    | BadPayload(thrown: Thrown)             // response.json() or data[0] threw
    | Generated(generated: Option<string>)   // data[0]?.generated_text

  /** The outbound request: endpoint, authorization header and the fields of
      the JSON body other than the floating-point sampling parameters. */
  datatype Call = Call(url: string, authorization: string, inputs: string,
                       maxNewTokens: nat, doSample: bool, returnFullText: bool)

  datatype Body =
    | Reply(role: string, content: string)
    | Failure(error: string, details: string)

  datatype Response = Response(status: nat, body: Body)

  /** The call the handler made, if any, and the response it sent back. */
  datatype Exchange = Exchange(call: Option<Call>, response: Response)

  const ModelName := "mistralai/Mistral-7B-Instruct-v0.3"
  const Endpoint := "https://api-inference.huggingface.co/models/" + ModelName
  const MaxNewTokens := 512

  /** The fixed `error` text of every 500 body, with the four characters its
      source file holds in place of the paw emoji. */
  const ErrorText := "Woof! I encountered an error. Please try again - I'm here to help with your pet questions! \U{F8FF}\U{00FC}\U{00EA}\U{00E6}"
  const UnknownError := "An unknown error occurred."
  const MissingToken := "Missing HUGGING_FACE_ACCESS_TOKEN environment variable"
  /** The TypeError messages of the Node.js runtime for `messages.length` on an
      absent list and for `messages[-1].content` on an empty one. */
  const NoMessageList := "Cannot read properties of undefined (reading 'length')"
  const NoLastMessage := "Cannot read properties of undefined (reading 'content')"

  /** The Mistral-instruct markers. */
  const Bos := "<s>"
  const InstOpen := "[INST] "
  const InstClose := " [/INST]"
  const Eos := "</s>"

  /** An instruction turn: `[INST] c [/INST]`. */
  function Instruction(c: string): string {
    InstOpen + c + InstClose
  }

  /** What one non-final message adds to the prompt. */
  function TurnText(m: Message): string {
    if m.role == "user" then Instruction(m.content)
    else if m.role == "assistant" then m.content + Eos
    else ""
  }

  /** One step of the formatting loop: the text after message `m` is appended. */
  function AppendTurn(text: string, m: Message): string {
    if m.role == "user" then text + InstOpen + m.content + InstClose
    else if m.role == "assistant" then text + m.content + Eos
    else text
  }

  /** `conversationText` once the loop has gone over the messages `ms`. */
  function Conversation(ms: seq<Message>): string {
    if |ms| == 0 then Bos else AppendTurn(Conversation(ms[..|ms| - 1]), ms[|ms| - 1])
  }

  /** The prompt for a non-empty conversation: the loop's text over all but the
      last message, then the last message as an instruction whatever its role. */
  function Prompt(ms: seq<Message>): string
    requires |ms| > 0
  {
    Conversation(ms[..|ms| - 1]) + InstOpen + ms[|ms| - 1].content + InstClose
  }

  /** The independent reading of the history, front to back: the first
      message's turn, then the rest. */
  function Turns(ms: seq<Message>): string {
    if |ms| == 0 then "" else TurnText(ms[0]) + Turns(ms[1..])
  }

  /** The turns of a concatenation are the turns of each part, in order: every
      message contributes independently of the others. */
  lemma {:induction false} TurnsAppend(a: seq<Message>, b: seq<Message>)
    ensures Turns(a + b) == Turns(a) + Turns(b)
  {
    if |a| > 0 {
      assert (a + b)[0] == a[0] && (a + b)[1..] == a[1..] + b;
      TurnsAppend(a[1..], b);
    } else {
      assert a + b == b;
    }
  }

  /** The loop builds `<s>` followed by the turns of the messages it has
      gone over. */
  lemma {:induction false} ConversationIsTurns(ms: seq<Message>)
    ensures Conversation(ms) == Bos + Turns(ms)
  {
    if |ms| > 0 {
      var init, last := ms[..|ms| - 1], ms[|ms| - 1];
      ConversationIsTurns(init);
      AppendTurnAppends(Conversation(init), last);
      TurnsAppend(init, [last]);
      assert init + [last] == ms;
      assert Turns([last]) == TurnText(last) by {
        assert [last][1..] == [];
      }
      calc {
        Conversation(ms);
        Conversation(init) + TurnText(last);
        (Bos + Turns(init)) + TurnText(last);
        Bos + (Turns(init) + TurnText(last));
        Bos + Turns(ms);
      }
    }
  }

  /** One loop step appends exactly the message's turn. */
  lemma AppendTurnAppends(text: string, m: Message)
    ensures AppendTurn(text, m) == text + TurnText(m)
  {
    if m.role == "user" {
      assert text + InstOpen + m.content + InstClose == text + (InstOpen + m.content + InstClose);
    } else if m.role == "assistant" {
      assert text + m.content + Eos == text + (m.content + Eos);
    }
  }

  /** The prompt starts with `<s>`, ends with ` [/INST]`, and in between holds
      the turns of the earlier messages in order, then the last message as an
      instruction. */
  lemma PromptShape(ms: seq<Message>)
    requires |ms| > 0
    ensures Prompt(ms) == Bos + Turns(ms[..|ms| - 1]) + Instruction(ms[|ms| - 1].content)
    ensures |Prompt(ms)| >= 18 && Prompt(ms)[..3] == "<s>"
    ensures Prompt(ms)[|Prompt(ms)| - 8..] == " [/INST]"
  {
    ConversationIsTurns(ms[..|ms| - 1]);
  }

  predicate IsChatRole(m: Message) {
    m.role == "user" || m.role == "assistant"
  }

  /** The messages whose role is "user" or "assistant", in order. */
  function ChatTurns(ms: seq<Message>): (r: seq<Message>)
    ensures forall i :: 0 <= i < |r| ==> IsChatRole(r[i])
    ensures forall m :: m in r <==> m in ms && IsChatRole(m)
  {
    if |ms| == 0 then []
    else if IsChatRole(ms[0]) then [ms[0]] + ChatTurns(ms[1..])
    else ChatTurns(ms[1..])
  }

  /** Messages of any other role add nothing: dropping them from the earlier
      part of a conversation leaves its turns as they were. */
  lemma {:induction false} TurnsIgnoreOtherRoles(ms: seq<Message>)
    ensures Turns(ChatTurns(ms)) == Turns(ms)
  {
    if |ms| > 0 {
      TurnsIgnoreOtherRoles(ms[1..]);
      if IsChatRole(ms[0]) {
        assert ([ms[0]] + ChatTurns(ms[1..]))[1..] == ChatTurns(ms[1..]);
      }
    }
  }

  /** The formatting loop of the handler: `conversationText` starts as `<s>`,
      gains each earlier message's turn, then the last message as an
      instruction. An empty list throws where `messages[-1].content` is read. */
  method FormatConversation(messages: seq<Message>) returns (r: Formatted)
    ensures |messages| == 0 ==> r == Threw(ErrorObject(NoLastMessage))
    ensures |messages| > 0 ==> r == Formatted(Prompt(messages))
  {
    var conversationText := Bos;
    var i := 0;
    while i < |messages| - 1
      invariant 0 <= i <= if |messages| == 0 then 0 else |messages| - 1
      invariant conversationText == Conversation(messages[..i])
    {
      var message := messages[i];
      if message.role == "user" {
        conversationText := conversationText + InstOpen + message.content + InstClose;
      } else if message.role == "assistant" {
        conversationText := conversationText + message.content + Eos;
      }
      assert messages[..i + 1][..i] == messages[..i];
      i := i + 1;
    }
    if |messages| == 0 {
      return Threw(ErrorObject(NoLastMessage));
    }
    var lastUserMessage := messages[|messages| - 1];
    conversationText := conversationText + InstOpen + lastUserMessage.content + InstClose;
    r := Formatted(conversationText);
  }

  datatype Formatted = Formatted(text: string) | Threw(thrown: Thrown)

  /** The `details` of a 500 body: the error's message, or a fixed text for a
      thrown value that is not an `Error`. */
  function Details(t: Thrown): (d: string)
    ensures t.ErrorObject? ==> d == t.message
    ensures t.OtherValue? ==> d == UnknownError
  {
    match t
    case ErrorObject(message) => message
    case OtherValue => UnknownError
  }

  /** The catch block's response to anything thrown. */
  function Fail(t: Thrown): (r: Response)
    ensures r.status == 500 && r.body.Failure? && r.body.error == ErrorText
    ensures r.body.details == Details(t)
  {
    Response(500, Failure(ErrorText, Details(t)))
  }

  /** The response once the call has been made: the trimmed generated text
      (or "" when there is none) under role "assistant" with status 200, and
      the catch block's 500 for every failure of the call. */
  function Answer(upstream: Upstream): (r: Response)
    ensures r.status == 200 <==> upstream.Generated?
    ensures r.status == 200 || r.status == 500
    ensures upstream.Generated? ==> r.body.Reply? && r.body.role == "assistant"
    ensures upstream.Generated? && upstream.generated.Some? ==>
      r.body.content == Trim(upstream.generated.value)
    ensures upstream.Generated? && upstream.generated.None? ==> r.body.content == ""
    ensures upstream.HttpError? ==>
      r == Fail(ErrorObject("Hugging Face API Error: " + Decimal(upstream.status) + " - " + upstream.text))
    ensures upstream.Unreachable? ==> r == Fail(upstream.thrown)
    ensures upstream.BadPayload? ==> r == Fail(upstream.thrown)
  {
    match upstream
    case Unreachable(t) => Fail(t)
    case HttpError(status, text) =>
      Fail(ErrorObject("Hugging Face API Error: " + Decimal(status) + " - " + text))
    case BadPayload(t) => Fail(t)
    case Generated(generated) =>
      var generatedText := if generated.Some? then generated.value else "";
      Response(200, Reply("assistant", Trim(generatedText)))
  }

  /** `!token`: an absent or empty environment variable. */
  predicate HasToken(token: Option<string>) {
    token.Some? && token.value != ""
  }

  /** The `POST` handler. The request body, the environment's token and the
      provider's answer are inputs; the result says which call, if any, was
      made and what was sent back. */
  method Post(body: RequestBody, token: Option<string>, upstream: Upstream) returns (ex: Exchange)
    ensures body.Unreadable? ==> ex == Exchange(None, Fail(body.thrown))
    ensures !body.Unreadable? && !HasToken(token) ==>
      ex == Exchange(None, Fail(ErrorObject(MissingToken)))
    ensures !body.Unreadable? && HasToken(token) && body.NoMessages? ==>
      ex == Exchange(None, Fail(ErrorObject(NoMessageList)))
    ensures HasToken(token) && body.WithMessages? && |body.messages| == 0 ==>
      ex == Exchange(None, Fail(ErrorObject(NoLastMessage)))
    ensures HasToken(token) && body.WithMessages? && |body.messages| > 0 ==>
      ex.call == Some(Call(Endpoint, "Bearer " + token.value, Prompt(body.messages), MaxNewTokens, true, false))
    ensures ex.call.Some? ==> ex.response == Answer(upstream)
    ensures ex.response.status == 200 <==> ex.call.Some? && upstream.Generated?
    ensures ex.response.status == 500 <==> !ex.response.body.Reply?
  {
    match body
    case Unreadable(t) =>
      return Exchange(None, Fail(t));
    case NoMessages =>
      if !HasToken(token) {
        return Exchange(None, Fail(ErrorObject(MissingToken)));
      }
      return Exchange(None, Fail(ErrorObject(NoMessageList)));
    case WithMessages(messages) =>
      if !HasToken(token) {
        return Exchange(None, Fail(ErrorObject(MissingToken)));
      }
      var formatted := FormatConversation(messages);
      match formatted
      case Threw(t) =>
        return Exchange(None, Fail(t));
      case Formatted(conversationText) =>
        var call := Call(Endpoint, "Bearer " + token.value, conversationText, MaxNewTokens, true, false);
        ex := Exchange(Some(call), Answer(upstream));
  }
}
