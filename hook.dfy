/**
  The `useHuggingFaceChat` hook (hooks/use-huggingface-chat.ts): the chat
  state of the client, and the submit handler that posts the conversation,
  then reads the answer as `data: ` lines and appends each content fragment to
  the assistant message it created.
 */
module HuggingFaceChatHook {
  import opened Js

  datatype Role = User | Assistant

  datatype Message = Message(id: string, role: Role, content: string)

  /** What `JSON.parse(data)` makes of one payload, reduced to what the code
      reads from it: a parse error, or the text `parsed.content` appends —
      None when that field is falsy (absent, null, "", ...). */
  datatype Parsed = Malformed | Parsed(content: Option<string>)

  /** `JSON.parse` followed by the `.content` lookup, as a pure function. */
  type Parser = string -> Parsed

  /** How the stream reader finishes once every chunk has been read. */
  datatype StreamEnd = Closed | ReadFailed(thrown: Thrown)

  /** What `fetch("/api/chat")` comes back with. Chunks are the decoded text
      of each `reader.read()`. */
  datatype Reply =
    | FetchFailed(thrown: Thrown)                    // fetch rejected
    | NotOk(error: Option<string>)                   // !response.ok; the body's `error` field
    | NoBody                                         // response.body is null
    | Streamed(chunks: seq<string>, end: StreamEnd)

  const DataPrefix := "data: "
  const DoneMarker := "[DONE]"
  const FailedToGetResponse := "Failed to get response"
  const NonErrorText := "Sorry, I encountered an error. Please try again."

  /** The payload of a line: the rest after `data: `, trimmed; None for a line
      that does not start with `data: `. */
  function Payload(line: string): Option<string> {
    if StartsWith(line, DataPrefix) then Some(Trim(line[|DataPrefix|..])) else None
  }

  /** The text a parsed payload contributes: its truthy `content`, else "". */
  function Fragment(parsed: Parsed): string {
    match parsed
    case Malformed => ""
    case Parsed(content) => if content.Some? then content.value else ""
  }

  /** What the loop makes of one line: nothing (not a data line), the end of
      the stream (payload `[DONE]`), or a fragment of content ("" when the
      payload does not parse or its `content` is falsy). */
  datatype Kind = Ignored | Done | Content(text: string)

  function Classify(line: string, parse: Parser): Kind {
    match Payload(line)
    case None => Ignored
    case Some(data) => if data == DoneMarker then Done else Content(Fragment(parse(data)))
  }

  function Kinds(ls: seq<string>, parse: Parser): (ks: seq<Kind>)
    ensures |ks| == |ls|
  {
    seq(|ls|, i requires 0 <= i < |ls| => Classify(ls[i], parse))
  }

  lemma KindsAppend(a: seq<string>, b: seq<string>, parse: Parser)
    ensures Kinds(a + b, parse) == Kinds(a, parse) + Kinds(b, parse)
  {
  }

  /** What has been read so far: the appended text, and whether `[DONE]` has
      been seen. */
  datatype Progress = Progress(text: string, done: bool)

  /** One line of the inner loop. Once done, nothing changes. */
  function Step(p: Progress, k: Kind): Progress {
    if p.done then p
    else match k
      case Ignored => p
      case Done => Progress(p.text, true)
      case Content(t) => Progress(p.text + t, false)
  }

  /** The loop's state after the lines of kinds `ks`, one line at a time. */
  function Scan(ks: seq<Kind>): Progress {
    if |ks| == 0 then Progress("", false) else Step(Scan(ks[..|ks| - 1]), ks[|ks| - 1])
  }

  /** All lines of the chunks, each chunk split on `\n` on its own. */
  function Lines(chunks: seq<string>): seq<string> {
    if |chunks| == 0 then []
    else Lines(chunks[..|chunks| - 1]) + Split(chunks[|chunks| - 1], '\n')
  }

  /** The state after reading every chunk. */
  function Consume(chunks: seq<string>, parse: Parser): Progress {
    Scan(Kinds(Lines(chunks), parse))
  }

  /** The independent reading: the content fragments of the lines, in order. */
  function Fragments(ks: seq<Kind>): string {
    if |ks| == 0 then ""
    else (if ks[0].Content? then ks[0].text else "") + Fragments(ks[1..])
  }

  /** The index of the first `[DONE]` line, or |ks| when there is none. */
  function FirstDone(ks: seq<Kind>): (k: nat)
    ensures k <= |ks|
    ensures k < |ks| ==> ks[k] == Done
    ensures forall j :: 0 <= j < k ==> ks[j] != Done
  {
    if |ks| == 0 then 0
    else if ks[0] == Done then 0
    else 1 + FirstDone(ks[1..])
  }

  lemma {:induction false} FragmentsSnoc(ks: seq<Kind>, k: Kind)
    ensures Fragments(ks + [k]) == Fragments(ks) + (if k.Content? then k.text else "")
  {
    if |ks| == 0 {
      assert ks + [k] == [k] && [k][1..] == [];
    } else {
      assert (ks + [k])[0] == ks[0] && (ks + [k])[1..] == ks[1..] + [k];
      FragmentsSnoc(ks[1..], k);
    }
  }

  lemma {:induction false} FirstDoneSnoc(ks: seq<Kind>, k: Kind)
    ensures FirstDone(ks + [k]) ==
      if FirstDone(ks) < |ks| then FirstDone(ks)
      else if k == Done then |ks| else |ks| + 1
  {
    if |ks| == 0 {
      assert ks + [k] == [k] && [k][1..] == [];
    } else {
      assert (ks + [k])[0] == ks[0] && (ks + [k])[1..] == ks[1..] + [k];
      FirstDoneSnoc(ks[1..], k);
    }
  }

  /** What the line loop computes: the content fragments of the lines before
      the first `[DONE]`, in order, and whether there is a `[DONE]` line at
      all. */
  lemma {:induction false} ScanMeaning(ks: seq<Kind>)
    ensures Scan(ks) == Progress(Fragments(ks[..FirstDone(ks)]), FirstDone(ks) < |ks|)
  {
    if |ks| > 0 {
      var init, k := ks[..|ks| - 1], ks[|ks| - 1];
      assert init + [k] == ks;
      ScanMeaning(init);
      FirstDoneSnoc(init, k);
      var fd := FirstDone(init);
      if fd < |init| {
        assert ks[..fd] == init[..fd];
      } else if k == Done {
        assert ks[..|init|] == init && init[..fd] == init;
      } else {
        assert ks[..|ks|] == ks && init[..fd] == init;
        FragmentsSnoc(init, k);
      }
    }
  }

  /** `[DONE]` is final: once it has been read, no later line changes anything. */
  lemma {:induction false} ScanDoneSticky(a: seq<Kind>, b: seq<Kind>)
    requires Scan(a).done
    ensures Scan(a + b) == Scan(a)
    decreases |b|
  {
    if |b| == 0 {
      assert a + b == a;
    } else {
      var b' := b[..|b| - 1];
      assert (a + b)[..|a + b| - 1] == a + b';
      ScanDoneSticky(a, b');
    }
  }

  /** The lines of consecutive chunks are the lines of each, in order. */
  lemma {:induction false} LinesAppend(a: seq<string>, b: seq<string>)
    ensures Lines(a + b) == Lines(a) + Lines(b)
    decreases |b|
  {
    if |b| == 0 {
      assert a + b == a;
    } else {
      var b' := b[..|b| - 1];
      assert (a + b)[..|a + b| - 1] == a + b';
      LinesAppend(a, b');
    }
  }

  /** The update `prev.map(...)` applies to one message. */
  function AppendIfId(m: Message, id: string, fragment: string): Message {
    if m.id == id then m.(content := m.content + fragment) else m
  }

  /** The `prev.map(...)` update of one fragment, message by message. */
  function AppendToId(ms: seq<Message>, id: string, fragment: string): (r: seq<Message>)
    ensures |r| == |ms|
  {
    if |ms| == 0 then [] else [AppendIfId(ms[0], id, fragment)] + AppendToId(ms[1..], id, fragment)
  }

  /** Appending a fragment changes only the messages with the id, whose
      content gains the fragment at its end; every other message, and the
      length of the list, stay as they were. */
  lemma {:induction false} AppendToIdOnly(ms: seq<Message>, id: string, fragment: string, i: nat)
    requires i < |ms|
    ensures |AppendToId(ms, id, fragment)| == |ms|
    ensures ms[i].id != id ==> AppendToId(ms, id, fragment)[i] == ms[i]
    ensures ms[i].id == id ==>
      AppendToId(ms, id, fragment)[i] == Message(id, ms[i].role, ms[i].content + fragment)
  {
    if i > 0 {
      AppendToIdOnly(ms[1..], id, fragment, i - 1);
    }
  }

  /** Two appends to the same id are one append of both fragments in order. */
  lemma {:induction false} AppendToIdTwice(ms: seq<Message>, id: string, a: string, b: string)
    ensures AppendToId(AppendToId(ms, id, a), id, b) == AppendToId(ms, id, a + b)
  {
    if |ms| > 0 {
      AppendToIdTwice(ms[1..], id, a, b);
      var once := AppendToId(ms, id, a);
      assert once[1..] == AppendToId(ms[1..], id, a);
      assert ms[0].content + a + b == ms[0].content + (a + b);
    }
  }

  /** Appending "" changes nothing. */
  lemma {:induction false} AppendToIdEmpty(ms: seq<Message>, id: string)
    ensures AppendToId(ms, id, "") == ms
  {
    if |ms| > 0 {
      AppendToIdEmpty(ms[1..], id);
      assert ms[0].content + "" == ms[0].content;
      assert [ms[0]] + ms[1..] == ms;
    }
  }

  lemma LinesSnoc(chunks: seq<string>, c: nat)
    requires c < |chunks|
    ensures Lines(chunks[..c + 1]) == Lines(chunks[..c]) + Split(chunks[c], '\n')
  {
    assert chunks[..c + 1][..c] == chunks[..c];
  }

  lemma KindsSnoc(ls: seq<string>, line: string, parse: Parser)
    ensures Kinds(ls + [line], parse) == Kinds(ls, parse) + [Classify(line, parse)]
  {
  }

  /** Reading one more line of the current chunk adds its kind. */
  lemma KindsNextLine(before: seq<string>, lines: seq<string>, j: nat, parse: Parser)
    requires j < |lines|
    ensures Kinds(before + lines[..j + 1], parse) == Kinds(before + lines[..j], parse) + [Classify(lines[j], parse)]
  {
    assert before + lines[..j + 1] == (before + lines[..j]) + [lines[j]];
    KindsSnoc(before + lines[..j], lines[j], parse);
  }

  /** One more line of the current chunk takes the loop one `Step`. */
  lemma NextLine(before: seq<string>, lines: seq<string>, j: nat, parse: Parser)
    requires j < |lines|
    ensures Scan(Kinds(before + lines[..j + 1], parse)) == Step(Scan(Kinds(before + lines[..j], parse)), Classify(lines[j], parse))
  {
    KindsNextLine(before, lines, j, parse);
    ScanSnoc(Kinds(before + lines[..j], parse), Classify(lines[j], parse));
  }

  /** `[DONE]` on line `j` of the current chunk: the later lines of the chunk
      change nothing. */
  lemma StoppedAtLine(before: seq<string>, lines: seq<string>, j: nat, parse: Parser)
    requires j < |lines| && Scan(Kinds(before + lines[..j + 1], parse)).done
    ensures Scan(Kinds(before + lines, parse)) == Scan(Kinds(before + lines[..j + 1], parse))
  {
    assert (before + lines)[..|before| + j + 1] == before + lines[..j + 1];
    StoppedAt(before + lines, |before| + j + 1, parse);
  }

  /** The loop's state after one more line of the current chunk, in the terms
      the loop tests: the `data: ` prefix, then the trimmed payload. */
  lemma LineStep(before: seq<string>, lines: seq<string>, j: nat, parse: Parser)
    requires j < |lines| && !Scan(Kinds(before + lines[..j], parse)).done
    ensures var p, line := Scan(Kinds(before + lines[..j], parse)), lines[j];
      && (!StartsWith(line, DataPrefix) ==> Scan(Kinds(before + lines[..j + 1], parse)) == p)
      && (StartsWith(line, DataPrefix) ==>
            |line| >= 6 && Scan(Kinds(before + lines[..j + 1], parse)) ==
              if Trim(line[6..]) == DoneMarker then Progress(p.text, true)
              else Progress(p.text + Fragment(parse(Trim(line[6..]))), false))
  {
    NextLine(before, lines, j, parse);
    ClassifyLine(lines[j], parse);
  }

  /** Appending a parsed fragment is appending its truthy `content`, or
      nothing. */
  lemma AppendFragment(m0: seq<Message>, id: string, text: string, parsed: Parsed)
    ensures parsed.Parsed? && parsed.content.Some? && parsed.content.value != "" ==>
      AppendToId(m0, id, text + Fragment(parsed)) == AppendToId(AppendToId(m0, id, text), id, parsed.content.value)
    ensures !(parsed.Parsed? && parsed.content.Some? && parsed.content.value != "") ==>
      AppendToId(m0, id, text + Fragment(parsed)) == AppendToId(m0, id, text)
  {
    if parsed.Parsed? && parsed.content.Some? && parsed.content.value != "" {
      AppendToIdTwice(m0, id, text, parsed.content.value);
    } else {
      assert text + Fragment(parsed) == text;
    }
  }

  /** `Classify` in the terms the loop tests: the prefix, then the payload. */
  lemma ClassifyLine(line: string, parse: Parser)
    ensures !StartsWith(line, DataPrefix) ==> Classify(line, parse) == Ignored
    ensures StartsWith(line, DataPrefix) ==>
      |line| >= 6 && Classify(line, parse) == (if Trim(line[6..]) == DoneMarker then Done else Content(Fragment(parse(Trim(line[6..])))))
  {
  }

  lemma ScanSnoc(ks: seq<Kind>, k: Kind)
    ensures Scan(ks + [k]) == Step(Scan(ks), k)
  {
    assert (ks + [k])[..|ks|] == ks;
  }

  /** Once the lines read so far hold `[DONE]`, the lines after them change
      nothing. */
  lemma StoppedAt(ls: seq<string>, j: nat, parse: Parser)
    requires j <= |ls| && Scan(Kinds(ls[..j], parse)).done
    ensures Scan(Kinds(ls, parse)) == Scan(Kinds(ls[..j], parse))
  {
    assert ls == ls[..j] + ls[j..];
    KindsAppend(ls[..j], ls[j..], parse);
    ScanDoneSticky(Kinds(ls[..j], parse), Kinds(ls[j..], parse));
  }

  /** Where the reader stops after chunk `c`, the rest of the stream would
      have changed nothing. */
  lemma StoppedAfterChunk(chunks: seq<string>, c: nat, parse: Parser)
    requires c < |chunks| && Consume(chunks[..c + 1], parse).done
    ensures Consume(chunks, parse) == Consume(chunks[..c + 1], parse)
  {
    assert chunks == chunks[..c + 1] + chunks[c + 1..];
    LinesAppend(chunks[..c + 1], chunks[c + 1..]);
    assert Lines(chunks)[..|Lines(chunks[..c + 1])|] == Lines(chunks[..c + 1]);
    StoppedAt(Lines(chunks), |Lines(chunks[..c + 1])|, parse);
  }

  /** The catch block's content for a thrown value. */
  function CatchText(t: Thrown): string {
    match t
    case ErrorObject(message) => message
    case OtherValue => NonErrorText
  }

  /** `errorData.error || "Failed to get response"`. */
  function NotOkText(error: Option<string>): (s: string)
    ensures s != ""
    ensures error.Some? && error.value != "" ==> s == error.value
    ensures !(error.Some? && error.value != "") ==> s == FailedToGetResponse
  {
    if error.Some? && error.value != "" then error.value else FailedToGetResponse
  }

  /** The message the outer catch block appends for a thrown value. */
  function ErrorMessage(errorNow: nat, t: Thrown): Message {
    Message(Decimal(errorNow + 1), Assistant, CatchText(t))
  }

  /** The messages once a submission has settled, after the list `sent` (the
      earlier messages and the user message): for a failed fetch or a
      response that is not ok, the error message; for a response without a
      body, an empty assistant message; for a stream, the assistant message
      filled in by the reader, followed by the error message when reading
      failed before `[DONE]`. */
  function Settled(sent: seq<Message>, reply: Reply, parse: Parser, replyNow: nat, errorNow: nat): seq<Message> {
    match reply
    case FetchFailed(t) => sent + [ErrorMessage(errorNow, t)]
    case NotOk(error) => sent + [ErrorMessage(errorNow, ErrorObject(NotOkText(error)))]
    case NoBody => sent + [Message(Decimal(replyNow + 1), Assistant, "")]
    case Streamed(chunks, end) =>
      var assistantId := Decimal(replyNow + 1);
      var scan := Consume(chunks, parse);
      AppendToId(sent + [Message(assistantId, Assistant, "")], assistantId, scan.text)
        + (if !scan.done && end.ReadFailed? then [ErrorMessage(errorNow, end.thrown)] else [])
  }

  /** Appending to the messages with an id, over a concatenation. */
  lemma {:induction false} AppendToIdConcat(a: seq<Message>, b: seq<Message>, id: string, fragment: string)
    ensures AppendToId(a + b, id, fragment) == AppendToId(a, id, fragment) + AppendToId(b, id, fragment)
  {
    if |a| > 0 {
      assert (a + b)[0] == a[0] && (a + b)[1..] == a[1..] + b;
      AppendToIdConcat(a[1..], b, id, fragment);
    } else {
      assert a + b == b;
    }
  }

  /** Messages without the id are left as they are. */
  lemma {:induction false} AppendToIdAbsent(ms: seq<Message>, id: string, fragment: string)
    requires forall i :: 0 <= i < |ms| ==> ms[i].id != id
    ensures AppendToId(ms, id, fragment) == ms
  {
    if |ms| > 0 {
      AppendToIdAbsent(ms[1..], id, fragment);
      assert [ms[0]] + ms[1..] == ms;
    }
  }

  /** A submission adds one message after the posted list, two when a stream
      failed before `[DONE]`; the posted messages stay as they were unless one
      of them carries the new assistant id. */
  lemma SettledKeepsSent(sent: seq<Message>, reply: Reply, parse: Parser, replyNow: nat, errorNow: nat)
    ensures var r := Settled(sent, reply, parse, replyNow, errorNow);
      && |r| == |sent| + (if reply.Streamed? && !Consume(reply.chunks, parse).done && reply.end.ReadFailed? then 2 else 1)
      && ((forall i :: 0 <= i < |sent| ==> sent[i].id != Decimal(replyNow + 1)) ==> r[..|sent|] == sent)
  {
    var r := Settled(sent, reply, parse, replyNow, errorNow);
    if reply.Streamed? {
      var assistantId := Decimal(replyNow + 1);
      var text := Consume(reply.chunks, parse).text;
      AppendToIdConcat(sent, [Message(assistantId, Assistant, "")], assistantId, text);
      if forall i :: 0 <= i < |sent| ==> sent[i].id != assistantId {
        AppendToIdAbsent(sent, assistantId, text);
        assert r[..|sent|] == sent;
      }
    } else {
      assert r[..|sent|] == sent;
    }
  }

  /** The message a submission adds after the posted list: the error text for
      a failed fetch (the `Error`'s message, or the fixed apology for other
      thrown values) and for a response that is not ok (the body's `error`,
      or "Failed to get response"); "" for a response without a body; and for
      a stream, the content fragments of its lines before the first `[DONE]`,
      in order. */
  lemma SettledReply(sent: seq<Message>, reply: Reply, parse: Parser, replyNow: nat, errorNow: nat)
    ensures var r := Settled(sent, reply, parse, replyNow, errorNow);
      && |r| > |sent|
      && (reply.FetchFailed? ==> r[|sent|] == ErrorMessage(errorNow, reply.thrown))
      && (reply.NotOk? ==> r[|sent|] == Message(Decimal(errorNow + 1), Assistant, NotOkText(reply.error)))
      && (reply.NoBody? ==> r[|sent|] == Message(Decimal(replyNow + 1), Assistant, ""))
      && (reply.Streamed? ==>
            var ks := Kinds(Lines(reply.chunks), parse);
            r[|sent|] == Message(Decimal(replyNow + 1), Assistant, Fragments(ks[..FirstDone(ks)])))
  {
    if reply.Streamed? {
      var assistantId := Decimal(replyNow + 1);
      var ks := Kinds(Lines(reply.chunks), parse);
      var text := Consume(reply.chunks, parse).text;
      var base := sent + [Message(assistantId, Assistant, "")];
      assert text == Fragments(ks[..FirstDone(ks)]) by {
        ScanMeaning(ks);
      }
      AppendToIdOnly(base, assistantId, text, |sent|);
      assert "" + text == text;
    }
  }

  class ChatHook {
    var messages: seq<Message>
    var input: string
    var isLoading: bool

    constructor ()
      ensures messages == [] && input == "" && !isLoading
    {
      messages := [];
      input := "";
      isLoading := false;
    }

    /** `handleInputChange`: the input field takes the typed value. */
    method HandleInputChange(value: string)
      modifies this
      ensures input == value
      ensures messages == old(messages) && isLoading == old(isLoading)
    {
      input := value;
    }

    /** The inner reader loop, over the lines of one chunk that follow the
        lines `before` of the earlier chunks: a data line's payload `[DONE]`
        ends loading and stops the reader, any other payload that parses to
        a truthy `content` is appended to the messages with the assistant
        id. The functional updates are collected in `ms` and land in
        `messages` when the loop ends or stops. */
    method ReadLines(assistantId: string, ghost m0: seq<Message>, ghost before: seq<string>,
                     lines: seq<string>, parse: Parser) returns (done: bool)
      requires !Scan(Kinds(before, parse)).done
      requires messages == AppendToId(m0, assistantId, Scan(Kinds(before, parse)).text)
      modifies this
      ensures done == Scan(Kinds(before + lines, parse)).done
      ensures messages == AppendToId(m0, assistantId, Scan(Kinds(before + lines, parse)).text)
      ensures input == old(input)
      ensures isLoading == if done then false else old(isLoading)
    {
      ghost var p := Scan(Kinds(before, parse));
      var ms := messages;
      assert before + lines[..0] == before;
      for j := 0 to |lines|
        invariant p == Scan(Kinds(before + lines[..j], parse)) && !p.done
        invariant ms == AppendToId(m0, assistantId, p.text)
        invariant unchanged(this)
      {
        var line := lines[j];
        LineStep(before, lines, j, parse);
        if StartsWith(line, DataPrefix) {
          var data := Trim(line[6..]);
          if data == DoneMarker {
            messages, isLoading := ms, false;
            StoppedAtLine(before, lines, j, parse);
            return true;
          }
          var parsed := parse(data);
          AppendFragment(m0, assistantId, p.text, parsed);
          if parsed.Parsed? && parsed.content.Some? && parsed.content.value != "" {
            ms := AppendToId(ms, assistantId, parsed.content.value);
          }
          p := Progress(p.text + Fragment(parsed), false);
        }
      }
      messages := ms;
      assert lines[..|lines|] == lines;
      done := false;
    }

    /** The outer reader loop: every chunk in turn, split on `\n`, until a
        `[DONE]` line or the end of the stream. */
    method ReadStream(assistantId: string, chunks: seq<string>, parse: Parser) returns (finished: bool)
      modifies this
      ensures finished == Consume(chunks, parse).done
      ensures messages == AppendToId(old(messages), assistantId, Consume(chunks, parse).text)
      ensures input == old(input)
      ensures isLoading == if finished then false else old(isLoading)
    {
      AppendToIdEmpty(messages, assistantId);
      ghost var m0 := messages;
      var c := 0;
      while c < |chunks|
        invariant 0 <= c <= |chunks|
        invariant !Consume(chunks[..c], parse).done
        invariant messages == AppendToId(m0, assistantId, Consume(chunks[..c], parse).text)
        invariant input == old(input) && isLoading == old(isLoading)
      {
        LinesSnoc(chunks, c);
        var done := ReadLines(assistantId, m0, Lines(chunks[..c]), Split(chunks[c], '\n'), parse);
        if done {
          StoppedAfterChunk(chunks, c, parse);
          return true;
        }
        c := c + 1;
      }
      assert chunks[..c] == chunks;
      finished := false;
    }

    /** The `try`/`catch`/`finally` block of `handleSubmit`, once the user
        message is on screen: the reply's messages follow, as `Settled`
        describes, and loading ends. */
    method Respond(replyNow: nat, errorNow: nat, reply: Reply, parse: Parser)
      modifies this
      ensures messages == Settled(old(messages), reply, parse, replyNow, errorNow)
      ensures input == old(input) && !isLoading
    {
      match reply {
        case FetchFailed(t) =>
          messages := messages + [ErrorMessage(errorNow, t)];
        case NotOk(error) =>
          messages := messages + [ErrorMessage(errorNow, ErrorObject(NotOkText(error)))];
        case NoBody =>
          messages := messages + [Message(Decimal(replyNow + 1), Assistant, "")];
        case Streamed(chunks, end) =>
          var assistantId := Decimal(replyNow + 1);
          messages := messages + [Message(assistantId, Assistant, "")];
          var finished := ReadStream(assistantId, chunks, parse);
          if !finished && end.ReadFailed? {
            messages := messages + [ErrorMessage(errorNow, end.thrown)];
          } else {
            assert messages + [] == messages;
          }
      }
      isLoading := false;
    }

    /** `handleSubmit`. A blank input, or a reply still loading, changes
        nothing. Otherwise the trimmed input becomes a user message with id
        `Date.now()`; the conversation with it is what is posted (`sent`); the
        input is cleared; and the reply's messages follow. The clock readings
        of `Date.now()` for the user message, the assistant message and the
        error message, the server's reply and `JSON.parse` are inputs. */
    method HandleSubmit(userNow: nat, replyNow: nat, errorNow: nat, reply: Reply, parse: Parser)
      returns (sent: Option<seq<Message>>)
      modifies this
      ensures Trim(old(input)) == "" || old(isLoading) ==>
        sent == None && messages == old(messages) && input == old(input) && isLoading == old(isLoading)
      ensures Trim(old(input)) != "" && !old(isLoading) ==>
        && sent == Some(old(messages) + [Message(Decimal(userNow), User, Trim(old(input)))])
        && messages == Settled(sent.value, reply, parse, replyNow, errorNow)
        && input == "" && !isLoading
    {
      if Trim(input) == "" || isLoading {
        return None;
      }
      var userMessage := Message(Decimal(userNow), User, Trim(input));
      var previous := messages;
      messages := messages + [userMessage];
      input := "";
      isLoading := true;
      sent := Some(previous + [userMessage]);
      Respond(replyNow, errorNow, reply, parse);
    }
  }
}
