/**
 * The HTTP endpoints of the backend: the three agent pipelines, which turn a
 * request into a prompt, run an agent on it and map the outcome to a
 * response or an HTTP error; ingestion into the vector store; and the health
 * probe. Running an agent is foreign; it is the parameter `run`, from the
 * agent and the prompt to what the run ended with.
 */
module Endpoints {
  import opened Common
  import opened Text
  import opened PyFormat
  import opened Prompts
  import opened VectorStoreAdapter

  /** One turn of the conversation a chat request carries. */
  datatype Message = Message(role: string, content: string)

  datatype ChatResponse = ChatResponse(response: string, reasoning: Option<string> := None)

  datatype IngestReply = IngestReply(status: string, message: string)

  datatype HealthResponse = HealthResponse(status: string)

  datatype Agent = RagAgent | ContextAgent | ResearchAgent

  /** How `Runner.run` ended: with a final output, as `str` renders it, or by raising an exception with this message. */
  datatype RunOutcome = Finished(output: string) | Raised(message: string)

  const EmptyHistory: HttpError := HttpError(400, "History cannot be empty")

  const IngestSucceeded: IngestReply := IngestReply("success", "Text processed and stored in QDrant successfully.")

  const IngestFailurePrefix: string := "Ingestion failed: "

  /** One earlier turn as the prompt shows it. */
  function RenderLine(m: Message): string {
    m.role + ": " + m.content
  }

  /** One line per turn, in order. */
  function Lines(messages: seq<Message>): seq<string> {
    seq(|messages|, i requires 0 <= i < |messages| => RenderLine(messages[i]))
  }

  /** The conversation so far, one `role: content` line per turn. */
  function RenderHistory(messages: seq<Message>): string {
    Join(Lines(messages), "\n")
  }

  /**
   * The prompt of a chat request: refused with 400 when the history is
   * empty; otherwise the RAG template with the last message's content as
   * the question and all earlier turns, rendered, as the history.
   */
  function ChatPrompt(history: seq<Message>): (prompt: Result<string, HttpError>)
    ensures prompt.Err? <==> history == []
    ensures prompt.Err? ==> prompt.error == EmptyHistory
    ensures prompt.Ok? ==>
              Format(RagUserTemplate, map["history" := RenderHistory(history[..|history| - 1]),
                                          "last_user_msg" := history[|history| - 1].content])
              == Ok(prompt.value)
  {
    if history == [] then Err(EmptyHistory)
    else
      var query := history[|history| - 1].content;
      var context := RenderHistory(history[..|history| - 1]);
      Ok(RagPrompt(context, query))
  }

  /** The response for how an agent run ended: its output, or a 500 carrying the exception's message. */
  function RespondWith(outcome: RunOutcome): (r: Result<ChatResponse, HttpError>)
    ensures r.Ok? <==> outcome.Finished?
    ensures outcome.Finished? ==> r.value == ChatResponse(outcome.output, None)
    ensures outcome.Raised? ==> r.error == HttpError(500, outcome.message)
  {
    match outcome
    case Finished(output) => Ok(ChatResponse(output))
    case Raised(message) => Err(HttpError(500, message))
  }

  /** `chat_endpoint`: an empty history is refused before any agent runs; otherwise the RAG agent answers the chat prompt. */
  function ChatEndpoint(history: seq<Message>, run: (Agent, string) -> RunOutcome): (r: Result<ChatResponse, HttpError>)
    ensures history == [] ==> r == Err(EmptyHistory)
    ensures history != [] ==>
              var outcome := run(RagAgent, ChatPrompt(history).value);
              && (outcome.Finished? ==> r == Ok(ChatResponse(outcome.output, None)))
              && (outcome.Raised? ==> r == Err(HttpError(500, outcome.message)))
  {
    match ChatPrompt(history)
    case Err(error) => Err(error)
    case Ok(prompt) => RespondWith(run(RagAgent, prompt))
  }

  /** `selected_chat_endpoint`: the context agent answers the selection template, whatever the two texts are. */
  function SelectedChatEndpoint(selectedText: string, userQuery: string, run: (Agent, string) -> RunOutcome)
    : (r: Result<ChatResponse, HttpError>)
    ensures var outcome := run(ContextAgent, ContextPrompt(selectedText, userQuery));
            && (outcome.Finished? ==> r == Ok(ChatResponse(outcome.output, None)))
            && (outcome.Raised? ==> r == Err(HttpError(500, outcome.message)))
  {
    RespondWith(run(ContextAgent, ContextPrompt(selectedText, userQuery)))
  }

  /** `latest_developments_endpoint`: the research agent answers the research template for the book section. */
  function LatestDevelopmentsEndpoint(bookSection: string, run: (Agent, string) -> RunOutcome)
    : (r: Result<ChatResponse, HttpError>)
    ensures var outcome := run(ResearchAgent, ResearchPrompt(bookSection));
            && (outcome.Finished? ==> r == Ok(ChatResponse(outcome.output, None)))
            && (outcome.Raised? ==> r == Err(HttpError(500, outcome.message)))
  {
    RespondWith(run(ResearchAgent, ResearchPrompt(bookSection)))
  }

  /** `health_check`. */
  function HealthCheck(): (r: HealthResponse)
    ensures r.status == "ok"
  {
    HealthResponse("ok")
  }

  /**
   * `ingest_endpoint`: store the text; a failure of the store becomes a 500
   * whose detail is the failure's message after `Ingestion failed: `.
   */
  method IngestEndpoint(store: VectorStore, text: string, metadata: Option<Payload>,
                        pointId: string, failure: Option<string>)
    returns (r: Result<IngestReply, HttpError>)
    requires store.Valid()
    modifies store
    ensures store.Valid()
    ensures failure.Some? ==>
              r == Err(HttpError(500, IngestFailurePrefix + failure.value)) && store.server == old(store.server)
    ensures failure.None? ==>
              && r == Ok(IngestSucceeded)
              && store.server == old(store.server)[CollectionName := Upserted(old(store.server)[CollectionName],
                                                   Point(pointId, store.embed(text), BuildPayload(text, metadata)))]
  {
    var stored := store.IngestText(text, metadata, pointId, failure);
    match stored
    case Err(message) =>
      return Err(HttpError(500, IngestFailurePrefix + message));
    case Ok(_) =>
      return Ok(IngestSucceeded);
  }

  /** A one-message history gives an empty history block: the question alone is substituted. */
  lemma SingleMessageHasEmptyContext(m: Message)
    ensures ChatPrompt([m]) == Ok(RagPrompt("", m.content))
  {
    assert [m][..0] == [];
  }

  /**
   * Appending a turn appends one line: the rendered history of a longer
   * conversation is the earlier rendering, a newline, and the new turn.
   */
  lemma RenderHistoryAppend(messages: seq<Message>, m: Message)
    requires messages != []
    ensures RenderHistory(messages + [m]) == RenderHistory(messages) + "\n" + RenderLine(m)
  {
    assert Lines(messages + [m]) == Lines(messages) + Lines([m]);
    JoinConcat(Lines(messages), Lines([m]), "\n");
  }

  /**
   * When no turn contains a newline, the rendered history splits back into
   * exactly one line per turn, in order: the turns can be read back from it.
   */
  lemma RenderHistoryLines(messages: seq<Message>)
    requires messages != []
    requires forall i :: 0 <= i < |messages| ==> '\n' !in messages[i].role && '\n' !in messages[i].content
    ensures Split(RenderHistory(messages), '\n') == Lines(messages)
  {
    var lines := Lines(messages);
    forall i | 0 <= i < |lines|
      ensures '\n' !in lines[i]
    {
      assert lines[i] == messages[i].role + ": " + messages[i].content;
    }
    SplitJoin(lines, '\n');
  }

  /**
   * Every earlier turn appears in the rendered history at its place, between
   * the lines of the turns before it and those after it.
   */
  lemma RenderHistoryKeepsOrder(messages: seq<Message>, i: nat)
    requires i < |messages|
    ensures var lines := Lines(messages);
            RenderHistory(messages)
            == Join(lines[..i], "\n") + (if i > 0 then "\n" else "")
             + RenderLine(messages[i])
             + (if i + 1 < |messages| then "\n" else "") + Join(lines[i + 1..], "\n")
  {
    JoinAround(Lines(messages), "\n", i);
  }
}
