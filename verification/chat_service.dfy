/** The HTTP service of `src/mainn.py`: the request shapes, the constant health
    payload, and the `/chat` handler that converts the history, selects the
    system context, calls the completion client at a fixed temperature and maps
    any exception to a 500 response. Parsing, routing and logging are outside
    the model; the handler starts from an already parsed request. */
module ChatService {
  import opened Wrappers
  import opened Llm
  import PyText
  import PyList

  /** Stand-in for the text of `SALES_SCHEMA` (the Power BI data model of the
      `Details` and `Orders` tables and the DAX writing rules); the model only
      relies on it being non-empty. */
  const SalesSchema: string := "SALES_SCHEMA: Details/Orders data model and DAX rules"
  /** The temperature `/chat` always passes, whatever the request holds. */
  const ChatTemperature: real := 0.2
  const ServerErrorStatus: nat := 500
  /** `str(e)` for the `TypeError` raised by iterating over `None`. */
  const NoneNotIterable: string := "'NoneType' object is not iterable"

  /** A history message as validated by the request schema. */
  datatype Message = Message(role: string, content: string)

  /** The `history` field of the JSON body: left out (the schema default `[]`
      applies), sent as an explicit `null`, or sent as a list. */
  datatype HistoryField = Omitted | Null | Given(messages: seq<Message>)

  datatype ChatRequest = ChatRequest(
    prompt: string,
    history: HistoryField,
    systemInstruction: Option<string>)

  /** `{"reply": ...}` with status 200, or an `HTTPException` payload. */
  datatype ChatResponse = Reply(reply: string) | HttpError(status: nat, detail: string)

  datatype HealthPayload = HealthPayload(status: string, system: string)

  /** `GET /health`: a fixed payload, independent of any request served before. */
  function HealthCheck(): (p: HealthPayload)
    ensures p.status == "online" && p.system == "Sales DAX Engine Ready"
  {
    HealthPayload("online", "Sales DAX Engine Ready")
  }

  /** The value `request.history` holds after validation: `None` for an
      explicit `null`, the schema default `[]` when the field is left out. */
  function ParsedHistory(h: HistoryField): (r: Option<seq<Message>>)
    ensures r.None? <==> h.Null?
    ensures h.Omitted? ==> r == Some([])
    ensures h.Given? ==> r == Some(h.messages)
  {
    match h
    case Omitted => Some([])
    case Null => None
    case Given(ms) => Some(ms)
  }

  /** `m.model_dump()`: a dict holding exactly the keys `role` and `content`. */
  function ModelDump(m: Message): (d: Dict)
    ensures Role in d && Content in d && d.Keys == {Role, Content}
    ensures d[Role] == m.role && d[Content] == m.content
  {
    map[Role := m.role, Content := m.content]
  }

  /** `[m.model_dump() for m in request.history]`: raises `TypeError` when the
      history is `None`, otherwise one dict per message, in order. */
  function HistoryDicts(history: Option<seq<Message>>): (r: Result<seq<Dict>, string>)
    ensures r.Failure? <==> history.None?
    ensures r.Failure? ==> r.error == NoneNotIterable
    ensures r.Success? ==> |r.value| == |history.value|
    ensures r.Success? ==> forall k :: 0 <= k < |r.value| ==>
              r.value[k].Keys == {Role, Content}
              && r.value[k][Role] == history.value[k].role
              && r.value[k][Content] == history.value[k].content
  {
    match history
    case None => Failure(NoneNotIterable)
    case Some(ms) => Success(DumpAll(ms))
  }

  function DumpAll(ms: seq<Message>): (ds: seq<Dict>)
    ensures |ds| == |ms|
    ensures forall k :: 0 <= k < |ms| ==> ds[k] == ModelDump(ms[k])
  {
    if ms == [] then [] else [ModelDump(ms[0])] + DumpAll(ms[1..])
  }

  /** `request.system_instruction if request.system_instruction else SALES_SCHEMA`:
      Python truthiness sends both `None` and `""` to the default schema. */
  function SystemContext(instruction: Option<string>): (c: string)
    ensures instruction.Some? && instruction.value != "" ==> c == instruction.value
    ensures instruction.None? || instruction.value == "" ==> c == SalesSchema
    ensures c != ""
  {
    if instruction.Some? && instruction.value != "" then instruction.value else SalesSchema
  }

  /** `POST /chat`. The only exception the handler's `try` block can see is the
      `TypeError` of a `null` history (`call_llm` catches all of its own); it
      becomes a 500 carrying the exception text. Otherwise the reply is exactly
      what `call_llm` returns, at temperature 0.2 and its default model. */
  function GenerateResponse(request: ChatRequest, provider: CompletionRequest -> ProviderOutcome)
    : (resp: ChatResponse)
    ensures resp.HttpError? <==> request.history.Null?
    ensures resp.HttpError? ==> resp.status == ServerErrorStatus && resp.detail == NoneNotIterable
  {
    match HistoryDicts(ParsedHistory(request.history))
    case Failure(e) => HttpError(ServerErrorStatus, e)
    case Success(dicts) =>
      var context := SystemContext(request.systemInstruction);
      Reply(CallLlm(request.prompt, context, Some(dicts), ChatTemperature, DefaultModel, provider))
  }

  /** The request `/chat` hands to the provider for a request whose history is
      not `null`. */
  function Outbound(request: ChatRequest): CompletionRequest
    requires !request.history.Null?
  {
    var dicts := HistoryDicts(ParsedHistory(request.history)).value;
    BuildRequest(request.prompt, SystemContext(request.systemInstruction), Some(dicts),
                 ChatTemperature, DefaultModel).value
  }

  /** The messages of a request whose history is not `null`. */
  function RequestMessages(request: ChatRequest): seq<Message>
    requires !request.history.Null?
  {
    ParsedHistory(request.history).value
  }

  /** Converted history always has both keys, so the handler never trips the
      completion client's `KeyError` path. */
  lemma DumpedHistoryWellFormed(ms: seq<Message>)
    ensures WindowWellFormed(Some(DumpAll(ms)))
  {
    var ds := DumpAll(ms);
    forall k | 0 <= k < |ds| ensures HasRoleAndContent(ds[k]) {
      assert ds[k] == ModelDump(ms[k]);
    }
    WellFormedHistoryWindow(ds);
  }

  /** What `/chat` sends for a request with a non-`null` history: model
      `gpt-4o-mini`, temperature 0.2 and 1500 tokens whatever the request says;
      the chosen system context first, the prompt last, and between them the
      last `min(6, n)` request messages in order with their role and content. */
  lemma OutboundRequestShape(request: ChatRequest)
    requires !request.history.Null?
    ensures var out := Outbound(request);
            var ms := RequestMessages(request);
            && out.model == DefaultModel
            && out.temperature == ChatTemperature
            && out.maxTokens == MaxTokens
            && |out.messages| == 2 + PyList.Min(HistoryWindow, |ms|)
            && out.messages[0] == SystemMessage(SystemContext(request.systemInstruction))
            && out.messages[|out.messages| - 1] == UserMessage(request.prompt)
            && var tail := ms[|ms| - PyList.Min(HistoryWindow, |ms|)..];
               forall p :: 0 <= p < |tail| ==>
                 out.messages[1..|out.messages| - 1][p] == ChatMessage(tail[p].role, tail[p].content)
  {
    var ms := RequestMessages(request);
    var dicts := HistoryDicts(ParsedHistory(request.history)).value;
    assert dicts == DumpAll(ms);
    DumpedHistoryWellFormed(ms);
    var n := PyList.Min(HistoryWindow, |ms|);
    var tail := ms[|ms| - n..];
    var msgs := Outbound(request).messages;
    forall p | 0 <= p < |tail|
      ensures msgs[1..|msgs| - 1][p] == ChatMessage(tail[p].role, tail[p].content)
    {
      MiddleIsHistoryTail(request.prompt, SystemContext(request.systemInstruction), dicts, p);
      assert tail[p] == ms[|ms| - n + p];
      assert msgs[1..|msgs| - 1][p] == msgs[1 + p];
    }
  }

  /** With a non-`null` history the handler answers 200 with exactly the text
      `call_llm` produced: the stripped first choice when the provider returns
      readable content, the fallback reply (still a 200) when it does not. */
  lemma ReplyFollowsProvider(request: ChatRequest, provider: CompletionRequest -> ProviderOutcome)
    requires !request.history.Null?
    ensures var text := FirstText(provider(Outbound(request)));
            && GenerateResponse(request, provider).Reply?
            && (text.Some? ==> GenerateResponse(request, provider).reply == PyText.Strip(text.value))
            && (text.None? ==> GenerateResponse(request, provider).reply == FallbackReply)
  {
    DumpedHistoryWellFormed(RequestMessages(request));
    assert HistoryDicts(ParsedHistory(request.history)).value == DumpAll(RequestMessages(request));
  }

  /** Leaving `history` out and sending `[]` are the same request; sending
      `null` instead is a 500. */
  lemma OmittedHistoryIsEmpty(prompt: string, instruction: Option<string>,
                              provider: CompletionRequest -> ProviderOutcome)
    ensures GenerateResponse(ChatRequest(prompt, Omitted, instruction), provider)
            == GenerateResponse(ChatRequest(prompt, Given([]), instruction), provider)
    ensures GenerateResponse(ChatRequest(prompt, Null, instruction), provider)
            == HttpError(ServerErrorStatus, NoneNotIterable)
  {
  }
}
