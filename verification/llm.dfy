/** The completion client of `src/LLM1.py` (`call_llm`): it assembles the
    outbound message list (system message, the last six history entries reduced
    to role and content, the user message), hands one request to the completion
    provider and turns every failure inside its `try` block into a fixed
    fallback reply. The provider is an oracle passed in as a function. */
module Llm {
  import opened Wrappers
  import opened PyText
  import opened PyList

  /** A string that is neither `"role"` nor `"content"`. */
  type OtherKey = k: string | k != "role" && k != "content" witness ""

  /** A dict key: one of the two keys `call_llm` reads, or any other string. */
  datatype Key = Role | Content | Other(name: OtherKey)

  /** A history entry as `call_llm` receives it: a Python `dict` from string
      keys to string values, which may hold extra keys or lack required ones. */
  type Dict = map<Key, string>

  /** One message of the outbound list; only these two keys are ever sent. */
  datatype ChatMessage = ChatMessage(role: string, content: string)

  /** The arguments of the single provider call. */
  datatype CompletionRequest = CompletionRequest(
    model: string,
    messages: seq<ChatMessage>,
    temperature: real,
    maxTokens: nat)

  /** One returned choice; its message content may be `None`. */
  datatype Choice = Choice(content: Option<string>)

  /** What the provider call does: raise (network, authentication or provider
      error) or return a response holding a list of choices. */
  datatype ProviderOutcome = Raised | Returned(choices: seq<Choice>)

  /** The `KeyError` raised while reshaping a history entry that lacks a key. */
  datatype KeyError = KeyError(key: string)

  /** How many of the most recent history entries are forwarded. */
  const HistoryWindow: nat := 6
  const MaxTokens: nat := 1500
  /** Default of `call_llm`'s `model` parameter. */
  const DefaultModel: string := "gpt-4o-mini"
  /** The warning sign that opens the fallback reply. */
  const FallbackMarker: string := "\U{26A0}\U{FE0F}"
  /** The reply returned whenever anything inside the `try` block raises. */
  const FallbackReply: string := FallbackMarker +
    " D\U{E9}sol\U{E9}, je n'arrive pas \U{E0} g\U{E9}n\U{E9}rer la formule pour le moment. V\U{E9}rifiez votre cl\U{E9} API."

  predicate HasRoleAndContent(d: Dict) {
    Role in d && Content in d
  }

  /** The key whose lookup raises first for `d`: `role` is read before `content`. */
  function MissingKey(d: Dict): KeyError {
    if Role !in d then KeyError("role") else KeyError("content")
  }

  /** `{"role": m["role"], "content": m["content"]}` for one entry. */
  function Project(d: Dict): (r: Result<ChatMessage, KeyError>)
    ensures r.Success? <==> HasRoleAndContent(d)
    ensures r.Success? ==> r.value.role == d[Role] && r.value.content == d[Content]
  {
    if Role !in d then Failure(KeyError("role"))
    else if Content !in d then Failure(KeyError("content"))
    else Success(ChatMessage(d[Role], d[Content]))
  }

  /** The list comprehension reshaping every forwarded entry, evaluated left to
      right: it succeeds exactly when every entry has both keys, keeps length and
      order, and otherwise raises for the first entry that lacks one. */
  function ProjectAll(ds: seq<Dict>): (r: Result<seq<ChatMessage>, KeyError>)
    ensures r.Success? <==> forall k :: 0 <= k < |ds| ==> HasRoleAndContent(ds[k])
    ensures r.Success? ==> |r.value| == |ds|
    ensures r.Success? ==> forall k :: 0 <= k < |ds| ==>
              r.value[k] == ChatMessage(ds[k][Role], ds[k][Content])
    ensures r.Failure? ==>
              exists k :: (&& 0 <= k < |ds| && !HasRoleAndContent(ds[k])
                           && r.error == MissingKey(ds[k])
                           && forall j :: 0 <= j < k ==> HasRoleAndContent(ds[j]))
  {
    if ds == [] then Success([])
    else match Project(ds[0])
      case Failure(e) => Failure(e)
      case Success(m) =>
        match ProjectAll(ds[1..])
        case Failure(e) =>
          ghost var k :| 0 <= k < |ds[1..]| && !HasRoleAndContent(ds[1..][k])
              && e == MissingKey(ds[1..][k])
              && forall j :: 0 <= j < k ==> HasRoleAndContent(ds[1..][j]);
          assert ds[k + 1] == ds[1..][k];
          Failure(e)
        case Success(ms) => Success([m] + ms)
  }

  /** Python truthiness of the `conversation_history` argument: `None` and the
      empty list are both false. */
  predicate Truthy(history: Option<seq<Dict>>): (t: bool)
    ensures t <==> HistoryLength(history) > 0
    ensures history.None? || history == Some([]) ==> !t
  {
    history.Some? && |history.value| > 0
  }

  function HistoryLength(history: Option<seq<Dict>>): nat {
    if history.Some? then |history.value| else 0
  }

  /** The entries `call_llm` forwards: `conversation_history[-6:]` when the
      history is truthy, nothing otherwise. They are the last
      `min(6, len(history))` entries, in their original order. */
  function Forwarded(history: Option<seq<Dict>>): (r: seq<Dict>)
    ensures |r| == Min(HistoryWindow, HistoryLength(history))
    ensures history.Some? ==> r == history.value[|history.value| - |r|..]
  {
    if Truthy(history) then SliceFrom(history.value, -(HistoryWindow as int)) else []
  }

  /** Every forwarded entry has the keys reshaping reads, so building the
      message list cannot raise. Entries older than the window are never read. */
  predicate WindowWellFormed(history: Option<seq<Dict>>) {
    var window := Forwarded(history);
    forall k :: 0 <= k < |window| ==> HasRoleAndContent(window[k])
  }

  function SystemMessage(systemContext: string): ChatMessage {
    ChatMessage("system", systemContext)
  }

  function UserMessage(userPrompt: string): ChatMessage {
    ChatMessage("user", userPrompt)
  }

  /** The message list of `call_llm`: the system message first, the user
      message last, and between them the forwarded entries reshaped to role and
      content; it raises `KeyError` when a forwarded entry lacks a key. */
  function BuildMessages(userPrompt: string, systemContext: string, history: Option<seq<Dict>>)
    : (r: Result<seq<ChatMessage>, KeyError>)
    ensures r.Success? <==> WindowWellFormed(history)
    ensures r.Success? ==> |r.value| == 2 + Min(HistoryWindow, HistoryLength(history))
    ensures r.Success? ==> r.value[0] == SystemMessage(systemContext)
    ensures r.Success? ==> r.value[|r.value| - 1] == UserMessage(userPrompt)
    ensures r.Success? ==> forall p :: 0 <= p < |Forwarded(history)| ==>
              r.value[1..|r.value| - 1][p]
                == ChatMessage(Forwarded(history)[p][Role], Forwarded(history)[p][Content])
  {
    match ProjectAll(Forwarded(history))
    case Failure(e) => Failure(e)
    case Success(clean) =>
      var msgs := [SystemMessage(systemContext)] + clean + [UserMessage(userPrompt)];
      assert msgs[1..|msgs| - 1] == clean;
      Success(msgs)
  }

  /** The keyword arguments of `client.chat.completions.create`. */
  function BuildRequest(userPrompt: string, systemContext: string, history: Option<seq<Dict>>,
                        temperature: real, model: string)
    : (r: Result<CompletionRequest, KeyError>)
    ensures r.Success? <==> WindowWellFormed(history)
    ensures r.Success? ==>
              r.value.model == model && r.value.temperature == temperature && r.value.maxTokens == MaxTokens
    ensures r.Success? ==> r.value.messages == BuildMessages(userPrompt, systemContext, history).value
  {
    match BuildMessages(userPrompt, systemContext, history)
    case Failure(e) => Failure(e)
    case Success(msgs) => Success(CompletionRequest(model, msgs, temperature, MaxTokens))
  }

  /** `response.choices[0].message.content`, or `None` when reading it raises
      (the provider raised, no choice came back) or when the content is `None`
      (calling `.strip()` on it raises). */
  function FirstText(outcome: ProviderOutcome): (text: Option<string>)
    ensures text.None? <==>
              outcome.Raised? || |outcome.choices| == 0 || outcome.choices[0].content.None?
    ensures text.Some? ==> outcome.Returned? && |outcome.choices| > 0 && text == outcome.choices[0].content
  {
    match outcome
    case Raised => None
    case Returned(choices) => if |choices| == 0 then None else choices[0].content
  }

  /** `call_llm`: at most one provider call, with the request built above; the
      whitespace-stripped first choice on success, the fallback reply on any
      failure. Nothing escapes as an exception. */
  function CallLlm(userPrompt: string, systemContext: string, history: Option<seq<Dict>>,
                   temperature: real, model: string, provider: CompletionRequest -> ProviderOutcome)
    : (reply: string)
    ensures !WindowWellFormed(history) ==> reply == FallbackReply
    ensures WindowWellFormed(history) ==>
              var outcome := provider(BuildRequest(userPrompt, systemContext, history, temperature, model).value);
              && (FirstText(outcome).Some? ==> reply == Strip(FirstText(outcome).value))
              && (FirstText(outcome).None? ==> reply == FallbackReply)
    ensures Unpadded(reply, IsSpace)
  {
    match BuildRequest(userPrompt, systemContext, history, temperature, model)
    case Failure(_) => FallbackUnpadded(); FallbackReply
    case Success(request) =>
      match FirstText(provider(request))
      case None => FallbackUnpadded(); FallbackReply
      case Some(text) => Strip(text)
  }

  /** The fallback reply has no surrounding whitespace, so `call_llm` never
      returns padded text on either path. */
  lemma FallbackUnpadded()
    ensures |FallbackReply| > |FallbackMarker| && FallbackReply[..|FallbackMarker|] == FallbackMarker
    ensures Unpadded(FallbackReply, IsSpace)
  {
    assert FallbackReply[0] == FallbackMarker[0] == '\U{26A0}';
    assert FallbackReply[|FallbackReply| - 1] == '.';
  }

  /** With no history (`None`) or an empty one, the outbound list is exactly
      the system message followed by the user message. */
  lemma NoHistoryOnlySystemAndUser(userPrompt: string, systemContext: string, history: Option<seq<Dict>>)
    requires !Truthy(history)
    ensures BuildMessages(userPrompt, systemContext, history)
            == Success([SystemMessage(systemContext), UserMessage(userPrompt)])
  {
    var msgs := BuildMessages(userPrompt, systemContext, history).value;
    assert |msgs| == 2 by {
      assert HistoryLength(history) == 0;
    }
    assert msgs == [msgs[0], msgs[1]];
  }

  /** Element `p` of the window is history entry `len(history) - min(6, len(history)) + p`. */
  lemma ForwardedElement(history: seq<Dict>, p: nat)
    requires p < Min(HistoryWindow, |history|)
    ensures Forwarded(Some(history))[p] == history[|history| - Min(HistoryWindow, |history|) + p]
  {
    var window := Forwarded(Some(history));
    assert window == history[|history| - |window|..];
  }

  /** A history whose every entry has both keys never trips the `KeyError` path. */
  lemma WellFormedHistoryWindow(history: seq<Dict>)
    requires forall k :: 0 <= k < |history| ==> HasRoleAndContent(history[k])
    ensures WindowWellFormed(Some(history))
  {
    var window := Forwarded(Some(history));
    forall p | 0 <= p < |window| ensures HasRoleAndContent(window[p]) {
      ForwardedElement(history, p);
    }
  }

  /** Message `1 + p` of the outbound list is window entry `p` reshaped. */
  lemma MiddleElement(userPrompt: string, systemContext: string, history: Option<seq<Dict>>, p: nat)
    requires WindowWellFormed(history)
    requires p < |Forwarded(history)|
    ensures BuildMessages(userPrompt, systemContext, history).value[1 + p]
            == ChatMessage(Forwarded(history)[p][Role], Forwarded(history)[p][Content])
  {
    var msgs := BuildMessages(userPrompt, systemContext, history).value;
    assert msgs[1..|msgs| - 1][p] == msgs[1 + p];
  }

  /** The messages between the system and the user message are the last
      `min(6, len(history))` history entries, in order, each reduced to its role
      and content, read directly off the caller's history. */
  lemma MiddleIsHistoryTail(userPrompt: string, systemContext: string, history: seq<Dict>, p: nat)
    requires WindowWellFormed(Some(history))
    requires p < Min(HistoryWindow, |history|)
    ensures var msgs := BuildMessages(userPrompt, systemContext, Some(history)).value;
            var d := history[|history| - Min(HistoryWindow, |history|) + p];
            msgs[1 + p] == ChatMessage(d[Role], d[Content])
  {
    ForwardedElement(history, p);
    MiddleElement(userPrompt, systemContext, Some(history), p);
  }

  /** Entries older than the six most recent ones never influence the outbound
      list: two histories that share their last six entries build the same
      messages, even when an older entry lacks `role` or `content`. */
  lemma OlderHistoryIgnored(userPrompt: string, systemContext: string, h1: seq<Dict>, h2: seq<Dict>)
    requires |h1| >= HistoryWindow && |h2| >= HistoryWindow
    requires h1[|h1| - HistoryWindow..] == h2[|h2| - HistoryWindow..]
    ensures BuildMessages(userPrompt, systemContext, Some(h1))
            == BuildMessages(userPrompt, systemContext, Some(h2))
  {
    assert Forwarded(Some(h1)) == Forwarded(Some(h2));
  }

  /** When a forwarded entry lacks a key the provider is never reached: the
      reply is the fallback whatever the provider would have answered. */
  lemma MalformedWindowSkipsProvider(userPrompt: string, systemContext: string, history: Option<seq<Dict>>,
                                     temperature: real, model: string,
                                     p1: CompletionRequest -> ProviderOutcome, p2: CompletionRequest -> ProviderOutcome)
    requires !WindowWellFormed(history)
    ensures CallLlm(userPrompt, systemContext, history, temperature, model, p1) == FallbackReply
    ensures CallLlm(userPrompt, systemContext, history, temperature, model, p1)
            == CallLlm(userPrompt, systemContext, history, temperature, model, p2)
  {
  }

  /** A provider that answers with unpadded text has that text returned
      verbatim; padding around it is removed. */
  lemma ProviderTextReturned(userPrompt: string, systemContext: string, history: Option<seq<Dict>>,
                             temperature: real, model: string,
                             provider: CompletionRequest -> ProviderOutcome,
                             pre: string, text: string, post: string, rest: seq<Choice>)
    requires WindowWellFormed(history)
    requires AllIn(pre, IsSpace) && AllIn(post, IsSpace) && Unpadded(text, IsSpace)
    requires provider(BuildRequest(userPrompt, systemContext, history, temperature, model).value)
             == Returned([Choice(Some(pre + text + post))] + rest)
    ensures CallLlm(userPrompt, systemContext, history, temperature, model, provider) == text
  {
    var request := BuildRequest(userPrompt, systemContext, history, temperature, model).value;
    assert FirstText(provider(request)) == Some(pre + text + post);
    StripPadding(pre, text, post);
  }
}
