/** `GeminiService`: the model handle set up by `initialize`, the wrapped
    provider call `generateContent`, and the four generators that send a
    prompt, sanitize and parse the reply, map its records to nodes and, for
    epics only, translate the failure message into a user-facing one.

    The language model is the parameter `provider`, which answers a prompt sent
    through a model handle with a text or a thrown value; `JSON.parse` is the
    parameter `parse`; the readings of `Date.now()` are the parameter `clock`. */
module Service {
  import opened Wrappers
  import opened Text
  import opened Models
  import opened Runtime
  import opened Sanitizer
  import opened Prompts
  import opened Mapping

  // The longer messages are written as two concatenated pieces. The text is
  // the same; the pieces keep the verifier from unrolling a long literal
  // character by character wherever the message is compared.
  const ApiKeyRequired := "API key is required"
  const NotInitialized := "Gemini service not initialized." + " Please provide an API key."
  const FailurePrefix := "Failed to generate content: "
  const UnknownError := "Unknown error"
  const InvalidApiKey := "Invalid API key." + " Please check your Gemini API key in the sidebar."
  const NetworkError := "Network error." + " Please check your internet connection and try again."
  const InvalidFormat := "Invalid response format from AI." + " Please try again."
  const DefaultModelName := "gemini-1.5-flash"

  /** The SDK client, created from an API key. */
  datatype Client = Client(apiKey: string)

  /** The model handle the client hands out for a model name. */
  datatype ModelHandle = ModelHandle(apiKey: string, modelName: string)

  /** What a failing provider call throws: an `Error` with its message, or
      some other value. */
  datatype Thrown = ThrownError(message: string) | ThrownValue

  /** The outcome of one provider call: the reply text, or a thrown value. */
  datatype Reply = Replied(text: string) | Threw(thrown: Thrown)

  /** `error instanceof Error ? error.message : 'Unknown error'` */
  function ThrownMessage(t: Thrown): (r: string)
    ensures t.ThrownError? ==> r == t.message
    ensures t.ThrownValue? ==> !Recognised(r)
  {
    match t
    case ThrownError(message) => message
    case ThrownValue => UnknownErrorUnrecognised(); UnknownError
  }

  /** Whether `JSON.parse` accepts a text, as the sanitizer's fast path asks. */
  function Accepts(parse: string -> Result<Json, string>): string -> bool {
    s => parse(s).Success?
  }

  /** `generateContent(prompt)`: without a model handle it fails with the
      not-initialized message; otherwise it returns the provider's text or
      fails with the provider's message behind a fixed prefix. */
  function Content(model: Option<ModelHandle>, provider: (ModelHandle, string) -> Reply, prompt: string)
    : (r: Result<string, string>)
    ensures model.None? ==> r == Failure(NotInitialized)
    ensures r.Success? <==> model.Some? && provider(model.value, prompt).Replied?
    ensures r.Success? ==> r.value == provider(model.value, prompt).text
    ensures model.Some? && r.Failure? ==>
      r.error == FailurePrefix + ThrownMessage(provider(model.value, prompt).thrown)
  {
    match model
    case None => Failure(NotInitialized)
    case Some(handle) =>
      match provider(handle, prompt)
      case Replied(text) => Success(text)
      case Threw(thrown) => Failure(FailurePrefix + ThrownMessage(thrown))
  }

  /** The message mentions one of the words `generateEpics` reacts to. */
  predicate Recognised(message: string) {
    Contains(message, "API key") || Contains(message, "network") || Contains(message, "fetch")
      || Contains(message, "JSON")
  }

  /** The catch block of `generateEpics`: the first matching word, in the
      order API key, network or fetch, JSON, picks the user-facing message;
      a message with none of them is re-thrown as it is. */
  function ClassifyEpicError(message: string): (r: string)
    ensures Contains(message, "API key") ==> r == InvalidApiKey
    ensures !Contains(message, "API key") && (Contains(message, "network") || Contains(message, "fetch"))
      ==> r == NetworkError
    ensures (!Contains(message, "API key") && !Contains(message, "network") && !Contains(message, "fetch")
      && Contains(message, "JSON")) ==> r == InvalidFormat
    ensures !Recognised(message) ==> r == message
  {
    if Contains(message, "API key") then InvalidApiKey
    else if Contains(message, "network") || Contains(message, "fetch") then NetworkError
    else if Contains(message, "JSON") then InvalidFormat
    else message
  }

  /** The body of a generator's `try`: fetch the reply, sanitize it, parse it
      and map the parsed records to nodes; the first failure ends it. */
  function Attempt(level: Level, parentId: string, model: Option<ModelHandle>,
                   provider: (ModelHandle, string) -> Reply, prompt: string,
                   parse: string -> Result<Json, string>, clock: nat -> nat)
    : (r: Result<seq<ProjectNode>, string>)
    ensures model.None? ==> r == Failure(NotInitialized)
    ensures Content(model, provider, prompt).Failure? ==> r == Failure(Content(model, provider, prompt).error)
    ensures r.Success? ==>
      && Content(model, provider, prompt).Success?
      && parse(Cleaned(Content(model, provider, prompt).value, Accepts(parse))).Success?
      && r == MapBatch(level, parse(Cleaned(Content(model, provider, prompt).value, Accepts(parse))).value,
                       parentId, clock)
  {
    var content := Content(model, provider, prompt);
    if content.Failure? then Failure(content.error)
    else
      var parsed := parse(Cleaned(content.value, Accepts(parse)));
      if parsed.Failure? then Failure(parsed.error)
      else MapBatch(level, parsed.value, parentId, clock)
  }

  /** One generator call for children of `parent` at `level`: the prompt is
      built first, outside the `try`; the epic generator then classifies any
      failure of the attempt, the others re-throw it unchanged. */
  function Generation(level: Level, parent: ProjectNode, model: Option<ModelHandle>,
                      provider: (ModelHandle, string) -> Reply,
                      parse: string -> Result<Json, string>, clock: nat -> nat)
    : (r: Result<seq<ProjectNode>, string>)
    ensures Prompt(level, parent).Failure? ==> r == Failure(Prompt(level, parent).error)
    ensures r.Success? ==> (Prompt(level, parent).Success?
      && r == Attempt(level, parent.id, model, provider, Prompt(level, parent).value, parse, clock))
    ensures level != Epic && Prompt(level, parent).Success? ==>
      r == Attempt(level, parent.id, model, provider, Prompt(level, parent).value, parse, clock)
    ensures level == Epic && Prompt(level, parent).Success? && r.Failure? ==>
      r.error == InvalidApiKey || r.error == NetworkError || r.error == InvalidFormat || !Recognised(r.error)
  {
    match Prompt(level, parent)
    case Failure(e) => Failure(e)
    case Success(prompt) =>
      var attempt := Attempt(level, parent.id, model, provider, prompt, parse, clock);
      if level == Epic && attempt.Failure? then Failure(ClassifyEpicError(attempt.error)) else attempt
  }

  class GeminiService {
    var genAI: Option<Client>
    var model: Option<ModelHandle>

    /** A fresh service has neither a client nor a model handle. */
    constructor()
      ensures genAI == None && model == None
    {
      genAI := None;
      model := None;
    }

    /** `initialize(apiKey, modelName)`: an empty key is refused and changes
        nothing; any other key sets up the client and the model handle. */
    method Initialize(apiKey: string, modelName: string := DefaultModelName) returns (r: Result<(), string>)
      modifies this
      ensures apiKey == [] ==> r == Failure(ApiKeyRequired) && genAI == old(genAI) && model == old(model)
      ensures apiKey != [] ==>
        r == Success(()) && genAI == Some(Client(apiKey)) && model == Some(ModelHandle(apiKey, modelName))
    {
      if apiKey == [] {
        return Failure(ApiKeyRequired);
      }
      genAI := Some(Client(apiKey));
      model := Some(ModelHandle(genAI.value.apiKey, modelName));
      r := Success(());
    }

    /** `generateContent(prompt)`, one provider call through the model handle. */
    method GenerateContent(prompt: string, provider: (ModelHandle, string) -> Reply)
      returns (r: Result<string, string>)
      ensures r == Content(model, provider, prompt)
    {
      if model.None? {
        return Failure(NotInitialized);
      }
      var reply := provider(model.value, prompt);
      match reply
      case Replied(text) =>
        r := Success(text);
      case Threw(thrown) =>
        r := Failure(FailurePrefix + ThrownMessage(thrown));
    }

    /** The `try` block shared by the four generators. */
    method TryGenerate(level: Level, parentId: string, prompt: string,
                       provider: (ModelHandle, string) -> Reply,
                       parse: string -> Result<Json, string>, clock: nat -> nat)
      returns (r: Result<seq<ProjectNode>, string>)
      ensures r == Attempt(level, parentId, model, provider, prompt, parse, clock)
    {
      var response := GenerateContent(prompt, provider);
      if response.Failure? {
        return Failure(response.error);
      }
      var cleanResponse := CleanJsonResponse(response.value, Accepts(parse));
      var parsed := parse(cleanResponse);
      if parsed.Failure? {
        return Failure(parsed.error);
      }
      r := MapBatch(level, parsed.value, parentId, clock);
    }

    /** `generateEpics(project)`, with its error classification. Building
        the prompt happens before the `try`, so its failure is not classified. */
    method GenerateEpics(project: ProjectNode, provider: (ModelHandle, string) -> Reply,
                         parse: string -> Result<Json, string>, clock: nat -> nat)
      returns (r: Result<seq<ProjectNode>, string>)
      ensures r == Generation(Epic, project, model, provider, parse, clock)
    {
      var prompt := Prompt(Epic, project);
      if prompt.Failure? {
        return Failure(prompt.error);
      }
      r := TryGenerate(Epic, project.id, prompt.value, provider, parse, clock);
      ghost var attempt := r;
      if r.Failure? {
        r := Failure(ClassifyEpicError(r.error));
      }
      assert r == if attempt.Failure? then Failure(ClassifyEpicError(attempt.error)) else attempt;
    }

    /** `generateFeatures(epic)`. */
    method GenerateFeatures(epic: ProjectNode, provider: (ModelHandle, string) -> Reply,
                            parse: string -> Result<Json, string>, clock: nat -> nat)
      returns (r: Result<seq<ProjectNode>, string>)
      ensures r == Generation(Feature, epic, model, provider, parse, clock)
    {
      var prompt := Prompt(Feature, epic);
      if prompt.Failure? {
        return Failure(prompt.error);
      }
      r := TryGenerate(Feature, epic.id, prompt.value, provider, parse, clock);
    }

    /** `generateStories(feature)`. */
    method GenerateStories(feature: ProjectNode, provider: (ModelHandle, string) -> Reply,
                           parse: string -> Result<Json, string>, clock: nat -> nat)
      returns (r: Result<seq<ProjectNode>, string>)
      ensures r == Generation(Story, feature, model, provider, parse, clock)
    {
      var prompt := Prompt(Story, feature);
      if prompt.Failure? {
        return Failure(prompt.error);
      }
      r := TryGenerate(Story, feature.id, prompt.value, provider, parse, clock);
    }

    /** `generateTasks(story)`: building the prompt can also fail on the
        story's criteria, before anything is sent. */
    method GenerateTasks(story: ProjectNode, provider: (ModelHandle, string) -> Reply,
                         parse: string -> Result<Json, string>, clock: nat -> nat)
      returns (r: Result<seq<ProjectNode>, string>)
      ensures r == Generation(Task, story, model, provider, parse, clock)
    {
      var prompt := Prompt(Task, story);
      if prompt.Failure? {
        return Failure(prompt.error);
      }
      r := TryGenerate(Task, story.id, prompt.value, provider, parse, clock);
    }
  }

  /** The not-initialized message mentions "API key". */
  lemma NotInitializedMentionsApiKey()
    ensures Contains(NotInitialized, "API key")
  {
    assert NotInitialized == "Gemini service not initialized. Please provide an " + "API key" + ".";
    ContainsSpliced("Gemini service not initialized. Please provide an ", "API key", ".");
  }

  /** Called before `initialize`, the epic generator reports an invalid API
      key: the not-initialized failure mentions "API key". */
  lemma UninitializedEpicsReportInvalidKey(project: ProjectNode, provider: (ModelHandle, string) -> Reply,
                                           parse: string -> Result<Json, string>, clock: nat -> nat)
    requires Prompt(Epic, project).Success?
    ensures Generation(Epic, project, None, provider, parse, clock) == Failure(InvalidApiKey)
  {
    NotInitializedMentionsApiKey();
  }

  /** Called before `initialize`, the other generators fail with the
      not-initialized message itself (once a task prompt could be built). */
  lemma UninitializedOtherLevels(level: Level, parent: ProjectNode, provider: (ModelHandle, string) -> Reply,
                                 parse: string -> Result<Json, string>, clock: nat -> nat)
    requires level != Epic && Prompt(level, parent).Success?
    ensures Generation(level, parent, None, provider, parse, clock) == Failure(NotInitialized)
  {
  }

  /** A story whose criteria cannot be joined makes the task generator fail
      with that `TypeError` before any call, initialized or not. */
  lemma TaskPromptFailsFirst(story: ProjectNode, model: Option<ModelHandle>, provider: (ModelHandle, string) -> Reply,
                             parse: string -> Result<Json, string>, clock: nat -> nat)
    requires FieldConvertible(story.title) && FieldConvertible(story.description)
    requires story.acceptanceCriteria.Some? && !story.acceptanceCriteria.value.JNull?
    requires !story.acceptanceCriteria.value.JArray?
    ensures Generation(Task, story, model, provider, parse, clock) == Failure(NotAFunction(CriteriaJoin))
  {
  }

  /** The prefix `generateContent` puts before a provider's message neither
      creates nor hides any of the words the epic generator looks for. */
  lemma PrefixKeepsRecognition(message: string)
    ensures Recognised(FailurePrefix + message) <==> Recognised(message)
    ensures Recognised(message) ==> ClassifyEpicError(FailurePrefix + message) == ClassifyEpicError(message)
  {
    PrefixKeepsWord(message, "API key");
    PrefixKeepsWord(message, "network");
    PrefixKeepsWord(message, "fetch");
    PrefixKeepsWord(message, "JSON");
  }

  /** The prefix neither creates nor hides one recognised word. */
  lemma PrefixKeepsWord(message: string, w: string)
    requires w == "API key" || w == "network" || w == "fetch" || w == "JSON"
    ensures Contains(FailurePrefix + message, w) <==> Contains(message, w)
  {
    assert w[0] !in FailurePrefix || (w[|w| - 1] !in FailurePrefix && FailurePrefix[|FailurePrefix| - 1] !in w[..|w| - 1]);
    ContainsAfterPrefix(FailurePrefix, message, w);
  }

  /** Once the prompt is built, a generation is the attempt, classified when
      an epic attempt fails. */
  lemma GenerationAfterPrompt(level: Level, parent: ProjectNode, model: Option<ModelHandle>,
                              provider: (ModelHandle, string) -> Reply,
                              parse: string -> Result<Json, string>, clock: nat -> nat)
    requires Prompt(level, parent).Success?
    ensures var attempt := Attempt(level, parent.id, model, provider, Prompt(level, parent).value, parse, clock);
      Generation(level, parent, model, provider, parse, clock)
        == if level == Epic && attempt.Failure? then Failure(ClassifyEpicError(attempt.error)) else attempt
  {
  }

  /** A provider failure during epic generation is classified by the
      provider's own message; when that mentions none of the words, the
      wrapped message is re-thrown. */
  lemma EpicProviderFailure(project: ProjectNode, handle: ModelHandle, provider: (ModelHandle, string) -> Reply,
                            parse: string -> Result<Json, string>, clock: nat -> nat)
    requires Prompt(Epic, project).Success?
    requires provider(handle, Prompt(Epic, project).value).Threw?
    ensures var message := ThrownMessage(provider(handle, Prompt(Epic, project).value).thrown);
      Generation(Epic, project, Some(handle), provider, parse, clock)
        == Failure(if Recognised(message) then ClassifyEpicError(message) else FailurePrefix + message)
  {
    var prompt := Prompt(Epic, project).value;
    var message := ThrownMessage(provider(handle, prompt).thrown);
    GenerationAfterPrompt(Epic, project, Some(handle), provider, parse, clock);
    assert Content(Some(handle), provider, prompt) == Failure(FailurePrefix + message);
    assert Attempt(Epic, project.id, Some(handle), provider, prompt, parse, clock) == Failure(FailurePrefix + message);
    PrefixKeepsRecognition(message);
  }

  /** "Unknown error" mentions none of the words the epic generator looks for. */
  lemma UnknownErrorUnrecognised()
    ensures !Recognised(UnknownError)
  {
    MissingCharExcludes(UnknownError, "API key", 'A');
    MissingCharExcludes(UnknownError, "network", 't');
    MissingCharExcludes(UnknownError, "fetch", 'f');
    MissingCharExcludes(UnknownError, "JSON", 'J');
  }

  /** A thrown value that is not an `Error` reaches the caller of an epic
      generation as `Failed to generate content: Unknown error`. */
  lemma EpicThrownValue(project: ProjectNode, handle: ModelHandle, provider: (ModelHandle, string) -> Reply,
                        parse: string -> Result<Json, string>, clock: nat -> nat)
    requires Prompt(Epic, project).Success?
    requires provider(handle, Prompt(Epic, project).value) == Threw(ThrownValue)
    ensures Generation(Epic, project, Some(handle), provider, parse, clock) == Failure(FailurePrefix + UnknownError)
  {
    UnknownErrorUnrecognised();
    EpicProviderFailure(project, handle, provider, parse, clock);
  }

  /** The other generators re-throw a provider failure as `generateContent`
      wrapped it. */
  lemma OtherLevelProviderFailure(level: Level, parent: ProjectNode, handle: ModelHandle,
                                  provider: (ModelHandle, string) -> Reply,
                                  parse: string -> Result<Json, string>, clock: nat -> nat)
    requires level != Epic && Prompt(level, parent).Success?
    requires provider(handle, Prompt(level, parent).value).Threw?
    ensures Generation(level, parent, Some(handle), provider, parse, clock)
      == Failure(FailurePrefix + ThrownMessage(provider(handle, Prompt(level, parent).value).thrown))
  {
  }

  /** When the sanitized reply does not parse, the epic generator classifies
      the parser's message (one mentioning JSON becomes the invalid-format
      message); the others re-throw it unchanged. */
  lemma ParseFailure(level: Level, parent: ProjectNode, handle: ModelHandle, provider: (ModelHandle, string) -> Reply,
                     parse: string -> Result<Json, string>, clock: nat -> nat)
    requires Prompt(level, parent).Success?
    requires provider(handle, Prompt(level, parent).value).Replied?
    requires parse(Cleaned(provider(handle, Prompt(level, parent).value).text, Accepts(parse))).Failure?
    ensures var message := parse(Cleaned(provider(handle, Prompt(level, parent).value).text, Accepts(parse))).error;
      Generation(level, parent, Some(handle), provider, parse, clock)
        == Failure(if level == Epic then ClassifyEpicError(message) else message)
  {
    var prompt := Prompt(level, parent).value;
    var text := provider(handle, prompt).text;
    GenerationAfterPrompt(level, parent, Some(handle), provider, parse, clock);
    assert Content(Some(handle), provider, prompt) == Success(text);
    assert Attempt(level, parent.id, Some(handle), provider, prompt, parse, clock)
      == Failure(parse(Cleaned(text, Accepts(parse))).error);
  }

  /** A character that is none of `A`, `w`, `h` and `J`: each of the
      recognised words holds one of them. */
  predicate NoKeyLetter(c: char) {
    c != 'A' && c != 'w' && c != 'h' && c != 'J'
  }

  /** A message made only of such characters mentions none of the words the
      epic generator looks for. */
  lemma UnrecognisedWithoutLetters(message: string)
    requires forall k :: 0 <= k < |message| ==> NoKeyLetter(message[k])
    ensures !Recognised(message)
  {
    assert 'A' !in message && 'w' !in message && 'h' !in message && 'J' !in message;
    MissingCharExcludes(message, "API key", 'A');
    MissingCharExcludes(message, "network", 'w');
    MissingCharExcludes(message, "fetch", 'h');
    MissingCharExcludes(message, "JSON", 'J');
  }

  /** Reading a property whose name lacks those letters from `null` raises a
      message that mentions none of the words. */
  lemma NullReadUnrecognised(prop: string)
    requires forall k :: 0 <= k < |prop| ==> NoKeyLetter(prop[k])
    ensures !Recognised(NullRead(prop))
  {
    var head, tail := "Cannot read properties" + " of null (reading '", "')";
    assert forall k :: 0 <= k < |head| ==> NoKeyLetter(head[k]);
    assert forall k :: 0 <= k < |tail| ==> NoKeyLetter(tail[k]);
    var m := head + prop + tail;
    assert m == NullRead(prop);
    assert forall k :: 0 <= k < |m| ==> NoKeyLetter(m[k]) by {
      forall k | 0 <= k < |m| ensures NoKeyLetter(m[k]) {
        if k < |head| {
          assert m[k] == head[k];
        } else if k < |head| + |prop| {
          assert m[k] == prop[k - |head|];
        } else {
          assert m[k] == tail[k - |head| - |prop|];
        }
      }
    }
    UnrecognisedWithoutLetters(m);
  }

  /** Calling a non-function whose name lacks those letters raises a message
      that mentions none of the words. */
  lemma NotAFunctionUnrecognised(callee: string)
    requires forall k :: 0 <= k < |callee| ==> NoKeyLetter(callee[k])
    ensures !Recognised(NotAFunction(callee))
  {
    var tail := " is not a function";
    assert forall k :: 0 <= k < |tail| ==> NoKeyLetter(tail[k]);
    var m := callee + tail;
    assert m == NotAFunction(callee);
    assert forall k :: 0 <= k < |m| ==> NoKeyLetter(m[k]) by {
      forall k | 0 <= k < |m| ensures NoKeyLetter(m[k]) {
        if k < |callee| {
          assert m[k] == callee[k];
        } else {
          assert m[k] == tail[k - |callee|];
        }
      }
    }
    UnrecognisedWithoutLetters(m);
  }

  /** Reading `map` or `title` from `null` raises a message with none of the words. */
  lemma NullReadsUnrecognised()
    ensures !Recognised(NullRead("map"))
    ensures !Recognised(NullRead("title"))
  {
    NullReadUnrecognised("map");
    NullReadUnrecognised("title");
  }

  /** The name the mapping calls `map` on holds none of the letters. */
  lemma BatchCalleeQuiet(level: Level)
    ensures var callee := BatchVariable(level) + ".map";
      forall k :: 0 <= k < |callee| ==> NoKeyLetter(callee[k])
  {
    var callee := BatchVariable(level) + ".map";
    match level
    case Epic => assert callee == "epics.map";
    case Feature => assert callee == "features.map";
    case Story => assert callee == "stories.map";
    case Task => assert callee == "tasks.map";
  }

  /** The `TypeError`s of the mapping step mention none of the words the epic
      generator looks for. */
  lemma MappingErrorsUnrecognised(level: Level)
    ensures !Recognised(NullRead("map"))
    ensures !Recognised(NullRead("title"))
    ensures !Recognised(NotAFunction(BatchVariable(level) + ".map"))
  {
    NullReadsUnrecognised();
    BatchCalleeQuiet(level);
    NotAFunctionUnrecognised(BatchVariable(level) + ".map");
  }

  /** A batch that cannot be mapped fails with a message the epic generator
      does not recognise. */
  lemma BatchFailureUnrecognised(level: Level, parsed: Json, parentId: string, clock: nat -> nat)
    requires !(parsed.JArray? && JNull !in parsed.items)
    ensures MapBatch(level, parsed, parentId, clock).Failure?
    ensures !Recognised(MapBatch(level, parsed, parentId, clock).error)
  {
    MappingErrorsUnrecognised(level);
  }

  /** A parsed reply that is not an array of non-null records fails every
      generator, the epic one included, with the mapping's own `TypeError`. */
  lemma MappingFailureUnchanged(level: Level, parent: ProjectNode, handle: ModelHandle,
                                provider: (ModelHandle, string) -> Reply,
                                parse: string -> Result<Json, string>, clock: nat -> nat)
    requires Prompt(level, parent).Success?
    requires provider(handle, Prompt(level, parent).value).Replied?
    requires parse(Cleaned(provider(handle, Prompt(level, parent).value).text, Accepts(parse))).Success?
    requires var parsed := parse(Cleaned(provider(handle, Prompt(level, parent).value).text, Accepts(parse))).value;
      !(parsed.JArray? && JNull !in parsed.items)
    ensures var parsed := parse(Cleaned(provider(handle, Prompt(level, parent).value).text, Accepts(parse))).value;
      Generation(level, parent, Some(handle), provider, parse, clock) == MapBatch(level, parsed, parent.id, clock)
  {
    var prompt := Prompt(level, parent).value;
    var parsed := parse(Cleaned(provider(handle, prompt).text, Accepts(parse))).value;
    var batch := MapBatch(level, parsed, parent.id, clock);
    GenerationAfterPrompt(level, parent, Some(handle), provider, parse, clock);
    assert Content(Some(handle), provider, prompt) == Success(provider(handle, prompt).text);
    assert Attempt(level, parent.id, Some(handle), provider, prompt, parse, clock) == batch;
    BatchFailureUnrecognised(level, parsed, parent.id, clock);
    assert ClassifyEpicError(batch.error) == batch.error;
  }

  /** A successful generation went through every step: the service was
      initialized, the provider replied, the sanitized reply parsed to an
      array, and record `i` of that array became node `i`. */
  lemma GenerationSucceeded(level: Level, parent: ProjectNode, model: Option<ModelHandle>,
                            provider: (ModelHandle, string) -> Reply,
                            parse: string -> Result<Json, string>, clock: nat -> nat)
    requires Generation(level, parent, model, provider, parse, clock).Success?
    ensures model.Some? && Prompt(level, parent).Success?
    ensures provider(model.value, Prompt(level, parent).value).Replied?
    ensures var parsed := parse(Cleaned(provider(model.value, Prompt(level, parent).value).text, Accepts(parse)));
      && parsed.Success? && parsed.value.JArray?
      && Generation(level, parent, model, provider, parse, clock) == MapBatch(level, parsed.value, parent.id, clock)
  {
  }

  /** The nodes of a successful generation are children of the caller's node
      at the generated level, each with no children, and no two share an id. */
  lemma GeneratedBatchShape(level: Level, parent: ProjectNode, model: Option<ModelHandle>,
                            provider: (ModelHandle, string) -> Reply,
                            parse: string -> Result<Json, string>, clock: nat -> nat)
    requires Generation(level, parent, model, provider, parse, clock).Success?
    ensures var nodes := Generation(level, parent, model, provider, parse, clock).value;
      && (forall n | n in nodes :: n.kind == level && n.parentId == Some(parent.id) && n.children == Present([]))
      && (forall i, j :: 0 <= i < j < |nodes| ==> nodes[i].id != nodes[j].id)
  {
    GenerationSucceeded(level, parent, model, provider, parse, clock);
    var parsed := parse(Cleaned(provider(model.value, Prompt(level, parent).value).text, Accepts(parse))).value;
    BatchNodesShape(level, parsed, parent.id, clock);
    BatchIdsDistinct(level, parsed, parent.id, clock);
  }

  /** "API key" is checked first: a message that also mentions the network
      or JSON is still reported as an invalid key. */
  lemma ApiKeyTakesPriority(message: string)
    requires Contains(message, "API key")
    ensures ClassifyEpicError(message) == InvalidApiKey
  {
  }

  /** "network" and "fetch" are checked before "JSON". */
  lemma NetworkBeforeJson(message: string)
    requires !Contains(message, "API key")
    requires Contains(message, "network") || Contains(message, "fetch")
    ensures ClassifyEpicError(message) == NetworkError
  {
  }

  /** A message whose only recognised word is "JSON" is reported as an
      invalid response format. */
  lemma JsonOnlyReportsInvalidFormat(message: string)
    requires !Contains(message, "API key") && !Contains(message, "network") && !Contains(message, "fetch")
    requires Contains(message, "JSON")
    ensures ClassifyEpicError(message) == InvalidFormat
  {
  }

  /** A node whose title is an object with its own `toString` key makes the
      epic generator fail with the conversion `TypeError` before any call,
      initialized or not; the failure is not classified. */
  lemma EpicTitleNotConvertible(project: ProjectNode, members: map<string, Json>, model: Option<ModelHandle>,
                                provider: (ModelHandle, string) -> Reply,
                                parse: string -> Result<Json, string>, clock: nat -> nat)
    requires project.title == Some(JObject(members)) && "toString" in members
    ensures Generation(Epic, project, model, provider, parse, clock) == Failure(CannotConvert)
  {
    assert !FieldConvertible(project.title);
    assert Prompt(Epic, project).Failure?;
  }
}
