/**
 * The provider-independent chat client of ai_client.py: the table of logical
 * model names, its grouping by provider, the four provider adapters and the
 * `chat_completion` facade that dispatches to them.
 *
 * The remote services are not modelled: a `Backend` value stands for them,
 * one total function per provider from the request the adapter sends to the
 * reply the service (or the SDK) gives back. Environment variables are a map.
 */
module AiClient {
  import opened Wrappers
  import opened PyText

  // ---------------------------------------------------------------------
  // Messages, providers and the model table

  datatype Role = System | User | Assistant

  /** One `{"role": ..., "content": ...}` entry of a conversation. */
  datatype Message = Message(role: Role, content: string)

  datatype Provider = OpenAI | Anthropic | OpenRouter | Groq

  /** The provider tag as the table spells it. */
  function ProviderName(p: Provider): string {
    match p
    case OpenAI => "openai"
    case Anthropic => "anthropic"
    case OpenRouter => "openrouter"
    case Groq => "groq"
  }

  /** One row of `model_mappings`: logical name, provider, the provider's own model id. */
  datatype ModelEntry = ModelEntry(name: string, provider: Provider, wire: string)

  /** `model_mappings`, in its declaration (and so iteration) order. */
  const MODEL_MAPPINGS: seq<ModelEntry> := [
    ModelEntry("gpt-4o", OpenAI, "gpt-4o"),
    ModelEntry("gpt-4o-mini", OpenAI, "gpt-4o-mini"),
    ModelEntry("gpt-4", OpenAI, "gpt-4"),
    ModelEntry("gpt-3.5-turbo", OpenAI, "gpt-3.5-turbo"),
    ModelEntry("claude-3.5-sonnet", Anthropic, "claude-3-5-sonnet-20241022"),
    ModelEntry("claude-3-opus", Anthropic, "claude-3-opus-20240229"),
    ModelEntry("claude-3-haiku", Anthropic, "claude-3-haiku-20240307"),
    ModelEntry("gpt-oss-120b", OpenRouter, "openai/gpt-oss-120b"),
    ModelEntry("horizon-beta", OpenRouter, "openrouter/horizon-beta"),
    ModelEntry("claude-opus-4.1", OpenRouter, "anthropic/claude-opus-4.1"),
    ModelEntry("llama-3.1-70b", OpenRouter, "meta-llama/llama-3.1-70b-instruct"),
    ModelEntry("mixtral-8x7b", OpenRouter, "mistralai/mixtral-8x7b-instruct"),
    ModelEntry("gemini-pro", OpenRouter, "google/gemini-pro"),
    ModelEntry("llama-3.1-8b-groq", Groq, "llama-3.1-8b-instant"),
    ModelEntry("llama-3.1-70b-groq", Groq, "llama-3.1-70b-versatile"),
    ModelEntry("llama-3.2-1b-groq", Groq, "llama-3.2-1b-preview"),
    ModelEntry("llama-3.2-3b-groq", Groq, "llama-3.2-3b-preview"),
    ModelEntry("mixtral-8x7b-groq", Groq, "mixtral-8x7b-32768"),
    ModelEntry("gemma-7b-groq", Groq, "gemma-7b-it"),
    ModelEntry("grok-beta", OpenRouter, "x-ai/grok-beta")
  ]

  /** The logical names of a table, in order (`list(model_mappings.keys())`). */
  function Names(table: seq<ModelEntry>): (names: seq<string>)
    ensures |names| == |table|
    ensures forall i :: 0 <= i < |table| ==> names[i] == table[i].name
  {
    if table == [] then [] else [table[0].name] + Names(table[1..])
  }

  ghost predicate NamesDistinct(table: seq<ModelEntry>) {
    forall i, j :: 0 <= i < j < |table| ==> table[i].name != table[j].name
  }

  /** The entry a table holds for `name` (the first one, should there be several). */
  function Find(table: seq<ModelEntry>, name: string): (r: Option<ModelEntry>)
    ensures r.Some? <==> name in Names(table)
    ensures r.Some? ==> r.value in table && r.value.name == name
  {
    if table == [] then None
    else if table[0].name == name then Some(table[0])
    else Find(table[1..], name)
  }

  /** In a table without repeated names, each entry is what its own name finds. */
  lemma {:induction false} FindEntry(table: seq<ModelEntry>, i: nat)
    requires NamesDistinct(table)
    requires i < |table|
    ensures Find(table, table[i].name) == Some(table[i])
  {
    if i > 0 {
      assert table[0].name != table[i].name;
      assert table[1..][i - 1] == table[i];
      FindEntry(table[1..], i - 1);
    }
  }

  /** The source's table names every model once, so each entry is what its name finds. */
  lemma ModelMappingsDistinct()
    ensures NamesDistinct(MODEL_MAPPINGS)
  {
  }

  /** `model in self.model_mappings`. */
  predicate IsSupported(table: seq<ModelEntry>, model: string) {
    model in Names(table)
  }

  // ---------------------------------------------------------------------
  // get_available_models

  /** The five lists of `get_available_models`: one per provider, plus "grok". */
  datatype BucketKey = ProviderBucket(provider: Provider) | GrokBucket

  /** The dictionary key of a bucket. */
  function KeyName(k: BucketKey): (name: string)
    ensures name in {"openai", "anthropic", "openrouter", "groq", "grok"}
  {
    match k
    case ProviderBucket(p) => ProviderName(p)
    case GrokBucket => "grok"
  }

  lemma KeyNameInjective(j: BucketKey, k: BucketKey)
    ensures KeyName(j) == KeyName(k) ==> j == k
  {
  }

  /** The bucket a table entry is appended to by `get_available_models`. */
  function Bucket(e: ModelEntry): (k: BucketKey)
    ensures k == GrokBucket <==> e.provider == OpenRouter && Contains(e.name, "grok")
    ensures k.ProviderBucket? ==> k.provider == e.provider
  {
    if e.provider == OpenRouter && Contains(e.name, "grok") then GrokBucket else ProviderBucket(e.provider)
  }

  /** The names of `table` that fall into bucket `key`, in table order. */
  function Grouped(table: seq<ModelEntry>, key: BucketKey): seq<string> {
    if table == [] then []
    else
      var last := table[|table| - 1];
      Grouped(table[..|table| - 1], key) + (if Bucket(last) == key then [last.name] else [])
  }

  /** Grouping distributes over concatenation: every bucket keeps table order. */
  lemma {:induction false} GroupedAppend(t1: seq<ModelEntry>, t2: seq<ModelEntry>, key: BucketKey)
    ensures Grouped(t1 + t2, key) == Grouped(t1, key) + Grouped(t2, key)
    decreases |t2|
  {
    if t2 == [] {
      assert t1 + t2 == t1;
    } else {
      GroupedAppend(t1, t2[..|t2| - 1], key);
      assert (t1 + t2)[..|t1 + t2| - 1] == t1 + t2[..|t2| - 1];
    }
  }

  /** The five buckets together hold as many names as the table has entries. */
  lemma {:induction false} GroupedSizes(table: seq<ModelEntry>)
    ensures |Grouped(table, ProviderBucket(OpenAI))| + |Grouped(table, ProviderBucket(Anthropic))|
          + |Grouped(table, ProviderBucket(OpenRouter))| + |Grouped(table, ProviderBucket(Groq))|
          + |Grouped(table, GrokBucket)| == |table|
  {
    if table != [] {
      GroupedSizes(table[..|table| - 1]);
    }
  }

  /** A name is in bucket `key` exactly when some entry with that name belongs to `key`. */
  lemma {:induction false} GroupedMembers(table: seq<ModelEntry>, key: BucketKey, name: string)
    ensures name in Grouped(table, key)
        <==> exists i :: 0 <= i < |table| && table[i].name == name && Bucket(table[i]) == key
  {
    if table != [] {
      var init := table[..|table| - 1];
      var last := table[|table| - 1];
      GroupedMembers(init, key, name);
      if name in Grouped(table, key) {
        if name in Grouped(init, key) {
          var i :| 0 <= i < |init| && init[i].name == name && Bucket(init[i]) == key;
          assert table[i] == init[i];
        } else {
          assert table[|table| - 1] == last;
        }
      }
      if exists i :: 0 <= i < |table| && table[i].name == name && Bucket(table[i]) == key {
        var i :| 0 <= i < |table| && table[i].name == name && Bucket(table[i]) == key;
        if i < |table| - 1 {
          assert init[i] == table[i];
        }
      }
    }
  }

  /** With distinct names, every entry's name is in its own bucket and in no other. */
  lemma ExactlyOneBucket(table: seq<ModelEntry>, i: nat, key: BucketKey)
    requires NamesDistinct(table)
    requires i < |table|
    ensures table[i].name in Grouped(table, key) <==> key == Bucket(table[i])
  {
    GroupedMembers(table, key, table[i].name);
  }

  /**
   * On the source's own table, `get_available_models` partitions the twenty
   * names: each lies in exactly its own list, and the lists hold twenty names.
   */
  lemma ModelMappingsPartition(i: nat, key: BucketKey)
    requires i < |MODEL_MAPPINGS|
    ensures MODEL_MAPPINGS[i].name in Grouped(MODEL_MAPPINGS, key) <==> key == Bucket(MODEL_MAPPINGS[i])
    ensures |Grouped(MODEL_MAPPINGS, ProviderBucket(OpenAI))| + |Grouped(MODEL_MAPPINGS, ProviderBucket(Anthropic))|
          + |Grouped(MODEL_MAPPINGS, ProviderBucket(OpenRouter))| + |Grouped(MODEL_MAPPINGS, ProviderBucket(Groq))|
          + |Grouped(MODEL_MAPPINGS, GrokBucket)| == 20
  {
    ModelMappingsDistinct();
    ExactlyOneBucket(MODEL_MAPPINGS, i, key);
    GroupedSizes(MODEL_MAPPINGS);
  }

  // ---------------------------------------------------------------------
  // What the providers are sent and what they answer

  /** The normalised answer every adapter returns (`AIResponse`). */
  datatype AIResponse = AIResponse(content: string, model: string, provider: string, tokensUsed: Option<nat>)

  /** The arguments of an OpenAI-style chat completion (also the JSON body of the HTTP bridges). */
  datatype ChatRequest = ChatRequest(apiKey: string, model: string, messages: seq<Message>, temperature: real, maxTokens: int)

  /** The arguments of `messages.create` on the Anthropic SDK. */
  datatype ClaudeRequest = ClaudeRequest(apiKey: string, model: string, maxTokens: int, temperature: real, system: string, messages: seq<Message>)

  /** What the OpenAI SDK returns: the choices' message contents and `usage.total_tokens` if usage is present; or what it raised. */
  datatype OpenAIReply = Completion(choices: seq<string>, totalTokens: Option<nat>) | OpenAIRaised(message: string)

  /** What the Anthropic SDK returns: the content blocks' texts and the two token counts; or what it raised. */
  datatype ClaudeReply = ClaudeMessage(texts: seq<string>, inputTokens: nat, outputTokens: nat) | ClaudeRaised(message: string)

  datatype Usage = Usage(totalTokens: Option<nat>)

  /** A JSON body with a `choices` list (each entry's `message.content`) and an optional `usage` object; or the error reading it raised. */
  datatype ChatJson = ChatJson(choices: seq<string>, usage: Option<Usage>) | JsonRaised(message: string)

  /** What `requests.post` returns (status, text and the parsed body), or what it raised. */
  datatype HttpReply = HttpResponse(status: nat, text: string, json: ChatJson) | HttpRaised(message: string)

  /** The four remote services. */
  datatype Backend = Backend(
    openai: ChatRequest -> OpenAIReply,
    anthropic: ClaudeRequest -> ClaudeReply,
    openrouter: ChatRequest -> HttpReply,
    groq: ChatRequest -> HttpReply)

  /** The message of Python's `IndexError` for `[][0]`. */
  const INDEX_ERROR: string := "list index out of range"

  /** `os.getenv(variable)` when it is set to a non-empty value (the source treats "" as unset). */
  function EnvKey(env: map<string, string>, variable: string): Option<string> {
    if variable in env && env[variable] != "" then Some(env[variable]) else None
  }

  // ---------------------------------------------------------------------
  // The adapters' pure reshaping

  /** `_openai_completion` after the call: first choice's content, total tokens if usage is there. */
  function FromOpenAI(wire: string, reply: OpenAIReply): (r: Result<AIResponse, string>)
    ensures r.Success? <==> reply.Completion? && reply.choices != []
    ensures r.Success? ==> r.value == AIResponse(reply.choices[0], wire, "openai", reply.totalTokens)
    ensures reply.Completion? && reply.choices == [] ==> r == Failure(INDEX_ERROR)
    ensures reply.OpenAIRaised? ==> r == Failure(reply.message)
  {
    match reply
    case OpenAIRaised(message) => Failure(message)
    case Completion(choices, totalTokens) =>
      if choices == [] then Failure(INDEX_ERROR)
      else Success(AIResponse(choices[0], wire, "openai", totalTokens))
  }

  /** The messages without the system-role ones, in their original order. */
  function NonSystem(messages: seq<Message>): (turns: seq<Message>)
    ensures forall k :: 0 <= k < |turns| ==> turns[k].role != System
  {
    if messages == [] then []
    else
      var last := messages[|messages| - 1];
      NonSystem(messages[..|messages| - 1]) + (if last.role == System then [] else [last])
  }

  /** The content of the last system-role message, or "" when there is none. */
  function LastSystemContent(messages: seq<Message>): string {
    if messages == [] then ""
    else if messages[|messages| - 1].role == System then messages[|messages| - 1].content
    else LastSystemContent(messages[..|messages| - 1])
  }

  /** The `system` field is "" without a system message, else the content of the last one. */
  lemma {:induction false} LastSystemContentIsLast(messages: seq<Message>, i: nat)
    requires i < |messages| && messages[i].role == System
    requires forall j :: i < j < |messages| ==> messages[j].role != System
    ensures LastSystemContent(messages) == messages[i].content
  {
    if i < |messages| - 1 {
      LastSystemContentIsLast(messages[..|messages| - 1], i);
    }
  }

  lemma {:induction false} LastSystemContentWithoutSystem(messages: seq<Message>)
    requires forall j :: 0 <= j < |messages| ==> messages[j].role != System
    ensures LastSystemContent(messages) == ""
  {
    if messages != [] {
      LastSystemContentWithoutSystem(messages[..|messages| - 1]);
    }
  }

  /** The Anthropic conversion loop: system messages go to `system` (the last one wins), the rest to the turn list. */
  method ConvertMessages(messages: seq<Message>) returns (system: string, turns: seq<Message>)
    ensures system == LastSystemContent(messages)
    ensures turns == NonSystem(messages)
  {
    system := "";
    turns := [];
    for i := 0 to |messages|
      invariant system == LastSystemContent(messages[..i])
      invariant turns == NonSystem(messages[..i])
    {
      assert messages[..i + 1][..i] == messages[..i];
      if messages[i].role == System {
        system := messages[i].content;
      } else {
        turns := turns + [messages[i]];
      }
    }
    assert messages[..|messages|] == messages;
  }

  /** Filtering distributes over concatenation, so it keeps the order of what it keeps. */
  lemma {:induction false} NonSystemAppend(a: seq<Message>, b: seq<Message>)
    ensures NonSystem(a + b) == NonSystem(a) + NonSystem(b)
    decreases |b|
  {
    if b != [] {
      var init := b[..|b| - 1];
      var last := b[|b| - 1];
      var whole := a + b;
      assert whole[..|whole| - 1] == a + init;
      assert whole[|whole| - 1] == last;
      var tail := if last.role == System then [] else [last];
      NonSystemAppend(a, init);
      assert NonSystem(a) + NonSystem(init) + tail == NonSystem(a) + (NonSystem(init) + tail);
    } else {
      assert a + b == a;
    }
  }

  /** A list without system messages passes the filter unchanged. */
  lemma {:induction false} NonSystemKeepsTurns(messages: seq<Message>)
    requires forall i :: 0 <= i < |messages| ==> messages[i].role != System
    ensures NonSystem(messages) == messages
  {
    if messages != [] {
      NonSystemKeepsTurns(messages[..|messages| - 1]);
      assert messages[..|messages| - 1] + [messages[|messages| - 1]] == messages;
    }
  }

  /** `_anthropic_completion` after the call: first block's text, input plus output tokens. */
  function FromClaude(wire: string, reply: ClaudeReply): (r: Result<AIResponse, string>)
    ensures r.Success? <==> reply.ClaudeMessage? && reply.texts != []
    ensures r.Success? ==> r.value.content == reply.texts[0] && r.value.model == wire && r.value.provider == "anthropic"
    ensures r.Success? ==> r.value.tokensUsed == Some(reply.inputTokens + reply.outputTokens)
    ensures reply.ClaudeMessage? && reply.texts == [] ==> r == Failure(INDEX_ERROR)
    ensures reply.ClaudeRaised? ==> r == Failure(reply.message)
  {
    match reply
    case ClaudeRaised(message) => Failure(message)
    case ClaudeMessage(texts, inputTokens, outputTokens) =>
      if texts == [] then Failure(INDEX_ERROR)
      else Success(AIResponse(texts[0], wire, "anthropic", Some(inputTokens + outputTokens)))
  }

  /** The constants that tell the two HTTP bridges apart. */
  datatype Bridge = Bridge(name: string, provider: Provider, keyVariable: string)

  const OPENROUTER_BRIDGE: Bridge := Bridge("OpenRouter", OpenRouter, "OPENROUTER_API_KEY")
  const GROQ_BRIDGE: Bridge := Bridge("Groq", Groq, "GROQ_API_KEY")

  /** The reply of an HTTP bridge: status 200 required, content of the first choice, `usage.total_tokens` if present. */
  function FromBridge(b: Bridge, wire: string, reply: HttpReply): (r: Result<AIResponse, string>)
    ensures reply.HttpResponse? && reply.status != 200
            ==> r == Failure(b.name + " API error: " + NatToString(reply.status) + " - " + reply.text)
    ensures r.Success? <==> reply.HttpResponse? && reply.status == 200 && reply.json.ChatJson? && reply.json.choices != []
    ensures r.Success? ==> r.value.content == reply.json.choices[0]
    ensures r.Success? ==> r.value.model == wire && r.value.provider == ProviderName(b.provider)
    ensures r.Success? ==> r.value.tokensUsed == (if reply.json.usage.Some? then reply.json.usage.value.totalTokens else None)
    ensures reply.HttpRaised? ==> r == Failure(reply.message)
    ensures reply.HttpResponse? && reply.status == 200 && reply.json.JsonRaised? ==> r == Failure(reply.json.message)
    ensures reply.HttpResponse? && reply.status == 200 && reply.json.ChatJson? && reply.json.choices == []
            ==> r == Failure(INDEX_ERROR)
  {
    match reply
    case HttpRaised(message) => Failure(message)
    case HttpResponse(status, text, json) =>
      if status != 200 then Failure(b.name + " API error: " + NatToString(status) + " - " + text)
      else match json
        case JsonRaised(message) => Failure(message)
        case ChatJson(choices, usage) =>
          if choices == [] then Failure(INDEX_ERROR)
          else Success(AIResponse(choices[0], wire, ProviderName(b.provider), if usage.Some? then usage.value.totalTokens else None))
  }

  /** A rejected HTTP reply names its status code and repeats the body text. */
  lemma BridgeErrorCarriesStatus(b: Bridge, wire: string, reply: HttpReply)
    requires reply.HttpResponse? && reply.status != 200
    ensures FromBridge(b, wire, reply).Failure?
    ensures Contains(FromBridge(b, wire, reply).error, NatToString(reply.status))
    ensures Contains(FromBridge(b, wire, reply).error, reply.text)
  {
    var status := NatToString(reply.status);
    assert b.name + " API error: " + status + " - " + reply.text
        == (b.name + " API error: ") + status + (" - " + reply.text);
    ContainsMiddle(b.name + " API error: ", status, " - " + reply.text);
    assert b.name + " API error: " + status + " - " + reply.text
        == (b.name + " API error: " + status + " - ") + reply.text + "";
    ContainsMiddle(b.name + " API error: " + status + " - ", reply.text, "");
  }

  /** `_openrouter_completion` and `_groq_completion`: the key is read from the environment on every call. */
  function BridgeCompletion(b: Bridge, wire: string, messages: seq<Message>, temperature: real, maxTokens: int,
                            env: map<string, string>, call: ChatRequest -> HttpReply): (r: Result<AIResponse, string>)
    ensures EnvKey(env, b.keyVariable).None? ==> r == Failure(b.name + " API key not configured")
    ensures EnvKey(env, b.keyVariable).Some?
            ==> r == FromBridge(b, wire, call(ChatRequest(EnvKey(env, b.keyVariable).value, wire, messages, temperature, maxTokens)))
    ensures r.Success? ==> r.value.model == wire && r.value.provider == ProviderName(b.provider)
  {
    match EnvKey(env, b.keyVariable)
    case None => Failure(b.name + " API key not configured")
    case Some(key) => FromBridge(b, wire, call(ChatRequest(key, wire, messages, temperature, maxTokens)))
  }

  // ---------------------------------------------------------------------
  // The lazily built SDK clients and the facade

  /** An SDK client object, known by the key it was built with. */
  datatype SdkClient = SdkClient(apiKey: string)

  /** The `openai_client` and `anthropic_client` fields. */
  datatype Clients = Clients(openai: Option<SdkClient>, anthropic: Option<SdkClient>)

  const OPENAI_KEY_VARIABLE: string := "OPENAI_API_KEY"
  const ANTHROPIC_KEY_VARIABLE: string := "ANTHROPIC_API_KEY"

  /** The client an SDK adapter uses: the cached one, else one built from the environment, else none. */
  function ClientFor(cached: Option<SdkClient>, env: map<string, string>, variable: string): (c: Option<SdkClient>)
    ensures cached.Some? ==> c == cached
    ensures cached.None? ==> (c.Some? <==> EnvKey(env, variable).Some?)
    ensures cached.None? && c.Some? ==> c.value.apiKey == env[variable]
  {
    if cached.Some? then cached
    else match EnvKey(env, variable)
      case None => None
      case Some(key) => Some(SdkClient(key))
  }

  /** What the adapter for `p` returns for one call, given the clients cached before it. */
  function AdapterResult(p: Provider, wire: string, messages: seq<Message>, temperature: real, maxTokens: int,
                         env: map<string, string>, cache: Clients, net: Backend): (r: Result<AIResponse, string>)
    ensures r.Success? ==> r.value.model == wire && r.value.provider == ProviderName(p)
    ensures p == OpenAI && ClientFor(cache.openai, env, OPENAI_KEY_VARIABLE).None?
            ==> r == Failure("OpenAI API key not configured")
    ensures p == OpenAI && ClientFor(cache.openai, env, OPENAI_KEY_VARIABLE).Some?
            ==> var client := ClientFor(cache.openai, env, OPENAI_KEY_VARIABLE).value;
                r == FromOpenAI(wire, net.openai(ChatRequest(client.apiKey, wire, messages, temperature, maxTokens)))
    ensures p == Anthropic && ClientFor(cache.anthropic, env, ANTHROPIC_KEY_VARIABLE).None?
            ==> r == Failure("Anthropic API key not configured")
    ensures p == Anthropic && ClientFor(cache.anthropic, env, ANTHROPIC_KEY_VARIABLE).Some?
            ==> var client := ClientFor(cache.anthropic, env, ANTHROPIC_KEY_VARIABLE).value;
                r == FromClaude(wire, net.anthropic(ClaudeRequest(client.apiKey, wire, maxTokens, temperature,
                                                                  LastSystemContent(messages), NonSystem(messages))))
    ensures p == OpenRouter ==> r == BridgeCompletion(OPENROUTER_BRIDGE, wire, messages, temperature, maxTokens, env, net.openrouter)
    ensures p == Groq ==> r == BridgeCompletion(GROQ_BRIDGE, wire, messages, temperature, maxTokens, env, net.groq)
  {
    match p
    case OpenAI =>
      (match ClientFor(cache.openai, env, OPENAI_KEY_VARIABLE)
       case None => Failure("OpenAI API key not configured")
       case Some(client) => FromOpenAI(wire, net.openai(ChatRequest(client.apiKey, wire, messages, temperature, maxTokens))))
    case Anthropic =>
      (match ClientFor(cache.anthropic, env, ANTHROPIC_KEY_VARIABLE)
       case None => Failure("Anthropic API key not configured")
       case Some(client) =>
         FromClaude(wire, net.anthropic(ClaudeRequest(client.apiKey, wire, maxTokens, temperature,
                                                      LastSystemContent(messages), NonSystem(messages)))))
    case OpenRouter => BridgeCompletion(OPENROUTER_BRIDGE, wire, messages, temperature, maxTokens, env, net.openrouter)
    case Groq => BridgeCompletion(GROQ_BRIDGE, wire, messages, temperature, maxTokens, env, net.groq)
  }

  /** The cached clients after one call of the adapter for `p`: an SDK client is built on first use if its key is set. */
  function CacheAfter(p: Provider, env: map<string, string>, cache: Clients): Clients {
    match p
    case OpenAI => cache.(openai := ClientFor(cache.openai, env, OPENAI_KEY_VARIABLE))
    case Anthropic => cache.(anthropic := ClientFor(cache.anthropic, env, ANTHROPIC_KEY_VARIABLE))
    case OpenRouter => cache
    case Groq => cache
  }

  /** The two errors `chat_completion` raises. */
  datatype ClientError =
    | NotSupported(requested: string, available: seq<string>)
    | ProviderFailed(provider: string, model: string, cause: string)
  {
    /** `str(e)` of the raised exception. */
    function Text(): (t: string)
      ensures ProviderFailed? ==> "Error with " + provider + " (" + model + "): " <= t
      ensures ProviderFailed? ==> t[|"Error with " + provider + " (" + model + "): "|..] == cause
      ensures NotSupported? ==> "Model '" + requested + "' not supported. Available models: " <= t
      ensures NotSupported? ==> t[|"Model '" + requested + "' not supported. Available models: "|..] == ListRepr(available)
    {
      match this
      case NotSupported(requested, available) =>
        "Model '" + requested + "' not supported. Available models: " + ListRepr(available)
      case ProviderFailed(provider, model, cause) => "Error with " + provider + " (" + model + "): " + cause
    }
  }

  /** Python's `repr` of a list of strings that contain no quote characters. */
  function ListRepr(items: seq<string>): string {
    "[" + ItemsRepr(items) + "]"
  }

  function ItemsRepr(items: seq<string>): string {
    if items == [] then ""
    else if |items| == 1 then "'" + items[0] + "'"
    else "'" + items[0] + "', " + ItemsRepr(items[1..])
  }

  /**
   * `chat_completion`: an unknown name is rejected before any adapter runs;
   * otherwise the adapter of the entry's provider is given the entry's wire id,
   * and whatever it raises comes back tagged with the provider and the logical name.
   */
  function Complete(table: seq<ModelEntry>, model: string, messages: seq<Message>, temperature: real, maxTokens: int,
                    env: map<string, string>, cache: Clients, net: Backend): (r: Result<AIResponse, ClientError>)
    ensures !IsSupported(table, model) ==> r == Failure(NotSupported(model, Names(table)))
    ensures IsSupported(table, model) && r.Success?
            ==> r.value.model == Find(table, model).value.wire
                && r.value.provider == ProviderName(Find(table, model).value.provider)
    ensures IsSupported(table, model) && r.Failure?
            ==> r.error.ProviderFailed? && r.error.model == model
                && r.error.provider == ProviderName(Find(table, model).value.provider)
    ensures IsSupported(table, model)
            ==> var e := Find(table, model).value;
                var a := AdapterResult(e.provider, e.wire, messages, temperature, maxTokens, env, cache, net);
                r == if a.Success? then Success(a.value) else Failure(ProviderFailed(ProviderName(e.provider), model, a.error))
  {
    match Find(table, model)
    case None => Failure(NotSupported(model, Names(table)))
    case Some(entry) =>
      match AdapterResult(entry.provider, entry.wire, messages, temperature, maxTokens, env, cache, net)
      case Success(response) => Success(response)
      case Failure(cause) => Failure(ProviderFailed(ProviderName(entry.provider), model, cause))
  }

  /**
   * An HTTP bridge's rejection reaches the caller of `chat_completion` wrapped
   * with the provider and the logical name, still carrying the status and the body.
   */
  lemma RejectedRequestSurfaces(table: seq<ModelEntry>, model: string, messages: seq<Message>, temperature: real,
                                maxTokens: int, env: map<string, string>, cache: Clients, net: Backend, text: string, json: ChatJson)
    requires IsSupported(table, model) && Find(table, model).value.provider == OpenRouter
    requires EnvKey(env, OPENROUTER_BRIDGE.keyVariable).Some?
    requires net.openrouter(ChatRequest(EnvKey(env, OPENROUTER_BRIDGE.keyVariable).value, Find(table, model).value.wire,
                                        messages, temperature, maxTokens)) == HttpResponse(429, text, json)
    ensures Complete(table, model, messages, temperature, maxTokens, env, cache, net)
         == Failure(ProviderFailed("openrouter", model, "OpenRouter" + " API error: " + "429" + " - " + text))
    ensures Contains(Complete(table, model, messages, temperature, maxTokens, env, cache, net).error.cause, "429")
    ensures Contains(Complete(table, model, messages, temperature, maxTokens, env, cache, net).error.cause, text)
  {
    var wire := Find(table, model).value.wire;
    var reply := HttpResponse(429, text, json);
    var adapted := AdapterResult(OpenRouter, wire, messages, temperature, maxTokens, env, cache, net);
    assert adapted == FromBridge(OPENROUTER_BRIDGE, wire, reply);
    BridgeErrorCarriesStatus(OPENROUTER_BRIDGE, wire, reply);
    StatusText429();
  }

  lemma StatusText429()
    ensures NatToString(429) == "429"
  {
    assert NatToString(4) == "4";
    assert NatToString(42) == "42";
  }

  /** The cached clients after one `chat_completion` call. */
  function CacheAfterCall(table: seq<ModelEntry>, model: string, env: map<string, string>, cache: Clients): Clients {
    match Find(table, model)
    case None => cache
    case Some(entry) => CacheAfter(entry.provider, env, cache)
  }

  /** One `chat_completion` call, as far as the client cache is concerned. */
  datatype Call = Call(model: string, env: map<string, string>)

  function CacheAfterCalls(table: seq<ModelEntry>, cache: Clients, calls: seq<Call>): Clients
    decreases |calls|
  {
    if calls == [] then cache else CacheAfterCalls(table, CacheAfterCall(table, calls[0].model, calls[0].env, cache), calls[1..])
  }

  /** An SDK client, once built, is kept for every later call: it is built at most once. */
  lemma {:induction false} ClientsBuiltOnce(table: seq<ModelEntry>, cache: Clients, calls: seq<Call>)
    ensures cache.openai.Some? ==> CacheAfterCalls(table, cache, calls).openai == cache.openai
    ensures cache.anthropic.Some? ==> CacheAfterCalls(table, cache, calls).anthropic == cache.anthropic
    decreases |calls|
  {
    if calls != [] {
      ClientsBuiltOnce(table, CacheAfterCall(table, calls[0].model, calls[0].env, cache), calls[1..]);
    }
  }

  /** Calls that never reach the OpenAI adapter leave its slot empty: its key is read on first use only. */
  lemma {:induction false} OpenAIClientBuiltOnlyWhenUsed(table: seq<ModelEntry>, cache: Clients, calls: seq<Call>)
    requires cache.openai.None?
    requires forall k :: 0 <= k < |calls| ==> Find(table, calls[k].model).None? || Find(table, calls[k].model).value.provider != OpenAI
    ensures CacheAfterCalls(table, cache, calls).openai.None?
    decreases |calls|
  {
    if calls != [] {
      OpenAIClientBuiltOnlyWhenUsed(table, CacheAfterCall(table, calls[0].model, calls[0].env, cache), calls[1..]);
    }
  }

  /** With the OpenAI client cached, the environment no longer matters to an OpenAI call. */
  lemma CachedClientIgnoresEnvironment(table: seq<ModelEntry>, model: string, messages: seq<Message>, temperature: real,
                                       maxTokens: int, env1: map<string, string>, env2: map<string, string>,
                                       cache: Clients, net: Backend)
    requires IsSupported(table, model) && Find(table, model).value.provider == OpenAI
    requires cache.openai.Some?
    ensures Complete(table, model, messages, temperature, maxTokens, env1, cache, net)
         == Complete(table, model, messages, temperature, maxTokens, env2, cache, net)
    ensures CacheAfterCall(table, model, env1, cache) == cache
  {
  }

  /** A missing OpenAI key fails the call and caches nothing, so the next call reads the key again. */
  lemma MissingKeyCachesNothing(table: seq<ModelEntry>, model: string, messages: seq<Message>, temperature: real,
                                maxTokens: int, env: map<string, string>, cache: Clients, net: Backend)
    requires IsSupported(table, model) && Find(table, model).value.provider == OpenAI
    requires cache.openai.None? && EnvKey(env, OPENAI_KEY_VARIABLE).None?
    ensures Complete(table, model, messages, temperature, maxTokens, env, cache, net)
         == Failure(ProviderFailed("openai", model, "OpenAI API key not configured"))
    ensures CacheAfterCall(table, model, env, cache) == cache
  {
  }

  // ---------------------------------------------------------------------
  // UniversalAIClient

  class UniversalAIClient {
    /** `self.model_mappings`, fixed at construction. */
    const modelMappings: seq<ModelEntry>
    var openaiClient: Option<SdkClient>
    var anthropicClient: Option<SdkClient>

    function Cache(): Clients
      reads this
    {
      Clients(openaiClient, anthropicClient)
    }

    /** No client is built at construction time. */
    constructor ()
      ensures modelMappings == MODEL_MAPPINGS
      ensures Cache() == Clients(None, None)
    {
      modelMappings := MODEL_MAPPINGS;
      openaiClient := None;
      anthropicClient := None;
    }

    method OpenAICompletion(wire: string, messages: seq<Message>, temperature: real, maxTokens: int,
                            env: map<string, string>, net: Backend) returns (r: Result<AIResponse, string>)
      modifies this
      ensures r == AdapterResult(OpenAI, wire, messages, temperature, maxTokens, env, old(Cache()), net)
      ensures Cache() == CacheAfter(OpenAI, env, old(Cache()))
    {
      if openaiClient.None? {
        var key := EnvKey(env, OPENAI_KEY_VARIABLE);
        if key.None? {
          return Failure("OpenAI API key not configured");
        }
        openaiClient := Some(SdkClient(key.value));
      }
      var reply := net.openai(ChatRequest(openaiClient.value.apiKey, wire, messages, temperature, maxTokens));
      r := FromOpenAI(wire, reply);
    }

    method AnthropicCompletion(wire: string, messages: seq<Message>, temperature: real, maxTokens: int,
                               env: map<string, string>, net: Backend) returns (r: Result<AIResponse, string>)
      modifies this
      ensures r == AdapterResult(Anthropic, wire, messages, temperature, maxTokens, env, old(Cache()), net)
      ensures Cache() == CacheAfter(Anthropic, env, old(Cache()))
    {
      if anthropicClient.None? {
        var key := EnvKey(env, ANTHROPIC_KEY_VARIABLE);
        if key.None? {
          return Failure("Anthropic API key not configured");
        }
        anthropicClient := Some(SdkClient(key.value));
      }
      var system, turns := ConvertMessages(messages);
      var reply := net.anthropic(ClaudeRequest(anthropicClient.value.apiKey, wire, maxTokens, temperature, system, turns));
      r := FromClaude(wire, reply);
    }

    /** `get_available_models`: the table's names grouped into the five lists. */
    method GetAvailableModels() returns (models: map<string, seq<string>>)
      ensures models.Keys == {"openai", "anthropic", "openrouter", "groq", "grok"}
      ensures forall key :: models[KeyName(key)] == Grouped(modelMappings, key)
    {
      models := map["openai" := [], "anthropic" := [], "openrouter" := [], "groq" := [], "grok" := []];
      var i := 0;
      while i < |modelMappings|
        invariant 0 <= i <= |modelMappings|
        invariant models.Keys == {"openai", "anthropic", "openrouter", "groq", "grok"}
        invariant forall key :: models[KeyName(key)] == Grouped(modelMappings[..i], key)
      {
        var entry := modelMappings[i];
        var provider := ProviderName(entry.provider);
        assert modelMappings[..i + 1][..i] == modelMappings[..i];
        if entry.provider == OpenRouter && Contains(entry.name, "grok") {
          models := models["grok" := models["grok"] + [entry.name]];
        } else {
          models := models[provider := models[provider] + [entry.name]];
        }
        forall key
          ensures models[KeyName(key)] == Grouped(modelMappings[..i + 1], key)
        {
          KeyNameInjective(key, Bucket(entry));
        }
        i := i + 1;
      }
      assert modelMappings[..i] == modelMappings;
    }

    /** `chat_completion`. */
    method ChatCompletion(model: string, messages: seq<Message>, temperature: real, maxTokens: int,
                          env: map<string, string>, net: Backend) returns (r: Result<AIResponse, ClientError>)
      modifies this
      ensures r == Complete(modelMappings, model, messages, temperature, maxTokens, env, old(Cache()), net)
      ensures Cache() == CacheAfterCall(modelMappings, model, env, old(Cache()))
    {
      var found := Find(modelMappings, model);
      if found.None? {
        return Failure(NotSupported(model, Names(modelMappings)));
      }
      var entry := found.value;
      var outcome: Result<AIResponse, string>;
      match entry.provider {
        case OpenAI =>
          outcome := OpenAICompletion(entry.wire, messages, temperature, maxTokens, env, net);
        case Anthropic =>
          outcome := AnthropicCompletion(entry.wire, messages, temperature, maxTokens, env, net);
        case OpenRouter =>
          outcome := BridgeCompletion(OPENROUTER_BRIDGE, entry.wire, messages, temperature, maxTokens, env, net.openrouter);
        case Groq =>
          outcome := BridgeCompletion(GROQ_BRIDGE, entry.wire, messages, temperature, maxTokens, env, net.groq);
      }
      match outcome {
        case Success(response) => r := Success(response);
        case Failure(cause) => r := Failure(ProviderFailed(ProviderName(entry.provider), model, cause));
      }
    }
  }
}
