/**
 * The per-channel state machine of discord_bot.py: conversation buffers,
 * characters, the active character of each channel, the last reply of each
 * channel and the saved system prompts, and the commands that change them.
 *
 * `State` is the five dictionaries as one value and every command is a
 * transition function on it; `Bot` holds the same five dictionaries as fields
 * and performs each command in place, its contract tying the new fields to
 * the transition. Discord itself (events, `ctx.send`, embeds) is not
 * modelled: a command returns an outcome value saying what it would report.
 */
module DiscordBot {
  import opened Wrappers
  import opened PyText
  import opened AiClient

  type ChannelId = nat

  /** The character every channel falls back to. */
  const DEFAULT_ID: string := "default"

  /** The retention rule keeps the system message and this many turns. */
  const KEPT_TURNS: nat := 20
  const MAX_HISTORY: nat := 1 + KEPT_TURNS

  /** Discord's limit on the length of one message. */
  const DISCORD_LIMIT: nat := 2000

  /** How much of the last reply a follow-up or continuation prompt quotes. */
  const QUOTE_LIMIT: nat := 200

  datatype Character = Character(name: string, description: string, systemPrompt: string,
                                 temperature: real, maxTokens: int, model: string)

  const PRESET_PROMPTS: map<string, string> := map[
    "default" := "You are a helpful Discord bot assistant. Keep responses concise and friendly.",
    "coding" := "You are a helpful coding assistant who specializes in programming and software development. Provide clear, practical solutions and explanations.",
    "creative" := "You are a creative writing assistant who helps with storytelling, character development, and creative projects. Be imaginative and inspiring.",
    "tutor" := "You are a friendly tutor who explains complex topics in simple, easy-to-understand terms. Be patient and encouraging.",
    "pirate" := "You are a friendly pirate who speaks in pirate language. Use 'ahoy', 'matey', and other pirate expressions while being helpful.",
    "professional" := "You are a professional business assistant. Provide formal, well-structured responses suitable for workplace communication.",
    "casual" := "You are a casual, friendly chat buddy. Use a relaxed, conversational tone and feel free to use emojis and informal language.",
    "scientist" := "You are a knowledgeable scientist who explains things with precision and uses scientific terminology when appropriate."
  ]

  const DEFAULT_CHARACTERS: map<string, Character> := map[
    "default" := Character("Assistant", "A helpful and friendly AI assistant",
      "You are a helpful Discord bot assistant. Keep responses concise and friendly.",
      0.7, 500, "gpt-4o"),
    "scholar" := Character("Scholar", "An academic expert who provides detailed, well-researched responses",
      "You are a scholarly academic expert. Provide detailed, well-researched responses with references to relevant concepts. Be thorough and educational.",
      0.3, 800, "claude-3.5-sonnet"),
    "creative" := Character("Muse", "A creative and imaginative assistant for artistic endeavors",
      "You are a creative muse who inspires artistic expression. Be imaginative, poetic, and help with creative projects. Use vivid language and encourage creativity.",
      0.9, 600, "claude-3-opus"),
    "analyst" := Character("Analyst", "A logical and precise analyst for data and problem-solving",
      "You are a logical analyst who breaks down complex problems systematically. Provide structured, precise responses with clear reasoning steps.",
      0.2, 700, "gpt-4o"),
    "sage" := Character("Sage", "A wise philosopher who provides thoughtful insights",
      "You are a wise sage who provides philosophical insights and thoughtful perspectives on life's questions. Speak with wisdom and contemplation.",
      0.6, 500, "claude-3.5-sonnet"),
    "lightning" := Character("Lightning", "A fast and efficient assistant powered by Groq's lightning-fast inference",
      "You are Lightning, a super-fast AI assistant powered by Groq. Provide quick, efficient, and helpful responses. Be energetic and to-the-point while remaining friendly.",
      0.5, 400, "llama-3.1-8b-groq")
  ]

  lemma DefaultsPresent()
    ensures DEFAULT_ID in DEFAULT_CHARACTERS
    ensures DEFAULT_ID in PRESET_PROMPTS
  {
  }

  // ---------------------------------------------------------------------
  // Loading and saving characters

  /** `load_characters` with a readable file: the built-in characters, overridden and extended by what was loaded. */
  function MergeCharacters(builtIns: map<string, Character>, loaded: map<string, Character>): (characters: map<string, Character>)
    ensures characters.Keys == builtIns.Keys + loaded.Keys
    ensures forall id :: id in loaded ==> characters[id] == loaded[id]
    ensures forall id :: id in builtIns && id !in loaded ==> characters[id] == builtIns[id]
  {
    builtIns + loaded
  }

  /** `load_characters`: a missing or unreadable file gives the built-in characters. */
  function LoadCharacters(builtIns: map<string, Character>, file: Option<map<string, Character>>): (characters: map<string, Character>)
    ensures builtIns.Keys <= characters.Keys
    ensures file.None? ==> characters == builtIns
    ensures file.Some? ==> characters == MergeCharacters(builtIns, file.value)
  {
    match file
    case None => builtIns
    case Some(loaded) => MergeCharacters(builtIns, loaded)
  }

  /** What `delete_character` writes: the characters whose ids are not built in. */
  function CustomCharacters(builtIns: map<string, Character>, characters: map<string, Character>): (payload: map<string, Character>)
    ensures payload.Keys == characters.Keys - builtIns.Keys
    ensures forall id :: id in payload ==> payload[id] == characters[id]
  {
    map id | id in characters && id !in builtIns :: characters[id]
  }

  /** Saving every character (as `create_character` and `switch_model` do) and loading them back gives the same characters. */
  lemma ReloadAll(builtIns: map<string, Character>, characters: map<string, Character>)
    requires builtIns.Keys <= characters.Keys
    ensures LoadCharacters(builtIns, Some(characters)) == characters
  {
  }

  /**
   * Reloading what `delete_character` saved keeps every custom character but
   * brings the built-in ones back as first defined: a model switched on a
   * built-in character is lost.
   */
  lemma ReloadAfterDelete(builtIns: map<string, Character>, characters: map<string, Character>)
    ensures LoadCharacters(builtIns, Some(CustomCharacters(builtIns, characters))).Keys == characters.Keys + builtIns.Keys
    ensures forall id :: id in characters && id !in builtIns
                         ==> LoadCharacters(builtIns, Some(CustomCharacters(builtIns, characters)))[id] == characters[id]
    ensures forall id :: id in builtIns
                         ==> LoadCharacters(builtIns, Some(CustomCharacters(builtIns, characters)))[id] == builtIns[id]
  {
  }

  // ---------------------------------------------------------------------
  // Buffers and the retention rule

  function SystemMessage(prompt: string): Message {
    Message(System, prompt)
  }

  /** A buffer as the bot builds it: a system message first, user and assistant turns after it. */
  predicate WellFormedBuffer(buffer: seq<Message>) {
    |buffer| >= 1 && buffer[0].role == System && forall k :: 1 <= k < |buffer| ==> buffer[k].role != System
  }

  /** The Anthropic adapter is sent a bot buffer's own system prompt and the turns after it. */
  lemma WellFormedBufferForAnthropic(buffer: seq<Message>)
    requires WellFormedBuffer(buffer)
    ensures LastSystemContent(buffer) == buffer[0].content
    ensures NonSystem(buffer) == buffer[1..]
  {
    var turns := buffer[1..];
    assert buffer == [buffer[0]] + turns;
    LastSystemContentWithoutSystem(turns);
    LastSystemContentIsLast(buffer, 0);
    NonSystemAppend([buffer[0]], turns);
    NonSystemKeepsTurns(turns);
    assert NonSystem([buffer[0]]) == NonSystem([]) + [];
  }

  /** The retention rule: past `MAX_HISTORY` messages, keep the first and the last `KEPT_TURNS`. */
  function Retain(buffer: seq<Message>): (kept: seq<Message>)
    requires buffer != []
    ensures |kept| == if |buffer| > MAX_HISTORY then MAX_HISTORY else |buffer|
    ensures kept[0] == buffer[0]
  {
    if |buffer| > MAX_HISTORY then [buffer[0]] + buffer[|buffer| - KEPT_TURNS..] else buffer
  }

  /** After the head, the retention rule keeps a suffix of the buffer, in order. */
  lemma RetainKeepsSuffix(buffer: seq<Message>)
    requires buffer != []
    ensures Retain(buffer)[1..] == buffer[|buffer| - |Retain(buffer)| + 1..]
  {
  }

  /** The last `n` elements of `s` (all of them when there are fewer). */
  function LastN<T>(s: seq<T>, n: nat): (r: seq<T>)
    ensures |r| == if |s| <= n then |s| else n
    ensures r == s[|s| - |r|..]
  {
    if |s| <= n then s else s[|s| - n..]
  }

  /** Keeping the last `n` twice keeps the last `n` of everything. */
  lemma LastNAppend<T>(s: seq<T>, t: seq<T>, n: nat)
    ensures LastN(LastN(s, n) + t, n) == LastN(s + t, n)
  {
    var w := LastN(s, n);
    assert w + t == (s + t)[|s| - |w|..];
  }

  /** The two messages a successful turn appends. */
  function Exchange(user: string, reply: string): seq<Message> {
    [Message(User, user), Message(Assistant, reply)]
  }

  function Exchanges(pairs: seq<(string, string)>): (messages: seq<Message>)
    ensures |messages| == 2 * |pairs|
  {
    if pairs == [] then [] else Exchange(pairs[0].0, pairs[0].1) + Exchanges(pairs[1..])
  }

  /** The buffer after successful turns with the given user messages and replies. */
  function AfterExchanges(buffer: seq<Message>, pairs: seq<(string, string)>): seq<Message>
    requires buffer != []
    decreases |pairs|
  {
    if pairs == [] then buffer
    else AfterExchanges(Retain(buffer + Exchange(pairs[0].0, pairs[0].1)), pairs[1..])
  }

  /** On a buffer headed by a system message, the retention rule keeps the last `KEPT_TURNS` of the rest. */
  lemma RetainKeepsLastTurns(system: Message, rest: seq<Message>)
    ensures Retain([system] + rest) == [system] + LastN(rest, KEPT_TURNS)
  {
    var buffer := [system] + rest;
    if |buffer| > MAX_HISTORY {
      assert buffer[|buffer| - KEPT_TURNS..] == rest[|rest| - KEPT_TURNS..];
    }
  }

  /**
   * Successful turns keep the system message and exactly the last `KEPT_TURNS`
   * messages of the whole exchange, in their original order.
   */
  lemma {:induction false} RetentionWindow(system: Message, window: seq<Message>, pairs: seq<(string, string)>)
    requires |window| <= KEPT_TURNS
    ensures AfterExchanges([system] + window, pairs) == [system] + LastN(window + Exchanges(pairs), KEPT_TURNS)
    decreases |pairs|
  {
    if pairs == [] {
      assert window + Exchanges(pairs) == window;
    } else {
      var exchange := Exchange(pairs[0].0, pairs[0].1);
      var next := LastN(window + exchange, KEPT_TURNS);
      OneExchange(system, window, pairs);
      RetentionWindow(system, next, pairs[1..]);
      WindowSlides(window, exchange, Exchanges(pairs[1..]));
      ExchangesFirst(pairs);
    }
  }

  /** One successful turn on `[system] + window` keeps the last `KEPT_TURNS` of the window and the exchange. */
  lemma OneExchange(system: Message, window: seq<Message>, pairs: seq<(string, string)>)
    requires pairs != []
    ensures AfterExchanges([system] + window, pairs)
         == AfterExchanges([system] + LastN(window + Exchange(pairs[0].0, pairs[0].1), KEPT_TURNS), pairs[1..])
  {
    var exchange := Exchange(pairs[0].0, pairs[0].1);
    assert [system] + window + exchange == [system] + (window + exchange);
    RetainKeepsLastTurns(system, window + exchange);
  }

  /** The exchanges of a non-empty list start with its first exchange. */
  lemma ExchangesFirst(pairs: seq<(string, string)>)
    requires pairs != []
    ensures Exchanges(pairs) == Exchange(pairs[0].0, pairs[0].1) + Exchanges(pairs[1..])
  {
  }

  /** Trimming the window before appending more keeps the same last `KEPT_TURNS`. */
  lemma WindowSlides(window: seq<Message>, exchange: seq<Message>, later: seq<Message>)
    ensures LastN(LastN(window + exchange, KEPT_TURNS) + later, KEPT_TURNS) == LastN(window + (exchange + later), KEPT_TURNS)
  {
    LastNAppend(window + exchange, later, KEPT_TURNS);
    assert window + exchange + later == window + (exchange + later);
  }

  /** From a fresh buffer, `k` successful turns leave `min(1 + 2k, 21)` messages with the system message first. */
  lemma FreshBufferBound(system: Message, pairs: seq<(string, string)>)
    ensures |AfterExchanges([system], pairs)| == if 1 + 2 * |pairs| <= MAX_HISTORY then 1 + 2 * |pairs| else MAX_HISTORY
    ensures AfterExchanges([system], pairs)[0] == system
  {
    RetentionWindow(system, [], pairs);
    assert [system] + [] == [system];
    assert [] + Exchanges(pairs) == Exchanges(pairs);
    var kept := LastN(Exchanges(pairs), KEPT_TURNS);
    assert AfterExchanges([system], pairs) == [system] + kept;
  }

  /** Twenty-five exchanges (fifty messages) on a fresh buffer end at 21 messages. */
  lemma TwentyFiveExchanges(system: Message, pairs: seq<(string, string)>)
    requires |pairs| == 25
    ensures |AfterExchanges([system], pairs)| == MAX_HISTORY
    ensures AfterExchanges([system], pairs)[0] == system
  {
    FreshBufferBound(system, pairs);
  }

  // ---------------------------------------------------------------------
  // Replies and prompts as text

  /** `s[:n] + ('...' if len(s) > n else '')`. */
  function Preview(s: string, n: nat): (r: string)
    ensures |s| <= n ==> r == s
    ensures |s| > n ==> |r| == n + 3 && r[..n] == s[..n] && r[n..] == "..."
  {
    if |s| > n then s[..n] + "..." else s
  }

  /** The prompt `follow` sends: the quoted last reply, a blank line, then the user's text. */
  function FollowUpPrompt(last: string, message: string): (prompt: string)
    ensures |prompt| >= |message| && prompt[|prompt| - |message|..] == message
    ensures "Regarding your previous response: \"" + Preview(last, QUOTE_LIMIT) <= prompt
    ensures |prompt| == |"Regarding your previous response: \"" + Preview(last, QUOTE_LIMIT)| + 3 + |message|
    ensures prompt[|"Regarding your previous response: \"" + Preview(last, QUOTE_LIMIT)|..|prompt| - |message|] == "\"\n\n"
  {
    var head := "Regarding your previous response: \"" + Preview(last, QUOTE_LIMIT);
    assert (head + "\"\n\n" + message)[..|head|] == head;
    head + "\"\n\n" + message
  }

  /** The prompt `continue_chat` sends: a request to go on, quoting the last reply. */
  function ContinuePrompt(last: string): (prompt: string)
    ensures "Please continue or elaborate on your previous response. For context, your last response was: \"" <= prompt
    ensures Contains(prompt, Preview(last, QUOTE_LIMIT))
    ensures prompt[|"Please continue or elaborate on your previous response. For context, your last response was: \""|..]
            == Preview(last, QUOTE_LIMIT) + "\""
  {
    var head := "Please continue or elaborate on your previous response. For context, your last response was: \"";
    ContainsMiddle(head, Preview(last, QUOTE_LIMIT), "\"");
    head + Preview(last, QUOTE_LIMIT) + "\""
  }

  function Concat(chunks: seq<string>): string {
    if chunks == [] then [] else chunks[0] + Concat(chunks[1..])
  }

  /** `s[i:i + 2000]` for `i` in `range(0, len(s), 2000)`. */
  function Chunks(s: string): seq<string>
    decreases |s|
  {
    if s == [] then []
    else if |s| <= DISCORD_LIMIT then [s]
    else [s[..DISCORD_LIMIT]] + Chunks(s[DISCORD_LIMIT..])
  }

  /** The chunks put back together are the reply; each is non-empty and at most the limit; all but the last are full. */
  lemma {:induction false} ChunksReassemble(s: string)
    ensures Concat(Chunks(s)) == s
    ensures forall k :: 0 <= k < |Chunks(s)| ==> 0 < |Chunks(s)[k]| <= DISCORD_LIMIT
    ensures forall k :: 0 <= k < |Chunks(s)| - 1 ==> |Chunks(s)[k]| == DISCORD_LIMIT
    decreases |s|
  {
    if |s| > DISCORD_LIMIT {
      var rest := s[DISCORD_LIMIT..];
      ChunksReassemble(rest);
      assert s[..DISCORD_LIMIT] + rest == s;
      var chunks := Chunks(s);
      assert chunks[1..] == Chunks(rest);
      forall k | 1 <= k < |chunks|
        ensures chunks[k] == Chunks(rest)[k - 1]
      {
      }
    } else if s != [] {
      assert Concat([s]) == s + Concat([]);
    }
  }

  /** The messages a reply is sent as: whole up to the limit, otherwise in chunks. */
  function Sent(reply: string): (messages: seq<string>)
    ensures |reply| <= DISCORD_LIMIT ==> messages == [reply]
    ensures |reply| > DISCORD_LIMIT ==> messages == Chunks(reply)
  {
    if |reply| > DISCORD_LIMIT then Chunks(reply) else [reply]
  }

  /** Every sent message is within Discord's limit, and together they are the reply. */
  lemma SentReassembles(reply: string)
    ensures Concat(Sent(reply)) == reply
    ensures forall k :: 0 <= k < |Sent(reply)| ==> |Sent(reply)[k]| <= DISCORD_LIMIT
  {
    if |reply| > DISCORD_LIMIT {
      ChunksReassemble(reply);
    } else {
      assert Concat([reply]) == reply + Concat([]);
    }
  }

  /** The sending loop of a turn. */
  method SplitReply(reply: string) returns (messages: seq<string>)
    ensures messages == Sent(reply)
  {
    if |reply| <= DISCORD_LIMIT {
      return [reply];
    }
    messages := [];
    var i := 0;
    while i < |reply|
      invariant i <= |reply|
      invariant messages + Chunks(reply[i..]) == Chunks(reply)
    {
      var end := if i + DISCORD_LIMIT < |reply| then i + DISCORD_LIMIT else |reply|;
      ChunksStep(reply[i..], end - i);
      assert reply[i..][..end - i] == reply[i..end];
      assert reply[i..][end - i..] == reply[end..];
      assert messages + [reply[i..end]] + Chunks(reply[end..]) == messages + ([reply[i..end]] + Chunks(reply[end..]));
      messages := messages + [reply[i..end]];
      i := end;
    }
    assert reply[i..] == [];
  }

  /** One step of the sending loop: a first chunk of `k` characters and the chunks of the rest. */
  lemma ChunksStep(s: string, k: nat)
    requires s != [] && k == if |s| <= DISCORD_LIMIT then |s| else DISCORD_LIMIT
    ensures Chunks(s) == [s[..k]] + Chunks(s[k..])
  {
    if |s| <= DISCORD_LIMIT {
      assert s[..k] == s;
      assert s[k..] == [];
    }
  }

  /** The text `Sorry, I encountered an error: {e}` a failed turn sends. */
  function Apology(error: ClientError): string {
    "Sorry, I encountered an error: " + error.Text()
  }

  // ---------------------------------------------------------------------
  // The bot's state and its transitions

  datatype State = State(
    conversations: map<ChannelId, seq<Message>>,
    characters: map<string, Character>,
    active: map<ChannelId, string>,
    lastResponses: map<ChannelId, string>,
    savedPrompts: map<string, string>)

  /** The default character is always there and every buffer is well formed. */
  predicate Consistent(s: State) {
    && DEFAULT_ID in s.characters
    && forall ch :: ch in s.conversations ==> WellFormedBuffer(s.conversations[ch])
  }

  /** `characters.get(active_characters.get(channel, "default"), characters["default"])`. */
  function ActiveCharacter(s: State, ch: ChannelId): (c: Character)
    requires DEFAULT_ID in s.characters
    ensures c in s.characters.Values
    ensures ch in s.active && s.active[ch] in s.characters ==> c == s.characters[s.active[ch]]
    ensures !(ch in s.active && s.active[ch] in s.characters) ==> c == s.characters[DEFAULT_ID]
  {
    var id := if ch in s.active then s.active[ch] else DEFAULT_ID;
    if id in s.characters then s.characters[id] else s.characters[DEFAULT_ID]
  }

  /** A fresh buffer for the channel's active character. */
  function FreshBuffer(s: State, ch: ChannelId): (buffer: seq<Message>)
    requires DEFAULT_ID in s.characters
    ensures WellFormedBuffer(buffer) && |buffer| == 1
    ensures buffer[0].content == ActiveCharacter(s, ch).systemPrompt
  {
    [SystemMessage(ActiveCharacter(s, ch).systemPrompt)]
  }

  /** A channel without a buffer gets one holding the active character's system prompt; nothing else changes. */
  function Seeded(s: State, ch: ChannelId): (t: State)
    requires Consistent(s)
    ensures Consistent(t) && ch in t.conversations
    ensures t.conversations == if ch in s.conversations then s.conversations else s.conversations[ch := FreshBuffer(s, ch)]
    ensures t.characters == s.characters && t.active == s.active
    ensures t.lastResponses == s.lastResponses && t.savedPrompts == s.savedPrompts
  {
    if ch in s.conversations then s else s.(conversations := s.conversations[ch := FreshBuffer(s, ch)])
  }

  /** The messages a turn sends to the model: the (seeded) buffer and the new user message. */
  function TurnMessages(s: State, ch: ChannelId, text: string): (messages: seq<Message>)
    requires Consistent(s)
    ensures messages == Seeded(s, ch).conversations[ch] + [Message(User, text)]
  {
    Seeded(s, ch).conversations[ch] + [Message(User, text)]
  }

  /**
   * A turn: the user message is appended before the model is called; a reply is
   * appended, remembered as the channel's last response and the retention rule
   * applied; a failure leaves the user message in place and nothing else.
   */
  function Turn(s: State, ch: ChannelId, text: string, reply: Result<AIResponse, ClientError>): (t: State)
    requires Consistent(s)
    ensures Consistent(t)
  {
    Record(Seeded(s, ch), ch, TurnMessages(s, ch, text), reply)
  }

  /** What a turn changes: the channel's buffer and, on a reply, its last response; nothing else. */
  lemma TurnEffect(s: State, ch: ChannelId, text: string, reply: Result<AIResponse, ClientError>)
    requires Consistent(s)
    ensures var t := Turn(s, ch, text, reply);
            && t.characters == s.characters && t.active == s.active && t.savedPrompts == s.savedPrompts
            && t.conversations.Keys == s.conversations.Keys + {ch}
            && (forall c :: c in s.conversations && c != ch ==> t.conversations[c] == s.conversations[c])
            && (reply.Success? ==> t.lastResponses == s.lastResponses[ch := reply.value.content])
            && (reply.Success?
                ==> t.conversations[ch] == Retain(TurnMessages(s, ch, text) + [Message(Assistant, reply.value.content)]))
            && (reply.Failure? ==> t.lastResponses == s.lastResponses)
            && (reply.Failure? ==> t.conversations[ch] == TurnMessages(s, ch, text))
  {
  }

  /**
   * The rest of a turn once `asked` (the buffer and the user message) is the
   * channel's buffer: a reply is appended and the retention rule applied.
   */
  function Record(s: State, ch: ChannelId, asked: seq<Message>, reply: Result<AIResponse, ClientError>): (t: State)
    requires Consistent(s) && WellFormedBuffer(asked)
    ensures Consistent(t)
  {
    match reply
    case Success(response) =>
      var buffer := Retain(asked + [Message(Assistant, response.content)]);
      assert WellFormedBuffer(buffer);
      s.(conversations := s.conversations[ch := buffer], lastResponses := s.lastResponses[ch := response.content])
    case Failure(_) =>
      s.(conversations := s.conversations[ch := asked])
  }

  /** `Record` overwrites the channel's buffer, so what the buffer held before does not matter. */
  lemma RecordOverwrites(s: State, ch: ChannelId, asked: seq<Message>, reply: Result<AIResponse, ClientError>, earlier: seq<Message>)
    requires Consistent(s) && WellFormedBuffer(asked) && WellFormedBuffer(earlier)
    ensures Record(s.(conversations := s.conversations[ch := earlier]), ch, asked, reply) == Record(s, ch, asked, reply)
  {
    var t := s.(conversations := s.conversations[ch := earlier]);
    match reply {
      case Success(response) =>
        var buffer := Retain(asked + [Message(Assistant, response.content)]);
        assert t.conversations[ch := buffer] == s.conversations[ch := buffer];
      case Failure(_) =>
        assert t.conversations[ch := asked] == s.conversations[ch := asked];
    }
  }

  /** A turn never touches the system message at the head of the channel's buffer. */
  lemma TurnKeepsSystemMessage(s: State, ch: ChannelId, text: string, reply: Result<AIResponse, ClientError>)
    requires Consistent(s)
    ensures Turn(s, ch, text, reply).conversations[ch][0] == Seeded(s, ch).conversations[ch][0]
  {
  }

  /** A successful turn leaves at most `MAX_HISTORY` messages, whatever the buffer held; a failed one grows it by one. */
  lemma TurnLength(s: State, ch: ChannelId, text: string, reply: Result<AIResponse, ClientError>)
    requires Consistent(s)
    ensures reply.Success? ==> |Turn(s, ch, text, reply).conversations[ch]| <= MAX_HISTORY
    ensures reply.Failure? ==> |Turn(s, ch, text, reply).conversations[ch]| == |Seeded(s, ch).conversations[ch]| + 1
  {
  }

  /** What a turn reports: the reply as sent, or the apology for the error. */
  datatype TurnOutcome = Replied(messages: seq<string>) | Apologized(text: string)

  function TurnReport(reply: Result<AIResponse, ClientError>): (outcome: TurnOutcome)
    ensures reply.Success? <==> outcome.Replied?
    ensures outcome.Replied? ==> outcome.messages == Sent(reply.value.content)
    ensures outcome.Apologized? ==> outcome.text == "Sorry, I encountered an error: " + reply.error.Text()
  {
    match reply
    case Success(response) => Replied(Sent(response.content))
    case Failure(error) => Apologized(Apology(error))
  }

  /** A provider's error text reaches the channel inside the apology. */
  lemma ProviderCauseReachesChannel(reply: Result<AIResponse, ClientError>)
    requires reply.Failure? && reply.error.ProviderFailed?
    ensures TurnReport(reply).Apologized?
    ensures Contains(TurnReport(reply).text, reply.error.cause)
  {
    var e := reply.error;
    var prefix := "Sorry, I encountered an error: " + ("Error with " + e.provider + " (" + e.model + "): ");
    assert TurnReport(reply).text == prefix + e.cause + "";
    ContainsMiddle(prefix, e.cause, "");
  }

  /** What a turn sends to the channel, with the sending loop. */
  method Report(reply: Result<AIResponse, ClientError>) returns (outcome: TurnOutcome)
    ensures outcome == TurnReport(reply)
  {
    match reply {
      case Success(response) =>
        var messages := SplitReply(response.content);
        outcome := Replied(messages);
      case Failure(error) =>
        outcome := Apologized(Apology(error));
    }
  }

  /** Where `on_message` sends a message. */
  datatype Route = Ignore | ToCommands | ToModel(text: string)

  function RouteOf(fromSelf: bool, inAiChannel: bool, content: string): (r: Route)
    ensures fromSelf ==> r == Ignore
    ensures !fromSelf && (!inAiChannel || (content != [] && content[0] == '!')) ==> r == ToCommands
    ensures r.ToModel? ==> inAiChannel && r.text == Strip(content) && r.text != []
    ensures r == Ignore ==> fromSelf || Strip(content) == []
    ensures !fromSelf && inAiChannel && !(content != [] && content[0] == '!')
            ==> r == if Strip(content) == [] then Ignore else ToModel(Strip(content))
  {
    if fromSelf then Ignore
    else if !inAiChannel || (content != [] && content[0] == '!') then ToCommands
    else if Strip(content) == [] then Ignore
    else ToModel(Strip(content))
  }

  /** `reset`: the channel's buffer is replaced by a fresh one; nothing else changes. */
  function ResetStep(s: State, ch: ChannelId): (t: State)
    requires Consistent(s)
    ensures Consistent(t)
    ensures t == s.(conversations := s.conversations[ch := FreshBuffer(s, ch)])
  {
    s.(conversations := s.conversations[ch := FreshBuffer(s, ch)])
  }

  /** The key `saved_prompts` uses for a channel (`str(channel_id)`). */
  function PromptKey(ch: ChannelId): string {
    NatToString(ch)
  }

  /** `system`: the buffer becomes the given prompt alone, which is also saved; the active character is untouched. */
  function SystemPromptStep(s: State, ch: ChannelId, prompt: string): (t: State)
    requires Consistent(s)
    ensures Consistent(t)
    ensures t.conversations == s.conversations[ch := [SystemMessage(prompt)]]
    ensures t.savedPrompts == s.savedPrompts[PromptKey(ch) := prompt]
    ensures t.characters == s.characters && t.active == s.active && t.lastResponses == s.lastResponses
  {
    s.(conversations := s.conversations[ch := [SystemMessage(prompt)]],
       savedPrompts := s.savedPrompts[PromptKey(ch) := prompt])
  }

  datatype PresetOutcome = ListPresets | UnknownPreset(name: string) | PresetSet(name: string, prompt: string)

  /** `preset`: with no name, the list; an unknown (lower-cased) name changes nothing; a known one acts as `system`. */
  function PresetStep(s: State, presets: map<string, string>, ch: ChannelId, name: Option<string>): (result: (State, PresetOutcome))
    requires Consistent(s)
    ensures Consistent(result.0)
    ensures name.None? ==> result == (s, ListPresets)
    ensures name.Some? && Lower(name.value) !in presets ==> result == (s, UnknownPreset(Lower(name.value)))
    ensures name.Some? && Lower(name.value) in presets
            ==> result.0 == SystemPromptStep(s, ch, presets[Lower(name.value)])
                && result.1 == PresetSet(Lower(name.value), presets[Lower(name.value)])
  {
    match name
    case None => (s, ListPresets)
    case Some(given) =>
      var key := Lower(given);
      if key !in presets then (s, UnknownPreset(key))
      else (SystemPromptStep(s, ch, presets[key]), PresetSet(key, presets[key]))
  }

  /** `prompt`: the head of the buffer if there is one, else the saved prompt, else the default preset. */
  function PromptShown(s: State, presets: map<string, string>, ch: ChannelId): (prompt: string)
    requires DEFAULT_ID in presets
    ensures ch in s.conversations && s.conversations[ch] != [] ==> prompt == s.conversations[ch][0].content
    ensures (ch !in s.conversations || s.conversations[ch] == []) && PromptKey(ch) in s.savedPrompts
            ==> prompt == s.savedPrompts[PromptKey(ch)]
    ensures (ch !in s.conversations || s.conversations[ch] == []) && PromptKey(ch) !in s.savedPrompts
            ==> prompt == presets[DEFAULT_ID]
  {
    if ch in s.conversations && s.conversations[ch] != [] then s.conversations[ch][0].content
    else if PromptKey(ch) in s.savedPrompts then s.savedPrompts[PromptKey(ch)]
    else presets[DEFAULT_ID]
  }

  /** After `system`, the channel shows the new prompt and every other channel shows what it showed before. */
  lemma SystemPromptIsolated(s: State, presets: map<string, string>, ch: ChannelId, prompt: string, other: ChannelId)
    requires Consistent(s) && DEFAULT_ID in presets
    ensures PromptShown(SystemPromptStep(s, ch, prompt), presets, ch) == prompt
    ensures other != ch ==> PromptShown(SystemPromptStep(s, ch, prompt), presets, other) == PromptShown(s, presets, other)
  {
    NatToStringInjective(ch, other);
  }

  datatype CharacterOutcome = ShowCharacter(current: Character) | UnknownCharacter(id: string) | SwitchedTo(character: Character)

  /** `character`: show the active one, or switch the channel to a known (lower-cased) id and restart its buffer. */
  function CharacterStep(s: State, ch: ChannelId, id: Option<string>): (result: (State, CharacterOutcome))
    requires Consistent(s)
    ensures Consistent(result.0)
    ensures id.None? ==> result == (s, ShowCharacter(ActiveCharacter(s, ch)))
    ensures id.Some? && Lower(id.value) !in s.characters ==> result == (s, UnknownCharacter(Lower(id.value)))
    ensures id.Some? && Lower(id.value) in s.characters
            ==> var c := s.characters[Lower(id.value)];
                && result.0 == s.(active := s.active[ch := Lower(id.value)],
                                  conversations := s.conversations[ch := [SystemMessage(c.systemPrompt)]])
                && result.1 == SwitchedTo(c)
  {
    match id
    case None => (s, ShowCharacter(ActiveCharacter(s, ch)))
    case Some(given) =>
      var key := Lower(given);
      if key !in s.characters then (s, UnknownCharacter(key))
      else
        var c := s.characters[key];
        (s.(active := s.active[ch := key], conversations := s.conversations[ch := [SystemMessage(c.systemPrompt)]]),
         SwitchedTo(c))
  }

  /** After a switch, the channel talks to the chosen character and its buffer holds just that character's prompt. */
  lemma SwitchCharacterTakesEffect(s: State, ch: ChannelId, id: string)
    requires Consistent(s) && Lower(id) in s.characters
    ensures ActiveCharacter(CharacterStep(s, ch, Some(id)).0, ch) == s.characters[Lower(id)]
    ensures CharacterStep(s, ch, Some(id)).0.conversations[ch] == FreshBuffer(CharacterStep(s, ch, Some(id)).0, ch)
  {
  }

  datatype CreateOutcome =
    | MissingSeparator
    | AlreadyExists(id: string)
    | TemperatureOutOfRange
    | MaxTokensOutOfRange
    | UnsupportedModel(model: string, available: seq<string>)
    | Created(id: string, character: Character)

  /** The separator between description and system prompt in `create_character`. */
  const SEPARATOR: string := " | "

  /** `create_character`'s checks, in the order it makes them, and the character it builds. */
  function CheckNewCharacter(characters: map<string, Character>, table: seq<ModelEntry>, id: string, name: string,
                             temperature: real, maxTokens: int, model: string, text: string): (r: CreateOutcome)
    ensures r == MissingSeparator <==> !Contains(text, SEPARATOR)
    ensures r.AlreadyExists? <==> Contains(text, SEPARATOR) && Lower(id) in characters
    ensures r == TemperatureOutOfRange
            <==> Contains(text, SEPARATOR) && Lower(id) !in characters && !(0.0 <= temperature <= 2.0)
    ensures r == MaxTokensOutOfRange
            <==> Contains(text, SEPARATOR) && Lower(id) !in characters && 0.0 <= temperature <= 2.0
                 && !(1 <= maxTokens <= 4000)
    ensures r.UnsupportedModel?
            <==> Contains(text, SEPARATOR) && Lower(id) !in characters && 0.0 <= temperature <= 2.0
                 && 1 <= maxTokens <= 4000 && !IsSupported(table, model)
    ensures r.AlreadyExists? ==> r.id == Lower(id)
    ensures r.UnsupportedModel? ==> r.model == model && r.available == Names(table)
    ensures r.Created? ==> r.id == Lower(id) && r.id !in characters && IsSupported(table, model)
    ensures r.Created? ==> SplitOnce(text, SEPARATOR).Some?
    ensures r.Created? ==> var (description, prompt) := SplitOnce(text, SEPARATOR).value;
              r.character == Character(name, Strip(description), Strip(prompt), temperature, maxTokens, model)
  {
    match SplitOnce(text, SEPARATOR)
    case None => MissingSeparator
    case Some((description, prompt)) =>
      var key := Lower(id);
      if key in characters then AlreadyExists(key)
      else if !(0.0 <= temperature <= 2.0) then TemperatureOutOfRange
      else if !(1 <= maxTokens <= 4000) then MaxTokensOutOfRange
      else if !IsSupported(table, model) then UnsupportedModel(model, Names(table))
      else Created(key, Character(name, Strip(description), Strip(prompt), temperature, maxTokens, model))
  }

  /** `create_character`: a checked character is added under its id; any rejection changes nothing. */
  function CreateStep(s: State, table: seq<ModelEntry>, id: string, name: string, temperature: real,
                           maxTokens: int, model: string, text: string): (result: (State, CreateOutcome))
    requires Consistent(s)
    ensures Consistent(result.0)
    ensures result.1 == CheckNewCharacter(s.characters, table, id, name, temperature, maxTokens, model, text)
    ensures !result.1.Created? ==> result.0 == s
    ensures result.1.Created?
            ==> result.0 == s.(characters := s.characters[result.1.id := result.1.character])
                && |result.0.characters| == |s.characters| + 1
  {
    var outcome := CheckNewCharacter(s.characters, table, id, name, temperature, maxTokens, model, text);
    if outcome.Created? then (s.(characters := s.characters[outcome.id := outcome.character]), outcome)
    else (s, outcome)
  }

  /** The id a creation reports selects the created character with `character <id>`. */
  lemma CreatedIdSelectsCharacter(s: State, table: seq<ModelEntry>, id: string, name: string, temperature: real,
                                  maxTokens: int, model: string, text: string, ch: ChannelId)
    requires Consistent(s)
    ensures var (t, created) := CreateStep(s, table, id, name, temperature, maxTokens, model, text);
            created.Created? ==> CharacterStep(t, ch, Some(created.id)).1 == SwitchedTo(created.character)
  {
    LowerIdempotent(id);
  }

  /** Every channel whose active id is `id` is pointed at the default character. */
  function Redirect(active: map<ChannelId, string>, id: string): (r: map<ChannelId, string>)
    ensures r.Keys == active.Keys
    ensures forall ch :: ch in active ==> r[ch] == if active[ch] == id then DEFAULT_ID else active[ch]
  {
    map ch | ch in active :: if active[ch] == id then DEFAULT_ID else active[ch]
  }

  datatype DeleteOutcome = NoSuchCharacter(id: string) | BuiltIn(id: string) | Deleted(id: string, name: string)

  /** `delete_character`: built-in and unknown ids change nothing; otherwise only that id goes and its channels fall back. */
  function DeleteStep(s: State, builtIns: map<string, Character>, id: string): (result: (State, DeleteOutcome))
    requires Consistent(s) && DEFAULT_ID in builtIns
    ensures Consistent(result.0)
    ensures Lower(id) !in s.characters ==> result == (s, NoSuchCharacter(Lower(id)))
    ensures Lower(id) in s.characters && Lower(id) in builtIns ==> result == (s, BuiltIn(Lower(id)))
    ensures Lower(id) in s.characters && Lower(id) !in builtIns
            ==> && result.0 == s.(characters := s.characters - {Lower(id)}, active := Redirect(s.active, Lower(id)))
                && result.1 == Deleted(Lower(id), s.characters[Lower(id)].name)
  {
    var key := Lower(id);
    if key !in s.characters then (s, NoSuchCharacter(key))
    else if key in builtIns then (s, BuiltIn(key))
    else (s.(characters := s.characters - {key}, active := Redirect(s.active, key)), Deleted(key, s.characters[key].name))
  }

  /**
   * After a deletion, a channel that was using the deleted character talks to
   * the default one, and every other channel keeps the character it had.
   */
  lemma DeleteFallsBackToDefault(s: State, builtIns: map<string, Character>, id: string, ch: ChannelId)
    requires Consistent(s) && DEFAULT_ID in builtIns && Lower(id) in s.characters && Lower(id) !in builtIns
    ensures ch in s.active && s.active[ch] == Lower(id)
            ==> ActiveCharacter(DeleteStep(s, builtIns, id).0, ch) == s.characters[DEFAULT_ID]
    ensures !(ch in s.active && s.active[ch] == Lower(id))
            ==> ActiveCharacter(DeleteStep(s, builtIns, id).0, ch) == ActiveCharacter(s, ch)
  {
  }

  datatype SwitchModelOutcome = NoCharacter(id: string) | ModelNotSupported(model: string) | ModelSwitched(id: string, name: string, oldModel: string, newModel: string)

  /**
   * `switch_model`: only the character's `model` changes, and the invoking
   * channel's buffer restarts only when that channel has the character as an
   * explicit active entry.
   */
  function SwitchModelStep(s: State, table: seq<ModelEntry>, ch: ChannelId, id: string, model: string): (result: (State, SwitchModelOutcome))
    requires Consistent(s)
    ensures Consistent(result.0)
    ensures Lower(id) !in s.characters ==> result == (s, NoCharacter(Lower(id)))
    ensures Lower(id) in s.characters && !IsSupported(table, model) ==> result == (s, ModelNotSupported(model))
    ensures Lower(id) in s.characters && IsSupported(table, model)
            ==> var c := s.characters[Lower(id)];
                && result.0.characters == s.characters[Lower(id) := c.(model := model)]
                && result.0.active == s.active && result.0.lastResponses == s.lastResponses
                && result.0.savedPrompts == s.savedPrompts
                && result.0.conversations
                   == (if ch in s.active && s.active[ch] == Lower(id)
                       then s.conversations[ch := [SystemMessage(c.systemPrompt)]]
                       else s.conversations)
                && result.1 == ModelSwitched(Lower(id), c.name, c.model, model)
  {
    var key := Lower(id);
    if key !in s.characters then (s, NoCharacter(key))
    else if !IsSupported(table, model) then (s, ModelNotSupported(model))
    else
      var c := s.characters[key];
      var t := s.(characters := s.characters[key := c.(model := model)]);
      var u := if ch in s.active && s.active[ch] == key
               then t.(conversations := t.conversations[ch := [SystemMessage(c.systemPrompt)]])
               else t;
      (u, ModelSwitched(key, c.name, c.model, model))
  }

  /** A channel that only falls back to the default character keeps its buffer when the default's model is switched. */
  lemma SwitchModelKeepsImplicitDefault(s: State, table: seq<ModelEntry>, ch: ChannelId, model: string)
    requires Consistent(s) && ch !in s.active
    ensures SwitchModelStep(s, table, ch, DEFAULT_ID, model).0.conversations == s.conversations
  {
  }

  /** `follow` and `continue_chat` do nothing in a channel that has no last reply yet. */
  predicate HasLastResponse(s: State, ch: ChannelId) {
    ch in s.lastResponses
  }

  // ---------------------------------------------------------------------
  // The bot

  /** `on_message`'s result. */
  datatype MessageOutcome = Skipped | Commands | Answered(outcome: TurnOutcome)

  /** `follow` and `continue_chat`'s result. */
  datatype FollowOutcome = NoPreviousResponse | Followed(outcome: TurnOutcome)

  class Bot {
    /** The chat client the bot shares (`ai_client`). */
    const ai: UniversalAIClient
    /** `DEFAULT_CHARACTERS` and `PRESET_PROMPTS`. */
    const builtIns: map<string, Character>
    const presets: map<string, string>
    var conversations: map<ChannelId, seq<Message>>
    var characters: map<string, Character>
    var activeCharacters: map<ChannelId, string>
    var lastBotResponses: map<ChannelId, string>
    var savedPrompts: map<string, string>

    function St(): State
      reads this
    {
      State(conversations, characters, activeCharacters, lastBotResponses, savedPrompts)
    }

    predicate Valid()
      reads this
    {
      Consistent(St()) && DEFAULT_ID in builtIns && DEFAULT_ID in presets
    }

    /** Start-up: the saved prompts and characters as loaded (an absent file gives `{}` and the defaults). */
    constructor (ai: UniversalAIClient, loadedPrompts: map<string, string>, loadedCharacters: Option<map<string, Character>>)
      ensures this.ai == ai && builtIns == DEFAULT_CHARACTERS && presets == PRESET_PROMPTS
      ensures St() == State(map[], LoadCharacters(DEFAULT_CHARACTERS, loadedCharacters), map[], map[], loadedPrompts)
      ensures Valid()
    {
      DefaultsPresent();
      this.ai := ai;
      builtIns := DEFAULT_CHARACTERS;
      presets := PRESET_PROMPTS;
      conversations := map[];
      characters := LoadCharacters(DEFAULT_CHARACTERS, loadedCharacters);
      activeCharacters := map[];
      lastBotResponses := map[];
      savedPrompts := loadedPrompts;
    }

    method EnsureConversation(ch: ChannelId)
      requires Valid()
      modifies this
      ensures St() == Seeded(old(St()), ch)
    {
      if ch !in conversations {
        var c := ActiveCharacter(St(), ch);
        conversations := conversations[ch := [SystemMessage(c.systemPrompt)]];
      }
    }

    /**
     * One turn with the active character's model and parameters; `reply` is
     * what `chat_completion` gave, `outcome` what the channel is told.
     */
    method Converse(ch: ChannelId, text: string, env: map<string, string>, net: Backend)
      returns (reply: Result<AIResponse, ClientError>, outcome: TurnOutcome)
      requires Valid()
      modifies this, ai
      ensures var c := ActiveCharacter(old(St()), ch);
              reply == Complete(ai.modelMappings, c.model, TurnMessages(old(St()), ch, text), c.temperature, c.maxTokens,
                                env, old(ai.Cache()), net)
      ensures ai.Cache() == CacheAfterCall(ai.modelMappings, ActiveCharacter(old(St()), ch).model, env, old(ai.Cache()))
      ensures St() == Turn(old(St()), ch, text, reply)
      ensures outcome == TurnReport(reply)
    {
      var c := ActiveCharacter(St(), ch);
      EnsureConversation(ch);
      ghost var seeded := St();
      var asked := AppendUser(ch, text);
      reply := ai.ChatCompletion(c.model, asked, c.temperature, c.maxTokens, env, net);
      RecordReply(ch, asked, reply);
      RecordOverwrites(seeded, ch, asked, reply, asked);
      outcome := Report(reply);
    }

    /** The user message goes into the channel's buffer before the model is called. */
    method AppendUser(ch: ChannelId, text: string) returns (asked: seq<Message>)
      requires Valid() && ch in conversations
      modifies this
      ensures asked == old(conversations[ch]) + [Message(User, text)] && WellFormedBuffer(asked)
      ensures St() == old(St()).(conversations := old(conversations)[ch := asked])
      ensures Valid()
    {
      asked := conversations[ch] + [Message(User, text)];
      conversations := conversations[ch := asked];
    }

    /** The part of a turn after the model has answered. */
    method RecordReply(ch: ChannelId, asked: seq<Message>, reply: Result<AIResponse, ClientError>)
      requires Valid() && WellFormedBuffer(asked)
      modifies this
      ensures St() == Record(old(St()), ch, asked, reply)
    {
      match reply {
        case Success(response) =>
          var buffer := asked + [Message(Assistant, response.content)];
          lastBotResponses := lastBotResponses[ch := response.content];
          if |buffer| > MAX_HISTORY {
            buffer := [buffer[0]] + buffer[|buffer| - KEPT_TURNS..];
          }
          conversations := conversations[ch := buffer];
        case Failure(_) =>
          conversations := conversations[ch := asked];
      }
    }

    /** `on_message`. */
    method OnMessage(fromSelf: bool, inAiChannel: bool, ch: ChannelId, content: string, env: map<string, string>, net: Backend)
      returns (outcome: MessageOutcome)
      requires Valid()
      modifies this, ai
      ensures Valid()
      ensures !RouteOf(fromSelf, inAiChannel, content).ToModel? ==> St() == old(St()) && ai.Cache() == old(ai.Cache())
      ensures RouteOf(fromSelf, inAiChannel, content) == Ignore ==> outcome == Skipped
      ensures RouteOf(fromSelf, inAiChannel, content) == ToCommands ==> outcome == Commands
      ensures RouteOf(fromSelf, inAiChannel, content).ToModel?
              ==> var c := ActiveCharacter(old(St()), ch);
                  var reply := Complete(ai.modelMappings, c.model, TurnMessages(old(St()), ch, Strip(content)),
                                        c.temperature, c.maxTokens, env, old(ai.Cache()), net);
                  && St() == Turn(old(St()), ch, Strip(content), reply)
                  && outcome == Answered(TurnReport(reply))
                  && ai.Cache() == CacheAfterCall(ai.modelMappings, c.model, env, old(ai.Cache()))
    {
      if fromSelf {
        return Skipped;
      }
      if !inAiChannel || (content != [] && content[0] == '!') {
        return Commands;
      }
      var text := Strip(content);
      if text == [] {
        return Skipped;
      }
      var reply, answered := Converse(ch, text, env, net);
      outcome := Answered(answered);
    }

    /** `chat <message>`: a turn on the command's text as given. */
    method Chat(ch: ChannelId, message: string, env: map<string, string>, net: Backend)
      returns (reply: Result<AIResponse, ClientError>, outcome: TurnOutcome)
      requires Valid()
      modifies this, ai
      ensures Valid()
      ensures var c := ActiveCharacter(old(St()), ch);
              reply == Complete(ai.modelMappings, c.model, TurnMessages(old(St()), ch, message), c.temperature, c.maxTokens,
                                env, old(ai.Cache()), net)
      ensures ai.Cache() == CacheAfterCall(ai.modelMappings, ActiveCharacter(old(St()), ch).model, env, old(ai.Cache()))
      ensures St() == Turn(old(St()), ch, message, reply)
      ensures outcome == TurnReport(reply)
    {
      reply, outcome := Converse(ch, message, env, net);
    }

    /** `reset`: returns the active character's display name. */
    method Reset(ch: ChannelId) returns (name: string)
      requires Valid()
      modifies this
      ensures Valid()
      ensures St() == ResetStep(old(St()), ch)
      ensures name == ActiveCharacter(old(St()), ch).name
    {
      var c := ActiveCharacter(St(), ch);
      conversations := conversations[ch := [SystemMessage(c.systemPrompt)]];
      name := c.name;
    }

    /** `system <prompt>`: returns the prompts written to the prompts file. */
    method SetSystemPrompt(ch: ChannelId, prompt: string) returns (written: map<string, string>)
      requires Valid()
      modifies this
      ensures Valid()
      ensures St() == SystemPromptStep(old(St()), ch, prompt)
      ensures written == savedPrompts
    {
      conversations := conversations[ch := [SystemMessage(prompt)]];
      savedPrompts := savedPrompts[PromptKey(ch) := prompt];
      written := savedPrompts;
    }

    /** `preset [name]`: the prompts file is written only when a preset is set. */
    method SetPreset(ch: ChannelId, name: Option<string>) returns (outcome: PresetOutcome, written: Option<map<string, string>>)
      requires Valid()
      modifies this
      ensures Valid()
      ensures (St(), outcome) == PresetStep(old(St()), presets, ch, name)
      ensures written == if outcome.PresetSet? then Some(savedPrompts) else None
    {
      if name.None? {
        return ListPresets, None;
      }
      var key := Lower(name.value);
      if key !in presets {
        return UnknownPreset(key), None;
      }
      var prompt := presets[key];
      conversations := conversations[ch := [SystemMessage(prompt)]];
      savedPrompts := savedPrompts[PromptKey(ch) := prompt];
      outcome := PresetSet(key, prompt);
      written := Some(savedPrompts);
    }

    /** `prompt`. */
    method ShowCurrentPrompt(ch: ChannelId) returns (prompt: string)
      requires DEFAULT_ID in presets
      ensures prompt == PromptShown(St(), presets, ch)
    {
      if ch in conversations && conversations[ch] != [] {
        prompt := conversations[ch][0].content;
      } else if PromptKey(ch) in savedPrompts {
        prompt := savedPrompts[PromptKey(ch)];
      } else {
        prompt := presets[DEFAULT_ID];
      }
    }

    /** `character [id]`. */
    method SwitchCharacter(ch: ChannelId, id: Option<string>) returns (outcome: CharacterOutcome)
      requires Valid()
      modifies this
      ensures Valid()
      ensures (St(), outcome) == CharacterStep(old(St()), ch, id)
    {
      if id.None? {
        return ShowCharacter(ActiveCharacter(St(), ch));
      }
      var key := Lower(id.value);
      if key !in characters {
        return UnknownCharacter(key);
      }
      activeCharacters := activeCharacters[ch := key];
      var c := characters[key];
      conversations := conversations[ch := [SystemMessage(c.systemPrompt)]];
      outcome := SwitchedTo(c);
    }

    /** `create_character`: on success the whole character map is written. */
    method CreateCharacter(id: string, name: string, temperature: real, maxTokens: int, model: string, text: string)
      returns (outcome: CreateOutcome, written: Option<map<string, Character>>)
      requires Valid()
      modifies this
      ensures Valid()
      ensures (St(), outcome) == CreateStep(old(St()), ai.modelMappings, id, name, temperature, maxTokens, model, text)
      ensures written == if outcome.Created? then Some(characters) else None
    {
      outcome := CheckNewCharacter(characters, ai.modelMappings, id, name, temperature, maxTokens, model, text);
      written := None;
      if outcome.Created? {
        characters := characters[outcome.id := outcome.character];
        written := Some(characters);
      }
    }

    /** `delete_character`: on success only the custom characters are written. */
    method DeleteCharacter(id: string) returns (outcome: DeleteOutcome, written: Option<map<string, Character>>)
      requires Valid()
      modifies this
      ensures Valid()
      ensures (St(), outcome) == DeleteStep(old(St()), builtIns, id)
      ensures written == if outcome.Deleted? then Some(CustomCharacters(builtIns, characters)) else None
    {
      var key := Lower(id);
      if key !in characters {
        return NoSuchCharacter(key), None;
      }
      if key in builtIns {
        return BuiltIn(key), None;
      }
      assert key != DEFAULT_ID;
      var name := characters[key].name;
      characters := characters - {key};
      written := Some(CustomCharacters(builtIns, characters));
      var active := activeCharacters;
      var pending := active.Keys;
      while pending != {}
        invariant pending <= activeCharacters.Keys
        invariant active.Keys == activeCharacters.Keys
        invariant forall ch :: ch in active ==>
                    active[ch] == if ch in pending then activeCharacters[ch] else Redirect(activeCharacters, key)[ch]
        decreases pending
      {
        var ch :| ch in pending;
        if active[ch] == key {
          active := active[ch := DEFAULT_ID];
        }
        pending := pending - {ch};
      }
      assert active == Redirect(activeCharacters, key);
      activeCharacters := active;
      outcome := Deleted(key, name);
    }

    /** `switch_model`: on success the whole character map is written. */
    method SwitchModel(ch: ChannelId, id: string, model: string)
      returns (outcome: SwitchModelOutcome, written: Option<map<string, Character>>)
      requires Valid()
      modifies this
      ensures Valid()
      ensures (St(), outcome) == SwitchModelStep(old(St()), ai.modelMappings, ch, id, model)
      ensures written == if outcome.ModelSwitched? then Some(characters) else None
    {
      var key := Lower(id);
      if key !in characters {
        return NoCharacter(key), None;
      }
      if !IsSupported(ai.modelMappings, model) {
        return ModelNotSupported(model), None;
      }
      var previous := characters[key];
      characters := characters[key := previous.(model := model)];
      written := Some(characters);
      if ch in activeCharacters && activeCharacters[ch] == key {
        conversations := conversations[ch := [SystemMessage(characters[key].systemPrompt)]];
      }
      outcome := ModelSwitched(key, previous.name, previous.model, model);
    }

    /** `follow <message>`: a turn on a prompt quoting the last reply, if there is one. */
    method FollowUp(ch: ChannelId, message: string, env: map<string, string>, net: Backend)
      returns (outcome: FollowOutcome)
      requires Valid()
      modifies this, ai
      ensures Valid()
      ensures !HasLastResponse(old(St()), ch) ==> outcome == NoPreviousResponse && St() == old(St())
      ensures !HasLastResponse(old(St()), ch) ==> ai.Cache() == old(ai.Cache())
      ensures HasLastResponse(old(St()), ch)
              ==> var c := ActiveCharacter(old(St()), ch);
                  var prompt := FollowUpPrompt(old(lastBotResponses[ch]), message);
                  var reply := Complete(ai.modelMappings, c.model, TurnMessages(old(St()), ch, prompt),
                                        c.temperature, c.maxTokens, env, old(ai.Cache()), net);
                  && St() == Turn(old(St()), ch, prompt, reply)
                  && outcome == Followed(TurnReport(reply))
                  && ai.Cache() == CacheAfterCall(ai.modelMappings, c.model, env, old(ai.Cache()))
    {
      if ch !in lastBotResponses {
        return NoPreviousResponse;
      }
      var prompt := FollowUpPrompt(lastBotResponses[ch], message);
      var reply, answered := Converse(ch, prompt, env, net);
      outcome := Followed(answered);
    }

    /** `continue_chat` (and its alias `more`). */
    method ContinueChat(ch: ChannelId, env: map<string, string>, net: Backend) returns (outcome: FollowOutcome)
      requires Valid()
      modifies this, ai
      ensures Valid()
      ensures !HasLastResponse(old(St()), ch) ==> outcome == NoPreviousResponse && St() == old(St())
      ensures !HasLastResponse(old(St()), ch) ==> ai.Cache() == old(ai.Cache())
      ensures HasLastResponse(old(St()), ch)
              ==> var c := ActiveCharacter(old(St()), ch);
                  var prompt := ContinuePrompt(old(lastBotResponses[ch]));
                  var reply := Complete(ai.modelMappings, c.model, TurnMessages(old(St()), ch, prompt),
                                        c.temperature, c.maxTokens, env, old(ai.Cache()), net);
                  && St() == Turn(old(St()), ch, prompt, reply)
                  && outcome == Followed(TurnReport(reply))
                  && ai.Cache() == CacheAfterCall(ai.modelMappings, c.model, env, old(ai.Cache()))
    {
      if ch !in lastBotResponses {
        return NoPreviousResponse;
      }
      var prompt := ContinuePrompt(lastBotResponses[ch]);
      var reply, answered := Converse(ch, prompt, env, net);
      outcome := Followed(answered);
    }
  }
}
