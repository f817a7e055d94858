# Discord AI bot: a Dafny model of the chat client and the bot's state machine

This project models the core of a Discord bot. The bot answers in a chosen
channel with one of several large-language-model providers. The model has two
layers:

- **The chat client** (`ai_client.py`) → `ai_client.dfy`, module `AiClient`.
  It holds the table of twenty logical model names, each with its provider
  and the provider's own model id. It groups that table into the five lists
  shown by `!models`. It has four adapters (OpenAI and Anthropic through their
  SDKs, OpenRouter and Groq over HTTP), which reshape the reply into one
  `AIResponse`. It builds each SDK client lazily and caches it. The
  `chat_completion` facade rejects an unknown name with a `ValueError`,
  dispatches a known one to its provider's adapter, and wraps every adapter
  failure as `Error with <provider> (<model>): <cause>`.
- **The bot** (`discord_bot.py`) → `discord_bot.dfy`, module `DiscordBot`.
  It keeps five dictionaries: conversation buffers per channel, characters,
  the active character per channel, the last reply per channel, and saved
  system prompts per channel. `State` is these five as one value. Each command
  is a transition function on `State` (`ResetStep`, `PresetStep`,
  `DeleteStep`, …). Class `Bot` holds the same dictionaries as fields, and
  each command method changes them in place. Its `ensures` ties the new fields
  to the transition. A conversation turn (`on_message`, `chat`, `follow`,
  `continue_chat`/`more`) does these steps:
  1. Seeds the buffer with the active character's prompt.
  2. Appends the user message.
  3. Calls the client.
  4. On success, appends and remembers the reply, then applies the retention
     rule.
  5. Sends the reply in chunks of at most 2000 characters, or sends an apology
     on failure.
- **Helpers:** `py_text.dfy` (module `PyText`) models the Python string
  built-ins the bot uses: `str(n)`, `in`, `split(sep, 1)`, `strip()` and
  `lower()`. `wrappers.dfy` holds `Option` and `Result`.

Python exceptions become `Result` failures. The remote services are one
`Backend` value: a total function per provider, from request to reply (or to
the error it raised). Environment variables are a map, and a variable set to
`""` counts as unset, as in `if not api_key`. Channel ids are natural numbers.
Temperatures are `real`.

The model follows the code on these points, which are easy to misread:

- The Anthropic adapter's `system` field is the content of the **last** system
  message. The conversion loop overwrites it on each one.
  `WellFormedBufferForAnthropic` shows that for the bot's own buffers this is
  the buffer's head prompt.
- The retention rule runs only after a **successful** turn. A failed turn keeps
  the user message, so that buffer grows by one (`TurnLength`). The bound of 21
  messages is guaranteed only after a successful turn or for a fresh buffer
  (`RetentionWindow`, `FreshBufferBound`).
- Saved system prompts are read only by `!prompt`. A new buffer is always
  seeded from the active character, not from the saved prompt.
- `switch_model` also changes built-in characters. `delete_character` saves
  only custom characters, so such a change is lost after a restart
  (`ReloadAfterDelete`). `create_character` and `switch_model` save every
  character, and reloading that file restores them all (`ReloadAll`).

## Model

| member | source | states |
|---|---|---|
| PyText.NatToString | discord_bot.py:301 | `str(channel_id)` is one or more decimal digits with no leading zero unless the id is 0 |
| PyText.DigitsValueOfNatToString | discord_bot.py:301 | reading the digits back gives the channel id: `int(str(n)) == n` |
| PyText.NatToStringInjective | discord_bot.py:301 | two channels never share a saved-prompt key |
| PyText.SplitOnce | discord_bot.py:433-437 | splitting on the first separator fails exactly when the separator is absent; otherwise text == before + separator + after, and `before` contains no occurrence of the separator |
| PyText.Strip | discord_bot.py:163 | the result is the middle of the text; everything cut away is whitespace by `str.isspace`; the result neither starts nor ends with whitespace |
| PyText.Lower | discord_bot.py:325 | same length; each character is lower-cased |
| PyText.LowerIdempotent | discord_bot.py:439 | lower-casing twice is lower-casing once, so a stored lower-cased id finds itself again |
| AiClient.Names | ai_client.py:97 | `list(model_mappings.keys())`: one name per entry, in table order |
| AiClient.Find | ai_client.py:96-101 | a name is found exactly when it is a key of the table, and what is found is that name's entry |
| AiClient.FindEntry | ai_client.py:99-101 | in a table with distinct names, looking up an entry's name yields that entry |
| AiClient.ModelMappingsDistinct | ai_client.py:38-68 | the twenty logical names of the table are pairwise distinct |
| AiClient.KeyName | ai_client.py:72-78 | every bucket key is one of "openai", "anthropic", "openrouter", "groq", "grok" |
| AiClient.KeyNameInjective | ai_client.py:72-78 | distinct buckets have distinct dictionary keys |
| AiClient.Bucket | ai_client.py:81-85 | an entry goes to "grok" exactly when its provider is OpenRouter and its name contains "grok"; otherwise to its provider's list |
| AiClient.GroupedAppend | ai_client.py:80-85 | grouping a concatenated table concatenates the groupings, so each list keeps table order |
| AiClient.GroupedSizes | ai_client.py:70-87 | the five lists together hold exactly as many names as the table has entries |
| AiClient.GroupedMembers | ai_client.py:80-85 | a name is in a list exactly when an entry with that name belongs to that list |
| AiClient.ExactlyOneBucket | ai_client.py:80-85 | with distinct names, each model appears in its own list and in no other |
| AiClient.ModelMappingsPartition | ai_client.py:38-87 | on the source's own table, each of the twenty names lies in exactly its own list, and the five lists hold twenty names together |
| AiClient.FromOpenAI | ai_client.py:134-137 | success exactly when the SDK answered with at least one choice; the response carries the first choice, the provider model id, "openai" and `usage.total_tokens` if usage exists; no choice is an `IndexError`; an SDK exception's message is the failure text |
| AiClient.NonSystem | ai_client.py:152-156 | the turns list sent to Anthropic contains no system message |
| AiClient.LastSystemContentIsLast | ai_client.py:149-154 | the `system` field is the content of the last system message |
| AiClient.LastSystemContentWithoutSystem | ai_client.py:149-154 | without a system message the `system` field is "" |
| AiClient.ConvertMessages | ai_client.py:148-156 | the conversion loop gives that `system` field and exactly the non-system messages in order |
| AiClient.NonSystemAppend | ai_client.py:152-156 | the filter distributes over concatenation, so relative order is kept |
| AiClient.NonSystemKeepsTurns | ai_client.py:152-156 | a list without system messages passes unchanged |
| AiClient.FromClaude | ai_client.py:166-169 | success exactly when the SDK answered with at least one block; the first block's text, the model id, "anthropic", input plus output tokens; no block is an `IndexError`; an SDK exception's message is the failure text |
| AiClient.FromBridge | ai_client.py:197-204 | a status other than 200 fails with "`<name>` API error: `<status>` - `<body>`"; success exactly on status 200 with a parsed body having a choice; the first choice's content, the model id, the provider and `usage.total_tokens` if present; a transport exception's message, a JSON decoding error's message, or the `IndexError` of an empty choice list is the failure text |
| AiClient.BridgeErrorCarriesStatus | ai_client.py:197-198 | a rejected HTTP reply's error text contains both the status code and the body |
| AiClient.BridgeCompletion | ai_client.py:171-204 | a missing key fails with "`<name>` API key not configured" before any request; with the key set, the result is the reshaped reply to the request carrying that key, the wire id, the messages, the temperature and the token limit |
| AiClient.ClientFor | ai_client.py:121-125 | a cached client is reused; otherwise one is built from the key exactly when the key is set, with that key |
| AiClient.AdapterResult | ai_client.py:103-111 | per provider: the SDK adapters fail with "… API key not configured" when no client can be had, and otherwise reshape the SDK's reply to the request built from the client's key (for Anthropic with the last system prompt and the non-system turns); the bridges are `BridgeCompletion` of their own service; a success names the model id and the provider |
| AiClient.ClientError.Text | ai_client.py:97-116 | the wrapped error is "Error with `<provider>` (`<model>`): " followed by exactly the adapter's error text; the unknown-model error is "Model '`<model>`' not supported. Available models: " followed by the list of names |
| AiClient.Complete | ai_client.py:89-116 | an unknown model fails with the list of names and no adapter runs; a known one is sent to its provider's adapter with its entry's wire id, an adapter success is returned as is, and an adapter failure is wrapped with the provider, the logical name and the adapter's error as its cause |
| AiClient.RejectedRequestSurfaces | ai_client.py:103-116 | when the OpenRouter service answers a known model's request with status 429, the caller receives the wrapped error for that provider and name, whose cause carries "429" and the response body |
| AiClient.ClientsBuiltOnce | ai_client.py:121-125 | once built, an SDK client is kept across any sequence of calls |
| AiClient.OpenAIClientBuiltOnlyWhenUsed | ai_client.py:33-35 | calls that never reach the OpenAI adapter never build its client |
| AiClient.CachedClientIgnoresEnvironment | ai_client.py:121-125 | with the client cached, the environment no longer affects an OpenAI call, and the cache stays the same |
| AiClient.MissingKeyCachesNothing | ai_client.py:121-124 | with no client and no key, the call fails with "OpenAI API key not configured" and caches nothing |
| AiClient.UniversalAIClient.constructor | ai_client.py:31-68 | the table is `model_mappings` and no SDK client exists yet |
| AiClient.UniversalAIClient.OpenAICompletion | ai_client.py:118-137 | returns the OpenAI adapter's result and builds the client only on first use |
| AiClient.UniversalAIClient.AnthropicCompletion | ai_client.py:139-169 | returns the Anthropic adapter's result, with the conversion loop, and builds the client only on first use |
| AiClient.UniversalAIClient.GetAvailableModels | ai_client.py:70-87 | exactly the five keys, each holding the table's names of that bucket in table order |
| AiClient.UniversalAIClient.ChatCompletion | ai_client.py:89-116 | returns `Complete` of the table and updates the client cache as the adapter it reached does |
| DiscordBot.DefaultsPresent | discord_bot.py:30-109 | both built-in tables define "default" |
| DiscordBot.MergeCharacters | discord_bot.py:118-120 | loaded characters override built-ins with the same id, and every other built-in is kept |
| DiscordBot.LoadCharacters | discord_bot.py:111-123 | a missing or unreadable file gives exactly the built-ins; a readable one gives the built-ins overlaid with the file's characters; in every case every built-in id is present |
| DiscordBot.CustomCharacters | discord_bot.py:502 | the saved payload is exactly the characters whose ids are not built in, unchanged |
| DiscordBot.ReloadAll | discord_bot.py:111-123 | loading back a file holding every character gives the same characters |
| DiscordBot.ReloadAfterDelete | discord_bot.py:502 | loading back the delete payload keeps every custom character and restores each built-in as first defined |
| DiscordBot.WellFormedBufferForAnthropic | ai_client.py:149-156 | for a bot buffer, Anthropic is sent the head prompt as `system` and exactly the messages after it |
| DiscordBot.Retain | discord_bot.py:206-208 | the trimmed buffer has `min(len, 21)` messages and keeps the first |
| DiscordBot.RetainKeepsSuffix | discord_bot.py:208 | after the head, what is kept is a suffix of the buffer, in order |
| DiscordBot.LastN | discord_bot.py:208 | `s[-n:]` on lists: `min(len, n)` elements, a suffix |
| DiscordBot.RetainKeepsLastTurns | discord_bot.py:206-208 | on a buffer headed by a system message, retention keeps the system message and the last 20 of the rest |
| DiscordBot.RetentionWindow | discord_bot.py:197-208 | after any run of successful turns, the buffer is the system message plus exactly the last 20 of all exchanged messages, in order |
| DiscordBot.FreshBufferBound | discord_bot.py:206-208 | from a fresh buffer, k successful turns leave `min(1 + 2k, 21)` messages with the system message first |
| DiscordBot.TwentyFiveExchanges | discord_bot.py:206-208 | twenty-five exchanges leave exactly 21 messages |
| DiscordBot.Preview | discord_bot.py:592 | text up to the limit is quoted whole; longer text is exactly its first `n` characters followed by "..." |
| DiscordBot.FollowUpPrompt | discord_bot.py:592 | the follow-up prompt is the opening quote with the preview of the last reply (at most 200 characters, else 200 and "..."), then exactly a closing quote and a blank line, then the user's text |
| DiscordBot.ContinuePrompt | discord_bot.py:660 | the continuation prompt is the fixed request followed by exactly the preview of the last reply and a closing quote |
| DiscordBot.ChunksReassemble | discord_bot.py:211-213 | the chunks put back together are the reply; each is non-empty and at most 2000 characters; all but the last are full |
| DiscordBot.Sent | discord_bot.py:210-215 | a reply up to 2000 characters is sent whole, a longer one in chunks |
| DiscordBot.SentReassembles | discord_bot.py:210-215 | every sent message is within Discord's limit, and together they are exactly the reply |
| DiscordBot.SplitReply | discord_bot.py:210-215 | the sending loop sends exactly `Sent(reply)` |
| DiscordBot.ActiveCharacter | discord_bot.py:172-173 | the channel's explicit character when it exists, else the default one |
| DiscordBot.FreshBuffer | discord_bot.py:174-176 | a fresh buffer is one system message holding the active character's prompt |
| DiscordBot.Seeded | discord_bot.py:169-176 | only a channel without a buffer gets a fresh one; nothing else changes |
| DiscordBot.TurnMessages | discord_bot.py:179-191 | the model is sent the (seeded) buffer with the user message appended |
| DiscordBot.Turn | discord_bot.py:169-219 | every turn keeps the default character and all buffers well formed |
| DiscordBot.TurnEffect | discord_bot.py:178-208 | a turn changes only the channel's buffer and, on success, its last reply; on success the buffer is the retained exchange, on failure the buffer plus the user message |
| DiscordBot.Record | discord_bot.py:197-208 | recording a reply or a failure keeps the state consistent |
| DiscordBot.TurnKeepsSystemMessage | discord_bot.py:206-208 | a turn never changes the system message at the head of the buffer |
| DiscordBot.TurnLength | discord_bot.py:206-208 | after a successful turn the buffer holds at most 21 entries, whatever its length before; a failed turn grows the buffer by exactly one |
| DiscordBot.TurnReport | discord_bot.py:210-218 | the channel gets the reply's chunks exactly on success, otherwise exactly "Sorry, I encountered an error: " followed by the error's text |
| DiscordBot.ProviderCauseReachesChannel | discord_bot.py:217-218 | when a provider fails, the apology the channel receives contains that provider's own error text |
| DiscordBot.Report | discord_bot.py:210-218 | what a turn sends, with the sending loop, is `TurnReport` |
| DiscordBot.RouteOf | discord_bot.py:150-167 | messages the bot itself sent are ignored (other bots' messages are not); outside the AI channel, or on a "!" prefix, messages go to the command dispatcher; otherwise, and in exactly that case, the stripped text goes to the model, and empty text is skipped |
| DiscordBot.ResetStep | discord_bot.py:280-289 | only the channel's buffer changes, to a fresh one for its active character |
| DiscordBot.SystemPromptStep | discord_bot.py:292-302 | the buffer becomes the prompt alone, the prompt is saved under `str(channel_id)`, and nothing else changes |
| DiscordBot.PresetStep | discord_bot.py:306-338 | no name lists the presets; an unknown lower-cased name changes nothing; a known one acts exactly as `system` with that preset |
| DiscordBot.PromptShown | discord_bot.py:347-350 | the head of the buffer if the channel has one, else the saved prompt, else the default preset |
| DiscordBot.SystemPromptIsolated | discord_bot.py:296-301 | after `system` the channel shows the new prompt and every other channel shows what it showed before |
| DiscordBot.CharacterStep | discord_bot.py:360-395 | no id shows the active character; an unknown lower-cased id changes nothing; a known one becomes the channel's explicit character and the buffer restarts with its prompt |
| DiscordBot.SwitchCharacterTakesEffect | discord_bot.py:389-395 | after a switch the channel's active character is the chosen one and its buffer is that character's fresh buffer |
| DiscordBot.CheckNewCharacter | discord_bot.py:433-466 | the checks in source order, each rejection holding exactly when the earlier checks passed and this one fails; a duplicate id is reported lower-cased, an unsupported model as given with the list of names; a created character has the lower-cased new id, a supported model, and the stripped description and prompt from the first separator |
| DiscordBot.CreateStep | discord_bot.py:428-469 | a rejection changes nothing; a creation adds exactly one character under its id |
| DiscordBot.CreatedIdSelectsCharacter | discord_bot.py:439-468 | the id a creation stores the character under, given back to `!character`, switches the channel to that very character |
| DiscordBot.Redirect | discord_bot.py:505-507 | channels whose active id is the deleted one point at "default"; every other entry is unchanged |
| DiscordBot.DeleteStep | discord_bot.py:487-507 | unknown and built-in ids change nothing; otherwise exactly that id is removed and its channels fall back |
| DiscordBot.DeleteFallsBackToDefault | discord_bot.py:504-507 | after a deletion, channels that used the deleted character talk to the default one, and all others keep their character |
| DiscordBot.SwitchModelStep | discord_bot.py:541-566 | an unknown id or model changes nothing; otherwise only that character's model changes, and only a channel with it as explicit active character restarts its buffer |
| DiscordBot.SwitchModelKeepsImplicitDefault | discord_bot.py:563-566 | a channel that only falls back to "default" keeps its buffer when the default's model is switched |
| DiscordBot.Bot.constructor | discord_bot.py:133-141 | start-up state: no buffers, the loaded characters merged over the built-ins, no active characters, no last replies, the loaded prompts |
| DiscordBot.Bot.EnsureConversation | discord_bot.py:169-176 | the fields become `Seeded` of the old state |
| DiscordBot.Bot.Converse | discord_bot.py:169-219 | the model gets the active character's model, temperature, token limit and `TurnMessages`; the fields become `Turn`; the channel is told `TurnReport` |
| DiscordBot.Bot.AppendUser | discord_bot.py:179 | the user message is appended to the channel's buffer before the call |
| DiscordBot.Bot.RecordReply | discord_bot.py:197-208 | the fields become `Record` of the reply |
| DiscordBot.Bot.OnMessage | discord_bot.py:149-222 | ignored and command-bound messages change nothing; a model-bound one asks the client for the active character's model with the channel's history plus the stripped text, records that reply as a turn, and leaves the client cache as that call leaves it |
| DiscordBot.Bot.Chat | discord_bot.py:224-278 | the reply is the client's completion of the channel's history plus the command's text under the active character; the state is that turn, and the cache is as that call leaves it |
| DiscordBot.Bot.Reset | discord_bot.py:280-290 | the fields become `ResetStep`; reports the active character's name |
| DiscordBot.Bot.SetSystemPrompt | discord_bot.py:292-304 | the fields become `SystemPromptStep`; the saved prompts are written |
| DiscordBot.Bot.SetPreset | discord_bot.py:306-340 | the fields and the outcome are `PresetStep`; the prompts file is written only when a preset is set |
| DiscordBot.Bot.ShowCurrentPrompt | discord_bot.py:342-358 | shows `PromptShown` |
| DiscordBot.Bot.SwitchCharacter | discord_bot.py:360-405 | the fields and the outcome are `CharacterStep` |
| DiscordBot.Bot.CreateCharacter | discord_bot.py:428-485 | the fields and the outcome are `CreateStep`; every character is written only on creation |
| DiscordBot.Bot.DeleteCharacter | discord_bot.py:487-509 | the fields and the outcome are `DeleteStep`, with the redirect loop; only the custom characters are written, and only on deletion |
| DiscordBot.Bot.SwitchModel | discord_bot.py:541-569 | the fields and the outcome are `SwitchModelStep`; every character is written only on a switch |
| DiscordBot.Bot.FollowUp | discord_bot.py:571-634 | with no last reply nothing changes, the cache included; otherwise the reply is the client's completion of the prompt quoting the last reply and the user's text, recorded as a turn |
| DiscordBot.Bot.ContinueChat | discord_bot.py:636-707 | with no last reply nothing changes, the cache included; otherwise the reply is the client's completion of the continuation prompt, recorded as a turn (`continue_chat` and its alias `more`) |

## Left out

- Discord itself is not modelled: events, the command parser, `ctx.send`, embeds and the typing indicator. A command returns an outcome value. The sending loop returns the list of messages it would send.
- The listing commands `characters`, `models` and `guide`, and `on_ready`, only format text. `models` shows `get_available_models`, which is modelled.
- `load_system_prompts`, `save_system_prompts`, `save_characters` and JSON file I/O: a load is a parameter (`None` for a missing or unreadable file), and a save is returned as the map that would be written.
- `app.py` is not part of this model.
- Concurrency: each handler is one atomic step. In the source, another handler can run at an `await` (the typing indicator, each send).
- HTTP headers, URLs, JSON encoding and the SDKs' internals: a `Backend` function stands for each service.
- The `print` debug and error lines are left out.
- The unreachable "Provider not implemented" branch of `chat_completion` is not modelled: `Provider` has exactly the four cases the table uses.
- discord.py's conversion of `temperature` and `max_tokens` arguments, and its errors for malformed numbers: `CreateCharacter` takes them already converted.
- The shallow copy of `DEFAULT_CHARACTERS` in `load_characters` shares the built-in character dicts. `switch_model` therefore also edits `DEFAULT_CHARACTERS`. Nothing in the core reads those values after start-up (`delete_character` checks keys only), so the model keeps the built-ins as an unchanged value.
- PyText.Lower: handles only ASCII letters, not the full Unicode case mapping of `str.lower`.
- DiscordBot.Turn: the model's reply content is always a string. In the source, a provider reply whose content is `None` is appended to the history and stored as the last reply; `on_message` then fails at the debug slice (discord_bot.py:204), before the history is trimmed, while `chat`, `follow` and `continue_chat` fail at `len(None)` after trimming; either way the apology is sent.
- AiClient.FromBridge: a `usage` field that is JSON `null` (the source then raises on `.get`) is treated as absent.
- AiClient.ClientError.Text: the list of model names is printed as Python's `repr`, which the model builds for names without quote characters. Every name in the table qualifies.
- The sending loop in `SplitReply` advances to the end of each chunk rather than by a fixed 2000. The chunks sent are the same, and the index is not used after the loop.
