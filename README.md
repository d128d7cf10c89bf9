# PrepSage profile session, modelled in Dafny

PrepSage is a voice assistant for school and interview preparation. At the
start of a conversation it posts a welcome message. Each committed user
utterance is then echoed into the conversation and answered by a three-way
rule:

- without a profile, "create profile" (in any case) gets the creation instructions;
- without a profile, any other utterance is looked up as a profile key;
- with a profile, the profile details are sent back.

The language model driving the session may also call profile actions on its
own: `lookup_profile`, `create_profile`, `set_profile`, `get_profile` and
`interview_tips`. Profiles are kept in a SQLite table `user_profiles` whose
primary key is `user_id`.

The model has five modules, one per concern:

- `Wrappers` (wrappers.dfy): `Option` and `Result`.
- `TextOps` (text.dfy): the ASCII behaviour of the Python string operations
  the code uses: `lower`, `capitalize`, one-character `replace`, `strip`,
  substring `in` and `join`.
- `Dbi` (dbi_driver.dfy): the `UserProfile` record; the table as a map from
  `user_id` to record; the functions `Get` and `Insert`; and the class
  `DatabaseDriver`, whose `table` field the methods read and update.
- `Profile` (assistant_fnc.dfy): the `_user_profile`
  state as a `ProfileRecord`, its reference rendering `ProfileText`, and the
  class `AssistantFnc`. `GetProfileStr` keeps the source's loop over the
  dictionary items.
- `Agent` (agent.dfy):
  - the functions `LookupResult` and `CreateResult`, which specify the two
    store-backed actions;
  - the per-turn rule `Step` and its fold `Run` over a sequence of utterances;
  - the class `FullAssistantFnc`, with the two action methods;
  - the class `Session`, whose `conversation` field (a `seq<Turn>`) only
    grows by appending.

  Python's `FullAssistantFnc` subclasses `AssistantFnc`. Here it holds one
  instead (`fns`). The process-wide `DB` singleton becomes a
  `DatabaseDriver` passed to the actions and held by the session.

## Behaviour as written

The model follows the code. Where the code does less than its own comments
and prompts suggest (the handler asks for comma-separated details at
agent.py:100-103 but never reads them), it follows the code:

- `lookup_profile(name)` reads the store with `name` unchanged as the key
  (agent.py:32). `create_profile` stores under
  `name.lower().replace(" ", "_")` (agent.py:49). So "Ada Lovelace" is
  stored at "ada_lovelace" and found only by that key
  (`Agent.AdaLovelaceIsStoredUnderKey`, `Agent.CreatedProfileFoundOnlyByKey`).
- The turn handler never calls `create_profile`. After the creation
  instructions, no state waits for creation details and nothing parses
  comma-separated input. The next utterance is looked up like any other.
- No field is validated. An empty name gives a record that is not an
  active profile.
- A repeated `user_id` makes the insert raise SQLite's integrity error.
  Nothing catches it: `create_profile` propagates it before touching the
  profile state. It is modelled as an `Err(IntegrityError)` result.
- A lookup that finds a row whose name is empty installs that row, and the
  conversation still has no profile.

## Model

| member | source | states |
|---|---|---|
| `TextOps.Lower` | agent.py:49 | `lower()` keeps the length, lower-cases every ASCII capital and leaves every other character as it was; the result has no ASCII capital. |
| `TextOps.Capitalize` | assistant_fnc.py:21 | `capitalize()` keeps the length, maps the first character through the ASCII upper-casing and every later character through the ASCII lower-casing, so the first character is not a lower-case letter and no later one is a capital. |
| `TextOps.ReplaceChar` | agent.py:49 | `replace(" ", "_")` keeps the length, turns every occurrence of the old character into the new one and keeps every other character; the old character no longer occurs. |
| `TextOps.Join` | agent.py:86-88 | Joining no parts gives the empty text; joining one part gives that part, with no separator. |
| `TextOps.StripStartIsSuffix` | agent.py:89 | What the leading strip keeps is a suffix of the input. |
| `TextOps.StripStartDropsSpace` | agent.py:89 | Every character the leading strip removes is whitespace. |
| `TextOps.StripStartNoLeadingSpace` | agent.py:89 | What the leading strip keeps does not start with whitespace. |
| `TextOps.StripEndIsPrefix` | agent.py:89 | What the trailing strip keeps is a prefix of the input. |
| `TextOps.StripEndDropsSpace` | agent.py:89 | Every character the trailing strip removes is whitespace. |
| `TextOps.StripEndNoTrailingSpace` | agent.py:89 | What the trailing strip keeps does not end with whitespace. |
| `TextOps.StripStartSpec` | agent.py:89 | The leading part `strip` removes is all whitespace. What remains is a suffix of the input that does not start with whitespace. |
| `TextOps.StripEndSpec` | agent.py:89 | The trailing part `strip` removes is all whitespace. What remains is a prefix that does not end with whitespace. |
| `TextOps.StripIsTrimmedSlice` | agent.py:89 | `strip()` returns a contiguous slice of the input. Everything before and after the slice is whitespace, and the slice neither starts nor ends with whitespace. |
| `TextOps.StripIdempotent` | agent.py:89 | Stripping an already stripped text changes nothing. |
| `TextOps.JoinAppend` | agent.py:86-88 | `sep.join` puts exactly one separator between neighbouring parts: one more part adds the separator and that part at the end. |
| `TextOps.JoinLength` | agent.py:86-88 | The joined text is as long as the parts together plus one separator for each neighbouring pair. |
| `Dbi.Get` | dbi_driver.py:51-64 | The read returns a row exactly when the key is stored, and then the stored row. |
| `Dbi.Insert` | dbi_driver.py:41-49 | The insert succeeds exactly when the key is new, and otherwise fails with the integrity error. On success the table gains exactly that key, holding the returned record, whose fields are the arguments. |
| `Dbi.InsertThenGet` | dbi_driver.py:41-64 | An insert succeeds exactly when the `user_id` is new. It returns a record whose fields are its arguments, and a read of that key then returns that record. |
| `Dbi.InsertConflictKeepsTable` | dbi_driver.py:31-47 | Inserting an existing primary key fails with the integrity error and leaves the table unchanged. |
| `Dbi.InsertKeepsOtherKeys` | dbi_driver.py:44-48 | A successful insert leaves the read of every other key as it was and adds exactly one row. |
| `Dbi.InsertKeepsWellKeyed` | dbi_driver.py:44-49 | After an insert, every row is still stored under its own `user_id`. |
| `Dbi.DatabaseDriver.constructor` | dbi_driver.py:14-39 | Opening the database keeps the existing rows (`CREATE TABLE IF NOT EXISTS`). |
| `Dbi.DatabaseDriver.CreateUserProfile` | dbi_driver.py:41-49 | Returns `Ok` exactly when the key was absent. On success the record carries the arguments and the table gains exactly that row. On the integrity error the table is unchanged. |
| `Dbi.DatabaseDriver.GetUserProfile` | dbi_driver.py:51-64 | Returns `None` exactly when the key is absent, and otherwise the stored row, whose `user_id` is the key. Writes nothing. |
| `Profile.ProfileText` | assistant_fnc.py:18-22 | The rendering has the fixed 35 characters of keys, separators and newlines plus the three values, and ends with a newline. |
| `Profile.CapitalizedKeys` | assistant_fnc.py:21 | `capitalize()` turns the keys `name`, `school`, `interview_status` into `Name`, `School`, `Interview_status`. |
| `Profile.RenderedItemsAreProfileText` | assistant_fnc.py:18-22 | One `Key: value\n` line per dictionary item, in dictionary order, gives exactly the three-line reference text. |
| `Profile.ProfileTextLayout` | assistant_fnc.py:12-22 | The rendered profile is exactly `Name: n\nSchool: s\nInterview_status: i\n`. |
| `Profile.ProfileTextInjective` | assistant_fnc.py:18-22 | The rendering loses nothing: if no field holds a newline, equal texts come from equal records. |
| `Profile.ActivityIgnoresDetails` | assistant_fnc.py:55-56 | Whether a profile is active depends on the name alone. An empty name is never active. |
| `Profile.AssistantFnc.constructor` | assistant_fnc.py:9-16 | A conversation starts with all three fields empty, so with no profile. |
| `Profile.AssistantFnc.GetProfileStr` | assistant_fnc.py:18-22 | The loop over the items returns exactly the reference rendering of the current state. |
| `Profile.AssistantFnc.SetProfile` | assistant_fnc.py:24-37 | Overwrites all three fields without validation and returns `User profile updated.`. The state is then active iff the new name is non-empty. |
| `Profile.AssistantFnc.GetProfile` | assistant_fnc.py:39-42 | Returns the rendering of the current state and modifies nothing, so two calls in a row return the same text. |
| `Profile.AssistantFnc.InterviewTips` | assistant_fnc.py:44-53 | Returns the fixed five-line tips text whatever the state, and modifies nothing. |
| `Profile.AssistantFnc.HasProfile` | assistant_fnc.py:55-56 | True exactly when the name is non-empty. |
| `Agent.UserIdFor` | agent.py:49 | The derived key is as long as the name; each of its characters is `_` where the name has a space and the lower-cased name character elsewhere, so it contains neither a space nor an upper-case ASCII letter. |
| `Agent.UserIdForFixedPoints` | agent.py:49 | A name is its own key exactly when it has no space and no upper-case letter. |
| `Agent.UserIdForIdempotent` | agent.py:49 | Deriving the key from a key gives the same key. |
| `Agent.LookupResult` | agent.py:30-40 | The reply is the not-found text exactly when the name is not a stored key, and then the state is unchanged. |
| `Agent.CreateResult` | agent.py:42-55 | Creation succeeds exactly when the derived key is new. On the error neither state nor store changes; on success the store gains one row and the state is active iff the name is non-empty. |
| `Agent.LookupMissing` | agent.py:31-34 | An absent key returns `Profile not found. Please provide your details to create a new profile.` and leaves the state unchanged. |
| `Agent.LookupFound` | agent.py:35-40 | A present key sets the state to the stored name, school and status. It returns `Profile found:\n` followed by the rendering of the new state, and the state is active iff the stored name is non-empty. |
| `Agent.LookupActivatesOnlyOnHit` | agent.py:32-40 | Starting without a profile, a lookup activates one exactly when the key holds a row with a non-empty name. |
| `Agent.CreateInserts` | agent.py:43-55 | For a new derived key, the store gains `UserProfile(key, name, school, status)`, the state becomes the three arguments, and the reply is `Profile created successfully!`. |
| `Agent.CreateConflictChangesNothing` | agent.py:49-50 | For an existing derived key, the integrity error is raised before the state update, so neither the state nor the store changes. |
| `Agent.CreatedProfileFoundOnlyByKey` | agent.py:32-49 | After a create, a lookup with the derived key finds the created profile in any conversation. A lookup with the name as typed finds nothing when that name is not in key form and was not already a key. |
| `Agent.AdaLovelaceIsStoredUnderKey` | agent.py:32-49 | `Ada Lovelace` is stored at `ada_lovelace`, found by `lookup_profile("ada_lovelace")` and not by `lookup_profile("Ada Lovelace")`. |
| `Agent.RawText` | agent.py:85-88 | A plain message is its own text; a list of one part is that part's text; an empty list is the empty text. |
| `Agent.UtteranceText` | agent.py:85-89 | The text the rule works on is no longer than the raw content and neither starts nor ends with whitespace. |
| `Agent.UtteranceTextIsTrimmed` | agent.py:85-89 | The text the rule works on is a slice of the joined message content, everything before and after that slice is whitespace, and the slice neither starts nor ends with whitespace. |
| `Agent.PartsAreJoinedByNewlines` | agent.py:85-88 | A list-valued message becomes one line per part: each further part adds a newline and its text, with `[media]` for an image. |
| `Agent.ImageOnlyMessage` | agent.py:85-89 | A message made of one image is read as `[media]`. |
| `Agent.Step` | agent.py:84-120 | Every utterance appends exactly two turns: first the user echo with the normalised text, then one assistant reply. The store is not written, and an active profile is kept. |
| `Agent.StepCreateRequest` | agent.py:98-106 | With no profile and "create profile" in the lower-cased text, the reply is the comma-separated creation instructions, and state and store stay unchanged. |
| `Agent.StepLookup` | agent.py:107-113 | With no profile and any other text, the reply and new state are those of `lookup_profile(text)`. The state becomes active iff that key holds a row with a non-empty name; a missing key changes nothing and replies not-found. |
| `Agent.StepWithProfile` | agent.py:114-120 | With a profile, the reply is `Your profile details:\n` followed by the rendering, and state and store stay unchanged. |
| `Agent.CreatedProfileIsReported` | agent.py:49-118 | After a successful `create_profile` with a non-empty name, the next utterance is answered with that profile's details. |
| `Agent.CreateRequestIgnoresCase` | agent.py:99 | The creation test is case-insensitive, in both directions: a text asks to create a profile exactly when some slice of it spells `create profile` in some mix of cases. |
| `Agent.UpperCaseRequest` | agent.py:99 | `CREATE Profile` lower-cases to `create profile`, so it counts as the request. |
| `Agent.Run` | agent.py:82-120 | A sequence of utterances appends two turns per utterance. |
| `Agent.Conversation` | agent.py:76-120 | A session's conversation is the welcome message followed by two turns per utterance. |
| `Agent.RunInterleavesEchoAndReply` | agent.py:82-120 | Over any sequence of utterances, utterance `j` produces turn `2j` (its echo, with its normalised text) and turn `2j+1` (an assistant reply), and nothing else is appended. |
| `Agent.RunKeepsStore` | agent.py:97-120 | The handler itself never writes to the store, over any sequence of turns (actions the language model calls in between are not part of this). |
| `Agent.RunKeepsActiveProfile` | agent.py:114-120 | Once the conversation has a profile, the handler alone never changes it on a later utterance (actions the language model calls in between are not part of this). |
| `Agent.ConversationOrder` | agent.py:76-95 | The welcome message is the first turn of a session. After it, user echoes and assistant replies alternate. |
| `Agent.FullAssistantFnc.constructor` | agent.py:26-28 | The extended functions start from the empty profile state. |
| `Agent.FullAssistantFnc.LookupProfile` | agent.py:30-40 | Reads the store with the raw name. The new state and the reply are those `LookupResult` specifies, and the store is not written. |
| `Agent.FullAssistantFnc.CreateProfile` | agent.py:42-55 | Inserts under the derived key. The new state, new store and reply or error are those `CreateResult` specifies, and the store keeps every row under its own key. |
| `Agent.Session.constructor` | agent.py:68-80 | A new session holds an empty profile state, and its conversation is exactly the welcome message. |
| `Agent.Session.OnUserSpeechCommitted` | agent.py:82-120 | Handles one committed utterance. It appends exactly the turns of `Step` to the conversation, sets the profile state to `Step`'s, and leaves the store as `Step` says. |

## Left out

- The LiveKit session and model: connecting, waiting for the participant, `RealtimeModel`, `AgentSession`, `cli.run_app`. They are transport and foreign code. The conversation is modelled only as the turns the code itself appends.
- `session.response.create()`: the replies the language model generates after each turn are produced outside this code and are not in the modelled conversation.
- When the language model decides to call `lookup_profile`, `create_profile`, `set_profile`, `get_profile` or `interview_tips`. The model gives these as methods that can be called between two utterances, but not the model's choice, and not calls that interleave with the handler.
- Agent.Step: the decision is modelled with no action running between the echo and the `has_profile()` test. The source awaits `session.response.create()` at agent.py:95 in between, and during that await the language model may call `create_profile`, `lookup_profile` or `set_profile` on the same function context (agent.py:73); `Step`, `Run` and the lemmas about them describe the handler alone.
- `async`/`await` and registering the handler as an event callback. Utterances are handled one at a time, as a sequential step function.
- The `@llm.ai_callable` and `llm.TypeInfo` descriptors. They are metadata for function calling and have no behaviour.
- SQLite connections, cursors and commits. The table is a map field. Storage I/O failures are not modelled: inserts fail only on a repeated primary key, and reads never fail.
- Sharing the store between concurrent conversations.
- Logging calls in the profile functions.
- The in-place reassignment of `msg.content` in the handler. Only the normalised text that the rest of the handler reads is modelled.
- `str(x)` for a non-image part of a list message. Such a part is given by its text.
- `TextOps.Lower`: lower-cases ASCII letters only, where Python's `str.lower` also lower-cases other scripts.
- `TextOps.Capitalize`: is ASCII-only in the same way.
- `TextOps.Strip`: removes the ASCII characters `str.isspace` accepts (tab through carriage return, 0x1C-0x1F, space), but not Unicode spaces such as U+0085 or U+00A0.
- server.py is not part of this model. Its token endpoint, room listing and `generate_room_name` are network and randomness code.
- The prompt texts in prompts.py: `INSTRUCTIONS` and `LOOKUP_PROFILE_MESSAGE` go only to the language model. `WELCOME_MESSAGE` is carried as a constant.
