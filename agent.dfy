/** The voice agent's profile session: the two store-backed actions it adds
    to the profile functions (`lookup_profile`, `create_profile`) and the
    rule it applies to every committed user utterance. The speech session is
    replaced by the sequence of chat turns the code appends to it. */
module Agent {
  import opened Wrappers
  import opened TextOps
  import opened Dbi
  import opened Profile

  const PROFILE_NOT_FOUND := "Profile not found. " + "Please provide your details to create a new profile."
  const PROFILE_FOUND_HEADER := "Profile found:\n"
  const PROFILE_CREATED := "Profile created successfully!"
  const CREATION_PROMPT := "Please provide your name, school, and interview status separated by commas."
  const PROFILE_DETAILS_HEADER := "Your profile details:\n"
  const CREATE_PROFILE_REQUEST := "create profile"
  const MEDIA_PLACEHOLDER := "[media]"
  const WELCOME_MESSAGE := "\n    Welcome to the School and Interview Assistant! Please provide your name or say \"create profile\" to set up your user profile.\n"

  // ---------------------------------------------------------------------
  // Store keys
  // ---------------------------------------------------------------------

  /** The key `create_profile` stores a profile under:
      `name.lower().replace(" ", "_")`. */
  function UserIdFor(name: string): (id: string)
    ensures |id| == |name|
    ensures forall c :: c in id ==> c != ' ' && !IsAsciiUpper(c)
    ensures forall i :: 0 <= i < |name| ==> id[i] == if name[i] == ' ' then '_' else LowerChar(name[i])
  {
    var id := ReplaceChar(Lower(name), ' ', '_');
    assert forall i :: 0 <= i < |id| ==> id[i] != ' ' && !IsAsciiUpper(id[i]);
    id
  }

  /** A name is its own key exactly when it has no space and no upper-case
      letter. */
  lemma UserIdForFixedPoints(name: string)
    ensures UserIdFor(name) == name <==> forall c :: c in name ==> c != ' ' && !IsAsciiUpper(c)
  {
    if forall c :: c in name ==> c != ' ' && !IsAsciiUpper(c) {
      forall i | 0 <= i < |name| ensures UserIdFor(name)[i] == name[i] {
        assert name[i] in name;
      }
    }
  }

  /** Deriving the key twice gives the same key. */
  lemma UserIdForIdempotent(name: string)
    ensures UserIdFor(UserIdFor(name)) == UserIdFor(name)
  {
    UserIdForFixedPoints(UserIdFor(name));
  }

  // ---------------------------------------------------------------------
  // The two store-backed actions, as functions of the state and the store
  // ---------------------------------------------------------------------

  /** The new profile state and the text `lookup_profile` returns. */
  datatype LookupOutcome = LookupOutcome(state: ProfileRecord, reply: string)

  /** `lookup_profile(name)`: reads the store with `name` itself as the key.
      A hit replaces the state by the stored fields and reports them; a miss
      leaves the state alone. */
  function LookupResult(st: ProfileRecord, t: Table, name: string): (o: LookupOutcome)
    ensures name !in t ==> o.state == st
    ensures name in t <==> o.reply != PROFILE_NOT_FOUND
  {
    match Get(t, name)
    case None => LookupOutcome(st, PROFILE_NOT_FOUND)
    case Some(row) =>
      var found := ProfileRecord(row.name, row.school, row.interviewStatus);
      var reply := PROFILE_FOUND_HEADER + ProfileText(found);
      assert reply[8] == 'f' && PROFILE_NOT_FOUND[8] == 'n';
      LookupOutcome(found, reply)
  }

  /** The new profile state, the new store, and what `create_profile`
      returns or raises. */
  datatype CreateOutcome = CreateOutcome(state: ProfileRecord, store: Table, reply: Result<string, DbError>)

  /** `create_profile(name, school, interview_status)`: inserts under the
      derived key; the state is updated only after the insert succeeded. */
  function CreateResult(st: ProfileRecord, t: Table, name: string, school: string, status: string): (o: CreateOutcome)
    ensures o.reply.Ok? <==> UserIdFor(name) !in t
    ensures o.reply.Err? ==> o.state == st && o.store == t
    ensures o.reply.Ok? ==> |o.store| == |t| + 1 && (IsActive(o.state) <==> name != "")
  {
    match Insert(t, UserIdFor(name), name, school, status)
    case Err(e) => CreateOutcome(st, t, Err(e))
    case Ok((t', _)) => CreateOutcome(ProfileRecord(name, school, status), t', Ok(PROFILE_CREATED))
  }

  /** A miss returns the not-found text and changes nothing. */
  lemma LookupMissing(st: ProfileRecord, t: Table, name: string)
    requires name !in t
    ensures LookupResult(st, t, name) == LookupOutcome(st, PROFILE_NOT_FOUND)
  {
  }

  /** A hit installs the stored fields and reports exactly the new state;
      the conversation then has a profile iff the stored name is non-empty. */
  lemma LookupFound(st: ProfileRecord, t: Table, name: string)
    requires name in t
    ensures var o := LookupResult(st, t, name);
      && o.state == ProfileRecord(t[name].name, t[name].school, t[name].interviewStatus)
      && o.reply == PROFILE_FOUND_HEADER + ProfileText(o.state)
      && (IsActive(o.state) <==> t[name].name != "")
  {
  }

  /** Starting without a profile, a lookup activates one exactly when it
      hits a row whose name is non-empty. */
  lemma LookupActivatesOnlyOnHit(st: ProfileRecord, t: Table, name: string)
    requires !IsActive(st)
    ensures IsActive(LookupResult(st, t, name).state) <==> name in t && t[name].name != ""
  {
  }

  /** A new key: the row `(key, name, school, status)` is added, the state
      becomes the three arguments and the confirmation is returned. */
  lemma CreateInserts(st: ProfileRecord, t: Table, name: string, school: string, status: string)
    requires UserIdFor(name) !in t
    ensures var o := CreateResult(st, t, name, school, status);
      && o.store == t[UserIdFor(name) := UserProfile(UserIdFor(name), name, school, status)]
      && o.state == ProfileRecord(name, school, status)
      && o.reply == Ok(PROFILE_CREATED)
  {
  }

  /** A key already present: the insert raises before the state update, so
      neither the state nor the store changes. */
  lemma CreateConflictChangesNothing(st: ProfileRecord, t: Table, name: string, school: string, status: string)
    requires UserIdFor(name) in t
    ensures CreateResult(st, t, name, school, status) == CreateOutcome(st, t, Err(IntegrityError))
  {
  }

  /** After a successful create, a lookup with the derived key finds exactly
      the created profile, in any conversation. A lookup with the name as
      typed finds nothing when the name is not already in key form and the
      store had nothing under it: the two actions use different keys. */
  lemma CreatedProfileFoundOnlyByKey(st: ProfileRecord, other: ProfileRecord, t: Table,
                                     name: string, school: string, status: string)
    requires UserIdFor(name) !in t
    ensures var t' := CreateResult(st, t, name, school, status).store;
      && LookupResult(other, t', UserIdFor(name))
         == LookupOutcome(ProfileRecord(name, school, status),
                          PROFILE_FOUND_HEADER + ProfileText(ProfileRecord(name, school, status)))
      && (name !in t && UserIdFor(name) != name ==>
            LookupResult(other, t', name) == LookupOutcome(other, PROFILE_NOT_FOUND))
  {
    CreateInserts(st, t, name, school, status);
  }

  /** "Ada Lovelace" is stored under "ada_lovelace": a fresh conversation
      finds it by the key and not by the name. */
  lemma AdaLovelaceIsStoredUnderKey()
    ensures UserIdFor("Ada Lovelace") == "ada_lovelace"
    ensures var t := CreateResult(EMPTY_PROFILE, map[], "Ada Lovelace", "Imperial", "scheduled").store;
      && LookupResult(EMPTY_PROFILE, t, "ada_lovelace").state == ProfileRecord("Ada Lovelace", "Imperial", "scheduled")
      && LookupResult(EMPTY_PROFILE, t, "Ada Lovelace") == LookupOutcome(EMPTY_PROFILE, PROFILE_NOT_FOUND)
  {
    var id := UserIdFor("Ada Lovelace");
    assert |id| == 12;
    forall i | 0 <= i < 12 ensures id[i] == "ada_lovelace"[i] {
      assert id[i] == if "Ada Lovelace"[i] == ' ' then '_' else LowerChar("Ada Lovelace"[i]);
    }
    CreatedProfileFoundOnlyByKey(EMPTY_PROFILE, EMPTY_PROFILE, map[], "Ada Lovelace", "Imperial", "scheduled");
  }

  // ---------------------------------------------------------------------
  // The conversation channel and the per-turn rule
  // ---------------------------------------------------------------------

  datatype Role = User | Assistant

  /** One chat message on the session's conversation. */
  datatype Turn = Turn(role: Role, content: string)

  /** One element of a list-valued message: an image, or anything else,
      given by its `str()` text. */
  datatype Part = Image | Other(text: string)

  /** The content of a committed user message: a string or a list of parts. */
  datatype MessageContent = Plain(text: string) | Parts(parts: seq<Part>)

  function PartText(p: Part): string {
    match p
    case Image => MEDIA_PLACEHOLDER
    case Other(text) => text
  }

  /** The text the turn rule works on: list contents joined line by line
      with images replaced by `[media]`, then stripped. */
  function UtteranceText(msg: MessageContent): (text: string)
    ensures |text| <= |RawText(msg)|
    ensures text != [] ==> !IsSpace(text[0]) && !IsSpace(text[|text| - 1])
  {
    StripIsTrimmedSlice(RawText(msg));
    Strip(RawText(msg))
  }

  /** The message content before stripping. */
  function RawText(msg: MessageContent): (raw: string)
    ensures msg.Plain? ==> raw == msg.text
    ensures msg.Parts? && |msg.parts| == 1 ==> raw == PartText(msg.parts[0])
    ensures msg.Parts? && msg.parts == [] ==> raw == ""
  {
    match msg
    case Plain(s) => s
    case Parts(ps) => Join("\n", seq(|ps|, i requires 0 <= i < |ps| => PartText(ps[i])))
  }

  /** The decision text is a slice of the raw text with only whitespace
      before and after it, and itself neither starts nor ends with
      whitespace: exactly what `strip()` removes. */
  lemma UtteranceTextIsTrimmed(msg: MessageContent)
    ensures var raw, text := RawText(msg), UtteranceText(msg);
      exists i :: && 0 <= i <= |raw| - |text| && OccursAt(raw, text, i)
                  && (forall k :: 0 <= k < i ==> IsSpace(raw[k]))
                  && (forall k :: i + |text| <= k < |raw| ==> IsSpace(raw[k]))
                  && (text != [] ==> !IsSpace(text[0]) && !IsSpace(text[|text| - 1]))
  {
    var raw := RawText(msg);
    StripIsTrimmedSlice(raw);
    var i := |raw| - |StripStart(raw)|;
    assert OccursAt(raw, UtteranceText(msg), i);
  }

  /** A list-valued message is one line per part: appending a part appends
      a newline and that part's text, `[media]` for an image. */
  lemma PartsAreJoinedByNewlines(ps: seq<Part>, p: Part)
    requires ps != []
    ensures RawText(Parts(ps + [p])) == RawText(Parts(ps)) + "\n" + PartText(p)
  {
    var texts := seq(|ps|, i requires 0 <= i < |ps| => PartText(ps[i]));
    var texts' := seq(|ps + [p]|, i requires 0 <= i < |ps + [p]| => PartText((ps + [p])[i]));
    assert texts' == texts + [PartText(p)];
    JoinAppend("\n", texts, PartText(p));
  }

  /** A message made of one image is read as `[media]`. */
  lemma ImageOnlyMessage()
    ensures UtteranceText(Parts([Image])) == MEDIA_PLACEHOLDER
  {
    var texts := seq(1, i requires 0 <= i < 1 => PartText([Image][i]));
    assert texts == [MEDIA_PLACEHOLDER];
    assert StripStart(MEDIA_PLACEHOLDER) == MEDIA_PLACEHOLDER;
    assert StripEnd(MEDIA_PLACEHOLDER) == MEDIA_PLACEHOLDER;
  }

  /** The branch condition: `"create profile" in user_text.lower()`. */
  predicate AsksToCreate(text: string) {
    Contains(Lower(text), CREATE_PROFILE_REQUEST)
  }

  /** What one committed utterance does: the new profile state, the store
      afterwards, and the turns appended to the conversation. */
  datatype StepOutcome = StepOutcome(state: ProfileRecord, store: Table, turns: seq<Turn>)

  /** The `user_speech_committed` handler as a function of the profile state,
      the store and the message. */
  function Step(st: ProfileRecord, t: Table, msg: MessageContent): (o: StepOutcome)
    ensures |o.turns| == 2
    ensures o.turns[0] == Turn(User, UtteranceText(msg)) && o.turns[1].role == Assistant
    ensures o.store == t
    ensures IsActive(st) ==> o.state == st
  {
    var text := UtteranceText(msg);
    var echo := Turn(User, text);
    if !IsActive(st) then
      if AsksToCreate(text) then
        StepOutcome(st, t, [echo, Turn(Assistant, CREATION_PROMPT)])
      else
        var o := LookupResult(st, t, text);
        StepOutcome(o.state, t, [echo, Turn(Assistant, o.reply)])
    else
      StepOutcome(st, t, [echo, Turn(Assistant, PROFILE_DETAILS_HEADER + ProfileText(st))])
  }

  /** No profile and a request to create one: the creation instructions are
      sent and nothing else changes. */
  lemma StepCreateRequest(st: ProfileRecord, t: Table, msg: MessageContent)
    requires !IsActive(st) && AsksToCreate(UtteranceText(msg))
    ensures Step(st, t, msg) == StepOutcome(st, t, [Turn(User, UtteranceText(msg)), Turn(Assistant, CREATION_PROMPT)])
  {
  }

  /** No profile and any other utterance: the utterance is looked up as the
      key, the lookup's text is sent, and the conversation has a profile
      afterwards exactly when the key holds a row with a non-empty name. */
  lemma StepLookup(st: ProfileRecord, t: Table, msg: MessageContent)
    requires !IsActive(st) && !AsksToCreate(UtteranceText(msg))
    ensures var text, o := UtteranceText(msg), Step(st, t, msg);
      && o.state == LookupResult(st, t, text).state
      && o.turns[1] == Turn(Assistant, LookupResult(st, t, text).reply)
      && (IsActive(o.state) <==> text in t && t[text].name != "")
      && (text !in t ==> o.state == st && o.turns[1].content == PROFILE_NOT_FOUND)
  {
  }

  /** With a profile, every utterance is answered with the profile details
      and the state stays as it is. */
  lemma StepWithProfile(st: ProfileRecord, t: Table, msg: MessageContent)
    requires IsActive(st)
    ensures Step(st, t, msg) == StepOutcome(st, t, [Turn(User, UtteranceText(msg)),
                                                    Turn(Assistant, PROFILE_DETAILS_HEADER + ProfileText(st))])
  {
  }

  /** A profile created through the function-calling path with a non-empty
      name is what every later utterance is answered with. */
  lemma CreatedProfileIsReported(st: ProfileRecord, t: Table, name: string, school: string, status: string,
                                 msg: MessageContent)
    requires UserIdFor(name) !in t && name != ""
    ensures var o := CreateResult(st, t, name, school, status);
      Step(o.state, o.store, msg).turns[1]
        == Turn(Assistant, PROFILE_DETAILS_HEADER + ProfileText(ProfileRecord(name, school, status)))
  {
    CreateInserts(st, t, name, school, status);
  }

  /** `"create profile"` written in some mix of cases starts at `i`. */
  predicate RequestAt(text: string, i: int) {
    0 <= i <= |text| - |CREATE_PROFILE_REQUEST|
    && Lower(text[i..i + |CREATE_PROFILE_REQUEST|]) == CREATE_PROFILE_REQUEST
  }

  /** The creation request is recognised case-insensitively: the text asks to
      create a profile exactly when some slice of it spells
      "create profile" in any mix of cases. */
  lemma CreateRequestIgnoresCase(text: string)
    ensures AsksToCreate(text) <==> exists i :: RequestAt(text, i)
  {
    var n := |CREATE_PROFILE_REQUEST|;
    if AsksToCreate(text) {
      var i :| 0 <= i <= |text| - n && OccursAt(Lower(text), CREATE_PROFILE_REQUEST, i);
      LowerSlice(text, i, i + n);
      assert RequestAt(text, i);
    }
    if i :| RequestAt(text, i) {
      LowerSlice(text, i, i + n);
      assert OccursAt(Lower(text), CREATE_PROFILE_REQUEST, i);
    }
  }

  /** For instance, `CREATE Profile` spells the request. */
  lemma UpperCaseRequest()
    ensures Lower("CREATE Profile") == CREATE_PROFILE_REQUEST
  {
    var request := "CREATE Profile";
    forall k | 0 <= k < |request| ensures Lower(request)[k] == CREATE_PROFILE_REQUEST[k] {
      assert Lower(request)[k] == LowerChar(request[k]);
    }
  }

  /** The turns the handler appends for a sequence of utterances, handled
      one at a time. */
  function Run(st: ProfileRecord, t: Table, msgs: seq<MessageContent>): (o: StepOutcome)
    ensures |o.turns| == 2 * |msgs|
    decreases |msgs|
  {
    if msgs == [] then StepOutcome(st, t, [])
    else
      var first := Step(st, t, msgs[0]);
      var rest := Run(first.state, first.store, msgs[1..]);
      StepOutcome(rest.state, rest.store, first.turns + rest.turns)
  }

  /** The whole conversation of a session: the welcome message, then the
      turns of every committed utterance. */
  function Conversation(t: Table, msgs: seq<MessageContent>): (c: seq<Turn>)
    ensures |c| == 1 + 2 * |msgs| && c[0] == Turn(Assistant, WELCOME_MESSAGE)
  {
    [Turn(Assistant, WELCOME_MESSAGE)] + Run(EMPTY_PROFILE, t, msgs).turns
  }

  /** The normalised text of every utterance, in order. */
  function UtteranceTexts(msgs: seq<MessageContent>): (texts: seq<string>)
    ensures |texts| == |msgs|
    ensures forall j :: 0 <= j < |msgs| ==> texts[j] == UtteranceText(msgs[j])
  {
    if msgs == [] then [] else [UtteranceText(msgs[0])] + UtteranceTexts(msgs[1..])
  }

  /** `turns` holds, for text `j`, its echo at `2j` and an assistant reply at
      `2j + 1`, and nothing else. */
  predicate EchoesAndReplies(turns: seq<Turn>, texts: seq<string>) {
    && |turns| == 2 * |texts|
    && forall j :: 0 <= j < |texts| ==>
         turns[2 * j] == Turn(User, texts[j]) && turns[2 * j + 1].role == Assistant
  }

  lemma EchoesAndRepliesCons(head: seq<Turn>, tail: seq<Turn>, texts: seq<string>)
    requires texts != [] && EchoesAndReplies(tail, texts[1..])
    requires |head| == 2 && head[0] == Turn(User, texts[0]) && head[1].role == Assistant
    ensures EchoesAndReplies(head + tail, texts)
  {
    forall j | 0 < j < |texts|
      ensures (head + tail)[2 * j] == Turn(User, texts[j])
      ensures (head + tail)[2 * j + 1].role == Assistant
    {
      assert texts[j] == texts[1..][j - 1];
      assert (head + tail)[2 * j] == tail[2 * (j - 1)];
      assert (head + tail)[2 * j + 1] == tail[2 * (j - 1) + 1];
    }
  }

  /** Utterance `j` produces turns `2j` (its echo) and `2j + 1` (the reply). */
  lemma {:induction false} RunInterleavesEchoAndReply(st: ProfileRecord, t: Table, msgs: seq<MessageContent>)
    ensures EchoesAndReplies(Run(st, t, msgs).turns, UtteranceTexts(msgs))
    decreases |msgs|
  {
    if msgs != [] {
      var first := Step(st, t, msgs[0]);
      RunInterleavesEchoAndReply(first.state, first.store, msgs[1..]);
      EchoesAndRepliesCons(first.turns, Run(first.state, first.store, msgs[1..]).turns, UtteranceTexts(msgs));
    }
  }

  /** The handler never writes to the store. */
  lemma {:induction false} RunKeepsStore(st: ProfileRecord, t: Table, msgs: seq<MessageContent>)
    ensures Run(st, t, msgs).store == t
    decreases |msgs|
  {
    if msgs != [] {
      RunKeepsStore(Step(st, t, msgs[0]).state, t, msgs[1..]);
    }
  }

  /** Once the conversation has a profile, no later utterance changes it. */
  lemma {:induction false} RunKeepsActiveProfile(st: ProfileRecord, t: Table, msgs: seq<MessageContent>)
    requires IsActive(st)
    ensures Run(st, t, msgs).state == st
    decreases |msgs|
  {
    if msgs != [] {
      RunKeepsActiveProfile(st, t, msgs[1..]);
    }
  }

  /** The welcome message comes first; after it, user echoes and assistant
      replies alternate, each echo carrying its normalised utterance. */
  lemma ConversationOrder(t: Table, msgs: seq<MessageContent>)
    ensures var c := Conversation(t, msgs);
      && |c| == 1 + 2 * |msgs|
      && c[0] == Turn(Assistant, WELCOME_MESSAGE)
      && forall j :: 0 <= j < |msgs| ==>
           c[2 * j + 1] == Turn(User, UtteranceText(msgs[j])) && c[2 * j + 2].role == Assistant
  {
    var c, r := Conversation(t, msgs), Run(EMPTY_PROFILE, t, msgs).turns;
    var texts := UtteranceTexts(msgs);
    assert c == [Turn(Assistant, WELCOME_MESSAGE)] + r;
    RunInterleavesEchoAndReply(EMPTY_PROFILE, t, msgs);
    forall j | 0 <= j < |msgs|
      ensures c[2 * j + 1] == Turn(User, UtteranceText(msgs[j])) && c[2 * j + 2].role == Assistant
    {
      assert c[2 * j + 1] == r[2 * j] == Turn(User, texts[j]);
      assert c[2 * j + 2] == r[2 * j + 1];
    }
  }

  // ---------------------------------------------------------------------
  // The objects of a running session
  // ---------------------------------------------------------------------

  /** The profile functions extended with the two store-backed actions. The
      store is the process-wide driver, passed to each action. */
  class FullAssistantFnc {
    /** The profile functions and their `_user_profile` state. */
    const fns: AssistantFnc

    constructor ()
      ensures fresh(fns)
      ensures fns.userProfile == EMPTY_PROFILE
    {
      fns := new AssistantFnc();
    }

    /** `lookup_profile(name)`. */
    method LookupProfile(db: DatabaseDriver, name: string) returns (reply: string)
      requires db.Valid()
      modifies fns
      ensures var o := LookupResult(old(fns.userProfile), db.table, name);
        fns.userProfile == o.state && reply == o.reply
    {
      var profile := db.GetUserProfile(name);
      if profile.None? {
        return PROFILE_NOT_FOUND;
      }
      fns.userProfile := ProfileRecord(profile.value.name, profile.value.school, profile.value.interviewStatus);
      var text := fns.GetProfileStr();
      reply := PROFILE_FOUND_HEADER + text;
    }

    /** `create_profile(name, school, interview_status)`; an `Err` result
        stands for the integrity error the insert raises. */
    method CreateProfile(db: DatabaseDriver, name: string, school: string, interviewStatus: string)
      returns (reply: Result<string, DbError>)
      requires db.Valid()
      modifies fns, db
      ensures db.Valid()
      ensures var o := CreateResult(old(fns.userProfile), old(db.table), name, school, interviewStatus);
        fns.userProfile == o.state && db.table == o.store && reply == o.reply
    {
      var created := db.CreateUserProfile(UserIdFor(name), name, school, interviewStatus);
      if created.Err? {
        return Err(created.error);
      }
      fns.userProfile := ProfileRecord(name, school, interviewStatus);
      reply := Ok(PROFILE_CREATED);
    }
  }

  /** One conversation: its profile functions, the store they use, and the
      turns appended to the conversation so far. */
  class Session {
    const fnc: FullAssistantFnc
    const db: DatabaseDriver
    var conversation: seq<Turn>

    /** Joining a session posts the welcome message before anything else. */
    constructor (db: DatabaseDriver)
      ensures this.db == db
      ensures fresh(fnc) && fresh(fnc.fns)
      ensures fnc.fns.userProfile == EMPTY_PROFILE
      ensures conversation == [Turn(Assistant, WELCOME_MESSAGE)]
    {
      this.db := db;
      fnc := new FullAssistantFnc();
      conversation := [Turn(Assistant, WELCOME_MESSAGE)];
    }

    /** `on_user_speech_committed`: normalise the message, echo it, then
        answer by the three-way rule. */
    method OnUserSpeechCommitted(msg: MessageContent)
      requires db.Valid()
      modifies this, fnc.fns
      ensures var o := Step(old(fnc.fns.userProfile), old(db.table), msg);
        && fnc.fns.userProfile == o.state
        && db.table == o.store
        && conversation == old(conversation) + o.turns
    {
      var userText := UtteranceText(msg);
      conversation := conversation + [Turn(User, userText)];
      var active := fnc.fns.HasProfile();
      if !active {
        if AsksToCreate(userText) {
          conversation := conversation + [Turn(Assistant, CREATION_PROMPT)];
        } else {
          var lookupResponse := fnc.LookupProfile(db, userText);
          conversation := conversation + [Turn(Assistant, lookupResponse)];
        }
      } else {
        var profileStr := fnc.fns.GetProfileStr();
        conversation := conversation + [Turn(Assistant, PROFILE_DETAILS_HEADER + profileStr)];
      }
    }
  }
}
