/** The per-conversation profile state and the actions the language model
    may call on it: render, overwrite, read, interview tips, and the
    "is there a profile" test. */
module Profile {
  import opened TextOps

  /** The `_user_profile` dictionary. Its three keys are always present and
      stay in the order name, school, interview_status. */
  datatype ProfileRecord = ProfileRecord(name: string, school: string, interviewStatus: string)

  /** The state a conversation starts in: every field empty. */
  const EMPTY_PROFILE := ProfileRecord("", "", "")

  const PROFILE_UPDATED := "User profile updated."

  const INTERVIEW_TIPS :=
    "Here are some interview tips:\n"
    + "- Research the company beforehand.\n"
    + "- Practice common interview questions.\n"
    + "- Dress professionally.\n"
    + "- Be confident and clear in your answers."

  /** `has_profile`: a profile is active exactly when the name is non-empty. */
  predicate IsActive(p: ProfileRecord) {
    p.name != ""
  }

  /** One line of the rendered profile: `Key: value` and a newline. */
  function Line(key: string, value: string): string {
    key + ": " + value + "\n"
  }

  /** The profile as its three lines, in the fixed order name, school,
      interview status. This is the reference form of `get_profile_str`. */
  function ProfileText(p: ProfileRecord): (text: string)
    ensures |text| == 35 + |p.name| + |p.school| + |p.interviewStatus|
    ensures text[|text| - 1] == '\n'
  {
    Line("Name", p.name) + Line("School", p.school) + Line("Interview_status", p.interviewStatus)
  }

  /** The dictionary's items, in iteration order. */
  function Items(p: ProfileRecord): seq<(string, string)> {
    [("name", p.name), ("school", p.school), ("interview_status", p.interviewStatus)]
  }

  /** One line of `get_profile_str`: `f"{key.capitalize()}: {value}\n"`. */
  function ItemLine(item: (string, string)): string {
    Line(Capitalize(item.0), item.1)
  }

  /** The lines of the given items, concatenated in order. */
  function RenderItems(items: seq<(string, string)>): string {
    if items == [] then "" else RenderItems(items[..|items| - 1]) + ItemLine(items[|items| - 1])
  }

  lemma LowerOfLowercase(s: string)
    requires forall c :: c in s ==> !IsAsciiUpper(c)
    ensures Lower(s) == s
  {
    assert forall i :: 0 <= i < |s| ==> s[i] in s;
  }

  /** Capitalising the three dictionary keys gives the three labels. */
  lemma CapitalizedKeys()
    ensures Capitalize("name") == "Name"
    ensures Capitalize("school") == "School"
    ensures Capitalize("interview_status") == "Interview_status"
  {
    CapitalizedKey("name", "Name");
    CapitalizedKey("school", "School");
    CapitalizedKey("interview_status", "Interview_status");
  }

  /** A key whose first letter is the label's, lower-cased, and whose other
      characters have no capitals, capitalises to the label. */
  lemma CapitalizedKey(key: string, expected: string)
    requires |key| > 0 && |expected| == |key|
    requires IsAsciiLower(key[0]) && expected[0] == UpperChar(key[0])
    requires key[1..] == expected[1..]
    requires forall c :: c in key[1..] ==> !IsAsciiUpper(c)
    ensures Capitalize(key) == expected
  {
    LowerOfLowercase(key[1..]);
    assert Capitalize(key) == [expected[0]] + expected[1..];
  }

  /** Rendering the dictionary item by item gives the reference text. */
  lemma RenderedItemsAreProfileText(p: ProfileRecord)
    ensures RenderItems(Items(p)) == ProfileText(p)
  {
    CapitalizedKeys();
    var items := Items(p);
    assert items[..1][..0] == [];
    assert RenderItems(items[..1]) == Line("Name", p.name);
    assert items[..2][..1] == items[..1];
    assert RenderItems(items[..2]) == Line("Name", p.name) + Line("School", p.school);
    assert items[..3] == items;
  }

  /** Written out, the rendered profile is
      `Name: <name>\nSchool: <school>\nInterview_status: <status>\n`. */
  lemma ProfileTextLayout(p: ProfileRecord)
    ensures ProfileText(p) == "Name: " + p.name + "\nSchool: " + p.school
                              + "\nInterview_status: " + p.interviewStatus + "\n"
  {
  }

  /** If `x + "\n" + y == x' + "\n" + y'` and neither `x` nor `x'` holds a
      newline, then the two splits are the same. */
  lemma SplitAtFirstNewline(x: string, y: string, x': string, y': string)
    requires '\n' !in x && '\n' !in x'
    requires x + "\n" + y == x' + "\n" + y'
    ensures x == x' && y == y'
  {
    var s := x + "\n" + y;
    assert s[|x|] == '\n';
    assert s[|x'|] == '\n';
    assert x == s[..|x|] == x';
    assert y == s[|x| + 1..] == y';
  }

  /** A line followed by anything can be taken apart again when the value
      holds no newline. */
  lemma LineInjective(key: string, v: string, rest: string, v': string, rest': string)
    requires '\n' !in v && '\n' !in v'
    requires Line(key, v) + rest == Line(key, v') + rest'
    ensures v == v' && rest == rest'
  {
    var k := key + ": ";
    assert Line(key, v) + rest == k + (v + "\n" + rest);
    assert Line(key, v') + rest' == k + (v' + "\n" + rest');
    assert v + "\n" + rest == (k + (v + "\n" + rest))[|k|..];
    assert v' + "\n" + rest' == (k + (v' + "\n" + rest'))[|k|..];
    SplitAtFirstNewline(v, rest, v', rest');
  }

  /** The rendered profile loses nothing: when no field holds a newline, two
      records with the same text are the same record. */
  lemma ProfileTextInjective(p: ProfileRecord, q: ProfileRecord)
    requires '\n' !in p.name && '\n' !in p.school && '\n' !in p.interviewStatus
    requires '\n' !in q.name && '\n' !in q.school && '\n' !in q.interviewStatus
    requires ProfileText(p) == ProfileText(q)
    ensures p == q
  {
    var tailP := Line("School", p.school) + Line("Interview_status", p.interviewStatus);
    var tailQ := Line("School", q.school) + Line("Interview_status", q.interviewStatus);
    assert ProfileText(p) == Line("Name", p.name) + tailP;
    assert ProfileText(q) == Line("Name", q.name) + tailQ;
    LineInjective("Name", p.name, tailP, q.name, tailQ);
    LineInjective("School", p.school, Line("Interview_status", p.interviewStatus),
                  q.school, Line("Interview_status", q.interviewStatus));
    LineInjective("Interview_status", p.interviewStatus, "", q.interviewStatus, "");
  }

  /** Whether a profile is active depends on the name alone. */
  lemma ActivityIgnoresDetails(name: string, school: string, status: string, school': string, status': string)
    ensures IsActive(ProfileRecord(name, school, status)) == IsActive(ProfileRecord(name, school', status'))
    ensures !IsActive(ProfileRecord("", school, status))
  {
  }

  /** The profile functions the language model may call, over the state of
      one conversation. */
  class AssistantFnc {
    /** `_user_profile`. */
    var userProfile: ProfileRecord

    /** A new conversation starts with every field empty, so without a profile. */
    constructor ()
      ensures userProfile == EMPTY_PROFILE
      ensures !IsActive(userProfile)
    {
      userProfile := EMPTY_PROFILE;
    }

    /** `get_profile_str`: walks the dictionary's items and appends one
        `Key: value` line per item. */
    method GetProfileStr() returns (text: string)
      ensures text == ProfileText(userProfile)
    {
      var items := Items(userProfile);
      text := "";
      var i := 0;
      while i < |items|
        invariant 0 <= i <= |items|
        invariant text == RenderItems(items[..i])
      {
        assert items[..i + 1][..i] == items[..i];
        text := text + ItemLine(items[i]);
        i := i + 1;
      }
      assert items[..i] == items;
      RenderedItemsAreProfileText(userProfile);
    }

    /** `set_profile`: overwrites all three fields, with no validation. */
    method SetProfile(name: string, school: string, interviewStatus: string) returns (reply: string)
      modifies this
      ensures userProfile == ProfileRecord(name, school, interviewStatus)
      ensures reply == PROFILE_UPDATED
      ensures IsActive(userProfile) <==> name != ""
    {
      userProfile := ProfileRecord(name, school, interviewStatus);
      reply := PROFILE_UPDATED;
    }

    /** `get_profile`: the rendered profile; reads the state and changes
        nothing, so two calls in a row give the same text. */
    method GetProfile() returns (text: string)
      ensures text == ProfileText(userProfile)
    {
      text := GetProfileStr();
    }

    /** `interview_tips`: the same five lines whatever the state. */
    method InterviewTips() returns (tips: string)
      ensures tips == INTERVIEW_TIPS
    {
      tips := INTERVIEW_TIPS;
    }

    /** `has_profile`. */
    method HasProfile() returns (active: bool)
      ensures active <==> userProfile.name != ""
    {
      active := IsActive(userProfile);
    }
  }
}
