/** The profile page: the stored profile, its editing form and the small
    display rules around them. */
module Profile {
  import opened Wrappers
  import opened Strings

  /** The profile as the server returns it; any field may be missing. */
  datatype UserProfile = UserProfile(
    nickname: Option<string>,
    birthday: Option<string>,
    bio: Option<string>,
    interests: Option<seq<string>>,
    goals: Option<seq<string>>)

  /** The editing form once editing has started: every field present. */
  datatype EditForm = EditForm(nickname: string, birthday: string, bio: string, interests: seq<string>, goals: seq<string>)

  /** `s || ''` on an optional string. */
  function TextOr(s: Option<string>, default: string): (r: string)
    ensures s.Some? && s.value != "" ==> r == s.value
    ensures s.None? || s.value == "" ==> r == default
  {
    if s.Some? && s.value != "" then s.value else default
  }

  /** `handleEditStart`: the form starts from the profile, missing text
      fields as "" and missing lists as []. */
  function EditStartForm(profile: Option<UserProfile>): (form: EditForm)
    ensures profile.None? ==> form == EditForm("", "", "", [], [])
    ensures profile.Some? && profile.value.nickname.Some? ==> form.nickname == profile.value.nickname.value
    ensures profile.Some? && profile.value.birthday.Some? ==> form.birthday == profile.value.birthday.value
    ensures profile.Some? && profile.value.bio.Some? ==> form.bio == profile.value.bio.value
    ensures profile.Some? && (profile.value.nickname.None? || profile.value.nickname.value == "") ==> form.nickname == ""
    ensures profile.Some? && (profile.value.birthday.None? || profile.value.birthday.value == "") ==> form.birthday == ""
    ensures profile.Some? && (profile.value.bio.None? || profile.value.bio.value == "") ==> form.bio == ""
    ensures profile.Some? ==> form.interests == profile.value.interests.GetOr([])
    ensures profile.Some? ==> form.goals == profile.value.goals.GetOr([])
  {
    match profile
    case None => EditForm("", "", "", [], [])
    case Some(p) =>
      EditForm(TextOr(p.nickname, ""), TextOr(p.birthday, ""), TextOr(p.bio, ""), p.interests.GetOr([]), p.goals.GetOr([]))
  }

  /** The interest chip: a chosen interest is removed, another appended;
      only `interests` changes. */
  function ToggleInterest(form: EditForm, topicId: string): (next: EditForm)
    ensures next == form.(interests := next.interests)
    ensures topicId in next.interests <==> topicId !in form.interests
    ensures forall other :: other != topicId ==> (other in next.interests <==> other in form.interests)
    ensures topicId !in form.interests ==> next.interests == form.interests + [topicId]
    ensures Distinct(form.interests) ==> Distinct(next.interests)
  {
    var current := form.interests;
    if topicId in current then form.(interests := Remove(current, topicId))
    else
      assert Distinct(current) ==> Distinct(current + [topicId]);
      form.(interests := current + [topicId])
  }

  /** Toggling twice gives the form back when the interest was not chosen,
      or was the most recent choice. */
  lemma {:induction false} ToggleTwiceRestores(form: EditForm, topicId: string)
    requires Distinct(form.interests)
    requires topicId !in form.interests || (form.interests != [] && form.interests[|form.interests| - 1] == topicId)
    ensures ToggleInterest(ToggleInterest(form, topicId), topicId) == form
  {
    var xs := form.interests;
    if topicId !in xs {
      RemoveAppended(xs, topicId);
    } else {
      var init := xs[..|xs| - 1];
      assert xs == init + [topicId];
      assert topicId !in init;
      RemoveAppended(init, topicId);
    }
  }

  /** An interest chosen earlier than the most recent one comes back at
      the end after two taps: the order of the list changes. */
  lemma ToggleTwiceMovesToEnd(form: EditForm, topicId: string)
    requires Distinct(form.interests) && topicId in form.interests
    requires form.interests[|form.interests| - 1] != topicId
    ensures ToggleInterest(ToggleInterest(form, topicId), topicId).interests == Remove(form.interests, topicId) + [topicId]
    ensures ToggleInterest(ToggleInterest(form, topicId), topicId) != form
  {
    var twice := ToggleInterest(ToggleInterest(form, topicId), topicId).interests;
    assert twice[|twice| - 1] == topicId;
    assert |twice| == |form.interests| ==> twice[|twice| - 1] != form.interests[|form.interests| - 1];
  }

  const InterestLabels: seq<(string, string)> := [
    ("anxiety", "焦虑缓解"), ("stress", "压力管理"), ("relationship", "人际关系"),
    ("mood", "情绪低落"), ("career", "职场困扰"), ("intimate", "亲密关系"),
    ("growth", "自我成长"), ("free", "自由聊聊")
  ]

  function LookupLabel(table: seq<(string, string)>, id: string): (r: Option<string>)
    ensures r.None? <==> forall i :: 0 <= i < |table| ==> table[i].0 != id
    ensures r.Some? ==> exists i :: 0 <= i < |table| && table[i] == (id, r.value)
  {
    if table == [] then None
    else if table[0].0 == id then Some(table[0].1)
    else
      var r := LookupLabel(table[1..], id);
      assert forall i :: 0 <= i < |table| - 1 ==> table[1..][i] == table[i + 1];
      r
  }

  /** `labels[id] || id`: an unknown interest is shown as its id. */
  function InterestLabel(id: string): (text: string)
    ensures (forall i :: 0 <= i < |InterestLabels| ==> InterestLabels[i].0 != id) ==> text == id
    ensures forall i :: 0 <= i < |InterestLabels| && InterestLabels[i].0 == id ==> text == InterestLabels[i].1
  {
    match LookupLabel(InterestLabels, id)
    case None => id
    case Some(name) => name
  }

  /** The avatar letter: the first character of the nickname, or of "用户". */
  function AvatarInitial(profile: Option<UserProfile>): (c: char)
    ensures var name := if profile.Some? then TextOr(profile.value.nickname, "用户") else "用户";
      c == name[0]
    ensures profile.None? || profile.value.nickname.None? ==> c == '用'
  {
    var name := if profile.Some? then TextOr(profile.value.nickname, "用户") else "用户";
    name[0]
  }

  /** At most five memories are previewed, the first five in list order. */
  function PreviewMemories<T>(memories: seq<T>): (shown: seq<T>)
    ensures |shown| == if |memories| < 5 then |memories| else 5
    ensures shown <= memories
    ensures |memories| <= 5 ==> shown == memories
  {
    Take(memories, 5)
  }

  /** The preview icon: known memory types get their own, anything else the
      lightbulb. */
  function MemoryIcon(memoryType: string): (icon: string)
    ensures memoryType !in {"preference", "experience", "relationship"} ==> icon == "lightbulb"
    ensures memoryType == "preference" ==> icon == "heart"
    ensures memoryType == "experience" ==> icon == "clock-time-four"
    ensures memoryType == "relationship" ==> icon == "account-group"
  {
    if memoryType == "preference" then "heart"
    else if memoryType == "experience" then "clock-time-four"
    else if memoryType == "relationship" then "account-group"
    else "lightbulb"
  }

  /** The page state that the edit buttons change. */
  class Editor {
    var isEditing: bool
    var editForm: EditForm

    constructor ()
      ensures !isEditing && editForm == EditForm("", "", "", [], [])
    {
      isEditing := false;
      editForm := EditForm("", "", "", [], []);
    }

    method EditStart(profile: Option<UserProfile>)
      modifies this
      ensures isEditing && editForm == EditStartForm(profile)
    {
      editForm := EditStartForm(profile);
      isEditing := true;
    }

    method SetNickname(text: string)
      modifies this`editForm
      ensures editForm == old(editForm).(nickname := text)
    {
      editForm := editForm.(nickname := text);
    }

    method SetBio(text: string)
      modifies this`editForm
      ensures editForm == old(editForm).(bio := text)
    {
      editForm := editForm.(bio := text);
    }

    method PressInterest(topicId: string)
      modifies this`editForm
      ensures editForm == ToggleInterest(old(editForm), topicId)
    {
      editForm := ToggleInterest(editForm, topicId);
    }

    /** `handleSave`: the form is sent; editing ends on success, an alert
        is raised on failure and the form is kept. */
    method Save(succeeded: bool) returns (sent: EditForm, alerted: bool)
      modifies this`isEditing
      ensures sent == editForm
      ensures alerted <==> !succeeded
      ensures isEditing == (old(isEditing) && !succeeded)
    {
      sent := editForm;
      if succeeded {
        isEditing := false;
        alerted := false;
      } else {
        alerted := true;
      }
    }
  }
}
