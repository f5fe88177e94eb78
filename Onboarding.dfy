/** The three-step onboarding screen: welcome, choosing at most two
    counselling topics, and the matching summary. */
module Onboarding {
  import opened Wrappers
  import opened Strings

  datatype Topic = Topic(id: string, name: string, icon: string, color: string)

  const Topics: seq<Topic> := [
    Topic("anxiety", "焦虑缓解", "head-question", "#f59e0b"),
    Topic("stress", "压力管理", "lightning-bolt", "#ef4444"),
    Topic("relationship", "人际关系", "account-group", "#06b6d4"),
    Topic("mood", "情绪低落", "emoticon-sad", "#6366f1"),
    Topic("work", "职场困扰", "briefcase", "#10b981"),
    Topic("love", "亲密关系", "heart", "#ec4899"),
    Topic("growth", "自我成长", "sprout", "#84cc16"),
    Topic("other", "自由聊聊", "chat", "#8b5cf6")
  ]

  const MaxTopics: nat := 2

  /** What the screen keeps about the selection: at most two topics, none twice. */
  predicate WellFormed(selected: seq<string>)
  {
    |selected| <= MaxTopics && Distinct(selected)
  }

  /** The `handleTopicSelect` updater: a tap on a chosen topic removes it; a
      tap on a new one appends it, first dropping the oldest choice when two
      are already chosen. */
  function TopicSelect(prev: seq<string>, topicId: string): (next: seq<string>)
    ensures topicId in next <==> topicId !in prev
    ensures topicId in prev ==> next == Remove(prev, topicId)
    ensures topicId !in prev ==> next[|next| - 1] == topicId
    ensures topicId !in prev && |prev| >= MaxTopics ==> next[..|next| - 1] == prev[1..]
    ensures topicId !in prev && |prev| < MaxTopics ==> next[..|next| - 1] == prev
  {
    if topicId in prev then Remove(prev, topicId)
    else if |prev| >= MaxTopics then prev[1..] + [topicId]
    else prev + [topicId]
  }

  /** The selection never grows beyond two topics and never holds one twice. */
  lemma TopicSelectKeepsWellFormed(prev: seq<string>, topicId: string)
    requires WellFormed(prev)
    ensures WellFormed(TopicSelect(prev, topicId))
  {
    var next := TopicSelect(prev, topicId);
    if topicId !in prev {
      assert forall k :: 0 <= k < |next| - 1 ==> next[k] in prev;
    }
  }

  /** A new topic on a full selection evicts exactly the oldest choice. */
  lemma FullSelectionEvictsOldest(prev: seq<string>, topicId: string)
    requires WellFormed(prev) && |prev| == MaxTopics && topicId !in prev
    ensures TopicSelect(prev, topicId) == [prev[1], topicId]
    ensures prev[0] !in TopicSelect(prev, topicId)
  {
  }

  /** Tapping the same topic twice on a selection with room, or on one
      that already holds it as the newest choice, gives the selection back. */
  lemma {:induction false} TapTwiceRestores(prev: seq<string>, topicId: string)
    requires WellFormed(prev)
    requires (topicId !in prev && |prev| < MaxTopics) || (prev != [] && prev[|prev| - 1] == topicId)
    ensures TopicSelect(TopicSelect(prev, topicId), topicId) == prev
  {
    if topicId !in prev {
      RemoveAppended(prev, topicId);
    } else {
      var init := prev[..|prev| - 1];
      assert prev == init + [topicId];
      assert topicId !in init;
      RemoveAppended(init, topicId);
    }
  }

  /** The label of a topic id, if it is one of the eight topics. */
  function TopicLabel(topicId: string): (name: Option<string>)
    ensures name.None? <==> forall i :: 0 <= i < |Topics| ==> Topics[i].id != topicId
    ensures name.Some? ==> exists i :: 0 <= i < |Topics| && Topics[i].id == topicId && Topics[i].name == name.value
  {
    FindLabel(Topics, topicId)
  }

  function FindLabel(topics: seq<Topic>, topicId: string): (name: Option<string>)
    ensures name.None? <==> forall i :: 0 <= i < |topics| ==> topics[i].id != topicId
    ensures name.Some? ==> exists i :: 0 <= i < |topics| && topics[i].id == topicId && topics[i].name == name.value
  {
    if topics == [] then None
    else if topics[0].id == topicId then Some(topics[0].name)
    else
      var rest := FindLabel(topics[1..], topicId);
      assert forall i :: 0 <= i < |topics| - 1 ==> topics[1..][i] == topics[i + 1];
      rest
  }

  /** The matching screen's labels: the chosen ids in choice order, each
      mapped to its label, ids that are not topics dropped. */
  function SelectedLabels(selected: seq<string>): (names: seq<string>)
    ensures |names| <= |selected|
    ensures (forall i :: 0 <= i < |selected| ==> TopicLabel(selected[i]).Some?) ==> |names| == |selected|
    ensures forall i :: 0 <= i < |selected| && TopicLabel(selected[i]).Some? ==> TopicLabel(selected[i]).value in names
  {
    LabelsIn(Topics, selected)
  }

  function LabelsIn(topics: seq<Topic>, selected: seq<string>): (names: seq<string>)
    ensures |names| <= |selected|
    ensures (forall i :: 0 <= i < |selected| ==> FindLabel(topics, selected[i]).Some?) ==> |names| == |selected|
    ensures forall i :: 0 <= i < |selected| && FindLabel(topics, selected[i]).Some? ==> FindLabel(topics, selected[i]).value in names
  {
    if selected == [] then []
    else
      var init := LabelsIn(topics, selected[..|selected| - 1]);
      assert forall i :: 0 <= i < |selected| - 1 ==> selected[..|selected| - 1][i] == selected[i];
      match FindLabel(topics, selected[|selected| - 1])
      case None => init
      case Some(name) => init + [name]
  }

  /** Every label listed is the label of some chosen id: nothing else
      is added. */
  lemma {:induction false} LabelsFromChoices(topics: seq<Topic>, selected: seq<string>)
    ensures forall j :: 0 <= j < |LabelsIn(topics, selected)| ==>
      exists i :: 0 <= i < |selected| && FindLabel(topics, selected[i]) == Some(LabelsIn(topics, selected)[j])
    decreases |selected|
  {
    if selected != [] {
      var init := selected[..|selected| - 1];
      var last := selected[|selected| - 1];
      LabelsFromChoices(topics, init);
      var before := LabelsIn(topics, init);
      var names := LabelsIn(topics, selected);
      var tail := match FindLabel(topics, last) case Some(name) => [name] case None => [];
      assert names == before + tail;
      forall j | 0 <= j < |names|
        ensures exists i :: 0 <= i < |selected| && FindLabel(topics, selected[i]) == Some(names[j])
      {
        if j < |before| {
          assert names[j] == before[j];
          var i :| 0 <= i < |init| && FindLabel(topics, init[i]) == Some(before[j]);
          assert selected[i] == init[i];
        } else {
          assert FindLabel(topics, selected[|selected| - 1]) == Some(names[j]);
        }
      }
    } else {
      assert |LabelsIn(topics, selected)| == 0;
    }
  }

  /** One chosen id gives its label, or nothing when it is not a topic. */
  lemma LabelsOfOne(topics: seq<Topic>, topicId: string)
    ensures LabelsIn(topics, [topicId]) == match FindLabel(topics, topicId) case Some(name) => [name] case None => []
  {
    assert [topicId][..0] == [];
  }

  /** The labels follow the choice order: the labels of a longer choice
      are those of its first part followed by those of the rest. */
  lemma {:induction false} LabelsAppend(topics: seq<Topic>, a: seq<string>, b: seq<string>)
    ensures LabelsIn(topics, a + b) == LabelsIn(topics, a) + LabelsIn(topics, b)
    decreases |b|
  {
    if b == [] {
      assert a + b == a;
    } else {
      var ab := a + b;
      var b' := b[..|b| - 1];
      var last := b[|b| - 1];
      assert ab[..|ab| - 1] == a + b';
      assert ab[|ab| - 1] == last;
      LabelsAppend(topics, a, b');
      var tail := match FindLabel(topics, last) case Some(name) => [name] case None => [];
      assert LabelsIn(topics, ab) == LabelsIn(topics, a + b') + tail;
      assert LabelsIn(topics, b) == LabelsIn(topics, b') + tail;
    }
  }

  /** The "next" button on the topic step is disabled while nothing is chosen. */
  function NextDisabled(selected: seq<string>): (disabled: bool)
    ensures disabled <==> selected == []
  {
    |selected| == 0
  }

  /** What finishing onboarding stores and where it goes. */
  datatype Completion = Completion(onboardingCompleted: string, selectedTopics: seq<string>, route: string)

  class Screen {
    var currentStep: int
    var selectedTopics: seq<string>

    /** The step is one of the three screens and the selection is well formed. */
    ghost predicate Valid()
      reads this
    {
      0 <= currentStep <= 2 && WellFormed(selectedTopics)
    }

    constructor ()
      ensures Valid()
      ensures currentStep == 0 && selectedTopics == []
    {
      currentStep := 0;
      selectedTopics := [];
    }

    /** `handleNext`, wired to the welcome button and to the enabled next
        button of the topic step: one step forward. */
    method HandleNext()
      requires Valid()
      requires currentStep == 0 || (currentStep == 1 && !NextDisabled(selectedTopics))
      modifies this`currentStep
      ensures Valid()
      ensures currentStep == old(currentStep) + 1
    {
      currentStep := currentStep + 1;
    }

    method HandleTopicSelect(topicId: string)
      requires Valid()
      modifies this`selectedTopics
      ensures Valid()
      ensures selectedTopics == TopicSelect(old(selectedTopics), topicId)
    {
      TopicSelectKeepsWellFormed(selectedTopics, topicId);
      selectedTopics := TopicSelect(selectedTopics, topicId);
    }

    /** `handleComplete`: marks onboarding done, stores the chosen topics and
        replaces the route with the home screen. */
    method HandleComplete() returns (done: Completion)
      requires Valid()
      ensures done == Completion("true", selectedTopics, "/")
      ensures |done.selectedTopics| <= MaxTopics
    {
      done := Completion("true", selectedTopics, "/");
    }
  }
}
