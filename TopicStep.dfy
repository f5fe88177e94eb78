/** The topic step of the newer onboarding flow: topics come from the
    server, any number may be chosen. */
module TopicStep {
  import opened Wrappers
  import opened Strings

  /** The toggle a card's press applies to the current selection. The
      decision uses `isSelected`, worked out when the card was drawn, not
      the selection the updater receives. */
  function Toggle(prev: seq<string>, topicId: string, isSelected: bool): (next: seq<string>)
    ensures isSelected ==> next == Remove(prev, topicId)
    ensures !isSelected ==> |next| == |prev| + 1 && next[|next| - 1] == topicId && next[..|prev|] == prev
    ensures forall other :: other != topicId ==> (other in next <==> other in prev)
  {
    if isSelected then Remove(prev, topicId) else prev + [topicId]
  }

  /** With a selection drawn from the current state, a press flips the
      topic's membership, and twice pressing a topic that was not chosen
      gives the selection back. */
  lemma FreshToggleFlips(prev: seq<string>, topicId: string)
    ensures var next := Toggle(prev, topicId, topicId in prev);
      topicId in next <==> topicId !in prev
  {
  }

  lemma {:induction false} FreshToggleTwice(prev: seq<string>, topicId: string)
    requires topicId !in prev
    ensures var once := Toggle(prev, topicId, topicId in prev);
      Toggle(once, topicId, topicId in once) == prev
  {
    RemoveAppended(prev, topicId);
  }

  /** Two presses that run before the screen redraws both see the card as
      unchosen, so the topic ends up in the selection twice. */
  lemma StalePressesDuplicate(prev: seq<string>, topicId: string)
    requires topicId !in prev
    ensures var twice := Toggle(Toggle(prev, topicId, false), topicId, false);
      !Distinct(twice) && twice[|prev|] == twice[|prev| + 1] == topicId
  {
  }

  /** There is no cap: every unchosen topic can still be added. */
  lemma NoCap(prev: seq<string>, topicId: string)
    ensures |Toggle(prev, topicId, false)| > |prev|
  {
  }

  /** Continue is disabled while nothing is chosen. */
  function ContinueDisabled(selected: seq<string>): (disabled: bool)
    ensures disabled <==> selected == []
  {
    |selected| == 0
  }

  const DefaultIcon: string := "head-question"
  const DefaultColor: string := "#a78bfa"
  const UnselectedColor: string := "#ffffff60"

  /** `topic.icon || 'head-question'`: a missing or empty icon falls back. */
  function TopicIcon(icon: Option<string>): (name: string)
    ensures icon.Some? && icon.value != "" ==> name == icon.value
    ensures icon.None? || icon.value == "" ==> name == DefaultIcon
  {
    if icon.Some? && icon.value != "" then icon.value else DefaultIcon
  }

  /** The icon colour: the topic's colour (or the default violet) when
      chosen, a dim white otherwise. */
  function IconColor(isSelected: bool, color: Option<string>): (c: string)
    ensures !isSelected ==> c == UnselectedColor
    ensures isSelected && color.Some? && color.value != "" ==> c == color.value
    ensures isSelected && (color.None? || color.value == "") ==> c == DefaultColor
  {
    if !isSelected then UnselectedColor
    else if color.Some? && color.value != "" then color.value
    else DefaultColor
  }
}
