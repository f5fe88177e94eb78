/** A block of text that is cut to a maximum length, with a toggle that
    shows the whole text and collapses it again. Lengths are counted in
    characters of the modelled string. */
module ExpandableText {
  import opened Wrappers

  const DefaultMaxLength: int := 100
  const Ellipsis: string := "..."
  const ViewAllKey: string := "ui.expandableText.viewAll"
  const CollapseKey: string := "ui.expandableText.collapse"

  /** `s.slice(0, end)`: a negative end counts from the back, and the
      result never reaches past either end of the string. */
  function SliceTo(s: string, end: int): (r: string)
    ensures r <= s
    ensures 0 <= end <= |s| ==> |r| == end
    ensures end >= |s| ==> r == s
    ensures end < 0 ==> |r| == if |s| + end < 0 then 0 else |s| + end
  {
    if end >= |s| then s
    else if end >= 0 then s[..end]
    else if |s| + end < 0 then []
    else s[..|s| + end]
  }

  /** `content.length > maxLength`: the text is long enough to be cut. */
  function ShouldShowToggle(content: string, maxLength: int): (show: bool)
    ensures show <==> |content| > maxLength
    ensures show && maxLength >= 0 ==> content != ""
  {
    |content| > maxLength
  }

  /** The text on screen: cut and followed by "..." while collapsed and too
      long, otherwise the whole content. */
  function DisplayText(content: string, maxLength: int, isExpanded: bool): (text: string)
    ensures !ShouldShowToggle(content, maxLength) || isExpanded ==> text == content
    ensures ShouldShowToggle(content, maxLength) && !isExpanded && maxLength >= 0 ==>
      |text| == maxLength + 3 && text[..maxLength] == content[..maxLength] && text[maxLength..] == Ellipsis
  {
    if ShouldShowToggle(content, maxLength) && !isExpanded then SliceTo(content, maxLength) + Ellipsis
    else content
  }

  /** A collapsed text (of content that is rendered at all) is a proper
      prefix of the content followed by the ellipsis. */
  lemma CollapsedIsPrefixPlusEllipsis(content: string, maxLength: int)
    requires content != "" && ShouldShowToggle(content, maxLength)
    ensures var text := DisplayText(content, maxLength, false);
      && |text| >= 3 && text[|text| - 3..] == Ellipsis
      && text[..|text| - 3] <= content
      && |text[..|text| - 3]| < |content|
  {
    var cut := SliceTo(content, maxLength);
    assert DisplayText(content, maxLength, false) == cut + Ellipsis;
    assert (cut + Ellipsis)[..|cut|] == cut;
    assert |cut| < |content|;
  }

  /** What is rendered: nothing, or the text with the toggle's label when
      the toggle is shown. */
  datatype View = View(text: string, toggleLabel: Option<string>)

  function Render(content: Option<string>, maxLength: int, isExpanded: bool): (v: Option<View>)
    ensures v.None? <==> content.None? || content.value == ""
    ensures v.Some? ==> v.value.text == DisplayText(content.value, maxLength, isExpanded)
    ensures v.Some? ==> (v.value.toggleLabel.Some? <==> ShouldShowToggle(content.value, maxLength))
    ensures v.Some? && v.value.toggleLabel.Some? ==>
      v.value.toggleLabel.value == (if isExpanded then CollapseKey else ViewAllKey)
  {
    if content.None? || content.value == "" then None
    else
      var c := content.value;
      var toggle := if isExpanded then CollapseKey else ViewAllKey;
      Some(View(DisplayText(c, maxLength, isExpanded),
                if ShouldShowToggle(c, maxLength) then Some(toggle) else None))
  }

  /** With the default limit a text of at most 100 characters is shown
      whole and without a toggle. */
  lemma ShortTextUntouched(content: string, isExpanded: bool)
    requires content != [] && |content| <= DefaultMaxLength
    ensures Render(Some(content), DefaultMaxLength, isExpanded) == Some(View(content, None))
  {
  }

  /** The component's state: its props and whether it is expanded. */
  class Expandable {
    const content: Option<string>
    const maxLength: int
    var isExpanded: bool

    constructor (content: Option<string>, maxLength: int)
      ensures this.content == content && this.maxLength == maxLength
      ensures !isExpanded
    {
      this.content := content;
      this.maxLength := maxLength;
      isExpanded := false;
    }

    function Shown(): Option<View>
      reads this
    {
      Render(content, maxLength, isExpanded)
    }

    /** `handleToggle`, once its fade-out has finished: the flag flips. */
    method HandleToggle()
      modifies this
      ensures isExpanded == !old(isExpanded)
      ensures Shown() == Render(content, maxLength, !old(isExpanded))
    {
      isExpanded := !isExpanded;
    }
  }

  /** Two completed toggles give back the same view. */
  method ToggleTwice(e: Expandable) returns (before: Option<View>, after: Option<View>)
    modifies e
    ensures before == old(e.Shown()) && after == e.Shown()
    ensures after == before
  {
    before := e.Shown();
    e.HandleToggle();
    e.HandleToggle();
    after := e.Shown();
  }
}
