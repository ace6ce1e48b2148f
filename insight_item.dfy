/**
 * One insight card: the quoted excerpt of the originating thought, the
 * suggested-tasks section, and the pin callback bound to this insight.
 */
module InsightItem {
  import opened Wrappers
  import opened Text
  import opened Types
  import PinToggle
  import UseInsights

  /** The excerpt is shown when the insight carries its idea dump with a written text or a transcript. */
  function HasExcerpt(i: Insight): (b: bool)
    ensures b <==> i.ideaDump.Some? && ExcerptSource(i.ideaDump.value) != ""
  {
    i.ideaDump.Some? && (Present(i.ideaDump.value.contentText) || Present(i.ideaDump.value.transcript))
  }

  /** `contentText || transcript || ''`. */
  function ExcerptSource(d: IdeaDumpView): (r: string)
    ensures Present(d.contentText) ==> r == d.contentText.value
    ensures !Present(d.contentText) && Present(d.transcript) ==> r == d.transcript.value
    ensures !Present(d.contentText) && !Present(d.transcript) ==> r == ""
  {
    if Present(d.contentText) then d.contentText.value
    else if Present(d.transcript) then d.transcript.value
    else ""
  }

  /**
   * The excerpt text: in quotes, at most the first 150 characters of the
   * source, always followed by an ellipsis.
   */
  function Excerpt(i: Insight): (r: Option<string>)
    ensures r.Some? <==> HasExcerpt(i)
    ensures r.Some? ==>
      var src := ExcerptSource(i.ideaDump.value);
      var n := |r.value| - 5;
      0 < n <= 150 && n == (if |src| < 150 then |src| else 150)
      && r.value[0] == '"' && r.value[1..n + 1] == src[..n] && r.value[n + 1..] == "...\""
  {
    if HasExcerpt(i) then Some("\"" + Take(ExcerptSource(i.ideaDump.value), 150) + "...\"") else None
  }

  /** The "Suggested Tasks" section is rendered exactly for a non-empty list. */
  function ShowsSuggestedTasks(i: Insight): (b: bool)
    ensures b <==> i.suggestedTasks != []
  {
    |i.suggestedTasks| > 0
  }

  /** The pin button's click: `onPinToggle` with this insight's id and the opposite of its flag. */
  function PinClick(i: Insight): (r: (string, bool))
    ensures r.0 == i.id && r.1 == !i.pinned
  {
    (i.id, PinToggle.ClickValue(i.pinned))
  }

  /**
   * A click followed by the hook's accepted `togglePin` flips the clicked
   * insight's flag and changes nothing else about it.
   */
  lemma ClickFlipsPin(insights: seq<Insight>, k: nat)
    requires k < |insights|
    ensures var c := PinClick(insights[k]);
      UseInsights.SetPinned(insights, c.0, c.1)[k] == insights[k].(pinned := !insights[k].pinned)
  {
  }
}
