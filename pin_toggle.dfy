/** The bookmark button on an insight: its click value, its title and its icon fill. */
module PinToggle {

  /** A click asks for the opposite of the current state. */
  function ClickValue(pinned: bool): (r: bool)
    ensures r != pinned
  {
    !pinned
  }

  /** Two clicks, each seeing the state the first one produced, come back to the start. */
  lemma ClickTwice(pinned: bool)
    ensures ClickValue(ClickValue(pinned)) == pinned
  {
  }

  /** The button's title names the action a click performs. */
  function Title(pinned: bool): (r: string)
    ensures r == "Unpin" <==> pinned
    ensures r == "Pin" <==> !pinned
  {
    if pinned then "Unpin" else "Pin"
  }

  /** The icon is filled exactly when the insight is pinned. */
  function Fill(pinned: bool): (r: string)
    ensures r == "currentColor" <==> pinned
    ensures r == "none" <==> !pinned
  {
    if pinned then "currentColor" else "none"
  }
}
