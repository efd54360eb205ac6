/** The accessible switch (components/ToggleSwitch.tsx): a stateless control
    whose handlers ask the parent to flip `checked` unless it is disabled. A
    handler's result is the argument of the `onChange` call it makes, `None`
    when it makes none. */
module ToggleSwitch {
  import opened Wrappers
  import opened Seqs

  /** The keys that activate the switch: Enter and Space. */
  predicate Activates(key: string)
  {
    key == " " || key == "Enter"
  }

  /** `onClick={() => !disabled && onChange(!checked)}`. */
  function OnClick(checked: bool, disabled: bool): (r: Option<bool>)
    ensures disabled <==> r.None?
    ensures r.Some? ==> r.value == !checked
  {
    if disabled then None else Some(!checked)
  }

  /** `handleKeyDown`. */
  function OnKeyDown(checked: bool, disabled: bool, key: string): (r: Option<bool>)
    ensures r.Some? <==> !disabled && Activates(key)
    ensures r.Some? ==> r.value == !checked
  {
    if disabled then None
    else if key == " " || key == "Enter" then Some(!checked)
    else None
  }

  /** The rendered `aria-checked` attribute. */
  function AriaChecked(checked: bool): (r: string)
    ensures r == "true" <==> checked
    ensures r == "false" <==> !checked
  {
    if checked then "true" else "false"
  }

  /** The `onChange` calls a run of key presses makes while the props stay the
      same (the parent has not re-rendered the switch in between). */
  function KeyCalls(checked: bool, disabled: bool, keys: seq<string>): seq<bool>
  {
    if keys == [] then []
    else
      (match OnKeyDown(checked, disabled, keys[0]) case Some(v) => [v] case None => []) +
      KeyCalls(checked, disabled, keys[1..])
  }

  /** One call per Enter or Space press, none at all when disabled, and every
      call asks for the opposite of `checked`. */
  lemma {:induction false} KeyCallsCount(checked: bool, disabled: bool, keys: seq<string>)
    ensures |KeyCalls(checked, disabled, keys)| == if disabled then 0 else Count(keys, Activates)
    ensures forall i :: 0 <= i < |KeyCalls(checked, disabled, keys)| ==> KeyCalls(checked, disabled, keys)[i] == !checked
  {
    if keys != [] {
      KeyCallsCount(checked, disabled, keys[1..]);
    }
  }

  /** Pressing Enter and then Space on an enabled unchecked switch asks twice to turn it on. */
  lemma EnterThenSpace()
    ensures KeyCalls(false, false, ["Enter", " "]) == [true, true]
  {
    assert ["Enter", " "][1..] == [" "];
  }
}
