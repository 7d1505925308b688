/** The menu-based option list (components/ui/Dropdown.tsx): a button showing
    the selected option's label and a menu of every option; option values are
    of any type and compared with `===`. */
module Dropdown {
  import opened Js
  import SimpleSelector

  /** An option: the title shown and the value handed to `onSelect`. */
  datatype Choice<T> = Choice(caption: string, value: T)

  function Keys<T>(options: seq<Choice<T>>): (r: seq<T>)
    ensures |r| == |options|
    ensures forall i :: 0 <= i < |options| ==> r[i] == options[i].value
  {
    seq(|options|, i requires 0 <= i < |options| => options[i].value)
  }

  /** The button's text: the label of the first option whose value is the
      selected one, even when that label is empty; the placeholder only when
      no option matches or nothing is selected. */
  function ButtonText<T(==)>(options: seq<Choice<T>>, selected: Option<T>, placeholder: string): (r: string)
    ensures forall i :: 0 <= i < |options| && Some(options[i].value) == selected
                        && (forall j :: 0 <= j < i ==> options[j].value != options[i].value) ==>
              r == options[i].caption
    ensures (forall i :: 0 <= i < |options| ==> Some(options[i].value) != selected) ==> r == placeholder
  {
    match selected
    case None => placeholder
    case Some(v) =>
      match IndexOf(Keys(options), v)
      case None => placeholder
      case Some(i) => options[i].caption
  }

  /** The menu's own state: whether it is shown. */
  class Menu {
    var visible: bool

    /** First render: the menu is hidden. */
    constructor ()
      ensures !visible
    {
      visible := false;
    }

    /** `showMenu`: the menu opens from the button's measure callback, so
        only when the button is mounted; otherwise nothing happens. */
    method ShowMenu(mounted: bool)
      modifies this
      ensures visible == (old(visible) || mounted)
    {
      if mounted {
        visible := true;
      }
    }

    /** `closeMenu`, also the menu's dismiss handler. */
    method CloseMenu()
      modifies this
      ensures !visible
    {
      visible := false;
    }

    /** Pressing option `i`: its value goes to `onSelect`, and the menu closes. */
    method Select<T>(options: seq<Choice<T>>, i: nat) returns (chosen: T)
      requires i < |options|
      modifies this
      ensures chosen == options[i].value
      ensures !visible
    {
      chosen := options[i].value;
      visible := false;
    }
  }

  /** The same string options as a menu's options. */
  function FromSelector(options: seq<SimpleSelector.Choice>): (r: seq<Choice<string>>)
    ensures |r| == |options|
    ensures forall i :: 0 <= i < |options| ==> r[i] == Choice(options[i].caption, options[i].value)
  {
    seq(|options|, i requires 0 <= i < |options| => Choice(options[i].caption, options[i].value))
  }

  /** Given the same options, value and placeholder, the two selectors show
      different text exactly when the first matching option has an empty
      label and the placeholder is not empty: the modal selector falls back
      to the placeholder (`?.label || placeholder`), the menu shows the empty
      label (`selectedOption ? label : placeholder`). */
  lemma SelectorsDisagreeOnBlankLabel(options: seq<SimpleSelector.Choice>, value: Option<string>, placeholder: string)
    ensures SimpleSelector.SelectedLabel(options, value, placeholder) != ButtonText(FromSelector(options), value, placeholder)
            <==> placeholder != "" &&
                 exists i :: 0 <= i < |options| && Some(options[i].value) == value && options[i].caption == ""
                             && forall j :: 0 <= j < i ==> options[j].value != options[i].value
  {
  }
}
