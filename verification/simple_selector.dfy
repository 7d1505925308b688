/** The modal option list (components/SimpleSelector.tsx): a button showing
    the chosen option's label, and a modal listing every option. */
module SimpleSelector {
  import opened Js

  /** An option: the label shown and the value handed to `onChange`. */
  datatype Choice = Choice(caption: string, value: string)

  /** The options' values, as `option.value === value` compares them with a
      value that may be undefined. */
  function Keys(options: seq<Choice>): (r: seq<Option<string>>)
    ensures |r| == |options|
    ensures forall i :: 0 <= i < |options| ==> r[i] == Some(options[i].value)
  {
    seq(|options|, i requires 0 <= i < |options| => Some(options[i].value))
  }

  /** `selectedLabel`: the label of the first option whose value is the
      current one, unless that label is empty; otherwise the placeholder. An
      undefined value matches no option. */
  function SelectedLabel(options: seq<Choice>, value: Option<string>, placeholder: string): (r: string)
    ensures forall i :: 0 <= i < |options| && Some(options[i].value) == value
                        && (forall j :: 0 <= j < i ==> options[j].value != options[i].value) ==>
              r == if options[i].caption != "" then options[i].caption else placeholder
    ensures (forall i :: 0 <= i < |options| ==> Some(options[i].value) != value) ==> r == placeholder
  {
    var keys := Keys(options);
    match IndexOf(keys, value)
    case None => placeholder
    case Some(i) =>
      assert keys[i] == Some(options[i].value);
      if options[i].caption != "" then options[i].caption else placeholder
  }

  /** Once an option is picked from a list whose values are distinct, the
      button shows that option's label, or the placeholder if it is blank. */
  lemma PickedLabelShown(options: seq<Choice>, i: nat, placeholder: string)
    requires i < |options|
    requires forall j, k :: 0 <= j < k < |options| ==> options[j].value != options[k].value
    ensures SelectedLabel(options, Some(options[i].value), placeholder) ==
            if options[i].caption != "" then options[i].caption else placeholder
  {
  }

  /** The selector's own state: whether the modal is open. */
  class Selector {
    var modalVisible: bool

    /** First render: the modal is closed. */
    constructor ()
      ensures !modalVisible
    {
      modalVisible := false;
    }

    /** Pressing the button opens the modal. */
    method Open()
      modifies this
      ensures modalVisible
    {
      modalVisible := true;
    }

    /** The 'Cerrar' button and the system back request close the modal. */
    method Close()
      modifies this
      ensures !modalVisible
    {
      modalVisible := false;
    }

    /** Pressing option `i`: its value goes to `onChange`, and the modal closes. */
    method Pick(options: seq<Choice>, i: nat) returns (chosen: string)
      requires i < |options|
      modifies this
      ensures chosen == options[i].value
      ensures !modalVisible
    {
      chosen := options[i].value;
      modalVisible := false;
    }
  }
}
