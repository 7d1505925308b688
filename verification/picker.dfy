/** The item list the two picker-based selectors render
    (components/CapacidadSelector.tsx, components/TipoSelector.tsx): an
    empty-valued placeholder item, then one item per option. */
module Picker {

  datatype Item = Item(caption: string, value: string)

  /** The placeholder item with value "" first, then each option in order as
      an item whose label and value are both the option. */
  function Items(placeholder: string, options: seq<string>): (r: seq<Item>)
    ensures |r| == |options| + 1
    ensures r[0] == Item(placeholder, "")
    ensures forall i :: 0 <= i < |options| ==> r[i + 1] == Item(options[i], options[i])
  {
    [Item(placeholder, "")] + seq(|options|, i requires 0 <= i < |options| => Item(options[i], options[i]))
  }

  /** `onValueChange={onChange}`: the value handed on when item `i` is picked. */
  function Choose(items: seq<Item>, i: nat): (v: string)
    requires i < |items|
    ensures v == items[i].value
  {
    items[i].value
  }

  /** No two options are equal. */
  predicate Distinct(options: seq<string>)
  {
    forall i, j :: 0 <= i < j < |options| ==> options[i] != options[j]
  }
}
