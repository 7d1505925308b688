/** The condition picker (components/TipoSelector.tsx): a fixed list of
    three conditions. */
module TipoSelector {
  import Picker

  const Placeholder := "Seleccione el tipo"
  const Tipos: seq<string> := ["Nuevo", "Seminuevo", "Open Box"]

  /** What the picker renders: the empty-valued placeholder, then the three
      conditions in order, each labelled with itself. */
  function Items(): (r: seq<Picker.Item>)
    ensures r == [Picker.Item(Placeholder, ""), Picker.Item("Nuevo", "Nuevo"),
                  Picker.Item("Seminuevo", "Seminuevo"), Picker.Item("Open Box", "Open Box")]
    ensures Picker.Distinct(Tipos)
  {
    Picker.Items(Placeholder, Tipos)
  }

  /** Picking a condition hands exactly that condition to `onChange`;
      picking the placeholder hands "". */
  lemma ChooseForwardsTipo(i: nat)
    requires i < |Items()|
    ensures Picker.Choose(Items(), i) == if i == 0 then "" else Tipos[i - 1]
  {
  }
}
