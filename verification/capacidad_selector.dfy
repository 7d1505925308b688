/** The capacity picker (components/CapacidadSelector.tsx): its options
    depend on the chosen category, matched as a whole name without regard to
    letter case. */
module CapacidadSelector {
  import opened Js
  import Picker

  const Placeholder := "Seleccione la capacidad"
  const MacbookOptions: seq<string> := ["512GB y 16GB RAM", "512GB y 8GB RAM", "1TB y 32GB RAM"]
  const AppleWatchOptions: seq<string> := ["32GB", "64GB"]
  const DefaultOptions: seq<string> := ["16GB", "32GB", "64GB", "128GB", "256GB", "512GB", "1TB"]

  /** `toLowerCase` on one character, for the characters whose lower case is
      an ASCII letter: A-Z and the Kelvin sign. */
  function LowerChar(c: char): char
  {
    if 'A' <= c <= 'Z' then (c as int + 32) as char
    else if c == '\U{212A}' then 'k'
    else c
  }

  function ToLower(s: string): (r: string)
    ensures |r| == |s|
    ensures forall i :: 0 <= i < |s| ==> r[i] == LowerChar(s[i])
  {
    seq(|s|, i requires 0 <= i < |s| => LowerChar(s[i]))
  }

  /** `String(categoria || '')`: undefined and empty both become "". */
  function CategoryText(categoria: Option<string>): string
  {
    if Truthy(categoria) then categoria.value else ""
  }

  /** The capacity options for a category. */
  function Options(categoria: Option<string>): (r: seq<string>)
    ensures ToLower(CategoryText(categoria)) == "macbook" ==> r == MacbookOptions
    ensures ToLower(CategoryText(categoria)) == "apple watch" ==> r == AppleWatchOptions
    ensures ToLower(CategoryText(categoria)) != "macbook" && ToLower(CategoryText(categoria)) != "apple watch" ==> r == DefaultOptions
    ensures Picker.Distinct(r)
  {
    var name := ToLower(CategoryText(categoria));
    if name == "macbook" then MacbookOptions
    else if name == "apple watch" then AppleWatchOptions
    else DefaultOptions
  }

  /** What the picker renders: the placeholder, then every option. */
  function Items(categoria: Option<string>): (r: seq<Picker.Item>)
    ensures |r| == |Options(categoria)| + 1
    ensures r[0] == Picker.Item(Placeholder, "")
    ensures forall i :: 1 <= i < |r| ==> r[i].caption == r[i].value == Options(categoria)[i - 1]
  {
    Picker.Items(Placeholder, Options(categoria))
  }

  /** The characters `toLowerCase` maps to the ASCII letter or space `c`. */
  function Spellings(c: char): set<char>
  {
    if 'a' <= c <= 'z' then {c, (c as int - 32) as char} + (if c == 'k' then {'\U{212A}'} else {})
    else {c}
  }

  lemma LowerCharInverse(x: char, c: char)
    requires 'a' <= c <= 'z' || c == ' '
    ensures LowerChar(x) == c <==> x in Spellings(c)
  {
  }

  /** A category text lowers to the lower-case ASCII name `n` exactly when
      it has `n`'s length and each character is one of the spellings of
      `n`'s character at that place. */
  lemma LowersToName(s: string, n: string)
    requires forall i :: 0 <= i < |n| ==> 'a' <= n[i] <= 'z' || n[i] == ' '
    ensures ToLower(s) == n <==> |s| == |n| && forall i :: 0 <= i < |s| ==> s[i] in Spellings(n[i])
  {
  }

  /** The MacBook list is chosen exactly for the seven-letter name in any
      letter case; anything longer, "MacBook Pro" among them, gets the
      general list. */
  lemma MacbookExactly(categoria: Option<string>)
    ensures Options(categoria) == MacbookOptions <==>
      |CategoryText(categoria)| == 7 && forall i :: 0 <= i < 7 ==> CategoryText(categoria)[i] in Spellings("macbook"[i])
  {
  }

  lemma AppleWatchExactly(categoria: Option<string>)
    ensures Options(categoria) == AppleWatchOptions <==>
      |CategoryText(categoria)| == 11 && forall i :: 0 <= i < 11 ==> CategoryText(categoria)[i] in Spellings("apple watch"[i])
  {
  }
}
