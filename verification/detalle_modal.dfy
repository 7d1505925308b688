/** The key-value detail dialog (components/DetalleModal.tsx): it lists the
    entries of a record whose value is truthy or exactly 0, one row per entry
    with the key and `String(value)`, and offers an edit button only when an
    edit handler is given. */
module DetalleModal {

  /** A detail value: a string, a number (integral here), NaN, null or undefined. */
  datatype Value = Text(s: string) | Number(n: int) | NaN | Null | Undefined

  /** An entry as `Object.entries` yields it, in the record's own order. */
  type Entry = (string, Value)

  /** JavaScript truthiness of a detail value. */
  predicate IsTruthy(v: Value)
  {
    match v
    case Text(s) => s != ""
    case Number(n) => n != 0
    case _ => false
  }

  /** The filter's test, `value || value === 0`. */
  predicate Kept(v: Value)
  {
    IsTruthy(v) || v == Number(0)
  }

  /** Kept are the non-empty strings and every number, 0 included; dropped
      are '', NaN, null and undefined. */
  lemma KeptValues(v: Value)
    ensures Kept(v) <==> (v.Text? && v.s != "") || v.Number?
  {
  }

  /** `detailItems`: the entries that pass the filter, in order. */
  function DetailItems(entries: seq<Entry>): (r: seq<Entry>)
    ensures |r| <= |entries|
    ensures forall e :: e in r <==> e in entries && Kept(e.1)
  {
    if |entries| == 0 then []
    else if Kept(entries[0].1) then [entries[0]] + DetailItems(entries[1..])
    else DetailItems(entries[1..])
  }

  /** The filter works entry by entry and keeps the record's order: filtering
      two runs of entries is filtering each and joining the results. */
  lemma {:induction false} DetailItemsAppend(a: seq<Entry>, b: seq<Entry>)
    ensures DetailItems(a + b) == DetailItems(a) + DetailItems(b)
  {
    if |a| == 0 {
      assert a + b == b;
    } else {
      var ab := a + b;
      assert ab[0] == a[0] && ab[1..] == a[1..] + b;
      DetailItemsAppend(a[1..], b);
      if Kept(a[0].1) {
        calc {
          DetailItems(ab);
          [a[0]] + DetailItems(a[1..] + b);
          [a[0]] + (DetailItems(a[1..]) + DetailItems(b));
          ([a[0]] + DetailItems(a[1..])) + DetailItems(b);
        }
      }
    }
  }

  /** Filtering what was already filtered changes nothing. */
  lemma {:induction false} DetailItemsIdempotent(entries: seq<Entry>)
    ensures DetailItems(DetailItems(entries)) == DetailItems(entries)
  {
    if |entries| > 0 {
      DetailItemsIdempotent(entries[1..]);
      if Kept(entries[0].1) {
        assert ([entries[0]] + DetailItems(entries[1..]))[1..] == DetailItems(entries[1..]);
      }
    }
  }

  /** The character of a decimal digit. */
  function Digit(d: nat): (c: char)
    requires d < 10
    ensures '0' <= c <= '9'
    ensures c as int - '0' as int == d
  {
    "0123456789"[d]
  }

  /** The number a run of decimal digits denotes, read independently of
      `Digits`: most significant digit first. */
  function Val(s: string): nat
  {
    if |s| == 0 then 0
    else Val(s[..|s| - 1]) * 10 + (if '0' <= s[|s| - 1] <= '9' then s[|s| - 1] as int - '0' as int else 0)
  }

  /** The decimal text of a natural number, most significant digit first,
      with no leading zero. */
  function Digits(n: nat): (s: string)
    ensures |s| > 0
    ensures forall i :: 0 <= i < |s| ==> '0' <= s[i] <= '9'
    ensures n < 10 <==> |s| == 1
    ensures |s| > 1 ==> s[0] != '0'
  {
    if n < 10 then [Digit(n)] else Digits(n / 10) + [Digit(n % 10)]
  }

  /** The digits `Digits` writes denote the number itself. */
  lemma {:induction false} DigitsDenote(n: nat)
    ensures Val(Digits(n)) == n
  {
    if n >= 10 {
      DigitsDenote(n / 10);
      assert Digits(n)[..|Digits(n)| - 1] == Digits(n / 10);
    }
  }

  /** `String(value)` for the values a row can show. */
  function Display(v: Value): (s: string)
    ensures Kept(v) ==> s != ""
    ensures v.Text? ==> s == v.s
    ensures v.Number? && 0 <= v.n < 1000000000000000000000 ==> s == Digits(v.n)
    ensures v.Number? && -1000000000000000000000 < v.n < 0 ==> s == "-" + Digits(-v.n)
  {
    match v
    case Text(s) => s
    case Number(n) => if n < 0 then "-" + Digits(-n) else Digits(n)
    case NaN => "NaN"
    case Null => "null"
    case Undefined => "undefined"
  }

  /** A rendered row: the key, then the value's text. */
  datatype Row = Row(key: string, text: string)

  /** The dialog's rows, one per kept entry, in order. No row is blank. */
  function Rows(details: seq<Entry>): (r: seq<Row>)
    ensures |r| == |DetailItems(details)|
    ensures forall i :: 0 <= i < |r| ==> r[i].key == DetailItems(details)[i].0
    ensures forall i :: 0 <= i < |r| ==> r[i] == Row(DetailItems(details)[i].0, Display(DetailItems(details)[i].1))
    ensures forall i :: 0 <= i < |r| ==> r[i].text != ""
    ensures forall k, v :: (k, v) in details && Kept(v) ==> Row(k, Display(v)) in r
  {
    var items := DetailItems(details);
    assert forall i :: 0 <= i < |items| ==> Kept(items[i].1) by {
      forall i | 0 <= i < |items| ensures Kept(items[i].1) {
        assert items[i] in items;
      }
    }
    var r := seq(|items|, i requires 0 <= i < |items| => Row(items[i].0, Display(items[i].1)));
    assert forall k, v :: (k, v) in details && Kept(v) ==> Row(k, Display(v)) in r by {
      forall k, v | (k, v) in details && Kept(v) ensures Row(k, Display(v)) in r {
        assert (k, v) in items;
        var i :| 0 <= i < |items| && items[i] == (k, v);
        assert r[i] == Row(k, Display(v));
      }
    }
    r
  }

  datatype Button = Cerrar | Editar

  /** The footer row, left to right: 'Cerrar' always comes first, then
      'Editar' exactly when an edit handler is given. */
  function Buttons(hasOnEdit: bool): (r: seq<Button>)
    ensures |r| > 0 && r[0] == Cerrar
    ensures Editar in r <==> hasOnEdit
    ensures Cerrar !in r[1..]
  {
    if hasOnEdit then [Cerrar, Editar] else [Cerrar]
  }
}
