/** The stock-movement form (components/MovimientoForm.tsx): scanned codes
    become product or accessory lines, appended without any duplicate check;
    two areas and a note are free text; submitting only builds the movement
    object. The scanner screen replaces the form while it is shown. */
module MovimientoForm {

  const NombreEquipoPlaceholder := "Nombre del equipo"
  const CapacidadPlaceholder := "Capacidad"
  const ColorPlaceholder := "Color"
  const SerialPlaceholder := "Serial"
  const NombreAccesorioPlaceholder := "Nombre del accesorio"

  datatype Producto = Producto(codigoBarras: string, nombreEquipo: string, capacidad: string, color: string, codigoSerial: string)
  datatype Accesorio = Accesorio(codigoBarrasAccs: string, nombreAccs: string)

  /** `tipoEscaner`: which list the next scan goes to. */
  datatype Mode = ProductMode | AccessoryMode

  /** The form's state. */
  datatype Draft = Draft(
    mostrarEscaner: bool,
    tipoEscaner: Mode,
    productos: seq<Producto>,
    accesorios: seq<Accesorio>,
    areaLlegada: string,
    areaSalida: string,
    observacion: string)

  /** First render: no lines, empty texts, product mode, scanner hidden. */
  const Initial := Draft(false, ProductMode, [], [], "", "", "")

  /** The product line a scanned code becomes: the code, and fixed
      placeholders for what a catalogue lookup would fill in. */
  function ProductLine(code: string): (p: Producto)
    ensures p.codigoBarras == code
    ensures p.nombreEquipo == NombreEquipoPlaceholder && p.capacidad == CapacidadPlaceholder
    ensures p.color == ColorPlaceholder && p.codigoSerial == SerialPlaceholder
  {
    Producto(code, NombreEquipoPlaceholder, CapacidadPlaceholder, ColorPlaceholder, SerialPlaceholder)
  }

  /** The accessory line a scanned code becomes. */
  function AccessoryLine(code: string): (a: Accesorio)
    ensures a.codigoBarrasAccs == code && a.nombreAccs == NombreAccesorioPlaceholder
  {
    Accesorio(code, NombreAccesorioPlaceholder)
  }

  /** `handleCodigoEscaneado`: exactly one line for the code is appended to
      the end of the current mode's list, the other list is kept, and the
      scanner is hidden; the mode and the texts stay. */
  function Scanned(d: Draft, code: string): (r: Draft)
    ensures d.tipoEscaner == ProductMode ==>
              r.productos == d.productos + [ProductLine(code)] && r.accesorios == d.accesorios
    ensures d.tipoEscaner == AccessoryMode ==>
              r.accesorios == d.accesorios + [AccessoryLine(code)] && r.productos == d.productos
    ensures !r.mostrarEscaner && r.tipoEscaner == d.tipoEscaner
    ensures r.areaLlegada == d.areaLlegada && r.areaSalida == d.areaSalida && r.observacion == d.observacion
  {
    var d' := match d.tipoEscaner
      case ProductMode => d.(productos := d.productos + [ProductLine(code)])
      case AccessoryMode => d.(accesorios := d.accesorios + [AccessoryLine(code)]);
    d'.(mostrarEscaner := false)
  }

  /** 'Agregar Producto' / 'Agregar Accesorio': choose the list and show the
      scanner; nothing else changes. */
  function StartScan(d: Draft, mode: Mode): (r: Draft)
    ensures r.mostrarEscaner && r.tipoEscaner == mode
    ensures r.(mostrarEscaner := d.mostrarEscaner, tipoEscaner := d.tipoEscaner) == d
  {
    d.(mostrarEscaner := true, tipoEscaner := mode)
  }

  /** The scanner's 'Cerrar': hide it; no line is added. */
  function CloseScanner(d: Draft): (r: Draft)
    ensures !r.mostrarEscaner
    ensures r.(mostrarEscaner := d.mostrarEscaner) == d
  {
    d.(mostrarEscaner := false)
  }

  /** The three text inputs. */
  datatype Field = AreaSalida | AreaLlegada | Observacion

  /** Typing into one text input replaces that text and nothing else. */
  function Edit(d: Draft, field: Field, text: string): (r: Draft)
    ensures r.productos == d.productos && r.accesorios == d.accesorios
    ensures r.mostrarEscaner == d.mostrarEscaner && r.tipoEscaner == d.tipoEscaner
    ensures r.areaSalida == if field == AreaSalida then text else d.areaSalida
    ensures r.areaLlegada == if field == AreaLlegada then text else d.areaLlegada
    ensures r.observacion == if field == Observacion then text else d.observacion
  {
    match field
    case AreaSalida => d.(areaSalida := text)
    case AreaLlegada => d.(areaLlegada := text)
    case Observacion => d.(observacion := text)
  }

  /** The object `handleSubmit` builds and only logs. */
  datatype Movimiento = Movimiento(
    productos: seq<Producto>,
    accesorios: seq<Accesorio>,
    areaLlegada: string,
    areaSalida: string,
    observacion: string,
    fecha: nat)

  /** The movement carries the lines and texts exactly as they are, with no
      check that any list or text is non-empty; `fecha` is the clock's time,
      given as a parameter. */
  function Submission(d: Draft, fecha: nat): (m: Movimiento)
    ensures m.productos == d.productos && m.accesorios == d.accesorios
    ensures m.areaLlegada == d.areaLlegada && m.areaSalida == d.areaSalida && m.observacion == d.observacion
    ensures m.fecha == fecha
  {
    Movimiento(d.productos, d.accesorios, d.areaLlegada, d.areaSalida, d.observacion, fecha)
  }

  /** Something the user does. A scanned code reaches the form only while
      the scanner is shown; submitting changes no state. */
  datatype Event = AddProduct | AddAccessory | CloseCamera | Scan(code: string) | Type(field: Field, text: string) | Submit

  function Apply(d: Draft, e: Event): (r: Draft)
    ensures e.Submit? ==> r == d
  {
    match e
    case AddProduct => StartScan(d, ProductMode)
    case AddAccessory => StartScan(d, AccessoryMode)
    case CloseCamera => CloseScanner(d)
    case Scan(code) => if d.mostrarEscaner then Scanned(d, code) else d
    case Type(field, text) => Edit(d, field, text)
    case Submit => d
  }

  /** The state after a run of events. */
  function Run(d: Draft, events: seq<Event>): Draft
    decreases |events|
  {
    if |events| == 0 then d else Run(Apply(d, events[0]), events[1..])
  }

  lemma {:induction false} RunAppend(d: Draft, a: seq<Event>, b: seq<Event>)
    ensures Run(d, a + b) == Run(Run(d, a), b)
    decreases |a|
  {
    if |a| == 0 {
      assert a + b == b;
    } else {
      assert (a + b)[0] == a[0] && (a + b)[1..] == a[1..] + b;
      RunAppend(Apply(d, a[0]), a[1..], b);
    }
  }

  /** Lines are never changed or removed: whatever happens, the lists only
      grow at their ends. */
  lemma {:induction false} LinesOnlyGrow(d: Draft, events: seq<Event>)
    ensures |d.productos| <= |Run(d, events).productos| && d.productos == Run(d, events).productos[..|d.productos|]
    ensures |d.accesorios| <= |Run(d, events).accesorios| && d.accesorios == Run(d, events).accesorios[..|d.accesorios|]
    decreases |events|
  {
    if |events| > 0 {
      var d' := Apply(d, events[0]);
      LinesOnlyGrow(d', events[1..]);
      assert d.productos == d'.productos[..|d.productos|];
      assert d.accesorios == d'.accesorios[..|d.accesorios|];
    }
  }

  /** Pressing 'Agregar Producto' and scanning, once per code. */
  function ProductScans(codes: seq<string>): (r: seq<Event>)
    ensures |r| == 2 * |codes|
  {
    if |codes| == 0 then [] else [AddProduct, Scan(codes[0])] + ProductScans(codes[1..])
  }

  /** The product lines for a run of codes, in order. */
  function ProductLines(codes: seq<string>): (r: seq<Producto>)
    ensures |r| == |codes|
    ensures forall i :: 0 <= i < |codes| ==> r[i] == ProductLine(codes[i])
  {
    seq(|codes|, i requires 0 <= i < |codes| => ProductLine(codes[i]))
  }

  /** Scanning codes in product mode appends one line per scan, in scan
      order, whatever the codes are (repeats included), and leaves the
      accessory list alone. */
  lemma {:induction false} ProductScansAppendEach(d: Draft, codes: seq<string>)
    ensures Run(d, ProductScans(codes)).productos == d.productos + ProductLines(codes)
    ensures Run(d, ProductScans(codes)).accesorios == d.accesorios
    decreases |codes|
  {
    if |codes| > 0 {
      var first: seq<Event> := [AddProduct, Scan(codes[0])];
      RunAppend(d, first, ProductScans(codes[1..]));
      var d' := Scanned(StartScan(d, ProductMode), codes[0]);
      assert Run(d, first) == d' by {
        var shown := StartScan(d, ProductMode);
        assert first[0] == AddProduct && first[1..] == [Scan(codes[0])];
        assert Run(d, first) == Run(shown, [Scan(codes[0])]);
        assert Apply(shown, Scan(codes[0])) == d';
        assert [Scan(codes[0])][1..] == [];
        assert Run(shown, [Scan(codes[0])]) == Run(d', []);
      }
      ProductScansAppendEach(d', codes[1..]);
      assert ProductLines(codes) == [ProductLine(codes[0])] + ProductLines(codes[1..]);
    }
  }

  /** There is no duplicate check: the same code scanned twice gives two
      identical lines. */
  lemma NoDuplicateCheck(d: Draft, code: string)
    ensures Run(d, [AddProduct, Scan(code), AddProduct, Scan(code)]).productos
            == d.productos + [ProductLine(code), ProductLine(code)]
  {
    assert ProductScans([code, code]) == [AddProduct, Scan(code), AddProduct, Scan(code)];
    ProductScansAppendEach(d, [code, code]);
  }

  /** The form as a component instance whose state the handlers replace. */
  class Form {
    var mostrarEscaner: bool
    var tipoEscaner: Mode
    var productos: seq<Producto>
    var accesorios: seq<Accesorio>
    var areaLlegada: string
    var areaSalida: string
    var observacion: string

    function State(): Draft
      reads this
    {
      Draft(mostrarEscaner, tipoEscaner, productos, accesorios, areaLlegada, areaSalida, observacion)
    }

    constructor ()
      ensures State() == Initial
    {
      mostrarEscaner := false;
      tipoEscaner := ProductMode;
      productos := [];
      accesorios := [];
      areaLlegada := "";
      areaSalida := "";
      observacion := "";
    }

    /** `handleCodigoEscaneado`, the scanner's callback. */
    method HandleCodigoEscaneado(codigo: string)
      modifies this
      ensures State() == Scanned(old(State()), codigo)
    {
      if tipoEscaner == ProductMode {
        productos := productos + [ProductLine(codigo)];
      } else {
        accesorios := accesorios + [AccessoryLine(codigo)];
      }
      mostrarEscaner := false;
    }

    /** The 'Agregar Producto' and 'Agregar Accesorio' buttons. */
    method Agregar(mode: Mode)
      modifies this
      ensures State() == StartScan(old(State()), mode)
    {
      tipoEscaner := mode;
      mostrarEscaner := true;
    }

    /** The scanner's `onCerrar`. */
    method Cerrar()
      modifies this
      ensures State() == CloseScanner(old(State()))
    {
      mostrarEscaner := false;
    }

    /** A text input's `onChangeText`. */
    method ChangeText(field: Field, text: string)
      modifies this
      ensures State() == Edit(old(State()), field, text)
    {
      match field
      case AreaSalida => areaSalida := text;
      case AreaLlegada => areaLlegada := text;
      case Observacion => observacion := text;
    }

    /** `handleSubmit`: builds the movement from the current state and
        changes nothing. */
    method HandleSubmit(fecha: nat) returns (m: Movimiento)
      ensures m == Submission(State(), fecha)
    {
      m := Movimiento(productos, accesorios, areaLlegada, areaSalida, observacion, fecha);
    }
  }
}
