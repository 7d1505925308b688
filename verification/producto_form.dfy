/** The registration screen (components/ProductoForm.tsx): it registers a
    device (eight required fields) or an accessory (three), records the
    barcode the server assigns, keeps the list of generated barcodes of the
    current kind, and reports failures as an alert. Service calls go through
    the facades of `Api`; the server's answer to each is a parameter. */
module ProductoForm {
  import opened Js
  import opened AsyncStorage
  import Api
  import CapacidadSelector

  const IncompleteMsg := "Por favor complete todos los campos obligatorios"
  const AccessoryDefaultMsg := "No se pudo registrar el accesorio"
  const DeviceDefaultMsg := "No se pudo registrar el producto"
  const NoAccessoryInfoMsg := "No se recibió la información del accesorio creado"
  const Disponible := "Disponible"

  /** `tipoProducto` */
  datatype Kind = Dispositivos | Accesorios

  datatype DeviceForm = DeviceForm(
    codigoUnico: string, codigoSerial: string, nombreEquipo: string, color: string,
    capacidad: string, precio: string, tipo: string, categoria: string)

  datatype AccessoryForm = AccessoryForm(codigoUnico: string, nombre: string, precio: string)

  const EmptyDevice := DeviceForm("", "", "", "", "", "", "", "")
  const EmptyAccessory := AccessoryForm("", "", "")

  /** The screen's state. */
  datatype FormState = FormState(
    tipoProducto: Kind,
    mostrarFormulario: bool,
    codigoBarrasDispositivo: Option<string>,
    codigoBarrasAccesorio: Option<string>,
    listaCodigosDispositivos: seq<string>,
    listaCodigosAccesorios: seq<string>,
    formData: DeviceForm,
    accesorioData: AccessoryForm)

  /** First render, before the kind effect runs. */
  const Initial := FormState(Dispositivos, false, None, None, [], [], EmptyDevice, EmptyAccessory)

  // ----- Required-field validation -----

  /** `Object.entries(formData)`, in declaration order. */
  function DeviceEntries(f: DeviceForm): seq<(string, string)>
  {
    [("codigoUnico", f.codigoUnico), ("codigoSerial", f.codigoSerial), ("nombreEquipo", f.nombreEquipo),
     ("color", f.color), ("capacidad", f.capacidad), ("precio", f.precio), ("tipo", f.tipo),
     ("categoria", f.categoria)]
  }

  /** `Object.entries(accesorioData)`, in declaration order. */
  function AccessoryEntries(a: AccessoryForm): seq<(string, string)>
  {
    [("codigoUnico", a.codigoUnico), ("nombre", a.nombre), ("precio", a.precio)]
  }

  /** `camposRequeridos`: the names of the entries whose value is empty. */
  function MissingFields(entries: seq<(string, string)>): (r: seq<string>)
    ensures |r| <= |entries|
    ensures |r| == 0 <==> forall i :: 0 <= i < |entries| ==> entries[i].1 != ""
    ensures forall i :: 0 <= i < |entries| && entries[i].1 == "" ==> entries[i].0 in r
  {
    if |entries| == 0 then []
    else (if entries[0].1 == "" then [entries[0].0] else []) + MissingFields(entries[1..])
  }

  predicate DeviceComplete(f: DeviceForm)
  {
    |MissingFields(DeviceEntries(f))| == 0
  }

  predicate AccessoryComplete(a: AccessoryForm)
  {
    |MissingFields(AccessoryEntries(a))| == 0
  }

  /** A device passes validation exactly when none of its eight fields is empty. */
  lemma DeviceCompleteIff(f: DeviceForm)
    ensures DeviceComplete(f) <==>
            f.codigoUnico != "" && f.codigoSerial != "" && f.nombreEquipo != "" && f.color != ""
            && f.capacidad != "" && f.precio != "" && f.tipo != "" && f.categoria != ""
  {
    var e := DeviceEntries(f);
    assert e[0].1 == f.codigoUnico && e[1].1 == f.codigoSerial && e[2].1 == f.nombreEquipo && e[3].1 == f.color;
    assert e[4].1 == f.capacidad && e[5].1 == f.precio && e[6].1 == f.tipo && e[7].1 == f.categoria;
  }

  /** An accessory passes validation exactly when none of its three fields is empty. */
  lemma AccessoryCompleteIff(a: AccessoryForm)
    ensures AccessoryComplete(a) <==> a.codigoUnico != "" && a.nombre != "" && a.precio != ""
  {
    var e := AccessoryEntries(a);
    assert e[0].1 == a.codigoUnico && e[1].1 == a.nombre && e[2].1 == a.precio;
  }

  // ----- Payloads -----

  /** `accesorioDataToSend`: the three fields renamed, and the
      availability fixed to "Disponible". */
  function AccessoryPayload(a: AccessoryForm): (p: Api.AccessoryRequest)
    ensures p.codigoUnicoAccs == a.codigoUnico && p.nombreAccs == a.nombre && p.precioAccs == a.precio
    ensures p.disponibilidadAccs == Disponible
  {
    Api.AccessoryRequest(a.codigoUnico, a.nombre, a.precio, Disponible)
  }

  /** `productoData`, as `crearProducto` reads it: the form's fields, except
      that the form calls its code `codigoUnico` while the facade reads
      `codigoModelo`, which is therefore undefined. */
  function DeviceInput(f: DeviceForm): (p: Api.ProductInput)
    ensures p.codigoModelo.None?
    ensures p.codigoSerial == f.codigoSerial && p.nombreEquipo == f.nombreEquipo && p.color == f.color
    ensures p.capacidad == f.capacidad && p.precio == f.precio && p.tipo == f.tipo && p.categoria == f.categoria
  {
    Api.ProductInput(None, f.codigoSerial, f.nombreEquipo, f.color, f.capacidad, f.precio, f.tipo, f.categoria)
  }

  /** The device's unique code never reaches the server: two forms that
      differ only in it produce the same request body. */
  lemma CodigoUnicoNotSent(f: DeviceForm, code: string)
    ensures Api.ProductRequestOf(DeviceInput(f.(codigoUnico := code))) == Api.ProductRequestOf(DeviceInput(f))
  {
  }

  // ----- Alerts -----

  /** `error.msg || fallback`, the text of a failure alert. */
  function AlertText(e: Thrown, fallback: string): (t: string)
    ensures Truthy(MsgOf(e)) ==> t == MsgOf(e).value
    ensures !Truthy(MsgOf(e)) ==> t == fallback
  {
    if Truthy(MsgOf(e)) then MsgOf(e).value else fallback
  }

  /** A rejected create carries a msg only when it is the session msg: the
      facades replace every other failure with a `{ mensaje }` object. */
  lemma CreateFailureAlert<B, T>(token: Reading, path: string, body: B, reply: Api.HttpOutcome<T>, fallback: string, formDefault: string)
    requires Api.CreateWith(token, path, body, reply, fallback).result.Failure?
    ensures var e := Api.CreateWith(token, path, body, reply, fallback).result.error;
            !Truthy(MsgOf(e)) || MsgOf(e) == Some(Api.SessionExpiredMsg)
    ensures AlertText(Api.CreateWith(token, path, body, reply, fallback).result.error, formDefault) in {Api.SessionExpiredMsg, formDefault}
  {
  }

  /** The paths of the requests an exchange put on the wire. */
  function Sent<B, T>(x: Api.Exchange<B, T>): (r: seq<string>)
    ensures |r| <= 1
    ensures x.sent.Some? ==> r == [x.sent.value.path]
  {
    if x.sent.Some? then [x.sent.value.path] else []
  }

  // ----- Submission -----

  /** How the server answers the two calls a device submission may make:
      the create, and the list refresh (the barcodes of `productos`, None
      when the reply has none). */
  datatype DeviceServer = DeviceServer(create: Api.HttpOutcome<Api.DeviceReply>, list: Api.HttpOutcome<Option<seq<string>>>)

  /** The same for an accessory submission; the list reply is the barcodes. */
  datatype AccessoryServer = AccessoryServer(create: Api.HttpOutcome<Api.AccessoryReply>, list: Api.HttpOutcome<seq<string>>)

  /** What a submission did: the new state, the alert shown (if any) and the
      paths of the requests sent, in order. */
  datatype Outcome = Outcome(state: FormState, alert: Option<string>, sent: seq<string>)

  /** The state once a create succeeded: the barcode recorded, the form
      hidden and this kind's fields cleared. */
  function AfterAccessoryCreated(s: FormState, accesorio: Props): (r: FormState)
    ensures r.codigoBarrasAccesorio == Get(accesorio, "codigoBarrasAccs")
    ensures !r.mostrarFormulario && r.accesorioData == EmptyAccessory
    ensures r.(codigoBarrasAccesorio := s.codigoBarrasAccesorio, mostrarFormulario := s.mostrarFormulario,
               accesorioData := s.accesorioData) == s
  {
    s.(codigoBarrasAccesorio := Get(accesorio, "codigoBarrasAccs"), mostrarFormulario := false, accesorioData := EmptyAccessory)
  }

  function AfterDeviceCreated(s: FormState, producto: Props): (r: FormState)
    ensures r.codigoBarrasDispositivo == Get(producto, "codigoBarras")
    ensures !r.mostrarFormulario && r.formData == EmptyDevice
    ensures r.(codigoBarrasDispositivo := s.codigoBarrasDispositivo, mostrarFormulario := s.mostrarFormulario,
               formData := s.formData) == s
  {
    s.(codigoBarrasDispositivo := Get(producto, "codigoBarras"), mostrarFormulario := false, formData := EmptyDevice)
  }

  /** `handleSubmit` for an accessory. `token` is what the store's 'token'
      read gives; nothing here writes to the store. */
  function SubmitAccessory(s: FormState, token: Reading, server: AccessoryServer): (o: Outcome)
    // incomplete: alert, no call, no change
    ensures !AccessoryComplete(s.accesorioData) ==> o == Outcome(s, Some(IncompleteMsg), [])
    // every alert is one of three fixed texts
    ensures o.alert.Some? ==> o.alert.value in {IncompleteMsg, Api.SessionExpiredMsg, AccessoryDefaultMsg}
    // no stored token: the session alert, and nothing sent or changed
    ensures AccessoryComplete(s.accesorioData) && token.Success? && !Truthy(token.value) ==>
              o == Outcome(s, Some(Api.SessionExpiredMsg), [])
    // a rejected create, or a reply without the accessory: the data is kept
    ensures AccessoryComplete(s.accesorioData) &&
            (var x := Api.CreateAccessory(token, AccessoryPayload(s.accesorioData), server.create);
             x.result.Failure? || x.result.value.accesorio.None?) ==>
              o.state == s && o.alert.Some?
    // a created accessory: barcode recorded, form hidden and cleared, list refreshed when it can be
    ensures AccessoryComplete(s.accesorioData) && token.Success? && Truthy(token.value) &&
            server.create.Delivered? && server.create.data.accesorio.Some? ==>
              && o.state.tipoProducto == s.tipoProducto && o.state.formData == s.formData
              && o.state.codigoBarrasDispositivo == s.codigoBarrasDispositivo
              && o.state.listaCodigosDispositivos == s.listaCodigosDispositivos
              && o.state.codigoBarrasAccesorio == Get(server.create.data.accesorio.value, "codigoBarrasAccs")
              && !o.state.mostrarFormulario && o.state.accesorioData == EmptyAccessory
              && o.sent == ["/gt/agregarAccesorio", "/gt/listarAccesorios"]
              && o.state.listaCodigosAccesorios == (if server.list.Delivered? then server.list.data else s.listaCodigosAccesorios)
              && (o.alert.None? <==> server.list.Delivered?)
  {
    if !AccessoryComplete(s.accesorioData) then Outcome(s, Some(IncompleteMsg), [])
    else
      var x := Api.CreateAccessory(token, AccessoryPayload(s.accesorioData), server.create);
      match x.result
      case Failure(e) =>
        CreateFailureAlert(token, "/gt/agregarAccesorio", AccessoryPayload(s.accesorioData), server.create, Api.CreateAccessoryFallback, AccessoryDefaultMsg);
        Outcome(s, Some(AlertText(e, AccessoryDefaultMsg)), Sent(x))
      case Success(reply) =>
        match reply.accesorio
        case None => Outcome(s, Some(AlertText(Raised(NoAccessoryInfoMsg), AccessoryDefaultMsg)), Sent(x))
        case Some(accesorio) =>
          var s1 := AfterAccessoryCreated(s, accesorio);
          var y := Api.FetchWith(token, "/gt/listarAccesorios", server.list, Api.ListAccessoriesFallback);
          match y.result
          case Success(codes) => Outcome(s1.(listaCodigosAccesorios := codes), None, Sent(x) + Sent(y))
          case Failure(e) => Outcome(s1, Some(AlertText(e, AccessoryDefaultMsg)), Sent(x) + Sent(y))
  }

  /** `handleSubmit` for a device. */
  function SubmitDevice(s: FormState, token: Reading, server: DeviceServer): (o: Outcome)
    ensures !DeviceComplete(s.formData) ==> o == Outcome(s, Some(IncompleteMsg), [])
    ensures o.alert.Some? ==> o.alert.value in {IncompleteMsg, Api.SessionExpiredMsg, DeviceDefaultMsg}
    ensures DeviceComplete(s.formData) && token.Success? && !Truthy(token.value) ==>
              o == Outcome(s, Some(Api.SessionExpiredMsg), [])
    // a rejected create: the data is kept
    ensures DeviceComplete(s.formData) && Api.CreateProduct(token, DeviceInput(s.formData), server.create).result.Failure? ==>
              o.state == s && o.alert.Some?
    // a reply without `producto`: no change and no alert
    ensures DeviceComplete(s.formData) && token.Success? && Truthy(token.value) &&
            server.create.Delivered? && server.create.data.producto.None? ==>
              o == Outcome(s, None, ["/gt/agregarProducto"])
    ensures DeviceComplete(s.formData) && token.Success? && Truthy(token.value) &&
            server.create.Delivered? && server.create.data.producto.Some? ==>
              && o.state.tipoProducto == s.tipoProducto && o.state.accesorioData == s.accesorioData
              && o.state.codigoBarrasAccesorio == s.codigoBarrasAccesorio
              && o.state.listaCodigosAccesorios == s.listaCodigosAccesorios
              && o.state.codigoBarrasDispositivo == Get(server.create.data.producto.value, "codigoBarras")
              && !o.state.mostrarFormulario && o.state.formData == EmptyDevice
              && o.sent == ["/gt/agregarProducto", "/gt/listarProductos"]
              && o.state.listaCodigosDispositivos ==
                   (if server.list.Failed? then s.listaCodigosDispositivos
                    else if server.list.data.Some? then server.list.data.value else [])
              && (o.alert.None? <==> server.list.Delivered?)
  {
    if !DeviceComplete(s.formData) then Outcome(s, Some(IncompleteMsg), [])
    else
      var x := Api.CreateProduct(token, DeviceInput(s.formData), server.create);
      match x.result
      case Failure(e) =>
        CreateFailureAlert(token, "/gt/agregarProducto", Api.ProductRequestOf(DeviceInput(s.formData)), server.create, Api.CreateProductFallback, DeviceDefaultMsg);
        Outcome(s, Some(AlertText(e, DeviceDefaultMsg)), Sent(x))
      case Success(reply) =>
        match reply.producto
        case None => Outcome(s, None, Sent(x))
        case Some(producto) =>
          var s1 := AfterDeviceCreated(s, producto);
          var y := Api.FetchWith(token, "/gt/listarProductos", server.list, Api.ListProductsFallback);
          match y.result
          case Success(codes) =>
            Outcome(s1.(listaCodigosDispositivos := if codes.Some? then codes.value else []), None, Sent(x) + Sent(y))
          case Failure(e) => Outcome(s1, Some(AlertText(e, DeviceDefaultMsg)), Sent(x) + Sent(y))
  }

  /** `handleSubmit`: the current kind decides which record is submitted;
      the other kind's data is never touched. */
  function Submit(s: FormState, token: Reading, devices: DeviceServer, accessories: AccessoryServer): (o: Outcome)
    ensures s.tipoProducto == Accesorios ==> o.state.formData == s.formData
    ensures s.tipoProducto == Dispositivos ==> o.state.accesorioData == s.accesorioData
    ensures o.state.tipoProducto == s.tipoProducto
  {
    if s.tipoProducto == Accesorios then SubmitAccessory(s, token, accessories) else SubmitDevice(s, token, devices)
  }

  /** After a successful create the fields are empty, so submitting again
      at once is refused by validation and sends nothing. */
  lemma ResubmitAfterSuccessRefused(s: FormState, token: Reading, devices: DeviceServer, accessories: AccessoryServer,
                                    token2: Reading, devices2: DeviceServer, accessories2: AccessoryServer)
    requires s.tipoProducto == Dispositivos ==> DeviceComplete(s.formData) && token.Success? && Truthy(token.value) &&
                                                devices.create.Delivered? && devices.create.data.producto.Some?
    requires s.tipoProducto == Accesorios ==> AccessoryComplete(s.accesorioData) && token.Success? && Truthy(token.value) &&
                                              accessories.create.Delivered? && accessories.create.data.accesorio.Some?
    ensures var t := Submit(s, token, devices, accessories).state;
            Submit(t, token2, devices2, accessories2) == Outcome(t, Some(IncompleteMsg), [])
  {
  }

  // ----- Kind selection, the kind effect, and edits -----

  /** The effect on `[tipoProducto]`: both generated barcodes cleared, and
      the current kind's list fetched; a failed fetch is not caught and
      leaves the list as it was. */
  function KindEffect(s: FormState, token: Reading,
                      devices: Api.HttpOutcome<Option<seq<string>>>, accessories: Api.HttpOutcome<seq<string>>): (r: FormState)
    ensures r.codigoBarrasDispositivo.None? && r.codigoBarrasAccesorio.None?
    ensures r.tipoProducto == s.tipoProducto && r.mostrarFormulario == s.mostrarFormulario
    ensures r.formData == s.formData && r.accesorioData == s.accesorioData
    ensures s.tipoProducto == Dispositivos ==> r.listaCodigosAccesorios == s.listaCodigosAccesorios
    ensures s.tipoProducto == Accesorios ==> r.listaCodigosDispositivos == s.listaCodigosDispositivos
    ensures s.tipoProducto == Dispositivos ==>
              r.listaCodigosDispositivos == if token.Success? && devices.Delivered?
                                            then (if devices.data.Some? then devices.data.value else [])
                                            else s.listaCodigosDispositivos
    ensures s.tipoProducto == Accesorios ==>
              r.listaCodigosAccesorios == if token.Success? && accessories.Delivered?
                                          then accessories.data
                                          else s.listaCodigosAccesorios
  {
    var s1 := s.(codigoBarrasDispositivo := None, codigoBarrasAccesorio := None);
    match s.tipoProducto
    case Dispositivos =>
      var y := Api.FetchWith(token, "/gt/listarProductos", devices, Api.ListProductsFallback);
      if y.result.Success? then s1.(listaCodigosDispositivos := if y.result.value.Some? then y.result.value.value else [])
      else s1
    case Accesorios =>
      var y := Api.FetchWith(token, "/gt/listarAccesorios", accessories, Api.ListAccessoriesFallback);
      if y.result.Success? then s1.(listaCodigosAccesorios := y.result.value) else s1
  }

  /** `onSelect` of the kind selector (and `handleTipoSelect`): the form is
      hidden; only a real change of kind re-runs the effect. */
  function SelectKind(s: FormState, kind: Kind, token: Reading,
                      devices: Api.HttpOutcome<Option<seq<string>>>, accessories: Api.HttpOutcome<seq<string>>): (r: FormState)
    ensures r.tipoProducto == kind && !r.mostrarFormulario
    ensures r.formData == s.formData && r.accesorioData == s.accesorioData
    ensures kind != s.tipoProducto ==> r.codigoBarrasDispositivo.None? && r.codigoBarrasAccesorio.None?
    ensures kind == s.tipoProducto ==> r == s.(mostrarFormulario := false)
  {
    var s1 := s.(tipoProducto := kind, mostrarFormulario := false);
    if kind == s.tipoProducto then s1 else KindEffect(s1, token, devices, accessories)
  }

  /** 'Agregar': show the form. */
  function ShowForm(s: FormState): (r: FormState)
    ensures r.mostrarFormulario && r.(mostrarFormulario := s.mostrarFormulario) == s
  {
    s.(mostrarFormulario := true)
  }

  /** The category picker's `onChange`: the category is replaced and the
      capacity cleared; nothing else changes. */
  function ChangeCategory(s: FormState, value: string): (r: FormState)
    ensures r.formData.categoria == value && r.formData.capacidad == ""
    ensures r.formData.(categoria := s.formData.categoria, capacidad := s.formData.capacidad) == s.formData
    ensures r.(formData := s.formData) == s
  {
    s.(formData := s.formData.(categoria := value, capacidad := ""))
  }

  /** Clearing the capacity puts the capacity picker back on its placeholder
      item, whatever the new category's list is. */
  lemma CategoryChangeSelectsPlaceholder(s: FormState, value: string)
    ensures ChangeCategory(s, value).formData.capacidad == CapacidadSelector.Items(Some(value))[0].value
  {
  }

  /** The device fields a text input or picker sets directly. */
  datatype DeviceField = CodigoUnico | CodigoSerial | NombreEquipo | Color | Capacidad | Precio | Tipo

  /** The accessory fields. */
  datatype AccessoryField = CodigoUnicoAccs | Nombre | PrecioAccs

  /** Editing one device field replaces it and nothing else. */
  function EditDevice(s: FormState, field: DeviceField, text: string): (r: FormState)
    ensures r.(formData := s.formData) == s
    ensures r.formData.categoria == s.formData.categoria
    ensures field == CodigoUnico ==> r.formData == s.formData.(codigoUnico := text)
    ensures field == CodigoSerial ==> r.formData == s.formData.(codigoSerial := text)
    ensures field == NombreEquipo ==> r.formData == s.formData.(nombreEquipo := text)
    ensures field == Color ==> r.formData == s.formData.(color := text)
    ensures field == Capacidad ==> r.formData == s.formData.(capacidad := text)
    ensures field == Precio ==> r.formData == s.formData.(precio := text)
    ensures field == Tipo ==> r.formData == s.formData.(tipo := text)
  {
    var f := s.formData;
    s.(formData := match field
      case CodigoUnico => f.(codigoUnico := text)
      case CodigoSerial => f.(codigoSerial := text)
      case NombreEquipo => f.(nombreEquipo := text)
      case Color => f.(color := text)
      case Capacidad => f.(capacidad := text)
      case Precio => f.(precio := text)
      case Tipo => f.(tipo := text))
  }

  /** Editing one accessory field replaces it and nothing else. */
  function EditAccessory(s: FormState, field: AccessoryField, text: string): (r: FormState)
    ensures r.(accesorioData := s.accesorioData) == s
    ensures field == CodigoUnicoAccs ==> r.accesorioData == s.accesorioData.(codigoUnico := text)
    ensures field == Nombre ==> r.accesorioData == s.accesorioData.(nombre := text)
    ensures field == PrecioAccs ==> r.accesorioData == s.accesorioData.(precio := text)
  {
    var a := s.accesorioData;
    s.(accesorioData := match field
      case CodigoUnicoAccs => a.(codigoUnico := text)
      case Nombre => a.(nombre := text)
      case PrecioAccs => a.(precio := text))
  }

  // ----- The screen as a component instance -----

  /** The screen's state fields, updated in place by its handlers, and the
      store the service facades read the token from. */
  class Screen {
    const store: Storage
    var tipoProducto: Kind
    var mostrarFormulario: bool
    var codigoBarrasDispositivo: Option<string>
    var codigoBarrasAccesorio: Option<string>
    var listaCodigosDispositivos: seq<string>
    var listaCodigosAccesorios: seq<string>
    var formData: DeviceForm
    var accesorioData: AccessoryForm

    function State(): FormState
      reads this
    {
      FormState(tipoProducto, mostrarFormulario, codigoBarrasDispositivo, codigoBarrasAccesorio,
                listaCodigosDispositivos, listaCodigosAccesorios, formData, accesorioData)
    }

    constructor (store: Storage)
      ensures this.store == store && State() == Initial
    {
      this.store := store;
      tipoProducto := Dispositivos;
      mostrarFormulario := false;
      codigoBarrasDispositivo := None;
      codigoBarrasAccesorio := None;
      listaCodigosDispositivos := [];
      listaCodigosAccesorios := [];
      formData := EmptyDevice;
      accesorioData := EmptyAccessory;
    }

    /** `handleSubmit`; returns the alert shown and the paths requested. */
    method HandleSubmit(devices: DeviceServer, accessories: AccessoryServer) returns (alert: Option<string>, sent: seq<string>)
      modifies this
      ensures var o := Submit(old(State()), store.Read("token"), devices, accessories);
              State() == o.state && alert == o.alert && sent == o.sent
    {
      if tipoProducto == Accesorios {
        alert, sent := SubmitAccesorio(accessories);
      } else {
        alert, sent := SubmitDispositivo(devices);
      }
    }

    /** The accessory branch of `handleSubmit`. */
    method SubmitAccesorio(server: AccessoryServer) returns (alert: Option<string>, sent: seq<string>)
      modifies this
      ensures var o := SubmitAccessory(old(State()), store.Read("token"), server);
              State() == o.state && alert == o.alert && sent == o.sent
    {
      if |MissingFields(AccessoryEntries(accesorioData))| > 0 {
        return Some(IncompleteMsg), [];
      }
      var x := Api.CrearAccesorio(store, AccessoryPayload(accesorioData), server.create);
      sent := Sent(x);
      if x.result.Failure? {
        return Some(AlertText(x.result.error, AccessoryDefaultMsg)), sent;
      }
      var accesorio := x.result.value.accesorio;
      if accesorio.None? {
        return Some(AlertText(Raised(NoAccessoryInfoMsg), AccessoryDefaultMsg)), sent;
      }
      codigoBarrasAccesorio := Get(accesorio.value, "codigoBarrasAccs");
      mostrarFormulario := false;
      accesorioData := EmptyAccessory;
      var y := Api.ObtenerAccesorios(store, server.list);
      sent := sent + Sent(y);
      if y.result.Success? {
        listaCodigosAccesorios := y.result.value;
        alert := None;
      } else {
        alert := Some(AlertText(y.result.error, AccessoryDefaultMsg));
      }
    }

    /** The device branch of `handleSubmit`. */
    method SubmitDispositivo(server: DeviceServer) returns (alert: Option<string>, sent: seq<string>)
      modifies this
      ensures var o := SubmitDevice(old(State()), store.Read("token"), server);
              State() == o.state && alert == o.alert && sent == o.sent
    {
      if |MissingFields(DeviceEntries(formData))| > 0 {
        return Some(IncompleteMsg), [];
      }
      var x := Api.CrearProducto(store, DeviceInput(formData), server.create);
      sent := Sent(x);
      if x.result.Failure? {
        return Some(AlertText(x.result.error, DeviceDefaultMsg)), sent;
      }
      var producto := x.result.value.producto;
      if producto.None? {
        return None, sent;
      }
      codigoBarrasDispositivo := Get(producto.value, "codigoBarras");
      mostrarFormulario := false;
      formData := EmptyDevice;
      var y := Api.ObtenerProductos(store, server.list);
      sent := sent + Sent(y);
      if y.result.Success? {
        listaCodigosDispositivos := if y.result.value.Some? then y.result.value.value else [];
        alert := None;
      } else {
        alert := Some(AlertText(y.result.error, DeviceDefaultMsg));
      }
    }

    /** The effect on `[tipoProducto]`, run on mount and after each change of kind. */
    method RunKindEffect(devices: Api.HttpOutcome<Option<seq<string>>>, accessories: Api.HttpOutcome<seq<string>>)
      modifies this
      ensures State() == KindEffect(old(State()), store.Read("token"), devices, accessories)
    {
      codigoBarrasDispositivo := None;
      codigoBarrasAccesorio := None;
      if tipoProducto == Dispositivos {
        var y := Api.ObtenerProductos(store, devices);
        if y.result.Success? {
          listaCodigosDispositivos := if y.result.value.Some? then y.result.value.value else [];
        }
      } else {
        var y := Api.ObtenerAccesorios(store, accessories);
        if y.result.Success? {
          listaCodigosAccesorios := y.result.value;
        }
      }
    }

    /** The kind selector's `onSelect`. */
    method SelectTipo(kind: Kind, devices: Api.HttpOutcome<Option<seq<string>>>, accessories: Api.HttpOutcome<seq<string>>)
      modifies this
      ensures State() == SelectKind(old(State()), kind, store.Read("token"), devices, accessories)
    {
      var changed := kind != tipoProducto;
      tipoProducto := kind;
      mostrarFormulario := false;
      if changed {
        RunKindEffect(devices, accessories);
      }
    }

    /** The 'Agregar' button. */
    method Agregar()
      modifies this
      ensures State() == ShowForm(old(State()))
    {
      mostrarFormulario := true;
    }

    /** The category picker's `onChange`. */
    method OnCategoria(value: string)
      modifies this
      ensures State() == ChangeCategory(old(State()), value)
    {
      formData := formData.(categoria := value, capacidad := "");
    }

    /** A device input's `onChangeText` or picker `onChange`. */
    method OnDeviceField(field: DeviceField, text: string)
      modifies this
      ensures State() == EditDevice(old(State()), field, text)
    {
      formData := EditDevice(State(), field, text).formData;
    }

    /** An accessory input's `onChangeText`. */
    method OnAccessoryField(field: AccessoryField, text: string)
      modifies this
      ensures State() == EditAccessory(old(State()), field, text)
    {
      accesorioData := EditAccessory(State(), field, text).accesorioData;
    }
  }
}
