/** The barcode scanner screen (components/EscanerCodigoBarras.tsx): it asks
    for camera permission once, and then hands on at most one decoded code
    per arming; 'Escanear de nuevo' re-arms it. The camera API is reduced to
    the permission status string and the decoded data. */
module Escaner {
  import opened Js

  const GrantedStatus := "granted"
  const RequestingText := "Solicitando permiso de cámara..."
  const NoAccessText := "Sin acceso a la cámara"

  /** The screen's state: `hasPermission` (None while the request is
      pending) and the `scanned` latch. */
  datatype Latch = Latch(hasPermission: Option<bool>, scanned: bool)

  /** First render: permission unknown, latch open. */
  const Initial := Latch(None, false)

  /** The permission request resolved with `status`: granted exactly when
      the status is 'granted'. The latch is untouched. */
  function PermissionResolved(s: Latch, status: string): (r: Latch)
    ensures r.hasPermission.Some?
    ensures r.hasPermission.value <==> status == GrantedStatus
    ensures r.scanned == s.scanned
  {
    s.(hasPermission := Some(status == GrantedStatus))
  }

  /** `handleBarCodeScanned`: while the latch is open, close it and deliver
      the data to `onCodigoEscaneado`; once closed, deliver nothing and
      change nothing. Returns the new state and what was delivered. */
  function OnScan(s: Latch, data: string): (r: (Latch, Option<string>))
    ensures r.0.scanned
    ensures r.0.hasPermission == s.hasPermission
    ensures r.1.Some? <==> !s.scanned
    ensures r.1.Some? ==> r.1.value == data
    ensures s.scanned ==> r.0 == s
  {
    if !s.scanned then (s.(scanned := true), Some(data)) else (s, None)
  }

  /** 'Escanear de nuevo': re-arm the latch. */
  function Rescan(s: Latch): (r: Latch)
    ensures !r.scanned && r.hasPermission == s.hasPermission
  {
    s.(scanned := false)
  }

  datatype Button = EscanearDeNuevo | Cerrar

  /** What the screen shows. */
  datatype Screen =
    | Message(text: string)
    | Camera(listening: bool, buttons: seq<Button>)

  /** The camera shows only with permission granted, and listens for codes
      only while the latch is open; 'Cerrar' is always offered with it and
      'Escanear de nuevo' only once a code was taken. Pending and denied
      permission each show their fixed text. */
  function Render(s: Latch): (r: Screen)
    ensures r.Camera? <==> s.hasPermission == Some(true)
    ensures s.hasPermission.None? ==> r == Message(RequestingText)
    ensures s.hasPermission == Some(false) ==> r == Message(NoAccessText)
    ensures r.Camera? ==> (r.listening <==> !s.scanned)
    ensures r.Camera? ==> Cerrar in r.buttons && (EscanearDeNuevo in r.buttons <==> s.scanned)
  {
    match s.hasPermission
    case None => Message(RequestingText)
    case Some(granted) =>
      if !granted then Message(NoAccessText)
      else if s.scanned then Camera(false, [EscanearDeNuevo, Cerrar])
      else Camera(true, [Cerrar])
  }

  /** Something that happens to the screen. */
  datatype Event = Resolved(status: string) | Decoded(data: string) | PressRescan

  /** One event as the rendered screen receives it: a decoded code reaches
      the handler only while the camera is listening, and the rescan button
      can be pressed only while it is shown. */
  function Step(s: Latch, e: Event): (r: (Latch, Option<string>))
    ensures r.1.Some? ==> e.Decoded? && r.1.value == e.data && s.hasPermission == Some(true) && !s.scanned && r.0.scanned
    ensures r.0.hasPermission == s.hasPermission || e.Resolved?
    ensures r.0.scanned && !s.scanned ==> r.1.Some?
    ensures e.Decoded? && s.hasPermission == Some(true) && !s.scanned ==> r == (s.(scanned := true), Some(e.data))
  {
    match e
    case Resolved(status) => (PermissionResolved(s, status), None)
    case Decoded(data) =>
      var screen := Render(s);
      if screen.Camera? && screen.listening then OnScan(s, data) else (s, None)
    case PressRescan =>
      var screen := Render(s);
      if screen.Camera? && EscanearDeNuevo in screen.buttons then (Rescan(s), None) else (s, None)
  }

  /** The codes handed on over a run of events, and the final state. */
  function Run(s: Latch, events: seq<Event>): (Latch, seq<string>)
    decreases |events|
  {
    if |events| == 0 then (s, [])
    else
      var (t, out) := Step(s, events[0]);
      var (u, rest) := Run(t, events[1..]);
      (u, (if out.Some? then [out.value] else []) + rest)
  }

  /** How many times the rescan button is pressed in a run. */
  function Rescans(events: seq<Event>): nat
  {
    if |events| == 0 then 0 else (if events[0].PressRescan? then 1 else 0) + Rescans(events[1..])
  }

  /** 1 while the latch is open, 0 once a code was taken. */
  function Open(s: Latch): nat { if s.scanned then 0 else 1 }

  /** The latch never lets two codes through without a rescan between them:
      over any run, the codes handed on plus one if the latch ends open are
      at most one if it started open plus the rescans. In particular, from
      the first render, a run without rescans hands on at most one code.
      Each event here sees the latch as the previous event left it, that is,
      the screen re-renders between two decoded codes; two codes delivered
      to the same render would both see it open. */
  lemma {:induction false} AtMostOneCodePerArming(s: Latch, events: seq<Event>)
    ensures |Run(s, events).1| + Open(Run(s, events).0) <= Open(s) + Rescans(events)
    decreases |events|
  {
    if |events| > 0 {
      var (t, out) := Step(s, events[0]);
      AtMostOneCodePerArming(t, events[1..]);
    }
  }

  /** Every code handed on was decoded by the camera. */
  lemma {:induction false} OnlyDecodedCodes(s: Latch, events: seq<Event>)
    ensures forall c :: c in Run(s, events).1 ==> Decoded(c) in events
    decreases |events|
  {
    if |events| > 0 {
      var (t, out) := Step(s, events[0]);
      OnlyDecodedCodes(t, events[1..]);
      assert events == [events[0]] + events[1..];
    }
  }

  /** The screen as a component instance whose fields the handlers update. */
  class Scanner {
    var hasPermission: Option<bool>
    var scanned: bool

    function State(): Latch
      reads this
    {
      Latch(hasPermission, scanned)
    }

    constructor ()
      ensures State() == Initial
    {
      hasPermission := None;
      scanned := false;
    }

    /** The mount effect, once the permission request resolves. */
    method OnPermission(status: string)
      modifies this
      ensures State() == PermissionResolved(old(State()), status)
    {
      hasPermission := Some(status == GrantedStatus);
    }

    /** `handleBarCodeScanned`; `delivered` is what `onCodigoEscaneado` receives. */
    method HandleBarCodeScanned(data: string) returns (delivered: Option<string>)
      modifies this
      ensures (State(), delivered) == OnScan(old(State()), data)
    {
      delivered := None;
      if !scanned {
        scanned := true;
        delivered := Some(data);
      }
    }

    /** 'Escanear de nuevo'. */
    method PressRescan()
      modifies this
      ensures State() == Rescan(old(State()))
    {
      scanned := false;
    }
  }
}
