/** The HTTP client and the service facades the screens call
    (services/api.ts): one axios instance whose request interceptor attaches
    the stored bearer token and whose response interceptor turns every failure
    into a plain `{ msg }` object or the server's own error body. The server's
    answer to each call is a parameter (`HttpOutcome`). */
module Api {
  import opened Js
  import opened AsyncStorage

  const Econnaborted := "ECONNABORTED"
  const TimeoutMsg := "Tiempo de espera agotado. Por favor, verifica tu conexión."
  const NoConnectionMsg := "No se pudo conectar con el servidor. Verifica tu conexión o que el servidor esté funcionando."
  const TokenMissingMsg := "Token no encontrado en la respuesta"
  const LoginDefaultMsg := "Error al iniciar sesión. Por favor, intenta de nuevo."
  const NoAuthTokenMessage := "No hay token de autenticación"
  const SessionExpiredMsg := "Sesión expirada. Por favor, inicie sesión nuevamente."
  const CreateProductFallback := "Error al crear el producto"
  const CreateAccessoryFallback := "Error al crear el accesorio"
  const ListProductsFallback := "Error al obtener los productos"
  const ListAccessoriesFallback := "Error al obtener los accesorios"

  /** The headers the axios instance starts every request with. */
  const DefaultHeaders: map<string, string> := map["Content-Type" := "application/json"]

  datatype Request<B> = Request(verb: string, path: string, body: B, headers: map<string, string>)

  /** How the server (or the network) answered one request. */
  datatype HttpOutcome<T> = Delivered(data: T) | Failed(failure: AxiosError)

  /** What one service call did: the request it put on the wire, if any, and
      what it resolved to or rejected with. */
  datatype Exchange<B, T> = Exchange(sent: Option<Request<B>>, result: Result<T, Thrown>)

  // ----- Interceptors -----

  /** The request interceptor's fulfilled path: with a truthy stored token the
      Authorization header becomes "Bearer <token>"; without one the request
      passes unchanged and nothing is raised. */
  function Authorize<B>(req: Request<B>, token: Option<string>): (r: Request<B>)
    ensures r.verb == req.verb && r.path == req.path && r.body == req.body
    ensures r.headers.Keys == req.headers.Keys + (if Truthy(token) then {"Authorization"} else {})
    ensures forall k :: k in req.headers && k != "Authorization" ==> k in r.headers && r.headers[k] == req.headers[k]
    ensures Truthy(token) ==> r.headers["Authorization"] == "Bearer " + token.value
    ensures !Truthy(token) ==> r == req
  {
    if Truthy(token) then req.(headers := req.headers["Authorization" := "Bearer " + token.value]) else req
  }

  /** The response interceptor's error handler: a timeout first, then a
      failure without an answer, and otherwise the server's body unchanged. */
  function NormalizeError(e: Thrown): (p: Props)
    ensures CodeOf(e) == Some(Econnaborted) ==> p == map["msg" := TimeoutMsg]
    ensures CodeOf(e) != Some(Econnaborted) && ResponseDataOf(e).None? ==> p == map["msg" := NoConnectionMsg]
    ensures CodeOf(e) != Some(Econnaborted) && ResponseDataOf(e).Some? ==> p == ResponseDataOf(e).value
  {
    if CodeOf(e) == Some(Econnaborted) then map["msg" := TimeoutMsg]
    else if ResponseDataOf(e).None? then map["msg" := NoConnectionMsg]
    else ResponseDataOf(e).value
  }

  /** One call through the axios instance. `token` is what the request
      interceptor's `getItem('token')` gave; when it rejects, axios hands that
      rejection to the response interceptor's error handler, and nothing is
      sent. Every rejection leaving the instance is a plain object. */
  function Transmit<B, T>(token: Reading, req: Request<B>, reply: HttpOutcome<T>): (x: Exchange<B, T>)
    ensures x.sent.Some? <==> token.Success?
    ensures token.Success? ==> x.sent.value == Authorize(req, token.value)
    ensures token.Success? && reply.Delivered? ==> x.result == Success(reply.data)
    ensures token.Failure? ==> x.result == Failure(Plain(NormalizeError(Raised(token.error))))
    ensures token.Success? && reply.Failed? ==> x.result == Failure(Plain(NormalizeError(Axios(reply.failure))))
    ensures x.result.Failure? ==> x.result.error.Plain? && ResponseDataOf(x.result.error).None?
  {
    match token
    case Failure(m) => Exchange(None, Failure(Plain(NormalizeError(Raised(m)))))
    case Success(t) =>
      var sent := Some(Authorize(req, t));
      match reply
      case Delivered(d) => Exchange(sent, Success(d))
      case Failed(f) => Exchange(sent, Failure(Plain(NormalizeError(Axios(f)))))
  }

  /** `api.request(...)`: reads the token from the store, then transmits. */
  method Call<B, T>(store: Storage, req: Request<B>, reply: HttpOutcome<T>) returns (x: Exchange<B, T>)
    ensures x == Transmit(store.Read("token"), req, reply)
  {
    var token := store.GetItem("token");
    x := Transmit(token, req, reply);
  }

  /** A timeout or a failure without an answer always reaches the caller as a
      `{ msg }` object with a non-empty msg. */
  lemma TransportFailuresCarryMsg(f: AxiosError)
    requires f.code == Some(Econnaborted) || f.response.None?
    ensures Truthy(MsgOf(Plain(NormalizeError(Axios(f)))))
  {
  }

  // ----- Facade catch clauses -----

  /** `throw error.response?.data || fallback` */
  function RethrowOr(e: Thrown, fallback: Props): (r: Thrown)
    ensures r.Plain?
    ensures ResponseDataOf(e).Some? ==> r == Plain(ResponseDataOf(e).value)
    ensures ResponseDataOf(e).None? ==> r == Plain(fallback)
  {
    match ResponseDataOf(e)
    case Some(d) => Plain(d)
    case None => Plain(fallback)
  }

  /** Since every rejection of the axios instance is already a plain object
      without `response`, a facade that catches with `error.response?.data ||
      fallback` always replaces it with its fallback: the interceptor's msg and
      the server's body never reach the screen. */
  lemma FallbackReplacesEveryCallFailure<B, T>(token: Reading, req: Request<B>, reply: HttpOutcome<T>, fallback: Props)
    requires Transmit(token, req, reply).result.Failure?
    ensures RethrowOr(Transmit(token, req, reply).result.error, fallback) == Plain(fallback)
  {
  }

  /** The catch of the two create facades: the missing-token error becomes
      the session-expired msg, anything else `error.response?.data || { mensaje }`. */
  function CreateCatch(e: Thrown, fallback: string): (r: Thrown)
    ensures r.Plain?
    ensures MessageOf(e) == Some(NoAuthTokenMessage) ==> r == Plain(map["msg" := SessionExpiredMsg])
    ensures MessageOf(e) != Some(NoAuthTokenMessage) ==> r == RethrowOr(e, map["mensaje" := fallback])
    ensures Truthy(MsgOf(r)) ==> MessageOf(e) == Some(NoAuthTokenMessage) || ResponseDataOf(e).Some?
  {
    if MessageOf(e) == Some(NoAuthTokenMessage) then Plain(map["msg" := SessionExpiredMsg])
    else RethrowOr(e, map["mensaje" := fallback])
  }

  // ----- authService -----

  datatype Credentials = Credentials(email: string, password: string)

  /** The user record login builds; JSON drops the properties left undefined. */
  datatype User = User(id: Option<string>, nombre: string, email: Option<string>, rol: Option<string>)

  /** What a successful login resolves to. */
  datatype Session = Session(token: string, user: User)

  function LoginRequest(email: string, password: string): Request<Credentials>
  {
    Request("POST", "/gt/login", Credentials(email, password), DefaultHeaders)
  }

  /** The user record built from the login response: `_id` as id, the full
      name as "<nombre> <apellido>", email and rol copied. */
  function BuildUser(data: Props): (u: User)
    ensures u.id == Get(data, "_id") && u.email == Get(data, "email") && u.rol == Get(data, "rol")
    ensures "nombre" in data && "apellido" in data ==> u.nombre == data["nombre"] + " " + data["apellido"]
    ensures "nombre" in data && "apellido" !in data ==> u.nombre == data["nombre"] + " undefined"
    ensures "nombre" !in data && "apellido" in data ==> u.nombre == "undefined " + data["apellido"]
    ensures "nombre" !in data && "apellido" !in data ==> u.nombre == "undefined undefined"
  {
    User(Get(data, "_id"), Template(Get(data, "nombre")) + " " + Template(Get(data, "apellido")), Get(data, "email"), Get(data, "rol"))
  }

  /** Comma-separated items, as JSON separates object members. */
  function Join(parts: seq<string>): string
  {
    if |parts| == 0 then ""
    else if |parts| == 1 then parts[0]
    else parts[0] + "," + Join(parts[1..])
  }

  /** One `"key":"value"` member, or none for an undefined value. */
  function Member(key: string, value: Option<string>): seq<string>
  {
    if value.Some? then ["\"" + key + "\":\"" + value.value + "\""] else []
  }

  /** `JSON.stringify(user)` (string escaping is not modelled). */
  function Stringify(u: User): (s: string)
    ensures |s| >= 2 && s[0] == '{' && s[|s| - 1] == '}'
  {
    "{" + Join(Member("id", u.id) + Member("nombre", Some(u.nombre)) + Member("email", u.email) + Member("rol", u.rol)) + "}"
  }

  /** The catch of `authService.login`: an error that already has a msg is
      rethrown as it is; any other becomes `{ msg: error.message || default }`.
      Either way the caller gets a non-empty msg. */
  function LoginCatch(e: Thrown): (r: Thrown)
    ensures Truthy(MsgOf(e)) ==> r == e
    ensures !Truthy(MsgOf(e)) && Truthy(MessageOf(e)) ==> r == Plain(map["msg" := MessageOf(e).value])
    ensures !Truthy(MsgOf(e)) && !Truthy(MessageOf(e)) ==> r == Plain(map["msg" := LoginDefaultMsg])
    ensures Truthy(MsgOf(r))
  {
    if Truthy(MsgOf(e)) then e
    else Plain(map["msg" := if Truthy(MessageOf(e)) then MessageOf(e).value else LoginDefaultMsg])
  }

  /** What `authService.login` resolves to or rejects with, given the token
      the interceptor reads, whether the store accepts writes, and the reply. */
  function LoginOutcome(token: Reading, writeFault: Option<string>, email: string, password: string, reply: HttpOutcome<Props>): (r: Result<Session, Thrown>)
    ensures r.Success? <==> token.Success? && writeFault.None? && reply.Delivered? && Truthy(Get(reply.data, "token"))
    ensures r.Success? ==> r.value == Session(Get(reply.data, "token").value, BuildUser(reply.data))
    ensures token.Success? && reply.Delivered? && !Truthy(Get(reply.data, "token")) ==> r == Failure(Plain(map["msg" := TokenMissingMsg]))
    ensures token.Success? && reply.Failed? && Truthy(MsgOf(Plain(NormalizeError(Axios(reply.failure))))) ==> r == Failure(Plain(NormalizeError(Axios(reply.failure))))
    ensures token.Failure? ==> r == Failure(Plain(map["msg" := NoConnectionMsg]))
    ensures token.Success? && reply.Failed? ==> r == Failure(LoginCatch(Plain(NormalizeError(Axios(reply.failure)))))
    ensures token.Success? && reply.Delivered? && Truthy(Get(reply.data, "token")) && writeFault.Some? ==>
              r == Failure(LoginCatch(Raised(writeFault.value)))
    ensures r.Failure? ==> Truthy(MsgOf(r.error))
  {
    var x := Transmit(token, LoginRequest(email, password), reply);
    match x.result
    case Failure(e) => Failure(LoginCatch(e))
    case Success(data) =>
      var t := Get(data, "token");
      if !Truthy(t) then Failure(LoginCatch(Raised(TokenMissingMsg)))
      else if writeFault.Some? then Failure(LoginCatch(Raised(writeFault.value)))
      else Success(Session(t.value, BuildUser(data)))
  }

  /** `authService.login`: posts the credentials; on a reply with a token it
      stores exactly 'token' and 'user' and resolves to both; on every failure
      it rejects with a msg and leaves the store as it was. */
  method Login(store: Storage, email: string, password: string, reply: HttpOutcome<Props>)
    returns (r: Result<Session, Thrown>, sent: Option<Request<Credentials>>)
    modifies store
    ensures sent == Transmit(old(store.Read("token")), LoginRequest(email, password), reply).sent
    ensures r == LoginOutcome(old(store.Read("token")), old(store.writeFault), email, password, reply)
    ensures r.Success? ==> store.items == old(store.items)["token" := r.value.token]["user" := Stringify(r.value.user)]
    ensures r.Failure? ==> store.items == old(store.items)
    ensures store.readFault == old(store.readFault) && store.writeFault == old(store.writeFault)
  {
    var x := Call(store, LoginRequest(email, password), reply);
    sent := x.sent;
    match x.result {
      case Failure(e) =>
        r := Failure(LoginCatch(e));
      case Success(data) =>
        var token := Get(data, "token");
        if !Truthy(token) {
          r := Failure(LoginCatch(Raised(TokenMissingMsg)));
        } else {
          var user := BuildUser(data);
          var e := store.SetItem("token", token.value);
          if e.None? {
            e := store.SetItem("user", Stringify(user));
          }
          r := if e.Some? then Failure(LoginCatch(e.value)) else Success(Session(token.value, user));
        }
    }
  }

  /** `authService.logout`: removes 'token', then 'user'; other keys stay. */
  method Logout(store: Storage) returns (e: Option<Thrown>)
    modifies store
    ensures e.Some? <==> old(store.writeFault).Some?
    ensures e.None? ==> store.items == old(store.items) - {"token", "user"}
    ensures e.Some? ==> store.items == old(store.items)
    ensures store.readFault == old(store.readFault) && store.writeFault == old(store.writeFault)
  {
    e := store.RemoveItem("token");
    if e.None? {
      e := store.RemoveItem("user");
    }
  }

  // ----- productoService / accesorioService: create -----

  /** The argument `crearProducto` reads its fields from. */
  datatype ProductInput = ProductInput(
    codigoModelo: Option<string>, codigoSerial: string, nombreEquipo: string, color: string,
    capacidad: string, precio: string, tipo: string, categoria: string)

  /** The body `crearProducto` sends. */
  datatype ProductRequest = ProductRequest(
    codigoModelo: Option<string>, codigoSerial: string, nombreEquipo: string, color: string,
    capacidad: string, precio: string, tipo: string, categoriaNombre: string, estado: string)

  /** The body the accessory form hands to `crearAccesorio`, which sends it as it is. */
  datatype AccessoryRequest = AccessoryRequest(
    codigoUnicoAccs: string, nombreAccs: string, precioAccs: string, disponibilidadAccs: string)

  /** `response.data` of a create call: the created record, when present. */
  datatype DeviceReply = DeviceReply(producto: Option<Props>)
  datatype AccessoryReply = AccessoryReply(accesorio: Option<Props>)

  /** The body of `crearProducto`: the input's fields, the category sent as
      `categoriaNombre`, and `estado` fixed to "Disponible". */
  function ProductRequestOf(input: ProductInput): (p: ProductRequest)
    ensures p.codigoModelo == input.codigoModelo && p.codigoSerial == input.codigoSerial
    ensures p.nombreEquipo == input.nombreEquipo && p.color == input.color && p.capacidad == input.capacidad
    ensures p.precio == input.precio && p.tipo == input.tipo
    ensures p.categoriaNombre == input.categoria && p.estado == "Disponible"
  {
    ProductRequest(input.codigoModelo, input.codigoSerial, input.nombreEquipo, input.color,
                   input.capacidad, input.precio, input.tipo, input.categoria, "Disponible")
  }

  /** The body loses nothing of the input: distinct inputs give distinct bodies. */
  lemma ProductRequestOfInjective(a: ProductInput, b: ProductInput)
    requires ProductRequestOf(a) == ProductRequestOf(b)
    ensures a == b
  {
  }

  /** The headers a create call carries: the instance defaults and the bearer token. */
  function AuthHeaders(token: string): map<string, string>
  {
    DefaultHeaders["Authorization" := "Bearer " + token]
  }

  /** The shared shape of the two create facades: check the stored token,
      post `body` to `path`, and catch with `CreateCatch`. */
  function CreateWith<B, T>(token: Reading, path: string, body: B, reply: HttpOutcome<T>, fallback: string): (x: Exchange<B, T>)
    ensures x.sent.Some? <==> token.Success? && Truthy(token.value)
    ensures token.Success? && !Truthy(token.value) ==> x.result == Failure(Plain(map["msg" := SessionExpiredMsg]))
    ensures x.sent.Some? ==> x.sent.value == Request("POST", path, body, AuthHeaders(token.value.value))
    ensures x.sent.Some? && reply.Delivered? ==> x.result == Success(reply.data)
    ensures x.result.Failure? ==> x.result.error.Plain?
  {
    match token
    case Failure(m) => Exchange(None, Failure(CreateCatch(Raised(m), fallback)))
    case Success(t) =>
      if !Truthy(t) then Exchange(None, Failure(CreateCatch(Raised(NoAuthTokenMessage), fallback)))
      else
        var x := Transmit(token, Request("POST", path, body, AuthHeaders(t.value)), reply);
        match x.result
        case Success(_) => x
        case Failure(e) => Exchange(x.sent, Failure(CreateCatch(e, fallback)))
  }

  /** `productoService.crearProducto` as a function of the store's token. */
  function CreateProduct(token: Reading, input: ProductInput, reply: HttpOutcome<DeviceReply>): (x: Exchange<ProductRequest, DeviceReply>)
    ensures x.sent.Some? <==> token.Success? && Truthy(token.value)
    ensures x.sent.Some? ==> x.sent.value.path == "/gt/agregarProducto" && x.sent.value.body == ProductRequestOf(input)
  {
    CreateWith(token, "/gt/agregarProducto", ProductRequestOf(input), reply, CreateProductFallback)
  }

  /** `accesorioService.crearAccesorio` as a function of the store's token. */
  function CreateAccessory(token: Reading, data: AccessoryRequest, reply: HttpOutcome<AccessoryReply>): (x: Exchange<AccessoryRequest, AccessoryReply>)
    ensures x.sent.Some? <==> token.Success? && Truthy(token.value)
    ensures x.sent.Some? ==> x.sent.value.path == "/gt/agregarAccesorio" && x.sent.value.body == data
  {
    CreateWith(token, "/gt/agregarAccesorio", data, reply, CreateAccessoryFallback)
  }

  /** A create the server or the network rejects reaches the caller as the
      fallback `{ mensaje }` object, which has no msg; only a server body whose
      own `message` is the missing-token text turns into the session msg. */
  lemma CreateRejectionBecomesFallback<B, T>(t: string, path: string, body: B, reply: HttpOutcome<T>, fallback: string)
    requires t != "" && reply.Failed?
    requires reply.failure.response.Some? ==> Get(reply.failure.response.value, "message") != Some(NoAuthTokenMessage)
    ensures CreateWith(Success(Some(t)), path, body, reply, fallback).result == Failure(Plain(map["mensaje" := fallback]))
    ensures !Truthy(MsgOf(CreateWith(Success(Some(t)), path, body, reply, fallback).result.error))
  {
  }

  /** `crearProducto`: no request leaves without a stored token. */
  method CrearProducto(store: Storage, input: ProductInput, reply: HttpOutcome<DeviceReply>)
    returns (x: Exchange<ProductRequest, DeviceReply>)
    ensures x == CreateProduct(store.Read("token"), input, reply)
  {
    x := Create(store, "/gt/agregarProducto", ProductRequestOf(input), reply, CreateProductFallback);
  }

  /** `crearAccesorio`: no request leaves without a stored token. */
  method CrearAccesorio(store: Storage, data: AccessoryRequest, reply: HttpOutcome<AccessoryReply>)
    returns (x: Exchange<AccessoryRequest, AccessoryReply>)
    ensures x == CreateAccessory(store.Read("token"), data, reply)
  {
    x := Create(store, "/gt/agregarAccesorio", data, reply, CreateAccessoryFallback);
  }

  method Create<B, T>(store: Storage, path: string, body: B, reply: HttpOutcome<T>, fallback: string)
    returns (x: Exchange<B, T>)
    ensures x == CreateWith(store.Read("token"), path, body, reply, fallback)
  {
    var token := store.GetItem("token");
    if token.Failure? {
      x := Exchange(None, Failure(CreateCatch(Raised(token.error), fallback)));
    } else if !Truthy(token.value) {
      x := Exchange(None, Failure(CreateCatch(Raised(NoAuthTokenMessage), fallback)));
    } else {
      x := Call(store, Request("POST", path, body, AuthHeaders(token.value.value)), reply);
      if x.result.Failure? {
        x := x.(result := Failure(CreateCatch(x.result.error, fallback)));
      }
    }
  }

  // ----- productoService / accesorioService: list -----

  /** The shared shape of the list facades: a GET whose failures are caught
      with `error.response?.data || { mensaje: fallback }`, which always
      yields the fallback. */
  function FetchWith<T>(token: Reading, path: string, reply: HttpOutcome<T>, fallback: string): (x: Exchange<(), T>)
    ensures x.sent.Some? <==> token.Success?
    ensures x.sent.Some? ==> x.sent.value == Authorize(Request("GET", path, (), DefaultHeaders), token.value)
    ensures token.Success? && reply.Delivered? ==> x.result == Success(reply.data)
    ensures x.result.Failure? ==> x.result.error == Plain(map["mensaje" := fallback])
  {
    var x := Transmit(token, Request("GET", path, (), DefaultHeaders), reply);
    match x.result
    case Success(_) => x
    case Failure(e) => Exchange(x.sent, Failure(RethrowOr(e, map["mensaje" := fallback])))
  }

  method Fetch<T>(store: Storage, path: string, reply: HttpOutcome<T>, fallback: string) returns (x: Exchange<(), T>)
    ensures x == FetchWith(store.Read("token"), path, reply, fallback)
  {
    x := Call(store, Request("GET", path, (), DefaultHeaders), reply);
    if x.result.Failure? {
      x := x.(result := Failure(RethrowOr(x.result.error, map["mensaje" := fallback])));
    }
  }

  /** `obtenerProductos`; its data is the barcodes of `productos`, None when absent. */
  method ObtenerProductos(store: Storage, reply: HttpOutcome<Option<seq<string>>>) returns (x: Exchange<(), Option<seq<string>>>)
    ensures x == FetchWith(store.Read("token"), "/gt/listarProductos", reply, ListProductsFallback)
  {
    x := Fetch(store, "/gt/listarProductos", reply, ListProductsFallback);
  }

  /** `obtenerAccesorios`; its data is the barcodes of the accessories. */
  method ObtenerAccesorios(store: Storage, reply: HttpOutcome<seq<string>>) returns (x: Exchange<(), seq<string>>)
    ensures x == FetchWith(store.Read("token"), "/gt/listarAccesorios", reply, ListAccessoriesFallback)
  {
    x := Fetch(store, "/gt/listarAccesorios", reply, ListAccessoriesFallback);
  }

  // ----- ventaService -----

  /** The query parameters of `obtenerVentasPorFechas`: 'desde' then
      'hasta', each only when given and non-empty. */
  function VentasParams(desde: Option<string>, hasta: Option<string>): (r: seq<(string, string)>)
    ensures |r| == (if Truthy(desde) then 1 else 0) + (if Truthy(hasta) then 1 else 0)
    ensures Truthy(desde) ==> r[0] == ("desde", desde.value)
    ensures Truthy(hasta) ==> r[|r| - 1] == ("hasta", hasta.value)
    ensures forall i :: 0 <= i < |r| ==> r[i].0 == "desde" || r[i].0 == "hasta"
  {
    (if Truthy(desde) then [("desde", desde.value)] else []) + (if Truthy(hasta) then [("hasta", hasta.value)] else [])
  }
}
