/** Values as the client's JavaScript handles them: optional properties, plain
    objects with string properties, and what a `catch` clause can receive. */
module Js {

  datatype Option<+T> = None | Some(value: T)

  datatype Result<+T, +E> = Success(value: T) | Failure(error: E)

  /** A plain JSON object whose properties are strings (a response or error body). */
  type Props = map<string, string>

  /** `p[key]`, with an absent property read as undefined (None). */
  function Get(p: Props, key: string): Option<string>
  {
    if key in p then Some(p[key]) else None
  }

  /** JavaScript truthiness of a string that may be null or undefined. */
  predicate Truthy(s: Option<string>)
  {
    s.Some? && s.value != ""
  }

  /** `${s}` in a template literal: undefined prints as "undefined". */
  function Template(s: Option<string>): string
  {
    if s.Some? then s.value else "undefined"
  }

  /** A transport failure as axios raises it: `error.code`, `error.message`
      and `error.response?.data` (None when the server never answered). */
  datatype AxiosError = AxiosError(code: Option<string>, message: string, response: Option<Props>)

  /** A value thrown or rejected somewhere in the client. */
  datatype Thrown =
    | Axios(failure: AxiosError)  // raised by the HTTP transport
    | Raised(message: string)     // `new Error(message)`
    | Plain(props: Props)         // a plain object thrown or rejected, `{ msg: ... }`

  /** `error.msg` */
  function MsgOf(e: Thrown): Option<string>
  {
    match e
    case Plain(p) => Get(p, "msg")
    case _ => None
  }

  /** `error.message` */
  function MessageOf(e: Thrown): Option<string>
  {
    match e
    case Axios(f) => Some(f.message)
    case Raised(m) => Some(m)
    case Plain(p) => Get(p, "message")
  }

  /** `error.code` */
  function CodeOf(e: Thrown): Option<string>
  {
    match e
    case Axios(f) => f.code
    case Raised(_) => None
    case Plain(p) => Get(p, "code")
  }

  /** `error.response?.data`: only a transport failure with an answer carries one. */
  function ResponseDataOf(e: Thrown): Option<Props>
  {
    match e
    case Axios(f) => f.response
    case _ => None
  }

  /** The index of the first key equal to `target`, as `Array.prototype.find`
      with an `===` test locates it. */
  function IndexOf<K(==)>(keys: seq<K>, target: K): (r: Option<nat>)
    ensures r.Some? ==> r.value < |keys| && keys[r.value] == target
    ensures r.Some? ==> forall j :: 0 <= j < r.value ==> keys[j] != target
    ensures r.None? ==> forall j :: 0 <= j < |keys| ==> keys[j] != target
  {
    if |keys| == 0 then None
    else if keys[0] == target then Some(0)
    else
      match IndexOf(keys[1..], target)
      case None => None
      case Some(i) => Some(i + 1)
  }
}
