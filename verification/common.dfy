/** Values shared by the worker, the popup store and the badge/menu managers. */
module Common {

  datatype Option<+T> = None | Some(value: T)

  datatype Result<+T, +E> = Success(value: T) | Failure(error: E)

  /** One configured rewrite rule. Its own semantics belong to the rewrite engine. */
  datatype Modifier = Modifier(name: string, value: string, enabled: bool)

  /** A stored profile: the modifier lists and flags that the core reads. */
  datatype Profile = Profile(
    title: string,
    alwaysOn: bool,
    backgroundColor: string,
    headers: seq<Modifier>,
    respHeaders: seq<Modifier>,
    cookieHeaders: seq<Modifier>,
    setCookieHeaders: seq<Modifier>,
    cspHeaders: seq<Modifier>,
    urlReplacements: seq<Modifier>)

  /** The values that extension storage holds under its keys. */
  datatype Json =
    | Undefined
    | Null
    | Bool(b: bool)
    | Number(n: int)
    | Str(s: string)
    | ProfileList(profiles: seq<Profile>)

  /** JavaScript truthiness of a stored value; arrays are truthy even when empty. */
  predicate Truthy(v: Json) {
    match v
    case Undefined => false
    case Null => false
    case Bool(b) => b
    case Number(n) => n != 0
    case Str(s) => s != ""
    case ProfileList(_) => true
  }

  /** Property access on a plain object: a missing key reads as undefined. */
  function Get(m: map<string, Json>, key: string): Json {
    if key in m then m[key] else Undefined
  }
}
