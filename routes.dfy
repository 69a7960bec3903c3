/**
 * The route descriptor shared by every adapter, the five HTTP methods the
 * switch-based adapters accept, and the outcome of loading a router.
 */
module Routes {

  datatype Option<+T> = None | Some(value: T)

  /** A route descriptor: an HTTP method and a colon-parameter path template. */
  datatype Route = Route(httpMethod: string, path: string)

  /** The five registration entry points (`Get`, `Post`, ...) of the switch-based adapters. */
  datatype Verb = Get | Post | Put | Patch | Delete {
    /** The method string the switch compares against. */
    function Name(): string {
      match this
      case Get => "GET"
      case Post => "POST"
      case Put => "PUT"
      case Patch => "PATCH"
      case Delete => "DELETE"
    }
  }

  const AcceptedMethods: set<string> := {"GET", "POST", "PUT", "PATCH", "DELETE"}

  predicate Accepted(httpMethod: string) {
    httpMethod in AcceptedMethods
  }

  /**
   * The `switch route.method` of the adapters: the case whose label equals the
   * method string, or None for the `default` branch.
   */
  function ParseVerb(httpMethod: string): (r: Option<Verb>)
    ensures r.Some? <==> Accepted(httpMethod)
    ensures r.Some? ==> r.value.Name() == httpMethod
  {
    if httpMethod == "GET" then Some(Get)
    else if httpMethod == "POST" then Some(Post)
    else if httpMethod == "PUT" then Some(Put)
    else if httpMethod == "PATCH" then Some(Patch)
    else if httpMethod == "DELETE" then Some(Delete)
    else None
  }

  /** Every verb's name is accepted and selects that verb again. */
  lemma ParseVerbName(v: Verb)
    ensures Accepted(v.Name())
    ensures ParseVerb(v.Name()) == Some(v)
  {
    match v
    case Get =>
    case Post =>
    case Put =>
    case Patch =>
    case Delete =>
  }

  /**
   * What a loader leaves behind: the router state it built and, when it
   * panicked, the panic message (the router then holds what was registered
   * before the panic).
   */
  datatype Load<T> = Load(router: T, panic: Option<string>) {
    predicate Aborted() {
      panic.Some?
    }
  }
}
