/** The screens a handler sends the browser to. Only the chosen route is
    modelled; the router that performs the navigation is not. */
module Navigation {
  import opened Types

  /** `/select-type`, or `/chat/<type>`. */
  datatype Route = ToSelectType | ToChat(kind: ClientType)

  /** How the router reads a path back: `/select-type`, or `/chat/` followed
      by a client type; any other path is no route of ours. */
  function RouteOfPath(path: string): Option<Route> {
    if path == "/select-type" then Some(ToSelectType)
    else if path == "/chat/new_idea" then Some(ToChat(NewIdea))
    else if path == "/chat/improvement" then Some(ToChat(Improvement))
    else None
  }

  /** The path handed to `router.push`. Reading it back gives the route, so
      distinct routes never share a path. */
  function RoutePath(r: Route): (path: string)
    ensures RouteOfPath(path) == Some(r)
  {
    match r
    case ToSelectType => "/select-type"
    case ToChat(t) => "/chat/" + ClientTypeName(t)
  }
}
