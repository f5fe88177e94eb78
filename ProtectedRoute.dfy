/** The protected-route hook: a router wrapper that sends a signed-out user
    to the login screen instead of a protected page. */
module ProtectedRoute {
  import opened Wrappers
  import opened Strings

  /** A navigation target: a path string, an object that may carry a
      `pathname`, or anything else. */
  datatype Href = PathHref(path: string) | ObjectHref(pathname: Option<string>) | OtherHref

  /** The router calls made, in order. */
  datatype RouterCall = Push(href: Href) | Replace(href: Href) | Navigate(href: Href)

  /** The prefixes in force: none when the option is not given. */
  function Prefixes(configured: Option<seq<string>>): (prefixes: seq<string>)
    ensures configured.None? ==> prefixes == []
    ensures configured.Some? ==> prefixes == configured.value
  {
    configured.GetOr([])
  }

  /** `isProtectedRoute`: some prefix starts the route. */
  function IsProtectedRoute(prefixes: seq<string>, route: string): (protected: bool)
    ensures protected <==> exists i :: 0 <= i < |prefixes| && StartsWith(route, prefixes[i])
  {
    if prefixes == [] then false
    else
      assert forall i :: 0 <= i < |prefixes| - 1 ==> prefixes[1..][i] == prefixes[i + 1];
      StartsWith(route, prefixes[0]) || IsProtectedRoute(prefixes[1..], route)
  }

  /** With no prefixes nothing is protected; an empty prefix protects every path. */
  lemma ProtectionExtremes(prefixes: seq<string>, route: string)
    ensures !IsProtectedRoute([], route)
    ensures "" in prefixes ==> IsProtectedRoute(prefixes, route)
  {
    if "" in prefixes {
      var i :| 0 <= i < |prefixes| && prefixes[i] == "";
      assert StartsWith(route, prefixes[i]);
    }
  }

  /** The pathname checked: the string itself, an object's `pathname`, or "". */
  function PathnameOf(href: Href): (pathname: string)
    ensures href.PathHref? ==> pathname == href.path
    ensures href.ObjectHref? && href.pathname.Some? ==> pathname == href.pathname.value
    ensures href.OtherHref? || (href.ObjectHref? && href.pathname.None?) ==> pathname == ""
  {
    match href
    case PathHref(path) => path
    case ObjectHref(pathname) => pathname.GetOr("")
    case OtherHref => ""
  }

  /** `checkAuth` refuses exactly a non-empty protected pathname without a user. */
  predicate Denied(prefixes: seq<string>, signedIn: bool, href: Href)
  {
    PathnameOf(href) != "" && IsProtectedRoute(prefixes, PathnameOf(href)) && !signedIn
  }

  /** A signed-in user is never refused, and nor is an unprotected target. */
  lemma DeniedOnlySignedOutProtected(prefixes: seq<string>, signedIn: bool, href: Href)
    ensures signedIn ==> !Denied(prefixes, signedIn, href)
    ensures prefixes == [] ==> !Denied(prefixes, signedIn, href)
    ensures href.OtherHref? ==> !Denied(prefixes, signedIn, href)
  {
  }

  class Router {
    const prefixes: seq<string>
    var signedIn: bool
    /** Every call made on the underlying router. */
    var calls: seq<RouterCall>

    constructor (configured: Option<seq<string>>, signedIn: bool)
      ensures prefixes == Prefixes(configured) && this.signedIn == signedIn && calls == []
    {
      prefixes := Prefixes(configured);
      this.signedIn := signedIn;
      calls := [];
    }

    /** `checkAuth`: on refusal, the login screen is pushed and false returned;
        otherwise true with no call made. */
    method CheckAuth(href: Href) returns (allowed: bool)
      modifies this`calls
      ensures allowed <==> !Denied(prefixes, signedIn, href)
      ensures !allowed ==> calls == old(calls) + [Push(PathHref("/login"))]
      ensures allowed ==> calls == old(calls)
    {
      var pathname := PathnameOf(href);
      if pathname != "" && IsProtectedRoute(prefixes, pathname) {
        if !signedIn {
          calls := calls + [Push(PathHref("/login"))];
          return false;
        }
      }
      return true;
    }

    method GuardedPush(href: Href)
      modifies this`calls
      ensures Denied(prefixes, signedIn, href) ==> calls == old(calls) + [Push(PathHref("/login"))]
      ensures !Denied(prefixes, signedIn, href) ==> calls == old(calls) + [Push(href)]
    {
      var allowed := CheckAuth(href);
      if allowed {
        calls := calls + [Push(href)];
      }
    }

    method GuardedReplace(href: Href)
      modifies this`calls
      ensures Denied(prefixes, signedIn, href) ==> calls == old(calls) + [Push(PathHref("/login"))]
      ensures !Denied(prefixes, signedIn, href) ==> calls == old(calls) + [Replace(href)]
    {
      var allowed := CheckAuth(href);
      if allowed {
        calls := calls + [Replace(href)];
      }
    }

    method GuardedNavigate(href: Href)
      modifies this`calls
      ensures Denied(prefixes, signedIn, href) ==> calls == old(calls) + [Push(PathHref("/login"))]
      ensures !Denied(prefixes, signedIn, href) ==> calls == old(calls) + [Navigate(href)]
    {
      var allowed := CheckAuth(href);
      if allowed {
        calls := calls + [Navigate(href)];
      }
    }

    /** `routeTo(route)` is `navigate` on the path. */
    method RouteTo(route: string)
      modifies this`calls
      ensures Denied(prefixes, signedIn, PathHref(route)) ==> calls == old(calls) + [Push(PathHref("/login"))]
      ensures !Denied(prefixes, signedIn, PathHref(route)) ==> calls == old(calls) + [Navigate(PathHref(route))]
    {
      GuardedNavigate(PathHref(route));
    }
  }
}
