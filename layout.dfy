/** The root layout's redirect rule: once authentication has loaded, signed-in
    users are sent into the authenticated tabs unless already inside that
    group, and signed-out users are sent to the landing page. */
module Layout {
  import opened Wrappers

  const AuthGroup := "(authenticated)"

  /** The two targets of `router.replace`. */
  datatype Route = Landing | AuthenticatedTabs

  function Path(r: Route): string {
    match r
    case Landing => "/"
    case AuthenticatedTabs => "/(authenticated)/(tabs)"
  }

  /** The route segments the router reports once a route is shown. */
  function SegmentsOf(r: Route): seq<string> {
    match r
    case Landing => []
    case AuthenticatedTabs => [AuthGroup, "(tabs)"]
  }

  /** `segments[0] === "(authenticated)"`; with no segments the first one is undefined. */
  predicate InAuthGroup(segments: seq<string>) {
    |segments| > 0 && segments[0] == AuthGroup
  }

  /** The effect's decision: the route it replaces the current one with, if any. */
  function RedirectTarget(isLoaded: bool, isSignedIn: bool, segments: seq<string>): (r: Option<Route>)
    ensures r == None <==> !isLoaded || (isSignedIn && InAuthGroup(segments))
    ensures r == Some(Landing) <==> isLoaded && !isSignedIn
    ensures r == Some(AuthenticatedTabs) <==> isLoaded && isSignedIn && !InAuthGroup(segments)
    ensures r.Some? ==> Path(r.value) == (if isSignedIn then "/(authenticated)/(tabs)" else "/")
  {
    if !isLoaded then None
    else if isSignedIn && !InAuthGroup(segments) then Some(AuthenticatedTabs)
    else if !isSignedIn then Some(Landing)
    else None
  }

  /** Signed-out users land on "/" from anywhere: the segments play no part. */
  lemma SignedOutIgnoresSegments(s1: seq<string>, s2: seq<string>)
    ensures RedirectTarget(true, false, s1) == RedirectTarget(true, false, s2) == Some(Landing)
  {
  }

  /** Only the first segment matters. */
  lemma OnlyFirstSegmentMatters(isLoaded: bool, isSignedIn: bool, first: string, rest1: seq<string>, rest2: seq<string>)
    ensures RedirectTarget(isLoaded, isSignedIn, [first] + rest1) == RedirectTarget(isLoaded, isSignedIn, [first] + rest2)
  {
  }

  /** The redirect settles: on the route it chose, the same rule sends the
      user nowhere new (a signed-in user stays put; a signed-out user is at
      most sent to the landing page again). */
  lemma RedirectSettles(isSignedIn: bool, segments: seq<string>)
    ensures var r := RedirectTarget(true, isSignedIn, segments);
      r.Some? ==> RedirectTarget(true, isSignedIn, SegmentsOf(r.value)) in {None, r}
    ensures isSignedIn ==>
      RedirectTarget(true, isSignedIn, SegmentsOf(AuthenticatedTabs)) == None
  {
  }

  /** What the layout renders. */
  datatype Screen = Placeholder | Navigator(screens: seq<string>)

  /** An empty view until authentication has loaded, then the stack of the three route groups. */
  function Render(isLoaded: bool): (s: Screen)
    ensures s == Placeholder <==> !isLoaded
    ensures s.Navigator? ==> AuthGroup in s.screens
  {
    if !isLoaded then Placeholder else Navigator(["index", AuthGroup, "auth"])
  }

  /** Before loading there is neither a redirect nor a navigator. */
  lemma NothingBeforeLoad(isSignedIn: bool, segments: seq<string>)
    ensures RedirectTarget(false, isSignedIn, segments) == None && Render(false) == Placeholder
  {
  }
}
