/** Navigation routes: three fixed routes, and the per-model chat route
    "chat/<model id>". */
module Screen {
  import opened Wrappers

  const HomeRoute: string := "home"
  const ChatRoute: string := "chat"
  const SettingsRoute: string := "settings"

  /** `Screen.Chat.createRoute`: the chat route's prefix "chat/" followed
      by the id, which can be read back from the sixth character on. */
  function CreateRoute(modelId: string): (r: string)
    ensures |r| == |modelId| + 5
    ensures r[..5] == ChatRoute + "/" && r[5..] == modelId
  {
    "chat/" + modelId
  }

  /** The model id in a "chat/{modelId}" route, as the navigation graph
      extracts it: present exactly for routes starting "chat/", and then
      the route is the one created from that id. */
  function ModelIdOfRoute(route: string): (r: Option<string>)
    ensures r.Some? <==> |route| >= 5 && route[..5] == ChatRoute + "/"
    ensures r.Some? ==> CreateRoute(r.value) == route
  {
    if |route| >= 5 && route[..5] == "chat/" then
      assert route == route[..5] + route[5..];
      Some(route[5..])
    else None
  }

  /** The chat route is the chat screen's base route, a slash, and the id;
      this is also the route the home list builds by hand. */
  lemma CreateRouteExtendsChatRoute(modelId: string)
    ensures CreateRoute(modelId) == ChatRoute + "/" + modelId
    ensures |CreateRoute(modelId)| == |modelId| + 5
  {
  }

  /** Dropping the first five characters of a created route gives back the
      id, and reading the route back gives the id. */
  lemma CreateRouteRoundTrip(modelId: string)
    ensures CreateRoute(modelId)[5..] == modelId
    ensures ModelIdOfRoute(CreateRoute(modelId)) == Some(modelId)
  {
    assert CreateRoute(modelId)[..5] == "chat/";
  }

  /** Different ids give different routes. */
  lemma CreateRouteInjective(a: string, b: string)
    requires CreateRoute(a) == CreateRoute(b)
    ensures a == b
  {
    CreateRouteRoundTrip(a);
    CreateRouteRoundTrip(b);
  }

  /** The three fixed routes differ, and no created route equals one. */
  lemma RoutesDistinct(modelId: string)
    ensures HomeRoute != ChatRoute && HomeRoute != SettingsRoute && ChatRoute != SettingsRoute
    ensures CreateRoute(modelId) !in [HomeRoute, ChatRoute, SettingsRoute]
  {
    var r := CreateRoute(modelId);
    assert r[0] == 'c' && r[4] == '/';
    assert SettingsRoute[0] == 's';
  }
}
