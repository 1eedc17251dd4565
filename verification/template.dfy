/**
 * The route template of the sample service (target_app/template.py) as structured records,
 * and the artifact it turns into with the suffixes of the checked-in active_server.py.
 */
module Template {
  import opened Wrappers
  import opened Mutator

  function Route(verb: string, path: string): Decorator {
    Call(Some(verb), [Const(path)])
  }

  /** Four handlers: three sensitive routes and the public "/". */
  const Handlers: seq<Handler> := [
    Handler("admin_login", [Route("get", "/admin/login")]),
    Handler("get_balance", [Route("get", "/api/balance")]),
    Handler("transfer_money", [Route("post", "/api/transfer")]),
    Handler("home", [Route("get", "/")])
  ]

  /** The suffixes drawn in one generation (the fourth is never asked for). */
  const Suffixes: seq<string> := ["7zgdas", "p0ajp4", "3ockve", "000000"]

  const MutatedHandlers: seq<Handler> := [
    Handler("admin_login_7zgdas", [Route("get", "/admin/login_7zgdas")]),
    Handler("get_balance_p0ajp4", [Route("get", "/api/balance_p0ajp4")]),
    Handler("transfer_money_3ockve", [Route("post", "/api/transfer_3ockve")]),
    Handler("home", [Route("get", "/")])
  ]

  const RouteMap: map<string, string> := map[
    "/admin/login" := "/admin/login_7zgdas",
    "/api/balance" := "/api/balance_p0ajp4",
    "/api/transfer" := "/api/transfer_3ockve",
    "/" := "/"
  ]

  /**
   * One template handler: route decorator 0 declares `path` != "/", and takes the next suffix.
   * SingleRouteMutated states the same visit field by field for any handler; this form gives
   * the whole visit result as one value, which the fixture below needs to chain the handlers.
   */
  lemma MutateOne(node: Handler, verb: string, path: string, m: map<string, string>, suffixes: seq<string>, mutated: string, name': string)
    requires verb in RouteVerbs
    requires node.decorators == [Route(verb, path)] && path != RootPath && |suffixes| >= 1
    requires mutated == path + "_" + suffixes[0] && name' == node.name + "_" + suffixes[0]
    ensures VisitSpec(node, m, suffixes) == Visit(Handler(name', [Route(verb, mutated)]), m[path := mutated], 1)
  {
    assert RoutePath(node.decorators[0]) == Some(path);
    var node' := Handler(name', [WithPath(Route(verb, path), mutated)]);
    assert WithPath(Route(verb, path), mutated) == Route(verb, mutated);
    assert VisitFrom(node, 0, m, suffixes, 0) == VisitFrom(node', 1, m[path := mutated], suffixes, 1);
  }

  /**
   * One generation over the template: three routes take a suffix each in order, "/" keeps
   * its path and its handler name, and the route map pairs each original path with the
   * path its handler now declares.
   */
  lemma TemplateGeneration()
    ensures RouteSlots(Handlers) <= |Suffixes|
    ensures TransformSpec(Handlers, map[], Suffixes) == Transformed(MutatedHandlers, RouteMap, 3)
  {
    var s0 := Suffixes;
    assert Handlers[..3][..2][..1][..0] == [];
    assert Handlers[..3][..2][..1] == [Handlers[0]];
    assert Handlers[..3][..2] == [Handlers[0], Handlers[1]];
    assert Handlers[..3] == [Handlers[0], Handlers[1], Handlers[2]];
    assert RouteSlots([Handlers[0]]) == 1;
    assert RouteSlots([Handlers[0], Handlers[1]]) == 2;
    assert RouteSlots([Handlers[0], Handlers[1], Handlers[2]]) == 3;
    assert RouteSlots(Handlers) == 4;
    assert RouteVerbs[0] == "get" && RouteVerbs[1] == "post";
    MutateOne(Handlers[0], "get", "/admin/login", map[], s0, "/admin/login_7zgdas", "admin_login_7zgdas");
    var m1 := map["/admin/login" := "/admin/login_7zgdas"];
    assert TransformSpec([Handlers[0]], map[], s0) == Transformed([MutatedHandlers[0]], m1, 1);
    assert s0[1..][0] == "p0ajp4";
    MutateOne(Handlers[1], "get", "/api/balance", m1, s0[1..], "/api/balance_p0ajp4", "get_balance_p0ajp4");
    var m2 := m1["/api/balance" := "/api/balance_p0ajp4"];
    assert TransformSpec([Handlers[0], Handlers[1]], map[], s0) == Transformed(MutatedHandlers[..2], m2, 2);
    assert s0[2..][0] == "3ockve";
    MutateOne(Handlers[2], "post", "/api/transfer", m2, s0[2..], "/api/transfer_3ockve", "transfer_money_3ockve");
    var m3 := m2["/api/transfer" := "/api/transfer_3ockve"];
    assert TransformSpec(Handlers[..3], map[], s0) == Transformed(MutatedHandlers[..3], m3, 3);
    assert RoutePath(Handlers[3].decorators[0]) == Some(RootPath);
    assert VisitSpec(Handlers[3], m3, s0[3..]) == Visit(Handlers[3], m3[RootPath := RootPath], 0);
    assert m3[RootPath := RootPath] == RouteMap;
  }

  /**
   * A handler with two route decorators on the same path: both are rewritten, each with its
   * own suffix, the name takes both suffixes, and the route map keeps only the second one, so
   * the first decorator's new path is not the one the map records.
   */
  lemma TwoRoutesSamePath()
    ensures var v := VisitSpec(Handler("f", [Route("get", "/a"), Route("post", "/a")]), map[], ["aaaaaa", "bbbbbb"]);
            && v == Visit(Handler("f_aaaaaa_bbbbbb", [Route("get", "/a_aaaaaa"), Route("post", "/a_bbbbbb")]),
                          map["/a" := "/a_bbbbbb"], 2)
            && RoutePath(v.node.decorators[0]) != Some(v.routeMap["/a"])
  {
    var node := Handler("f", [Route("get", "/a"), Route("post", "/a")]);
    var s := ["aaaaaa", "bbbbbb"];
    assert "get" in RouteVerbs && "post" in RouteVerbs;
    assert RoutePath(node.decorators[0]) == Some("/a");
    assert Suffixed("/a", "aaaaaa") == "/a_aaaaaa" && Suffixed("f", "aaaaaa") == "f_aaaaaa";
    var node1 := Handler("f_aaaaaa", [Route("get", "/a_aaaaaa"), Route("post", "/a")]);
    assert WithPath(Route("get", "/a"), "/a_aaaaaa") == Route("get", "/a_aaaaaa");
    assert VisitFrom(node, 0, map[], s, 0) == VisitFrom(node1, 1, map["/a" := "/a_aaaaaa"], s, 1);
    assert node.decorators[0 := Route("get", "/a_aaaaaa")] == node1.decorators;
    assert RoutePath(node1.decorators[1]) == Some("/a");
    assert Suffixed("/a", "bbbbbb") == "/a_bbbbbb" && Suffixed("f_aaaaaa", "bbbbbb") == "f_aaaaaa_bbbbbb";
    var node2 := Handler("f_aaaaaa_bbbbbb", [Route("get", "/a_aaaaaa"), Route("post", "/a_bbbbbb")]);
    assert WithPath(Route("post", "/a"), "/a_bbbbbb") == Route("post", "/a_bbbbbb");
    assert VisitFrom(node1, 1, map["/a" := "/a_aaaaaa"], s, 1) == VisitFrom(node2, 2, map["/a" := "/a_bbbbbb"], s, 2);
    assert node1.decorators[1 := Route("post", "/a_bbbbbb")] == node2.decorators;
    assert RoutePath(node2.decorators[0]) == Some("/a_aaaaaa");
  }
}
