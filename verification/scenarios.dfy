/**
 * The gateway's routing decision over the sample service's route map after one generation
 * (the map `Template.RouteMap`): which requests reach a node and which land in the trap.
 */
module Scenarios {
  import Template
  import opened Proxy

  /**
   * The sample service after one generation, served by node ALPHA: the original path
   * "/admin/login" is forwarded to ALPHA's "/admin/login_7zgdas".
   */
  lemma TemplateOriginalPathHits()
    ensures Decide(Template.RouteMap, OriginalPath("admin/login"), Nodes[0])
              == Hit("http://127.0.0.1:8001/admin/login_7zgdas")
  {
    assert OriginalPath("admin/login") == "/admin/login";
    assert Template.RouteMap["/admin/login"] == "/admin/login_7zgdas";
    assert Nodes[0].url + "/admin/login_7zgdas" == "http://127.0.0.1:8001/admin/login_7zgdas";
  }

  /** The mutated path itself is not a key of the route map, so asking for it lands in the trap. */
  lemma TemplateMutatedPathMisses()
    ensures Decide(Template.RouteMap, OriginalPath("admin/login_7zgdas"), Nodes[0]) == Miss
  {
    var p := OriginalPath("admin/login_7zgdas");
    assert p == "/admin/login_7zgdas";
    assert Template.RouteMap.Keys == {"/admin/login", "/api/balance", "/api/transfer", "/"};
    assert |p| == 19;
    assert p != "/admin/login" && p != "/api/balance" && p != "/api/transfer" && p != "/";
  }

  /** "/" stays reachable under its own name on either node. */
  lemma TemplateRootHits()
    ensures Decide(Template.RouteMap, OriginalPath(""), Nodes[1]) == Hit("http://127.0.0.1:8002/")
  {
    assert OriginalPath("") == "/";
    assert Template.RouteMap["/"] == "/";
  }
}
