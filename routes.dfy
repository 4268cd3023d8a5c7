/** lib/routes.js: the route table handed to hapi. Every handler module that
    exports a `path` contributes one route per HTTP method it exports; the
    method's configuration object is tagged `api` and loses its `path` key in
    place. */
module Routes {
  import opened Js

  const HTTP_METHODS: seq<string> := ["get", "post", "put", "patch", "delete", "options"]
  const VERBS: seq<string> := ["GET", "POST", "PUT", "PATCH", "DELETE", "OPTIONS"]
  const API_TAG := "api"

  /** A hapi route: upper-case method, full path, handler configuration. */
  datatype Route = Route(verb: string, path: string, config: Object)

  /** What a handler module exports: its `path` (when it has one) and its
      configuration object per exported name. */
  datatype HandlerExports = HandlerExports(path: Option<string>, configs: map<string, Object>)

  function TagsOf(config: Object): Value {
    if "tags" in config then config["tags"] else Undefined
  }

  /** `(tags || []).concat(['api'])` is defined: falsy tags, an array, or a
      string (`String.prototype.concat` then appends `"api"`). */
  predicate TagsConcatenable(tags: Value) {
    !Truthy(tags) || tags.Arr? || tags.Str?
  }

  /** The configuration objects the module loader can register: tags that can
      be concatenated and a `path` extension, when present, that is text. */
  predicate Loadable(config: Object) {
    && TagsConcatenable(TagsOf(config))
    && ("path" in config ==> config["path"].Undefined? || config["path"].Str?)
  }

  predicate LoadableExports(h: HandlerExports) {
    forall m :: m in h.configs && m in HTTP_METHODS ==> Loadable(h.configs[m])
  }

  /** Tags that end with the `api` tag. */
  predicate EndsWithApiTag(v: Value) {
    || (v.Arr? && |v.items| > 0 && v.items[|v.items| - 1] == Str(API_TAG))
    || (v.Str? && |v.s| >= |API_TAG| && v.s[|v.s| - |API_TAG|..] == API_TAG)
  }

  /** `(methodConfig.tags || []).concat(['api'])`. */
  function Tagged(tags: Value): (t: Value)
    requires TagsConcatenable(tags)
    ensures EndsWithApiTag(t)
    ensures tags.Arr? ==> t.Arr? && |t.items| == |tags.items| + 1 && t.items[..|tags.items|] == tags.items
    ensures tags.Str? && Truthy(tags) ==> t.Str? && |t.s| == |tags.s| + |API_TAG| && t.s[..|tags.s|] == tags.s
    ensures !Truthy(tags) ==> t.Arr? && |t.items| == 1
  {
    if !Truthy(tags) then Arr([Str(API_TAG)])
    else if tags.Arr? then Arr(tags.items + [Str(API_TAG)])
    else Str(tags.s + API_TAG)
  }

  /** `methodConfig.path`, or `''` when it is undefined. */
  function PathExtension(config: Object): string
    requires Loadable(config)
  {
    if "path" in config && config["path"].Str? then config["path"].s else ""
  }

  /** A configuration object after registration: tagged, without `path`,
      and otherwise untouched. */
  function NormalisedConfig(config: Object): (c: Object)
    requires Loadable(config)
    ensures c.Keys == config.Keys - {"path"} + {"tags"}
    ensures c["tags"] == Tagged(TagsOf(config))
    ensures forall k :: k in c && k != "tags" ==> c[k] == config[k]
  {
    (map k | k in config && k != "path" :: config[k])["tags" := Tagged(TagsOf(config))]
  }

  /** The route for method `m` of a handler mounted at `handlerPath`. */
  function RouteFor(handlerPath: string, m: string, config: Object): Route
    requires Loadable(config)
  {
    Route(Upper(m), handlerPath + PathExtension(config), NormalisedConfig(config))
  }

  predicate LoadableFor(configs: map<string, Object>, methods: seq<string>) {
    forall m :: m in methods && m in configs ==> Loadable(configs[m])
  }

  /** The routes of one handler for `methods`, in the order of `methods`,
      skipping the methods the handler does not export. */
  function RoutesOf(handlerPath: string, configs: map<string, Object>, methods: seq<string>): (rs: seq<Route>)
    requires LoadableFor(configs, methods)
    ensures |rs| <= |methods|
    decreases |methods|
  {
    if methods == [] then []
    else
      var m := methods[|methods| - 1];
      RoutesOf(handlerPath, configs, methods[..|methods| - 1])
        + (if m in configs then [RouteFor(handlerPath, m, configs[m])] else [])
  }

  /** A handler has a route for exactly the methods it exports. */
  lemma {:induction false} RoutesOfMembers(handlerPath: string, configs: map<string, Object>, methods: seq<string>)
    requires LoadableFor(configs, methods)
    ensures forall r :: r in RoutesOf(handlerPath, configs, methods) <==>
      exists m :: m in methods && m in configs && r == RouteFor(handlerPath, m, configs[m])
    decreases |methods|
  {
    if methods != [] {
      var init := methods[..|methods| - 1];
      var m := methods[|methods| - 1];
      assert methods == init + [m];
      assert LoadableFor(configs, init);
      RoutesOfMembers(handlerPath, configs, init);
      forall r | exists m' :: m' in methods && m' in configs && r == RouteFor(handlerPath, m', configs[m'])
        ensures r in RoutesOf(handlerPath, configs, methods)
      {
        var m' :| m' in methods && m' in configs && r == RouteFor(handlerPath, m', configs[m']);
        if m' != m {
          assert m' in init;
        }
      }
    }
  }

  /** The configuration map after registration: every exported HTTP method's
      object normalised, everything else untouched. */
  function NormalisedConfigs(configs: map<string, Object>, methods: seq<string>): (c: map<string, Object>)
    requires LoadableFor(configs, methods)
    ensures c.Keys == configs.Keys
  {
    map m | m in configs :: if m in methods then NormalisedConfig(configs[m]) else configs[m]
  }

  /** The routes a handler module contributes: none without a `path`. */
  function HandlerRoutes(h: HandlerExports): seq<Route>
    requires LoadableExports(h)
  {
    if h.path.Some? then RoutesOf(h.path.value, h.configs, HTTP_METHODS) else []
  }

  /** A handler module's exports after registration. */
  function Registered(h: HandlerExports): HandlerExports
    requires LoadableExports(h)
  {
    if h.path.Some? then h.(configs := NormalisedConfigs(h.configs, HTTP_METHODS)) else h
  }

  predicate AllLoadable(hs: seq<HandlerExports>) {
    forall h :: h in hs ==> LoadableExports(h)
  }

  /** `[].concat.apply([], groupedRoutes)`: the routes of every handler, in
      handler order. */
  function AllRoutes(hs: seq<HandlerExports>): seq<Route>
    requires AllLoadable(hs)
    decreases |hs|
  {
    if hs == [] then [] else AllRoutes(hs[..|hs| - 1]) + HandlerRoutes(hs[|hs| - 1])
  }

  /** One more handler adds its own routes at the end of the table. */
  lemma AllRoutesStep(hs: seq<HandlerExports>, i: nat)
    requires AllLoadable(hs) && i < |hs|
    ensures AllLoadable(hs[..i]) && AllLoadable(hs[..i + 1])
    ensures AllRoutes(hs[..i + 1]) == AllRoutes(hs[..i]) + HandlerRoutes(hs[i])
  {
    assert hs[..i + 1][..i] == hs[..i];
  }

  /** The route table of two groups of handlers is the tables of each, one
      after the other. */
  lemma {:induction false} AllRoutesAppend(hs: seq<HandlerExports>, more: seq<HandlerExports>)
    requires AllLoadable(hs) && AllLoadable(more)
    ensures AllLoadable(hs + more)
    ensures AllRoutes(hs + more) == AllRoutes(hs) + AllRoutes(more)
    decreases |more|
  {
    if more != [] {
      var init := more[..|more| - 1];
      var last := more[|more| - 1];
      assert AllLoadable(init);
      assert (hs + more)[..|hs + more| - 1] == hs + init;
      assert (hs + more)[|hs + more| - 1] == last;
      AllRoutesAppend(hs, init);
      assert AllRoutes(hs + more) == AllRoutes(hs + init) + HandlerRoutes(last);
      assert AllRoutes(more) == AllRoutes(init) + HandlerRoutes(last);
    } else {
      assert hs + more == hs;
    }
  }

  /** Every route of every handler carries the `api` tag last, has no `path`
      key in its configuration, and lies under its handler's path. */
  lemma {:induction false} HandlerRouteShape(h: HandlerExports, r: Route)
    requires LoadableExports(h) && r in HandlerRoutes(h)
    ensures h.path.Some? && h.path.value <= r.path
    ensures "tags" in r.config && EndsWithApiTag(r.config["tags"]) && "path" !in r.config
    ensures r.verb in VERBS
    ensures exists m :: m in HTTP_METHODS && m in h.configs && r.verb == Upper(m)
  {
    RoutesOfMembers(h.path.value, h.configs, HTTP_METHODS);
    var m :| m in HTTP_METHODS && m in h.configs && r == RouteFor(h.path.value, m, h.configs[m]);
    VerbOf(m);
    assert r.path == h.path.value + PathExtension(h.configs[m]);
  }

  /** Upper-casing an HTTP method gives an HTTP verb. */
  lemma VerbOf(m: string)
    requires m in HTTP_METHODS
    ensures Upper(m) in VERBS
  {
    UpperMethods();
    var i :| 0 <= i < |HTTP_METHODS| && HTTP_METHODS[i] == m;
    assert Upper(m) == VERBS[i];
  }

  /** The upper-cased method names are the HTTP verbs. */
  lemma UpperMethods()
    ensures forall i :: 0 <= i < |HTTP_METHODS| ==> Upper(HTTP_METHODS[i]) == VERBS[i]
  {
    assert UpperChar('a') == 'A' && UpperChar('c') == 'C' && UpperChar('d') == 'D';
    assert UpperChar('e') == 'E' && UpperChar('g') == 'G' && UpperChar('h') == 'H';
    assert UpperChar('i') == 'I' && UpperChar('l') == 'L' && UpperChar('n') == 'N';
    assert UpperChar('o') == 'O' && UpperChar('p') == 'P' && UpperChar('s') == 'S';
    assert UpperChar('t') == 'T' && UpperChar('u') == 'U';
    forall i | 0 <= i < |HTTP_METHODS| ensures Upper(HTTP_METHODS[i]) == VERBS[i] {
      var r := Upper(HTTP_METHODS[i]);
      assert |r| == |VERBS[i]|;
      forall k | 0 <= k < |r| ensures r[k] == VERBS[i][k] {}
    }
  }

  /** The methods are distinct, so each is registered once. */
  lemma MethodsDistinct()
    ensures forall i, j :: 0 <= i < j < |HTTP_METHODS| ==> HTTP_METHODS[i] != HTTP_METHODS[j]
  {
    forall i, j | 0 <= i < j < |HTTP_METHODS| ensures HTTP_METHODS[i] != HTTP_METHODS[j] {
      assert |HTTP_METHODS[i]| != |HTTP_METHODS[j]| || HTTP_METHODS[i][1] != HTTP_METHODS[j][1];
    }
  }

  /** Registering one more method updates exactly that method's object. */
  lemma NormaliseStep(original: map<string, Object>, methods: seq<string>, m: string)
    requires LoadableFor(original, methods + [m]) && m !in methods
    ensures LoadableFor(original, methods)
    ensures NormalisedConfigs(original, methods + [m])
         == if m in original then NormalisedConfigs(original, methods)[m := NormalisedConfig(original[m])]
            else NormalisedConfigs(original, methods)
  {
    assert LoadableFor(original, methods);
    var after := NormalisedConfigs(original, methods + [m]);
    var before := NormalisedConfigs(original, methods);
    forall c | c in original
      ensures after[c] == if c == m then NormalisedConfig(original[m]) else before[c]
    {
      assert c in methods + [m] <==> c in methods || c == m;
    }
  }

  /** Every route in the table is tagged `api`, has an HTTP verb, and lies
      under the path of a handler module that exports one. */
  lemma {:induction false} EveryRouteIsTaggedApi(hs: seq<HandlerExports>, r: Route)
    requires AllLoadable(hs) && r in AllRoutes(hs)
    ensures "tags" in r.config && EndsWithApiTag(r.config["tags"]) && "path" !in r.config
    ensures r.verb in VERBS
    ensures exists h :: h in hs && h.path.Some? && h.path.value <= r.path
    decreases |hs|
  {
    var init := hs[..|hs| - 1];
    var last := hs[|hs| - 1];
    assert AllLoadable(init);
    if r in AllRoutes(init) {
      EveryRouteIsTaggedApi(init, r);
      var h :| h in init && h.path.Some? && h.path.value <= r.path;
      assert h in hs;
    } else {
      HandlerRouteShape(last, r);
    }
  }

  /** No two methods of `methods` upper-case to the same verb. */
  predicate DistinctVerbs(methods: seq<string>) {
    forall i, j :: 0 <= i < j < |methods| ==> Upper(methods[i]) != Upper(methods[j])
  }

  /** The six HTTP methods give six different verbs. */
  lemma HttpMethodsHaveDistinctVerbs()
    ensures DistinctVerbs(HTTP_METHODS)
  {
    UpperMethods();
    forall i, j | 0 <= i < j < |HTTP_METHODS| ensures Upper(HTTP_METHODS[i]) != Upper(HTTP_METHODS[j]) {
      assert |VERBS[i]| != |VERBS[j]| || VERBS[i][1] != VERBS[j][1];
    }
  }

  predicate VerbsDistinct(rs: seq<Route>) {
    forall i, j :: 0 <= i < j < |rs| ==> rs[i].verb != rs[j].verb
  }

  /** A handler's routes have pairwise different verbs, so hapi never sees
      the same method and path twice from one handler. */
  lemma {:induction false} RoutesHaveDistinctVerbs(handlerPath: string, configs: map<string, Object>, methods: seq<string>)
    requires LoadableFor(configs, methods) && DistinctVerbs(methods)
    ensures VerbsDistinct(RoutesOf(handlerPath, configs, methods))
    decreases |methods|
  {
    if methods != [] {
      var init := methods[..|methods| - 1];
      var m := methods[|methods| - 1];
      assert LoadableFor(configs, init);
      assert DistinctVerbs(init);
      RoutesHaveDistinctVerbs(handlerPath, configs, init);
      RoutesOfMembers(handlerPath, configs, init);
      var earlier := RoutesOf(handlerPath, configs, init);
      var rs := RoutesOf(handlerPath, configs, methods);
      if m in configs {
        assert rs == earlier + [RouteFor(handlerPath, m, configs[m])];
        forall i | 0 <= i < |earlier| ensures earlier[i].verb != Upper(m) {
          assert earlier[i] in earlier;
          var m' :| m' in init && m' in configs && earlier[i] == RouteFor(handlerPath, m', configs[m']);
          var k :| 0 <= k < |init| && init[k] == m';
          assert methods[k] == m' && methods[|methods| - 1] == m;
        }
      } else {
        assert rs == earlier;
        forall i, j | 0 <= i < j < |rs| ensures rs[i].verb != rs[j].verb {
          assert rs[i] == earlier[i] && rs[j] == earlier[j];
        }
      }
    }
  }

  /** A handler module never contributes two routes with the same verb. */
  lemma OneRoutePerVerb(h: HandlerExports)
    requires LoadableExports(h)
    ensures VerbsDistinct(HandlerRoutes(h))
  {
    if h.path.Some? {
      HttpMethodsHaveDistinctVerbs();
      RoutesHaveDistinctVerbs(h.path.value, h.configs, HTTP_METHODS);
      assert HandlerRoutes(h) == RoutesOf(h.path.value, h.configs, HTTP_METHODS);
    }
  }

  /** The methods of `methods` that a handler exports. */
  function Exported(configs: map<string, Object>, methods: seq<string>): set<string> {
    set m | m in methods && m in configs
  }

  /** A handler gets exactly one route per method it exports. */
  lemma {:induction false} RoutesOfCount(handlerPath: string, configs: map<string, Object>, methods: seq<string>)
    requires LoadableFor(configs, methods)
    requires forall i, j :: 0 <= i < j < |methods| ==> methods[i] != methods[j]
    ensures |RoutesOf(handlerPath, configs, methods)| == |Exported(configs, methods)|
    decreases |methods|
  {
    if methods != [] {
      var init := methods[..|methods| - 1];
      var m := methods[|methods| - 1];
      assert methods == init + [m];
      assert LoadableFor(configs, init);
      RoutesOfCount(handlerPath, configs, init);
      assert m !in init by {
        forall i | 0 <= i < |init| ensures init[i] != m {
          assert init[i] == methods[i];
        }
      }
      if m in configs {
        assert Exported(configs, methods) == Exported(configs, init) + {m};
      } else {
        assert Exported(configs, methods) == Exported(configs, init);
      }
    }
  }

  /** The number of routes the handlers contribute: for each handler with a
      `path`, the number of HTTP methods it exports. */
  function RouteCount(hs: seq<HandlerExports>): nat
    decreases |hs|
  {
    if hs == [] then 0
    else
      var h := hs[|hs| - 1];
      RouteCount(hs[..|hs| - 1]) + (if h.path.Some? then |Exported(h.configs, HTTP_METHODS)| else 0)
  }

  /** The flattened table holds every handler's routes and nothing else:
      its length is the sum of the per-handler method counts. */
  lemma {:induction false} AllRoutesLength(hs: seq<HandlerExports>)
    requires AllLoadable(hs)
    ensures |AllRoutes(hs)| == RouteCount(hs)
    decreases |hs|
  {
    if hs != [] {
      var h := hs[|hs| - 1];
      assert AllLoadable(hs[..|hs| - 1]);
      AllRoutesLength(hs[..|hs| - 1]);
      HandlerRouteCount(h);
    }
  }

  /** One handler's share of the table. */
  lemma HandlerRouteCount(h: HandlerExports)
    requires LoadableExports(h)
    ensures |HandlerRoutes(h)| == if h.path.Some? then |Exported(h.configs, HTTP_METHODS)| else 0
  {
    if h.path.Some? {
      MethodsDistinct();
      RoutesOfCount(h.path.value, h.configs, HTTP_METHODS);
    }
  }

  /** A loaded handler module: `path` is read only, the per-method
      configuration objects are updated in place by registration. */
  class HandlerModule {
    const path: Option<string>
    var configs: map<string, Object>

    function Exports(): HandlerExports
      reads this
    {
      HandlerExports(path, configs)
    }

    constructor (path: Option<string>, configs: map<string, Object>)
      ensures Exports() == HandlerExports(path, configs)
    {
      this.path := path;
      this.configs := configs;
    }

    /** The inner `httpMethods.map(...)` of routes.js for this handler. */
    method Register() returns (routes: seq<Route>)
      requires path.Some? && LoadableExports(Exports())
      modifies this
      ensures routes == HandlerRoutes(old(Exports()))
      ensures Exports() == Registered(old(Exports()))
    {
      ghost var original := configs;
      var methods := HTTP_METHODS;
      MethodsDistinct();
      routes := [];
      var k := 0;
      while k < |methods|
        invariant 0 <= k <= |methods|
        invariant LoadableFor(original, methods[..k])
        invariant routes == RoutesOf(path.value, original, methods[..k])
        invariant configs == NormalisedConfigs(original, methods[..k])
      {
        var m := methods[k];
        ghost var done := methods[..k];
        assert methods[..k + 1] == done + [m];
        assert methods[..k + 1][..k] == done;
        assert m !in done;
        assert LoadableFor(original, done + [m]);
        NormaliseStep(original, done, m);
        if m in configs {
          var config := configs[m];
          var normalised := NormalisedConfig(config);
          configs := configs[m := normalised];
          routes := routes + [Route(Upper(m), path.value + PathExtension(config), normalised)];
        }
        k := k + 1;
      }
      assert methods[..k] == methods;
    }
  }

  /** The handler modules' exports, read in the current state. */
  function Snapshot(handlers: seq<HandlerModule>): (s: seq<HandlerExports>)
    reads set h | h in handlers
    ensures |s| == |handlers| && forall i :: 0 <= i < |handlers| ==> s[i] == handlers[i].Exports()
  {
    if handlers == [] then [] else Snapshot(handlers[..|handlers| - 1]) + [handlers[|handlers| - 1].Exports()]
  }

  /** lib/routes.js: the route table of the handler modules that export a
      `path`, every exported HTTP method's configuration normalised in place. */
  method BuildRoutes(handlers: seq<HandlerModule>) returns (routes: seq<Route>)
    requires forall i, j :: 0 <= i < j < |handlers| ==> handlers[i] != handlers[j]
    requires forall h :: h in handlers ==> LoadableExports(h.Exports())
    modifies set h | h in handlers
    ensures AllLoadable(old(Snapshot(handlers)))
    ensures routes == AllRoutes(old(Snapshot(handlers)))
    ensures forall i :: 0 <= i < |handlers| ==> handlers[i].Exports() == Registered(old(handlers[i].Exports()))
  {
    ghost var before := Snapshot(handlers);
    routes := [];
    var i := 0;
    while i < |handlers|
      invariant 0 <= i <= |handlers|
      invariant AllLoadable(before)
      invariant routes == AllRoutes(before[..i])
      invariant forall j :: 0 <= j < i ==> handlers[j].Exports() == Registered(before[j])
      invariant forall j :: i <= j < |handlers| ==> handlers[j].Exports() == before[j]
    {
      var h := handlers[i];
      AllRoutesStep(before, i);
      if h.path.Some? {
        var rs := h.Register();
        routes := routes + rs;
      } else {
        assert Registered(before[i]) == before[i] && HandlerRoutes(before[i]) == [];
      }
      forall j | 0 <= j < |handlers| && j != i
        ensures handlers[j] != h
      {}
      i := i + 1;
    }
    assert before[..i] == before;
  }
}
