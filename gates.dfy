/**
 * The request-time and registration-time gates of kitchen/core/dependencies.py that
 * sit on top of the endpoint registry: feature-flag checks, `route_enabled`,
 * `conditional_router`, `endpoint_control`, the `controllable_endpoint` decorator
 * (registration and call-time guard) and the schema visibility decided by
 * `ControllableAPIRouter.add_api_route`.
 */
module EndpointGates {
  import opened Wrappers
  import opened Text
  import opened EndpointRegistry

  /** Feature flags by name (`settings.FEATURE_FLAGS`). */
  type Flags = map<string, bool>

  /** `FEATURE_FLAGS.get(name, default)`. */
  function FlagValue(flags: Flags, name: string, default: bool): bool
  {
    if name in flags then flags[name] else default
  }

  /** What a dependency does to the request: let it through, or raise 404 "Endpoint not found". */
  datatype Gate = Pass | NotFound

  /** The dependency built by `feature_flag`: 404 exactly when the flag is off. */
  function FeatureFlagCheck(flags: Flags, name: string, default: bool): (g: Gate)
    ensures g == NotFound <==> !FlagValue(flags, name, default)
    ensures name !in flags ==> (g == Pass <==> default)
  {
    if !FlagValue(flags, name, default) then NotFound else Pass
  }

  /** `route_enabled`: the flag decides first; a registered (non-empty) path can then only narrow it. */
  function RouteEnabled(flags: Flags, t: Table, name: string, default: bool, path: Option<string>): (r: bool)
    ensures r ==> FlagValue(flags, name, default)
    ensures FlagValue(flags, name, default) && (path == None || path.value == "" || path.value !in t) ==> r
    ensures FlagValue(flags, name, default) && path.Some? && path.value != "" && path.value in t ==>
      r == t[path.value].enabled
  {
    var flag := FlagValue(flags, name, default);
    if !flag then false
    else if path.Some? && path.value != "" && path.value in t then t[path.value].enabled
    else flag
  }

  /** A route hidden by `route_enabled` is also refused by the matching `feature_flag` dependency, or disabled in the registry. */
  lemma RouteEnabledAgreesWithFeatureFlag(flags: Flags, t: Table, name: string, default: bool, path: string)
    requires path != ""
    ensures !RouteEnabled(flags, t, name, default, Some(path)) <==>
      FeatureFlagCheck(flags, name, default) == NotFound || !EnabledIn(t, path)
  {
  }

  /** An APIRouter as far as route registration goes. */
  datatype Router = Router(prefix: string, tags: seq<string>, routes: seq<string>, registersRoutes: bool)

  /** `add_api_route`: a real router records the route, the dummy router's replacement does nothing. */
  function AddRoute(r: Router, path: string): Router
  {
    if r.registersRoutes then r.(routes := r.routes + [path]) else r
  }

  function AddRoutes(r: Router, paths: seq<string>): Router
    decreases |paths|
  {
    if |paths| == 0 then r else AddRoutes(AddRoute(r, paths[0]), paths[1..])
  }

  /** `conditional_router`: the router itself when the flag is on, else a dummy copying prefix and tags. */
  function ConditionalRouter(flags: Flags, name: string, default: bool, router: Router): (r: Router)
    ensures FlagValue(flags, name, default) ==> r == router
    ensures !FlagValue(flags, name, default) ==>
      r.prefix == router.prefix && r.tags == router.tags && r.routes == [] && !r.registersRoutes
  {
    if FlagValue(flags, name, default) then router
    else Router(router.prefix, router.tags, [], false)
  }

  /** Routes added through a router switched off by its flag are never registered. */
  lemma {:induction false} DisabledRouterRegistersNothing(flags: Flags, name: string, default: bool, router: Router, paths: seq<string>)
    requires !FlagValue(flags, name, default)
    ensures AddRoutes(ConditionalRouter(flags, name, default, router), paths).routes == []
  {
    DummyRouterUnchanged(ConditionalRouter(flags, name, default, router), paths);
  }

  lemma {:induction false} DummyRouterUnchanged(r: Router, paths: seq<string>)
    requires !r.registersRoutes
    ensures AddRoutes(r, paths) == r
    decreases |paths|
  {
    if |paths| > 0 {
      DummyRouterUnchanged(AddRoute(r, paths[0]), paths[1..]);
    }
  }

  /** A real router records every added route, in order. */
  lemma {:induction false} RouterRecordsRoutes(r: Router, paths: seq<string>)
    requires r.registersRoutes
    ensures AddRoutes(r, paths).routes == r.routes + paths
    decreases |paths|
  {
    if |paths| > 0 {
      RouterRecordsRoutes(AddRoute(r, paths[0]), paths[1..]);
      assert r.routes + [paths[0]] + paths[1..] == r.routes + paths;
    }
  }

  /**
   * The loop of `endpoint_control` over the registry's keys, in `order` (the dict's
   * insertion order): each key is compiled as a pattern and matched against the path, so
   * a key that is not a valid pattern raises `re.error`; the first matching key that is
   * disabled refuses the request; when none does, the request passes.
   */
  function ScanRegistry(t: Table, order: seq<string>, engine: RegexEngine, fullPath: string): (r: Result<Gate, string>)
    ensures r == Ok(NotFound) ==> exists k :: k in order && k in t && engine.matches(k, fullPath) && !t[k].enabled
    ensures r.Err? ==> exists k :: k in order && !engine.compiles(k)
    ensures (forall k :: k in order ==> engine.compiles(k)) ==>
      r.Ok? && (r == Ok(NotFound) <==> exists k :: k in order && k in t && engine.matches(k, fullPath) && !t[k].enabled)
  {
    if |order| == 0 then Ok(Pass)
    else
      var k := order[0];
      if !engine.compiles(k) then Err("re.error: " + k)
      else if engine.matches(k, fullPath) && k in t && !t[k].enabled then Ok(NotFound)
      else
        var r := ScanRegistry(t, order[1..], engine, fullPath);
        assert forall j :: j in order[1..] ==> j in order;
        assert (forall j :: j in order ==> engine.compiles(j)) ==> forall j :: j in order[1..] ==> engine.compiles(j);
        assert forall j :: j in order ==> j == k || j in order[1..];
        r
  }

  /**
   * The dependency built by `endpoint_control(path_pattern)`, with `order` the registry's
   * keys in iteration order. With a non-empty pattern that matches the request path, a
   * disabled registry key whose own pattern matches the path refuses it; a pattern, or a
   * registry key met before any refusal, that does not compile raises. With no (or an
   * empty) pattern, the exact request path is looked up, failing open.
   */
  function EndpointControl(t: Table, order: seq<string>, pathPattern: Option<string>, engine: RegexEngine, fullPath: string): (r: Result<Gate, string>)
    requires forall k :: k in order <==> k in t
    ensures (pathPattern == None || pathPattern.value == "") ==>
      r == Ok(if EnabledIn(t, fullPath) then Pass else NotFound)
    ensures pathPattern.Some? && pathPattern.value != "" && !engine.compiles(pathPattern.value) ==> r.Err?
    ensures (pathPattern.Some? && pathPattern.value != "" && engine.compiles(pathPattern.value) &&
             !engine.matches(pathPattern.value, fullPath)) ==> r == Ok(Pass)
    ensures (pathPattern.Some? && pathPattern.value != "" && engine.compiles(pathPattern.value) &&
             engine.matches(pathPattern.value, fullPath) && (forall k :: k in t ==> engine.compiles(k))) ==>
      r.Ok? && (r == Ok(NotFound) <==> exists k :: k in t && engine.matches(k, fullPath) && !t[k].enabled)
    ensures r == Ok(NotFound) && pathPattern.Some? && pathPattern.value != "" ==>
      exists k :: k in t && engine.matches(k, fullPath) && !t[k].enabled
    ensures r.Err? ==> pathPattern.Some? && (!engine.compiles(pathPattern.value) || exists k :: k in t && !engine.compiles(k))
  {
    if pathPattern.Some? && pathPattern.value != "" then
      var p := pathPattern.value;
      if !engine.compiles(p) then Err("re.error: " + p)
      else if !engine.matches(p, fullPath) then Ok(Pass)
      else ScanRegistry(t, order, engine, fullPath)
    else if EnabledIn(t, fullPath) then Ok(Pass)
    else Ok(NotFound)
  }

  /** A registry key that is not a valid pattern, met first, raises `re.error` whatever its flag. */
  lemma BadRegistryKeyRaises(t: Table, order: seq<string>, pattern: string, engine: RegexEngine, fullPath: string)
    requires forall k :: k in order <==> k in t
    requires pattern != "" && engine.compiles(pattern) && engine.matches(pattern, fullPath)
    requires |order| > 0 && !engine.compiles(order[0])
    ensures EndpointControl(t, order, Some(pattern), engine, fullPath) == Err("re.error: " + order[0])
  {
  }

  /**
   * With literal patterns, keys that carry a ":METHOD" suffix never match a request path
   * (which has no colon), so disabling them has no effect on `endpoint_control`.
   */
  lemma SuffixedKeysInvisibleToEndpointControl(t: Table, order: seq<string>, pattern: string, fullPath: string,
                                               key: string, enabled: bool)
    requires ':' in key && ':' !in fullPath
    requires key in t && (forall k :: k in order <==> k in t)
    ensures EndpointControl(t[key := Entry(enabled, t[key].description)], order, Some(pattern), LiteralEngine(), fullPath) ==
            EndpointControl(t[key := Entry(true, t[key].description)], order, Some(pattern), LiteralEngine(), fullPath)
  {
    var e := LiteralEngine();
    var i :| 0 <= i < |key| && key[i] == ':';
    assert !e.matches(key, fullPath) by {
      if |key| <= |fullPath| {
        assert fullPath[..|key|][i] == fullPath[i] != ':';
      }
    }
    var t1 := t[key := Entry(enabled, t[key].description)];
    var t2 := t[key := Entry(true, t[key].description)];
    assert (exists k | k in t1 :: e.matches(k, fullPath) && !t1[k].enabled) <==>
           (exists k | k in t2 :: e.matches(k, fullPath) && !t2[k].enabled);
    if pattern != "" {
      SameRefusalsSameControl(t1, t2, order, pattern, e, fullPath);
    } else {
      assert key != fullPath;
    }
  }

  /** Two tables with the same disabled keys matching the path gate a pattern alike when every key compiles. */
  lemma SameRefusalsSameControl(t1: Table, t2: Table, order: seq<string>, pattern: string, e: RegexEngine, fullPath: string)
    requires forall k :: k in order <==> k in t1
    requires forall k :: k in order <==> k in t2
    requires forall k :: k in order ==> e.compiles(k)
    requires (exists k | k in t1 :: e.matches(k, fullPath) && !t1[k].enabled) <==>
             (exists k | k in t2 :: e.matches(k, fullPath) && !t2[k].enabled)
    requires pattern != ""
    ensures EndpointControl(t1, order, Some(pattern), e, fullPath) == EndpointControl(t2, order, Some(pattern), e, fullPath)
  {
    assert forall k :: k in t1 ==> e.compiles(k);
    assert forall k :: k in t2 ==> e.compiles(k);
    var r1 := EndpointControl(t1, order, Some(pattern), e, fullPath);
    var r2 := EndpointControl(t2, order, Some(pattern), e, fullPath);
    if e.compiles(pattern) && e.matches(pattern, fullPath) {
      assert r1.Ok? && r2.Ok?;
      assert r1 == Ok(NotFound) <==> r2 == Ok(NotFound);
      assert r1.value == NotFound <==> r2.value == NotFound;
      assert r1.value == r2.value;
    }
  }

  /** The methods `controllable_endpoint` looks for in a handler's name, in the order it tries them. */
  function MethodFromName(funcName: string): (m: Option<string>)
    ensures m.Some? ==> m.value in ["GET", "POST", "PUT", "DELETE", "PATCH"]
    ensures m == Some("GET") <==> Contains(Lower(funcName), "get")
    ensures m == Some("POST") <==> !Contains(Lower(funcName), "get") && Contains(Lower(funcName), "post")
    ensures m == Some("PUT") <==>
      !Contains(Lower(funcName), "get") && !Contains(Lower(funcName), "post") && Contains(Lower(funcName), "put")
    ensures m == Some("DELETE") <==>
      !Contains(Lower(funcName), "get") && !Contains(Lower(funcName), "post") && !Contains(Lower(funcName), "put") &&
      Contains(Lower(funcName), "delete")
    ensures m == Some("PATCH") <==>
      !Contains(Lower(funcName), "get") && !Contains(Lower(funcName), "post") && !Contains(Lower(funcName), "put") &&
      !Contains(Lower(funcName), "delete") && Contains(Lower(funcName), "patch")
    ensures m == None <==>
      !Contains(Lower(funcName), "get") && !Contains(Lower(funcName), "post") && !Contains(Lower(funcName), "put") &&
      !Contains(Lower(funcName), "delete") && !Contains(Lower(funcName), "patch")
  {
    var name := Lower(funcName);
    if Contains(name, "get") then Some("GET")
    else if Contains(name, "post") then Some("POST")
    else if Contains(name, "put") then Some("PUT")
    else if Contains(name, "delete") then Some("DELETE")
    else if Contains(name, "patch") then Some("PATCH")
    else None
  }

  /**
   * The registry key `controllable_endpoint` derives at decoration time: a non-empty path
   * without a colon gets the method guessed from the handler's name appended.
   */
  function DeriveKey(path: Option<string>, funcName: string): (k: Option<string>)
    ensures path == None || path.value == "" ==> k == path
    ensures path.Some? && ':' in path.value ==> k == path
    ensures path.Some? && path.value != "" && ':' !in path.value ==>
      k == (if MethodFromName(funcName).Some? then Some(path.value + ":" + MethodFromName(funcName).value) else path)
  {
    if path.Some? && path.value != "" && ':' !in path.value then
      match MethodFromName(funcName)
      case Some(m) => Some(path.value + ":" + m)
      case None => path
    else path
  }

  /** The first match wins, so a handler whose name merely contains "get" is keyed as a GET route. */
  lemma DeleteHandlerKeyedAsGet()
    ensures DeriveKey(Some("/api/v1/items"), "delete_budget") == Some("/api/v1/items:GET")
  {
    var name := Lower("delete_budget");
    assert name[10] == 'g' && name[11] == 'e' && name[12] == 't';
    assert name[10..13] == "get";
    assert OccursAt(name, "get", 10);
    assert Contains(name, "get");
    assert MethodFromName("delete_budget") == Some("GET");
    assert ':' !in "/api/v1/items";
    assert "/api/v1/items" + ":" + "GET" == "/api/v1/items:GET";
  }

  /** The attributes the decorator sets on the wrapper (`__endpoint_path__`, `__enabled__`) plus its description. */
  datatype ControlledEndpoint = ControlledEndpoint(endpointPath: Option<string>, enabled: bool, description: string)

  /** The decorator of `controllable_endpoint(path, enabled, description)` applied to a handler named `funcName`. */
  method Decorate(reg: Registry, path: Option<string>, enabled: bool, description: string, funcName: string)
    returns (ep: ControlledEndpoint)
    modifies reg
    ensures ep == ControlledEndpoint(DeriveKey(path, funcName), enabled, description)
    ensures path.Some? && path.value != "" ==>
      reg.entries == old(reg.entries)[DeriveKey(path, funcName).value := Entry(enabled, description)]
    ensures path == None || path.value == "" ==> reg.entries == old(reg.entries)
  {
    var key := DeriveKey(path, funcName);
    if key.Some? && key.value != "" {
      reg.Register(key.value, enabled, description);
    }
    ep := ControlledEndpoint(key, enabled, description);
  }

  /**
   * `ControllableAPIRouter.add_api_route`: the `include_in_schema` a route is registered
   * with. A controllable handler whose key is registered takes the registry's flag at this
   * moment; anything else keeps the requested value (default true).
   */
  function IncludeInSchema(t: Table, endpoint: Option<ControlledEndpoint>, requested: Option<bool>): (r: bool)
    ensures endpoint.Some? && endpoint.value.endpointPath.Some? && endpoint.value.endpointPath.value in t ==>
      r == t[endpoint.value.endpointPath.value].enabled
    ensures endpoint.Some? && (endpoint.value.endpointPath.None? || endpoint.value.endpointPath.value !in t) ==>
      r == (requested != Some(false))
    ensures endpoint == None ==> r == (requested != Some(false))
  {
    var asked := if requested.Some? then requested.value else true;
    match endpoint
    case Some(ep) =>
      if ep.endpointPath.Some? && ep.endpointPath.value in t then t[ep.endpointPath.value].enabled else asked
    case None => asked
  }

  /** A handler decorated with an explicit path and `enabled=False` is left out of the schema whatever the route asks. */
  lemma DisabledAtDecorationHiddenFromSchema(t: Table, path: string, funcName: string, description: string, requested: Option<bool>)
    requires path != ""
    ensures var key := DeriveKey(Some(path), funcName).value;
      !IncludeInSchema(t[key := Entry(false, description)],
                       Some(ControlledEndpoint(Some(key), false, description)), requested)
  {
  }

  /** A handler argument at call time: a Starlette request, or a parsed body model. */
  datatype CallArg = HttpRequest(path: string, verb: string) | BodyModel(fields: map<string, string>)

  /** `next((arg for arg in args if isinstance(arg, Request)), None)`. */
  function FirstHttpRequest(args: seq<CallArg>): (r: Option<CallArg>)
    ensures r.Some? ==> r.value.HttpRequest? && r.value in args
    ensures r == None <==> forall i :: 0 <= i < |args| ==> !args[i].HttpRequest?
  {
    if |args| == 0 then None
    else if args[0].HttpRequest? then Some(args[0])
    else FirstHttpRequest(args[1..])
  }

  /**
   * The wrapper's request lookup as written: a positional Request, else whatever
   * keyword argument is named `request`, whatever its type.
   */
  function RequestArgAsWritten(args: seq<CallArg>, kwargs: map<string, CallArg>): Option<CallArg>
  {
    var positional := FirstHttpRequest(args);
    if positional.Some? then positional
    else if "request" in kwargs then Some(kwargs["request"])
    else None
  }

  /** The lookup the wrapper's comments describe: only a Starlette Request is taken as the request. */
  function RequestArg(args: seq<CallArg>, kwargs: map<string, CallArg>): (r: Option<CallArg>)
    ensures r.Some? ==> r.value.HttpRequest?
    ensures FirstHttpRequest(args).Some? ==> r == FirstHttpRequest(args)
    ensures "request" in kwargs && kwargs["request"].HttpRequest? ==> r.Some?
  {
    var positional := FirstHttpRequest(args);
    if positional.Some? then positional
    else if "request" in kwargs && kwargs["request"].HttpRequest? then Some(kwargs["request"])
    else None
  }

  /** The outcome of one call through the wrapper. */
  datatype CallOutcome = Handled | Refused404 | Crashed

  /** The key the wrapper checks: the decorated key, or the concrete request path, with the request's method appended when it has no colon. */
  function CheckKey(ep: ControlledEndpoint, actualPath: string, verb: string): (k: string)
    ensures ':' in k
    ensures ep.endpointPath.Some? && ep.endpointPath.value != "" && ':' in ep.endpointPath.value ==>
      k == ep.endpointPath.value
    ensures ep.endpointPath.Some? && ep.endpointPath.value != "" && ':' !in ep.endpointPath.value ==>
      k == ep.endpointPath.value + ":" + verb
    ensures (ep.endpointPath.None? || ep.endpointPath.value == "") ==>
      k == if ':' in actualPath then actualPath else actualPath + ":" + verb
  {
    var base := if ep.endpointPath.Some? && ep.endpointPath.value != "" then ep.endpointPath.value else actualPath;
    if ':' in base then base else base + ":" + verb
  }

  /**
   * The call-time guard on a found request value: reading `request.scope["path"]`
   * fails on anything but a Starlette request; otherwise the key is registered on first
   * use with the decorator's settings and a disabled key refuses the call with 404.
   */
  function GuardIn(t: Table, ep: ControlledEndpoint, request: Option<CallArg>): (res: (CallOutcome, Table))
    ensures request == None ==> res == (Handled, t)
    ensures request.Some? && request.value.BodyModel? ==> res == (Crashed, t)
    ensures request.Some? && request.value.HttpRequest? ==>
      var key := CheckKey(ep, request.value.path, request.value.verb);
      key in res.1 && res.1 == (if key in t then t else t[key := Entry(ep.enabled, ep.description)]) &&
      (res.0 == Handled <==> res.1[key].enabled) && res.0 != Crashed
  {
    match request
    case None => (Handled, t)
    case Some(BodyModel(_)) => (Crashed, t)
    case Some(HttpRequest(path, verb)) =>
      var key := CheckKey(ep, path, verb);
      var t' := if key in t then t else t[key := Entry(ep.enabled, ep.description)];
      (if EnabledIn(t', key) then Handled else Refused404, t')
  }

  /** The wrapper `controllable_endpoint` puts around a handler, called with these arguments. */
  method Call(reg: Registry, ep: ControlledEndpoint, args: seq<CallArg>, kwargs: map<string, CallArg>)
    returns (outcome: CallOutcome)
    modifies reg
    ensures (outcome, reg.entries) == GuardIn(old(reg.entries), ep, RequestArg(args, kwargs))
    ensures outcome != Crashed
  {
    var request := RequestArg(args, kwargs);
    if request.Some? {
      var req := request.value;
      var key := CheckKey(ep, req.path, req.verb);
      if key !in reg.entries {
        reg.Register(key, ep.enabled, description := ep.description);
      }
      if !reg.IsEnabled(key) {
        return Refused404;
      }
    }
    outcome := Handled;
  }

  /** Once a key is registered, the guard only reads it: disabled means 404, enabled means the handler runs. */
  lemma GuardFollowsRegistry(t: Table, ep: ControlledEndpoint, path: string, verb: string)
    requires CheckKey(ep, path, verb) in t
    ensures GuardIn(t, ep, Some(HttpRequest(path, verb))) ==
      (if t[CheckKey(ep, path, verb)].enabled then Handled else Refused404, t)
  {
  }

  /** Disabling the checked key makes every later call through the wrapper a 404. */
  lemma DisabledKeyRefusesCalls(t: Table, ep: ControlledEndpoint, path: string, verb: string)
    ensures var key := CheckKey(ep, path, verb);
      GuardIn(SetEnabledIn(t, key, false), ep, Some(HttpRequest(path, verb))).0 == Refused404
  {
  }

  /**
   * A handler decorated without a path is keyed by the concrete request path, so two
   * requests to different concrete paths (different ids in the URL) use different keys.
   */
  lemma PathlessKeysPerConcretePath(ep: ControlledEndpoint, p1: string, p2: string, verb: string)
    requires ep.endpointPath == None
    requires ':' !in p1 && ':' !in p2 && p1 != p2
    ensures CheckKey(ep, p1, verb) != CheckKey(ep, p2, verb)
  {
    var k1 := CheckKey(ep, p1, verb);
    var k2 := CheckKey(ep, p2, verb);
    assert k1 == p1 + ":" + verb && k2 == p2 + ":" + verb;
    if |p1| == |p2| {
      var i :| 0 <= i < |p1| && p1[i] != p2[i];
      assert k1[i] == p1[i] && k2[i] == p2[i];
    } else if |p1| < |p2| {
      assert k1[|p1|] == ':' && k2[|p1|] == p2[|p1|];
    } else {
      assert k2[|p2|] == ':' && k1[|p2|] == p1[|p2|];
    }
  }

  /**
   * A decorated path without a colon whose handler name names no method is registered
   * bare, but every call checks the path with the request's method appended, so the
   * entry made at decoration time is never the one consulted.
   */
  lemma BareDecoratedKeyNotConsulted(path: string, funcName: string, enabled: bool, description: string, actualPath: string, verb: string)
    requires path != "" && ':' !in path && MethodFromName(funcName) == None
    ensures var ep := ControlledEndpoint(DeriveKey(Some(path), funcName), enabled, description);
      CheckKey(ep, actualPath, verb) == path + ":" + verb != path
  {
    assert |path + ":" + verb| > |path|;
  }

  /** The client-credentials handler's registration, as its router declares it. */
  function ClientCredentialsEndpoint(): ControlledEndpoint
  {
    ControlledEndpoint(Some("/api/v1/auth/token/client-credentials:POST"), true, "Get a token using client credentials")
  }

  /**
   * As written, a handler whose JSON body parameter is named `request` (the
   * client-credentials and recipe-generation handlers) hands that body model to the
   * guard, and reading its `scope["path"]` fails before the handler runs, even when the
   * endpoint is enabled.
   */
  lemma BodyNamedRequestCrashesAsWritten(t: Table, body: map<string, string>)
    ensures GuardIn(t, ClientCredentialsEndpoint(), RequestArgAsWritten([], map["request" := BodyModel(body)])).0 == Crashed
  {
  }

  /** With only real requests taken as the request, such a handler runs. */
  lemma BodyNamedRequestHandled(t: Table, body: map<string, string>)
    ensures GuardIn(t, ClientCredentialsEndpoint(), RequestArg([], map["request" := BodyModel(body)])).0 == Handled
  {
  }
}
