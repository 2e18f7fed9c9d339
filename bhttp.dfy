/**
 * Route groups of bnet/bhttp (http_server.go and http_server_group.go): a thin
 * layer over gin. The model keeps what this code itself decides: how a prefix
 * is normalised, what a new group's fields are, which API methods become routes
 * and with which binder a request is read. Gin's router groups are reduced to
 * the handlers added to them with Use and the routes added with Handle.
 */
module BHttp {
  import opened Wrappers

  /** A gin.HandlerFunc, by identity. */
  type Handler = nat

  /** A `func(group *RouterGroup)` passed to Group, by identity. */
  type Callback = nat

  // ---------------------------------------------------------------- prefixes

  /**
   * The prefix rule of both Group methods: a non-empty prefix gets a leading
   * '/', and a prefix that is then exactly "/" becomes "".
   */
  function NormalizePrefix(prefix: string): (r: string)
    ensures r == "" || (r[0] == '/' && r != "/")
    ensures r == "" <==> prefix == "" || prefix == "/"
    ensures prefix != "" && prefix[0] != '/' ==> r == "/" + prefix
    ensures prefix != "" && prefix[0] == '/' && prefix != "/" ==> r == prefix
  {
    var slashed := if |prefix| > 0 && prefix[0] != '/' then "/" + prefix else prefix;
    if slashed == "/" then "" else slashed
  }

  /** Normalising a normalised prefix changes nothing. */
  lemma NormalizeIdempotent(prefix: string)
    ensures NormalizePrefix(NormalizePrefix(prefix)) == NormalizePrefix(prefix)
  {
  }

  // ----------------------------------------------------------- method tags

  function UpperChar(c: char): char {
    if 'a' <= c <= 'z' then (c as int - 'a' as int + 'A' as int) as char else c
  }

  predicate IsUpper(s: string) {
    forall i :: 0 <= i < |s| ==> !('a' <= s[i] <= 'z')
  }

  /** strings.ToUpper on ASCII letters. */
  function ToUpper(s: string): (r: string)
    ensures |r| == |s| && IsUpper(r)
    ensures forall i :: 0 <= i < |s| ==> r[i] == s[i] || ('a' <= s[i] <= 'z' && r[i] as int == s[i] as int - 32)
  {
    seq(|s|, i requires 0 <= i < |s| => UpperChar(s[i]))
  }

  /** The `path` and `method` tags of a request type's Meta field; a missing tag reads as "". */
  datatype Meta = Meta(path: string, httpMethod: string)

  /**
   * The type of a value passed to, or declared by, an API method, as far as a
   * reflective call depends on it: the context bcontext.NewWithCtx returns, a
   * pointer to a named struct, or an interface every value satisfies.
   */
  datatype GoType = BContext | PointerTo(struct: string) | AnyInterface

  /** A value of type `arg` may be passed where `param` is declared. */
  predicate Assignable(arg: GoType, param: GoType) {
    param == AnyInterface || arg == param
  }

  /**
   * An exported method of a bound object, as reflection lists it: after the
   * receiver it declares a context parameter of type `ctxParam` and a request
   * parameter of type *`request`; `meta` is None when that struct has no Meta
   * field.
   */
  datatype ApiMethod = ApiMethod(name: string, ctxParam: GoType, request: string, meta: Option<Meta>)

  /** The declared parameter types after the receiver: context first, request second. */
  function Params(m: ApiMethod): seq<GoType> {
    [m.ctxParam, PointerTo(m.request)]
  }

  /** A route handed to gin: the uppercased HTTP method, the path and the API method it calls. */
  datatype Route = Route(httpMethod: string, path: string, api: ApiMethod)

  /** The route register adds for one API method, if any. */
  function RouteOf(m: ApiMethod): (r: Option<Route>)
    ensures r.Some? <==> m.meta.Some? && m.meta.value.path != "" && m.meta.value.httpMethod != ""
    ensures r.Some? ==> (r.value.api == m && r.value.path == m.meta.value.path
      && r.value.httpMethod == ToUpper(m.meta.value.httpMethod))
  {
    match m.meta
      case None => None
      case Some(meta) =>
        var path := meta.path;
        var httpMethod := ToUpper(meta.httpMethod);
        if path == "" || httpMethod == "" then None else Some(Route(httpMethod, path, m))
  }

  /** The routes register adds for an object's methods, in method order. */
  function Routes(methods: seq<ApiMethod>): seq<Route> {
    if methods == [] then []
    else
      var last := methods[|methods| - 1];
      Routes(methods[..|methods| - 1]) + if RouteOf(last).Some? then [RouteOf(last).value] else []
  }

  /** Every registered route has a path and a non-empty, uppercase method. */
  lemma {:induction false} RoutesWellFormed(methods: seq<ApiMethod>)
    ensures |Routes(methods)| <= |methods|
    ensures forall r :: r in Routes(methods) ==> r.path != "" && r.httpMethod != "" && IsUpper(r.httpMethod)
  {
    if methods != [] {
      RoutesWellFormed(methods[..|methods| - 1]);
    }
  }

  /** A method is registered exactly when it has a Meta field with both tags set. */
  lemma {:induction false} RoutesExactlyTagged(methods: seq<ApiMethod>)
    ensures forall i :: 0 <= i < |methods| && RouteOf(methods[i]).Some? ==> RouteOf(methods[i]).value in Routes(methods)
    ensures forall r :: r in Routes(methods) ==> exists i :: 0 <= i < |methods| && RouteOf(methods[i]) == Some(r)
  {
    if methods != [] {
      var init := methods[..|methods| - 1];
      RoutesExactlyTagged(init);
      forall r | r in Routes(methods)
        ensures exists i :: 0 <= i < |methods| && RouteOf(methods[i]) == Some(r)
      {
        if r in Routes(init) {
          var i :| 0 <= i < |init| && RouteOf(init[i]) == Some(r);
          assert methods[i] == init[i];
        } else {
          assert RouteOf(methods[|methods| - 1]) == Some(r);
        }
      }
      forall i | 0 <= i < |methods| && RouteOf(methods[i]).Some?
        ensures RouteOf(methods[i]).value in Routes(methods)
      {
        if i < |init| {
          assert methods[i] == init[i];
        }
      }
    }
  }

  /** The routes Bind adds for several objects, object by object. */
  function BoundRoutes(objs: seq<seq<ApiMethod>>): seq<Route> {
    if objs == [] then [] else BoundRoutes(objs[..|objs| - 1]) + Routes(objs[|objs| - 1])
  }

  // --------------------------------------------------------- request binding

  /** The gin binding a handler uses: query, JSON, or gin's content-type driven ShouldBind. */
  datatype Binder = QueryBinder | JsonBinder | GenericBinder

  function BinderFor(httpMethod: string): (b: Binder)
    ensures b == QueryBinder <==> httpMethod == "GET"
    ensures b == JsonBinder <==> httpMethod == "POST" || httpMethod == "PUT"
    ensures b == GenericBinder <==> httpMethod !in {"GET", "POST", "PUT"}
  {
    if httpMethod == "GET" then QueryBinder
    else if httpMethod == "POST" || httpMethod == "PUT" then JsonBinder
    else GenericBinder
  }

  /** A route registered from a lowercase tag still binds by the uppercased method. */
  lemma TagCaseDoesNotMatter(path: string, name: string)
    requires path != ""
    ensures var r := RouteOf(ApiMethod(name, BContext, "Req", Some(Meta(path, "get"))));
      r.Some? && BinderFor(r.value.httpMethod) == QueryBinder
    ensures var r := RouteOf(ApiMethod(name, BContext, "Req", Some(Meta(path, "put"))));
      r.Some? && BinderFor(r.value.httpMethod) == JsonBinder
  {
    assert ToUpper("get") == "GET";
    assert ToUpper("put") == "PUT";
  }

  const StatusOK: int := 200
  const StatusBadRequest: int := 400

  datatype Body = ErrorBody(error: string) | ValueBody(value: string)

  datatype Reply = Reply(status: int, body: Body)

  /**
   * What a request to a route did: whether the API method ran, whether the
   * reflective call panicked, and the JSON reply written, if any.
   */
  datatype Outcome = Outcome(apiCalled: bool, panicked: bool, reply: Option<Reply>)

  /**
   * reflect's Value.Call: it panics unless there is one argument per declared
   * parameter and each argument is assignable to its parameter.
   */
  predicate CallAccepts(params: seq<GoType>, args: seq<GoType>) {
    |args| == |params| && forall i :: 0 <= i < |args| ==> Assignable(args[i], params[i])
  }

  /**
   * The handler register installs for a route, calling the API method with
   * the arguments (after the receiver) of types `args`. `bind` gives each
   * binding's result on the request (None on success, else the error text);
   * `response` is what the API method returns when it is called.
   */
  function Handle(route: Route, args: seq<GoType>, bind: Binder -> Option<string>, response: seq<string>): (o: Outcome)
    ensures bind(BinderFor(route.httpMethod)).Some? ==>
      o == Outcome(false, false, Some(Reply(StatusBadRequest, ErrorBody(bind(BinderFor(route.httpMethod)).value))))
    ensures bind(BinderFor(route.httpMethod)).None? && !CallAccepts(Params(route.api), args) ==>
      o == Outcome(false, true, None)
    ensures bind(BinderFor(route.httpMethod)).None? && CallAccepts(Params(route.api), args) ==>
      o.apiCalled && !o.panicked && (o.reply.Some? <==> |response| > 0)
    ensures o.apiCalled && o.reply.Some? ==> o.reply.value == Reply(StatusOK, ValueBody(response[0]))
    ensures o.apiCalled ==> CallAccepts(Params(route.api), args)
  {
    match bind(BinderFor(route.httpMethod))
      case Some(e) => Outcome(false, false, Some(Reply(StatusBadRequest, ErrorBody(e))))
      case None =>
        if !CallAccepts(Params(route.api), args) then Outcome(false, true, None)
        else Outcome(true, false, if |response| > 0 then Some(Reply(StatusOK, ValueBody(response[0]))) else None)
  }

  /** The handler as written: the request is passed first and the context second. */
  function Serve(route: Route, bind: Binder -> Option<string>, response: seq<string>): (o: Outcome)
    ensures bind(BinderFor(route.httpMethod)).Some? ==>
      o == Outcome(false, false, Some(Reply(StatusBadRequest, ErrorBody(bind(BinderFor(route.httpMethod)).value))))
  {
    Handle(route, [PointerTo(route.api.request), BContext], bind, response)
  }

  /**
   * As written, a request that binds never reaches the API method: the
   * context lands in the request parameter, which only takes a pointer to the
   * request struct, and the call panics.
   */
  lemma ServePanicsOnceBound(route: Route, bind: Binder -> Option<string>, response: seq<string>)
    requires bind(BinderFor(route.httpMethod)).None?
    ensures var o := Serve(route, bind, response);
      o.panicked && !o.apiCalled && o.reply.None?
  {
    var args := [PointerTo(route.api.request), BContext];
    assert !Assignable(args[1], Params(route.api)[1]);
  }

  /** The handler with the arguments in declared order: context first, request second. */
  function ServeIntended(route: Route, bind: Binder -> Option<string>, response: seq<string>): (o: Outcome)
    ensures bind(BinderFor(route.httpMethod)).Some? ==>
      o == Outcome(false, false, Some(Reply(StatusBadRequest, ErrorBody(bind(BinderFor(route.httpMethod)).value))))
  {
    Handle(route, [BContext, PointerTo(route.api.request)], bind, response)
  }

  /**
   * With the arguments in declared order, a method whose first parameter
   * takes the context is called once the request binds, and its first result,
   * if any, is written with status 200.
   */
  lemma ServeIntendedReplies(route: Route, bind: Binder -> Option<string>, response: seq<string>)
    requires bind(BinderFor(route.httpMethod)).None?
    requires Assignable(BContext, route.api.ctxParam)
    ensures var o := ServeIntended(route, bind, response);
      o.apiCalled && !o.panicked
      && (|response| > 0 ==> o.reply == Some(Reply(StatusOK, ValueBody(response[0]))))
      && (|response| == 0 ==> o.reply.None?)
  {
    var args := [BContext, PointerTo(route.api.request)];
    assert forall i :: 0 <= i < |args| ==> Assignable(args[i], Params(route.api)[i]);
  }

  // ------------------------------------------------------------ gin groups

  /** A gin router group (the engine is its root group), reduced to the
      handlers added with Use and the routes added with Handle, in order. */
  class GinGroup {
    const base: GinGroup?
    const relativePath: string
    var uses: seq<Handler>
    var routes: seq<Route>

    constructor (base: GinGroup?, relativePath: string)
      ensures this.base == base && this.relativePath == relativePath
      ensures uses == [] && routes == []
    {
      this.base := base;
      this.relativePath := relativePath;
      uses := [];
      routes := [];
    }

    method Use(h: Handler)
      modifies this
      ensures uses == old(uses) + [h] && routes == old(routes)
    {
      uses := uses + [h];
    }

    method Handle(httpMethod: string, path: string, api: ApiMethod)
      modifies this
      ensures routes == old(routes) + [Route(httpMethod, path, api)] && uses == old(uses)
    {
      routes := routes + [Route(httpMethod, path, api)];
    }

    method Group(relativePath: string) returns (g: GinGroup)
      ensures fresh(g) && g.base == this && g.relativePath == relativePath
      ensures g.uses == [] && g.routes == []
    {
      g := new GinGroup(this, relativePath);
    }
  }

  // ------------------------------------------------------------- callbacks

  datatype Invocation = Invocation(callback: Callback, target: RouterGroup)

  /** Records which callback Group invoked on which group, in order. */
  class CallLog {
    var calls: seq<Invocation>

    constructor ()
      ensures calls == []
    {
      calls := [];
    }

    method Invoke(callback: Callback, target: RouterGroup)
      modifies this
      ensures calls == old(calls) + [Invocation(callback, target)]
    {
      calls := calls + [Invocation(callback, target)];
    }
  }

  /** Each callback once, in argument order, on `target`. */
  function Invocations(callbacks: seq<Callback>, target: RouterGroup): (r: seq<Invocation>)
    ensures |r| == |callbacks|
    ensures forall i :: 0 <= i < |r| ==> r[i] == Invocation(callbacks[i], target)
  {
    seq(|callbacks|, i requires 0 <= i < |callbacks| => Invocation(callbacks[i], target))
  }

  // ---------------------------------------------------------------- server

  class Server {
    const engine: GinGroup

    /** New(): a server over a fresh engine (gin's default middleware is not modelled). */
    constructor ()
      ensures fresh(engine) && engine.base == null && engine.uses == [] && engine.routes == []
    {
      engine := new GinGroup(null, "");
    }

    /** Middleware(handlers...): each handler is added to the engine with Use, in order. */
    method Middleware(handlers: seq<Handler>) returns (s: Server)
      modifies engine
      ensures s == this
      ensures engine.uses == old(engine.uses) + handlers && engine.routes == old(engine.routes)
    {
      for i := 0 to |handlers|
        invariant engine.uses == old(engine.uses) + handlers[..i]
        invariant engine.routes == old(engine.routes)
      {
        engine.Use(handlers[i]);
        assert handlers[..i + 1] == handlers[..i] + [handlers[i]];
      }
      assert handlers[..|handlers|] == handlers;
      s := this;
    }

    /** Group(prefix, groups...): a top-level group over a new engine group. */
    method Group(prefix: string, groups: seq<Callback>, log: CallLog) returns (g: RouterGroup)
      modifies log
      ensures fresh(g) && fresh(g.group)
      ensures g.server == this && g.parent == null && g.middleware == null
      ensures g.prefix == NormalizePrefix(prefix)
      ensures g.group.base == engine && g.group.relativePath == g.prefix
      ensures log.calls == old(log.calls) + Invocations(groups, g)
    {
      var p := prefix;
      if |p| > 0 && p[0] != '/' {
        p := "/" + p;
      }
      if p == "/" {
        p := "";
      }
      assert p == NormalizePrefix(prefix);
      var gg := engine.Group(p);
      g := new RouterGroup(gg, null, this, p);
      for i := 0 to |groups|
        invariant log.calls == old(log.calls) + Invocations(groups[..i], g)
        modifies log
      {
        log.Invoke(groups[i], g);
      }
      assert groups[..|groups|] == groups;
    }
  }

  // ---------------------------------------------------------- router group

  class RouterGroup {
    const group: GinGroup
    const parent: RouterGroup?
    const server: Server?
    const prefix: string
    /** A nil slice is `null`. */
    var middleware: array?<Handler>

    constructor (group: GinGroup, parent: RouterGroup?, server: Server?, prefix: string)
      ensures this.group == group && this.parent == parent && this.server == server
      ensures this.prefix == prefix && middleware == null
    {
      this.group := group;
      this.parent := parent;
      this.server := server;
      this.prefix := prefix;
      middleware := null;
    }

    function MiddlewareLen(): nat
      reads this
    {
      if middleware == null then 0 else middleware.Length
    }

    /**
     * Group(prefix, groups...): a child group whose prefix is its own
     * normalised segment, with this group as parent, the same server, and a
     * fresh copy of a non-empty middleware list.
     */
    method Group(prefix: string, groups: seq<Callback>, log: CallLog) returns (child: RouterGroup)
      modifies log
      ensures fresh(child) && fresh(child.group)
      ensures child.parent == this && child.server == server
      ensures child.prefix == NormalizePrefix(prefix)
      ensures child.group.base == group && child.group.relativePath == child.prefix
      ensures MiddlewareLen() == 0 ==> child.middleware == null
      ensures MiddlewareLen() > 0 ==>
        child.middleware != null && fresh(child.middleware) && child.middleware[..] == middleware[..]
      ensures middleware == old(middleware) && (middleware != null ==> middleware[..] == old(middleware[..]))
      ensures log.calls == old(log.calls) + Invocations(groups, child)
    {
      var p := prefix;
      if |p| > 0 && p[0] != '/' {
        p := "/" + p;
      }
      if p == "/" {
        p := "";
      }
      assert p == NormalizePrefix(prefix);
      var gg := group.Group(p);
      child := new RouterGroup(gg, this, server, p);
      if MiddlewareLen() > 0 {
        var copied := new Handler[middleware.Length];
        for i := 0 to middleware.Length
          invariant forall k :: 0 <= k < i ==> copied[k] == middleware[k]
          modifies copied
        {
          copied[i] := middleware[i];
        }
        child.middleware := copied;
      }
      for i := 0 to |groups|
        invariant log.calls == old(log.calls) + Invocations(groups[..i], child)
        modifies log
      {
        log.Invoke(groups[i], child);
      }
      assert groups[..|groups|] == groups;
    }

    /** register(obj): one route per API method whose Meta tags name a path and a method. */
    method Register(methods: seq<ApiMethod>)
      modifies group
      ensures group.routes == old(group.routes) + Routes(methods)
      ensures group.uses == old(group.uses)
    {
      for i := 0 to |methods|
        invariant group.routes == old(group.routes) + Routes(methods[..i])
        invariant group.uses == old(group.uses)
      {
        var m := methods[i];
        assert methods[..i + 1][..i] == methods[..i];
        if m.meta.Some? {
          var path := m.meta.value.path;
          var httpMethod := ToUpper(m.meta.value.httpMethod);
          if path != "" && httpMethod != "" {
            group.Handle(httpMethod, path, m);
          }
        }
      }
      assert methods[..|methods|] == methods;
    }

    /** Bind(objs...): registers each object in turn and returns the same group. */
    method Bind(objs: seq<seq<ApiMethod>>) returns (r: RouterGroup)
      modifies group
      ensures r == this
      ensures group.routes == old(group.routes) + BoundRoutes(objs)
      ensures group.uses == old(group.uses)
    {
      for i := 0 to |objs|
        invariant group.routes == old(group.routes) + BoundRoutes(objs[..i])
        invariant group.uses == old(group.uses)
      {
        Register(objs[i]);
        assert objs[..i + 1][..i] == objs[..i];
      }
      assert objs[..|objs|] == objs;
      r := this;
    }

    /** Middleware(handlers...): each handler is added to the gin group with Use; the
        `middleware` field is left as it is. */
    method Middleware(handlers: seq<Handler>) returns (r: RouterGroup)
      modifies group
      ensures r == this
      ensures group.uses == old(group.uses) + handlers && group.routes == old(group.routes)
    {
      for i := 0 to |handlers|
        invariant group.uses == old(group.uses) + handlers[..i]
        invariant group.routes == old(group.routes)
      {
        group.Use(handlers[i]);
        assert handlers[..i + 1] == handlers[..i] + [handlers[i]];
      }
      assert handlers[..|handlers|] == handlers;
      r := this;
    }
  }
}
