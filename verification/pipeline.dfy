/**
 * The per-message pipeline of a root route (`createHandlerFunc` in `v2/route.go`) as a trace of
 * the calls it makes into user code: prefix lookup, prefix trimming, parsing, route resolution,
 * the middleware chain, the handler and the resolver.
 */
module Pipeline {
  import opened Options
  import opened Discord
  import opened Errors
  import opened Text
  import opened Routes
  import opened Resolver
  import opened GoContext

  /** The behaviour of the user code the pipeline calls. */
  datatype Env = Env(
    prefixers: Prefixers,
    /** The handler implements `CmdParser`. */
    parses: HandlerId -> bool,
    parse: (HandlerId, string) -> Parsed,
    /** The handler implements `Resolver`. */
    resolves: HandlerId -> bool,
    handle: (HandlerId, Context) -> Option<Error>,
    run: (MiddlewareId, Context) -> Option<Error>)

  /** A call into user code, with the context it receives. */
  datatype Call =
    | MiddlewareCall(m: MiddlewareId, ctx: Context)
    | HandleCall(h: HandlerId, ctx: Context)
    | ResolveCall(h: HandlerId, ctx: Context)

  /** Where the pipeline ended. */
  datatype Stop =
    | /** No handler function exists: `createHandlerFunc` returns nil for a nil route, which `Router.Has` never binds. */
      Unregistered
    | /**
       * The root route has no handler, so `createHandlerFunc` returns a nil function; a router
       * that binds the route calls it for every message, which panics in Go.
       */
      NilHandlerFunc
    | /** No message is stored under the keys the pipeline reads; the source dereferences the nil message, a Go panic. */
      MessageMissing
    | PrefixMismatch
    | ParseFailed
    | NoRoute
    | MiddlewareFailed
    | /** The matched route has no handler; the source dereferences the nil handler here. */
      NoHandlerBound
    | Completed

  datatype Trace = Trace(calls: seq<Call>, stop: Stop)

  /** `handleParse`: the handler's own parser when it has one, otherwise whitespace splitting without error. */
  function HandleParse(h: HandlerId, content: string, env: Env): (r: Parsed)
    ensures !env.parses(h) ==> r.err.None? && Concat(r.toks) == NonSpace(content)
    ensures !env.parses(h) ==> (r.toks == [] <==> Blank(content))
    ensures env.parses(h) ==> r == env.parse(h, content)
  {
    if env.parses(h) then env.parse(h, content)
    else
      FieldsKeepsText(content);
      FieldsEmptyIffBlank(content);
      Parsed(Fields(content), None)
  }

  /** `handleResolve(h)(ctx)`: a call to `Resolve` when the handler implements it, otherwise the no-op stub. */
  function ResolveCalls(h: Option<HandlerId>, ctx: Context, env: Env): (calls: seq<Call>)
    ensures |calls| <= 1
    ensures |calls| == 1 <==> h.Some? && env.resolves(h.value)
    ensures |calls| == 1 ==> calls[0] == ResolveCall(h.value, ctx)
  {
    if h.Some? && env.resolves(h.value) then [ResolveCall(h.value, ctx)] else []
  }

  /** The calls a middleware chain made and the error it stopped with. */
  datatype ChainRun = ChainRun(calls: seq<Call>, err: Option<Error>)

  /**
   * `handleMiddlewares`: runs the middlewares in order on the same context and stops at the
   * first error, which it returns; it returns nil only when every middleware ran and succeeded.
   */
  function HandleMiddlewares(ctx: Context, ms: seq<MiddlewareId>, env: Env): (r: ChainRun)
    ensures |r.calls| <= |ms|
    ensures forall i :: 0 <= i < |r.calls| ==> r.calls[i] == MiddlewareCall(ms[i], ctx)
    ensures forall i :: 0 <= i < |r.calls| - 1 ==> env.run(ms[i], ctx).None?
    ensures r.err.Some? ==> |r.calls| > 0 && r.err == env.run(ms[|r.calls| - 1], ctx)
    ensures r.err.None? <==> |r.calls| == |ms| && forall i :: 0 <= i < |ms| ==> env.run(ms[i], ctx).None?
  {
    if |ms| == 0 then ChainRun([], None)
    else
      var e := env.run(ms[0], ctx);
      if e.Some? then ChainRun([MiddlewareCall(ms[0], ctx)], e)
      else
        var rest := HandleMiddlewares(ctx, ms[1..], env);
        assert forall i :: 1 <= i < |ms| ==> ms[1..][i - 1] == ms[i];
        ChainRun([MiddlewareCall(ms[0], ctx)] + rest.calls, rest.err)
  }

  /** `createHandlerFunc` builds a non-nil handler function only for a non-nil route with a handler. */
  predicate Registered(route: Option<Route>) {
    route.Some? && route.value.h.Some?
  }

  /** The prefix of the message's guild, from the root route's prefixer; the message is read through `store`. */
  function PrefixOf(store: Pkg, route: Option<Route>, ctx: Context, env: Env): string
    requires Registered(route) && GetMsg(store, ctx).Some?
  {
    GetGuildPrefix(route.value, GetMsg(store, ctx).value.guildId, env.prefixers)
  }

  /** The message content with the prefix trimmed. */
  function CommandOf(store: Pkg, route: Option<Route>, ctx: Context, env: Env): Trimmed
    requires Registered(route) && GetMsg(store, ctx).Some?
  {
    TrimCommand(GetMsg(store, ctx).value.content, PrefixOf(store, route, ctx, env))
  }

  /** The root handler's parse of the trimmed command. */
  function TokensOf(store: Pkg, route: Option<Route>, ctx: Context, env: Env): Parsed
    requires Registered(route) && GetMsg(store, ctx).Some? && CommandOf(store, route, ctx, env).ok
  {
    HandleParse(route.value.h.value, CommandOf(store, route, ctx, env).cmd, env)
  }

  /** The route the tokens resolve to. */
  function FoundOf(store: Pkg, route: Option<Route>, ctx: Context, env: Env): (f: Found)
    requires Registered(route) && GetMsg(store, ctx).Some? && CommandOf(store, route, ctx, env).ok
    ensures 0 <= f.depth <= |TokensOf(store, route, ctx, env).toks|
  {
    FindRouteRecursive(route, TokensOf(store, route, ctx, env).toks, 1)
  }

  /** The context the middlewares and the handler receive: prefix, alias and args stored under `store`'s keys. */
  function RoutedContext(store: Pkg, route: Option<Route>, ctx: Context, env: Env): Context
    requires Registered(route) && GetMsg(store, ctx).Some? && CommandOf(store, route, ctx, env).ok
  {
    var toks, d := TokensOf(store, route, ctx, env).toks, FoundOf(store, route, ctx, env).depth;
    WithArgs(store, WithAlias(store, WithPrefix(store, ctx, PrefixOf(store, route, ctx, env)), toks[..d]), toks[d..])
  }

  /**
   * The handler function of a root route, for one message. `store` is the package whose context
   * keys the pipeline reads the message from and writes the prefix, alias, args and error under.
   */
  function Run(store: Pkg, route: Option<Route>, ctx: Context, env: Env): Trace {
    if route.None? then Trace([], Unregistered)
    else if route.value.h.None? then Trace([], NilHandlerFunc)
    else if GetMsg(store, ctx).None? then Trace([], MessageMissing)
    else if !CommandOf(store, route, ctx, env).ok then Trace([], PrefixMismatch)
    else
      var ctx1 := WithPrefix(store, ctx, PrefixOf(store, route, ctx, env));
      var p := TokensOf(store, route, ctx, env);
      if p.err.Some? then Trace(ResolveCalls(route.value.h, WithErr(store, ctx1, p.err), env), ParseFailed)
      else
        var found := FoundOf(store, route, ctx, env);
        if found.route.None? then Trace([], NoRoute)
        else Dispatch(store, found.route.value, RoutedContext(store, route, ctx, env), env)
  }

  /**
   * The pipeline once route `r` is resolved and `c` holds the prefix, alias and args: the
   * middleware chain, then the handler, then Resolve, which sees the error if there is one.
   */
  function Dispatch(store: Pkg, r: Route, c: Context, env: Env): Trace {
    var mw := HandleMiddlewares(c, r.middlewares, env);
    if mw.err.Some? then
      Trace(mw.calls + ResolveCalls(r.h, WithErr(store, c, mw.err), env), MiddlewareFailed)
    else if r.h.None? then Trace(mw.calls, NoHandlerBound)
    else
      var herr := env.handle(r.h.value, c);
      var c3 := if herr.Some? then WithErr(store, c, herr) else c;
      Trace(mw.calls + [HandleCall(r.h.value, c)] + ResolveCalls(r.h, c3, env), Completed)
  }

  /** The error Resolve sees after dispatch: the middleware's, else the handler's. */
  function DispatchErr(r: Route, c: Context, env: Env): Option<Error> {
    var mw := HandleMiddlewares(c, r.middlewares, env);
    if mw.err.Some? then mw.err else if r.h.Some? then env.handle(r.h.value, c) else None
  }

  /** Every call made after dispatch sees the routed context, with at most the dispatch error added. */
  lemma DispatchContexts(store: Pkg, r: Route, c: Context, env: Env)
    ensures var t := Dispatch(store, r, c, env);
      forall i :: 0 <= i < |t.calls| ==> t.calls[i].ctx == c || t.calls[i].ctx == WithErr(store, c, DispatchErr(r, c, env))
  {
    var t := Dispatch(store, r, c, env);
    var mw := HandleMiddlewares(c, r.middlewares, env);
    forall i | 0 <= i < |t.calls|
      ensures t.calls[i].ctx == c || t.calls[i].ctx == WithErr(store, c, DispatchErr(r, c, env))
    {
      if i < |mw.calls| {
        assert t.calls[i] == mw.calls[i];
      }
    }
  }

  /** `createHandlerFunc(route)` applied to a message context, reading and writing through `v2/utils` as the source does. */
  function HandlerFunc(route: Option<Route>, ctx: Context, env: Env): Trace {
    Run(Utils, route, ctx, env)
  }

  /** The pipeline reading and writing through the `v2` package's own keys, where the router and `CmdFromContext` do. */
  function HandlerFuncFixed(route: Option<Route>, ctx: Context, env: Env): Trace {
    Run(Sayori, route, ctx, env)
  }

  /**
   * The context `makeHandlerForDgo` hands the handler function: a background context with the
   * message and then the session stored under `pkg`'s keys. The router uses the `v2` keys; the
   * route tests build the same context through `v2/utils`.
   */
  function DeliveredContext(pkg: Pkg, ses: Option<Session>, m: Message): Context {
    WithSes(pkg, WithMsg(pkg, Background, Some(m)), ses)
  }

  /**
   * No user code runs when there is no handler function, the root has no handler, the message is
   * missing, the prefix does not match, or no route resolves; with the default parser a blank
   * command (nothing but whitespace after the prefix) resolves nowhere.
   */
  lemma SilentStops(store: Pkg, route: Option<Route>, ctx: Context, env: Env)
    ensures var t := Run(store, route, ctx, env);
      t.stop in {Unregistered, NilHandlerFunc, MessageMissing, PrefixMismatch, NoRoute} ==> t.calls == []
    ensures route.None? ==> Run(store, route, ctx, env) == Trace([], Unregistered)
    ensures route.Some? && route.value.h.None? ==> Run(store, route, ctx, env) == Trace([], NilHandlerFunc)
    ensures Registered(route) ==> (Run(store, route, ctx, env).stop == MessageMissing <==> GetMsg(store, ctx).None?)
    ensures Registered(route) && GetMsg(store, ctx).Some? && !CommandOf(store, route, ctx, env).ok ==>
      Run(store, route, ctx, env) == Trace([], PrefixMismatch)
    ensures (Registered(route) && GetMsg(store, ctx).Some? && CommandOf(store, route, ctx, env).ok
             && !env.parses(route.value.h.value) && Blank(CommandOf(store, route, ctx, env).cmd)) ==>
      Run(store, route, ctx, env) == Trace([], NoRoute)
  {
    var t := Run(store, route, ctx, env);
    if route.None? {
      assert t == Trace([], Unregistered);
    } else if route.value.h.None? {
      assert t == Trace([], NilHandlerFunc);
    } else if GetMsg(store, ctx).None? {
      assert t == Trace([], MessageMissing);
    } else if !CommandOf(store, route, ctx, env).ok {
      assert t == Trace([], PrefixMismatch);
    } else {
      var p := TokensOf(store, route, ctx, env);
      if p.err.Some? {
        assert t.stop == ParseFailed;
      } else if FoundOf(store, route, ctx, env).route.None? {
        assert t == Trace([], NoRoute);
      } else {
        assert t.stop in {MiddlewareFailed, NoHandlerBound, Completed};
      }
      if !env.parses(route.value.h.value) && Blank(CommandOf(store, route, ctx, env).cmd) {
        assert p.toks == [] && p.err.None?;
        assert FoundOf(store, route, ctx, env).route.None?;
      }
    }
  }

  /**
   * A parse error stops the pipeline before resolution: only the root handler's Resolve can
   * run, and it sees the parse error and the prefix.
   */
  lemma ParseFailure(store: Pkg, route: Option<Route>, ctx: Context, env: Env)
    requires GetMsg(store, ctx).Some?
    requires Registered(route) && CommandOf(store, route, ctx, env).ok && TokensOf(store, route, ctx, env).err.Some?
    ensures var t := Run(store, route, ctx, env);
      && t.stop == ParseFailed
      && |t.calls| <= 1
      && (env.resolves(route.value.h.value) <==> |t.calls| == 1)
      && forall i :: 0 <= i < |t.calls| ==>
           && t.calls[i] == ResolveCall(route.value.h.value, t.calls[i].ctx)
           && GetErr(store, t.calls[i].ctx) == TokensOf(store, route, ctx, env).err
           && GetPrefix(store, t.calls[i].ctx) == PrefixOf(store, route, ctx, env)
  {
  }

  /** The routed context holds the prefix, the consumed tokens as alias and the rest as args. */
  lemma RoutedContextHolds(store: Pkg, route: Option<Route>, ctx: Context, env: Env)
    requires GetMsg(store, ctx).Some?
    requires Registered(route) && CommandOf(store, route, ctx, env).ok
    ensures var c, toks, d := RoutedContext(store, route, ctx, env), TokensOf(store, route, ctx, env).toks, FoundOf(store, route, ctx, env).depth;
      && GetAlias(store, c) == toks[..d] && GetArgs(store, c) == toks[d..]
      && GetPrefix(store, c) == PrefixOf(store, route, ctx, env)
  {
    var toks, d := TokensOf(store, route, ctx, env).toks, FoundOf(store, route, ctx, env).depth;
    var c1 := WithPrefix(store, ctx, PrefixOf(store, route, ctx, env));
    var cA := WithAlias(store, c1, toks[..d]);
    GetWithOther(store, AliasSlot, store, PrefixSlot, c1, StrsValue(toks[..d]));
    GetWithOther(store, ArgsSlot, store, PrefixSlot, cA, StrsValue(toks[d..]));
    GetWithOther(store, ArgsSlot, store, AliasSlot, cA, StrsValue(toks[d..]));
  }

  /**
   * Once a route is resolved, every call into user code sees the consumed tokens as the alias,
   * the rest as the args, and the guild prefix, under the store's keys.
   */
  lemma RoutedCallsSeeSplit(store: Pkg, route: Option<Route>, ctx: Context, env: Env)
    requires GetMsg(store, ctx).Some?
    requires Registered(route) && CommandOf(store, route, ctx, env).ok && TokensOf(store, route, ctx, env).err.None?
    ensures var t, toks, d := Run(store, route, ctx, env), TokensOf(store, route, ctx, env).toks, FoundOf(store, route, ctx, env).depth;
      forall i :: 0 <= i < |t.calls| ==>
        && GetAlias(store, t.calls[i].ctx) == toks[..d]
        && GetArgs(store, t.calls[i].ctx) == toks[d..]
        && GetPrefix(store, t.calls[i].ctx) == PrefixOf(store, route, ctx, env)
  {
    var toks, d := TokensOf(store, route, ctx, env).toks, FoundOf(store, route, ctx, env).depth;
    var c2 := RoutedContext(store, route, ctx, env);
    RoutedContextHolds(store, route, ctx, env);
    if FoundOf(store, route, ctx, env).route.Some? {
      var r := FoundOf(store, route, ctx, env).route.value;
      var e := DispatchErr(r, c2, env);
      assert Run(store, route, ctx, env) == Dispatch(store, r, c2, env);
      DispatchContexts(store, r, c2, env);
      GetWithOther(store, ErrSlot, store, AliasSlot, c2, ErrValue(e));
      GetWithOther(store, ErrSlot, store, ArgsSlot, c2, ErrValue(e));
      GetWithOther(store, ErrSlot, store, PrefixSlot, c2, ErrValue(e));
    }
  }

  /**
   * A middleware error skips the handler: the chain stops at the failing middleware, and only
   * the matched route's Resolve can follow, seeing that error.
   */
  lemma MiddlewareFailure(store: Pkg, route: Option<Route>, ctx: Context, env: Env)
    requires GetMsg(store, ctx).Some?
    requires Registered(route) && CommandOf(store, route, ctx, env).ok && TokensOf(store, route, ctx, env).err.None?
    requires FoundOf(store, route, ctx, env).route.Some?
    requires HandleMiddlewares(RoutedContext(store, route, ctx, env), FoundOf(store, route, ctx, env).route.value.middlewares, env).err.Some?
    ensures var t, r, c := Run(store, route, ctx, env), FoundOf(store, route, ctx, env).route.value, RoutedContext(store, route, ctx, env);
      var mw := HandleMiddlewares(c, r.middlewares, env);
      && t.stop == MiddlewareFailed
      && (forall i :: 0 <= i < |t.calls| ==> !t.calls[i].HandleCall?)
      && t.calls[..|mw.calls|] == mw.calls
      && forall i :: |mw.calls| <= i < |t.calls| ==>
           t.calls[i].ResolveCall? && i == |t.calls| - 1 && GetErr(store, t.calls[i].ctx) == mw.err
  {
    var r, c := FoundOf(store, route, ctx, env).route.value, RoutedContext(store, route, ctx, env);
    assert Run(store, route, ctx, env) == Dispatch(store, r, c, env);
    DispatchFailure(store, r, c, env);
  }

  /** `MiddlewareFailure` for the dispatch stage alone. */
  lemma DispatchFailure(store: Pkg, r: Route, c: Context, env: Env)
    requires HandleMiddlewares(c, r.middlewares, env).err.Some?
    ensures var t, mw := Dispatch(store, r, c, env), HandleMiddlewares(c, r.middlewares, env);
      && t.stop == MiddlewareFailed
      && (forall i :: 0 <= i < |t.calls| ==> !t.calls[i].HandleCall?)
      && t.calls[..|mw.calls|] == mw.calls
      && forall i :: |mw.calls| <= i < |t.calls| ==>
           t.calls[i].ResolveCall? && i == |t.calls| - 1 && GetErr(store, t.calls[i].ctx) == mw.err
  {
    var mw := HandleMiddlewares(c, r.middlewares, env);
    RoundTrips(store, c, None, None, "", [], [], mw.err);
  }

  /**
   * When the chain succeeds and the route has a handler: every middleware ran, in order and
   * successfully, then the handler exactly once, then (if implemented) Resolve, last, seeing the
   * handler's error when there is one.
   */
  lemma Completion(store: Pkg, route: Option<Route>, ctx: Context, env: Env)
    requires GetMsg(store, ctx).Some?
    requires Registered(route) && CommandOf(store, route, ctx, env).ok && TokensOf(store, route, ctx, env).err.None?
    requires FoundOf(store, route, ctx, env).route.Some? && FoundOf(store, route, ctx, env).route.value.h.Some?
    requires HandleMiddlewares(RoutedContext(store, route, ctx, env), FoundOf(store, route, ctx, env).route.value.middlewares, env).err.None?
    ensures var t, r, c := Run(store, route, ctx, env), FoundOf(store, route, ctx, env).route.value, RoutedContext(store, route, ctx, env);
      var n, herr := |r.middlewares|, env.handle(r.h.value, c);
      && t.stop == Completed
      && n < |t.calls| <= n + 2
      && (forall i :: 0 <= i < n ==> t.calls[i] == MiddlewareCall(r.middlewares[i], c) && env.run(r.middlewares[i], c).None?)
      && t.calls[n] == HandleCall(r.h.value, c)
      && (forall i :: 0 <= i < |t.calls| && t.calls[i].HandleCall? ==> i == n)
      && (|t.calls| == n + 2 <==> env.resolves(r.h.value))
      && forall i :: n < i < |t.calls| ==>
           t.calls[i].ResolveCall? && GetErr(store, t.calls[i].ctx) == if herr.Some? then herr else GetErr(store, c)
  {
    var r, c := FoundOf(store, route, ctx, env).route.value, RoutedContext(store, route, ctx, env);
    assert Run(store, route, ctx, env) == Dispatch(store, r, c, env);
    DispatchCompletion(store, r, c, env);
  }

  /** `Completion` for the dispatch stage alone. */
  lemma DispatchCompletion(store: Pkg, r: Route, c: Context, env: Env)
    requires r.h.Some? && HandleMiddlewares(c, r.middlewares, env).err.None?
    ensures var t, n, herr := Dispatch(store, r, c, env), |r.middlewares|, env.handle(r.h.value, c);
      && t.stop == Completed
      && n < |t.calls| <= n + 2
      && (forall i :: 0 <= i < n ==> t.calls[i] == MiddlewareCall(r.middlewares[i], c) && env.run(r.middlewares[i], c).None?)
      && t.calls[n] == HandleCall(r.h.value, c)
      && (forall i :: 0 <= i < |t.calls| && t.calls[i].HandleCall? ==> i == n)
      && (|t.calls| == n + 2 <==> env.resolves(r.h.value))
      && forall i :: n < i < |t.calls| ==>
           t.calls[i].ResolveCall? && GetErr(store, t.calls[i].ctx) == if herr.Some? then herr else GetErr(store, c)
  {
    var herr := env.handle(r.h.value, c);
    RoundTrips(store, c, None, None, "", [], [], herr);
  }

  /** A matched route without a handler gets its middlewares run and then nothing. */
  lemma HandlerMissing(store: Pkg, route: Option<Route>, ctx: Context, env: Env)
    requires GetMsg(store, ctx).Some?
    requires Registered(route) && CommandOf(store, route, ctx, env).ok && TokensOf(store, route, ctx, env).err.None?
    requires FoundOf(store, route, ctx, env).route.Some? && FoundOf(store, route, ctx, env).route.value.h.None?
    requires HandleMiddlewares(RoutedContext(store, route, ctx, env), FoundOf(store, route, ctx, env).route.value.middlewares, env).err.None?
    ensures var t, r := Run(store, route, ctx, env), FoundOf(store, route, ctx, env).route.value;
      t.stop == NoHandlerBound && |t.calls| == |r.middlewares| && forall i :: 0 <= i < |t.calls| ==> t.calls[i].MiddlewareCall?
  {
    var r, c := FoundOf(store, route, ctx, env).route.value, RoutedContext(store, route, ctx, env);
    assert Run(store, route, ctx, env) == Dispatch(store, r, c, env);
  }

  /**
   * As written, the message is read through `v2/utils`, but the router stores it under the `v2`
   * keys: every message the router delivers finds no message, so no user code ever runs, and a
   * registered route stops at the nil message.
   */
  lemma RouterMessageLost(route: Option<Route>, ses: Option<Session>, m: Message, env: Env)
    ensures var t := HandlerFunc(route, DeliveredContext(Sayori, ses, m), env);
      && t.calls == []
      && (Registered(route) ==> t.stop == MessageMissing)
  {
    var c0 := WithMsg(Sayori, Background, Some(m));
    GetWithOther(Sayori, SesSlot, Utils, MsgSlot, c0, SesValue(ses));
    GetWithOther(Sayori, MsgSlot, Utils, MsgSlot, Background, MsgValue(Some(m)));
    assert GetMsg(Utils, Background) == None;
    SilentStops(Utils, route, DeliveredContext(Sayori, ses, m), env);
  }

  /**
   * Corrected: reading through the `v2` keys, the pipeline finds the message the router
   * delivered and trims that message's content with its guild's prefix.
   */
  lemma RouterMessageReachesFixed(route: Option<Route>, ses: Option<Session>, m: Message, env: Env)
    requires Registered(route)
    ensures GetMsg(Sayori, DeliveredContext(Sayori, ses, m)) == Some(m)
    ensures HandlerFuncFixed(route, DeliveredContext(Sayori, ses, m), env).stop != MessageMissing
    ensures CommandOf(Sayori, route, DeliveredContext(Sayori, ses, m), env)
         == TrimCommand(m.content, GetGuildPrefix(route.value, m.guildId, env.prefixers))
    ensures HandlerFuncFixed(route, DeliveredContext(Sayori, ses, m), env).stop == PrefixMismatch
        <==> !TrimCommand(m.content, GetGuildPrefix(route.value, m.guildId, env.prefixers)).ok
  {
    var c0 := WithMsg(Sayori, Background, Some(m));
    GetWithOther(Sayori, SesSlot, Sayori, MsgSlot, c0, SesValue(ses));
    GetWith(Sayori, MsgSlot, Background, MsgValue(Some(m)));
  }

  /**
   * As written, every value the pipeline stores goes under the `v2/utils` keys, so the
   * `CmdContext` view that `v2` handlers read is the incoming context's view in every call.
   */
  lemma WrittenViewBlind(route: Option<Route>, ctx: Context, env: Env)
    ensures var t := HandlerFunc(route, ctx, env);
      forall i :: 0 <= i < |t.calls| ==> CmdFromContext(t.calls[i].ctx) == CmdFromContext(ctx)
  {
    var t := Run(Utils, route, ctx, env);
    if Registered(route) && GetMsg(Utils, ctx).Some? && CommandOf(Utils, route, ctx, env).ok {
      var ctx1 := WithPrefix(Utils, ctx, PrefixOf(Utils, route, ctx, env));
      CmdFromIgnoresUtils(ctx, PrefixSlot, StrValue(PrefixOf(Utils, route, ctx, env)));
      var p := TokensOf(Utils, route, ctx, env);
      if p.err.Some? {
        CmdFromIgnoresUtils(ctx1, ErrSlot, ErrValue(p.err));
      } else if FoundOf(Utils, route, ctx, env).route.Some? {
        RoutedViewBlind(route, ctx, env);
        var c2 := RoutedContext(Utils, route, ctx, env);
        var r := FoundOf(Utils, route, ctx, env).route.value;
        assert t == Dispatch(Utils, r, c2, env);
        DispatchContexts(Utils, r, c2, env);
        CmdFromIgnoresUtils(c2, ErrSlot, ErrValue(DispatchErr(r, c2, env)));
      }
    }
  }

  /** The routed context written through `v2/utils` shows `CmdFromContext` nothing new. */
  lemma RoutedViewBlind(route: Option<Route>, ctx: Context, env: Env)
    requires Registered(route) && GetMsg(Utils, ctx).Some? && CommandOf(Utils, route, ctx, env).ok
    ensures CmdFromContext(RoutedContext(Utils, route, ctx, env)) == CmdFromContext(ctx)
  {
    var toks, d := TokensOf(Utils, route, ctx, env).toks, FoundOf(Utils, route, ctx, env).depth;
    var ctx1 := WithPrefix(Utils, ctx, PrefixOf(Utils, route, ctx, env));
    var ctxA := WithAlias(Utils, ctx1, toks[..d]);
    CmdFromIgnoresUtils(ctx, PrefixSlot, StrValue(PrefixOf(Utils, route, ctx, env)));
    CmdFromIgnoresUtils(ctx1, AliasSlot, StrsValue(toks[..d]));
    CmdFromIgnoresUtils(ctxA, ArgsSlot, StrsValue(toks[d..]));
  }

  /**
   * Corrected: writing under the `v2` keys, every call after resolution sees the prefix, the
   * consumed tokens as alias and the rest as args through `CmdFromContext`.
   */
  lemma FixedViewSees(route: Option<Route>, ctx: Context, env: Env)
    requires Registered(route) && GetMsg(Sayori, ctx).Some?
    requires CommandOf(Sayori, route, ctx, env).ok && TokensOf(Sayori, route, ctx, env).err.None?
    ensures var t, toks, d := HandlerFuncFixed(route, ctx, env), TokensOf(Sayori, route, ctx, env).toks, FoundOf(Sayori, route, ctx, env).depth;
      forall i :: 0 <= i < |t.calls| ==>
        && CmdFromContext(t.calls[i].ctx).alias == toks[..d]
        && CmdFromContext(t.calls[i].ctx).args == toks[d..]
        && CmdFromContext(t.calls[i].ctx).prefix == PrefixOf(Sayori, route, ctx, env)
  {
    RoutedCallsSeeSplit(Sayori, route, ctx, env);
    var t := HandlerFuncFixed(route, ctx, env);
    assert t == Run(Sayori, route, ctx, env);
    forall i | 0 <= i < |t.calls| ensures CmdFromContext(t.calls[i].ctx).alias == GetAlias(Sayori, t.calls[i].ctx) {
    }
  }

  /** Through the corrected pipeline, the first call's view holds the resolved alias. */
  lemma FirstCallAlias(route: Option<Route>, ctx: Context, env: Env, toks: seq<string>, d: nat)
    requires Registered(route) && GetMsg(Sayori, ctx).Some? && CommandOf(Sayori, route, ctx, env).ok
    requires TokensOf(Sayori, route, ctx, env) == Parsed(toks, None) && FoundOf(Sayori, route, ctx, env).depth == d
    requires |HandlerFuncFixed(route, ctx, env).calls| > 0
    ensures d <= |toks| && CmdFromContext(HandlerFuncFixed(route, ctx, env).calls[0].ctx).alias == toks[..d]
    ensures d == |toks| ==> CmdFromContext(HandlerFuncFixed(route, ctx, env).calls[0].ctx).alias == toks
  {
    FixedViewSees(route, ctx, env);
    assert d == |toks| ==> toks[..d] == toks;
  }

  /** The tie-break tree of the route tests: root "root" with two children both named "sub1". */
  function TieTree(): Route {
    Route(Some(0), None, ["root"], [Route(Some(1), None, ["sub1"], [], []), Route(Some(2), None, ["sub1"], [], [])], [])
  }

  /** No prefixer, no custom parser, no Resolve, and handler and middlewares that all succeed. */
  function PlainEnv(): Env {
    Env(Prefixers((p, g) => None, p => ""), h => false, (h, s) => Parsed([], None), h => false, (h, c) => None, (m, c) => None)
  }

  /** The message "root sub1", delivered with the session `ses` under `pkg`'s keys. */
  function TieContext(pkg: Pkg, ses: Option<Session>): Context {
    DeliveredContext(pkg, ses, Message(None, "root sub1", "", "", ""))
  }

  /** The default parser splits the test input "root sub1" (v2/route_test.go:121-128) into two tokens. */
  lemma TieFields()
    ensures Fields("root sub1") == ["root", "sub1"]
  {
    assert NoSpace("root") && NoSpace("sub1");
    FieldsOfPair("root", "sub1", "");
    assert "root" + " " + "sub1" + "" == "root sub1";
  }

  /** With no prefixer the command is the whole test message "root sub1" (v2/route_test.go:121-128). */
  lemma TieCommand(store: Pkg, ses: Option<Session>)
    ensures Registered(Some(TieTree())) && GetMsg(store, TieContext(store, ses)).Some?
    ensures CommandOf(store, Some(TieTree()), TieContext(store, ses), PlainEnv()) == Trimmed("root sub1", true)
  {
    var m := Message(None, "root sub1", "", "", "");
    GetWithOther(store, SesSlot, store, MsgSlot, WithMsg(store, Background, Some(m)), SesValue(ses));
    assert GetMsg(store, TieContext(store, ses)) == Some(m);
    assert PrefixOf(store, Some(TieTree()), TieContext(store, ses), PlainEnv()) == "";
  }

  /** The two-sibling tree of v2/route_test.go:121-128 resolves "root sub1" to the later sibling at depth 2. */
  lemma TieSearch()
    ensures FindRouteRecursive(Some(TieTree()), ["root", "sub1"], 1) == Found(Some(TieTree().subroutes[1]), 2)
  {
    assert HasAlias(TieTree(), "root");
    assert FindAllSubroutes(TieTree(), "sub1") == TieTree().subroutes;
  }

  /** The three steps together: the test input's command, tokens and route (v2/route_test.go:121-128). */
  lemma TieResolution(store: Pkg, ses: Option<Session>)
    ensures Registered(Some(TieTree())) && GetMsg(store, TieContext(store, ses)).Some?
    ensures CommandOf(store, Some(TieTree()), TieContext(store, ses), PlainEnv()).ok
    ensures TokensOf(store, Some(TieTree()), TieContext(store, ses), PlainEnv()) == Parsed(["root", "sub1"], None)
    ensures FoundOf(store, Some(TieTree()), TieContext(store, ses), PlainEnv()) == Found(Some(TieTree().subroutes[1]), 2)
  {
    TieCommand(store, ses);
    TieFields();
    TieSearch();
  }

  /** Both pipelines, each given the message under its own keys, make one call: the later `sub1` child's handler. */
  lemma TieCalls(store: Pkg, ses: Option<Session>)
    ensures Registered(Some(TieTree())) && GetMsg(store, TieContext(store, ses)).Some?
    ensures CommandOf(store, Some(TieTree()), TieContext(store, ses), PlainEnv()).ok
    ensures var t := Run(store, Some(TieTree()), TieContext(store, ses), PlainEnv());
      |t.calls| == 1 && t.calls[0] == HandleCall(2, RoutedContext(store, Some(TieTree()), TieContext(store, ses), PlainEnv()))
  {
    TieResolution(store, ses);
    var tree, ctx, env := Some(TieTree()), TieContext(store, ses), PlainEnv();
    assert HandleMiddlewares(RoutedContext(store, tree, ctx, env), [], env).err.None?;
    Completion(store, tree, ctx, env);
    assert !env.resolves(2);
  }

  /** The context the route tests build through `v2/utils` has nothing under the `v2` keys. */
  lemma TieContextView(ses: Option<Session>)
    ensures CmdFromContext(TieContext(Utils, ses)).alias == []
  {
    var m := Message(None, "root sub1", "", "", "");
    CmdFromBackground();
    CmdFromIgnoresUtils(Background, MsgSlot, MsgValue(Some(m)));
    CmdFromIgnoresUtils(WithMsg(Utils, Background, Some(m)), SesSlot, SesValue(ses));
  }

  /**
   * The tie-break tree receiving "root sub1" as the route tests deliver it, through `v2/utils`:
   * the route is found at depth 2 and its handler runs, yet the view it reads through
   * `CmdFromContext` has an empty alias.
   */
  lemma WrittenViewExample(ses: Option<Session>)
    ensures FoundOf(Utils, Some(TieTree()), TieContext(Utils, ses), PlainEnv()).depth == 2
    ensures var t := HandlerFunc(Some(TieTree()), TieContext(Utils, ses), PlainEnv());
      |t.calls| == 1 && t.calls[0].HandleCall? && t.calls[0].h == 2 && CmdFromContext(t.calls[0].ctx).alias == []
  {
    TieResolution(Utils, ses);
    TieCalls(Utils, ses);
    WrittenViewBlind(Some(TieTree()), TieContext(Utils, ses), PlainEnv());
    TieContextView(ses);
  }

  /**
   * The same message as the router delivers it, through the corrected pipeline: the handler
   * runs and its view holds the alias ["root", "sub1"].
   */
  lemma FixedViewExample(ses: Option<Session>)
    ensures var t := HandlerFuncFixed(Some(TieTree()), TieContext(Sayori, ses), PlainEnv());
      |t.calls| == 1 && t.calls[0].HandleCall? && t.calls[0].h == 2 && CmdFromContext(t.calls[0].ctx).alias == ["root", "sub1"]
  {
    TieResolution(Sayori, ses);
    TieCalls(Sayori, ses);
    FirstCallAlias(Some(TieTree()), TieContext(Sayori, ses), PlainEnv(), ["root", "sub1"], 2);
  }
}
