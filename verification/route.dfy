/**
 * The v2 route tree (`v2/route.go`): routes with case-insensitive aliases, ordered subroutes and
 * middlewares, their builders, alias lookup among children, the guild prefix lookup and prefix
 * trimming.
 */
module Routes {
  import opened Options
  import opened Text

  /** A `Handler` value, known only by identity; what it does is supplied by the pipeline's environment. */
  type HandlerId = nat
  /** A `Prefixer` value, known only by identity. */
  type PrefixerId = nat
  /** A `Middlewarer` value, known only by identity. */
  type MiddlewareId = nat

  /** `Route`; a nil handler or prefixer is `None`. */
  datatype Route = Route(
    h: Option<HandlerId>,
    p: Option<PrefixerId>,
    aliases: seq<string>,
    subroutes: seq<Route>,
    middlewares: seq<MiddlewareId>)

  /** `IsDefault`: a route without aliases, which handles every message. */
  predicate IsDefault(r: Route) {
    |r.aliases| == 0
  }

  /** Some alias of `aliases` equals `a` up to case. */
  function MatchesAny(aliases: seq<string>, a: string): (b: bool)
    ensures b <==> exists i :: 0 <= i < |aliases| && SameFold(aliases[i], a)
  {
    if |aliases| == 0 then false
    else SameFold(aliases[0], a) || MatchesAny(aliases[1..], a)
  }

  /** `HasAlias`: case-insensitive membership of `a` among the route's aliases; never true of a default route. */
  function HasAlias(r: Route, a: string): (b: bool)
    ensures b <==> exists i :: 0 <= i < |r.aliases| && SameFold(r.aliases[i], a)
    ensures IsDefault(r) ==> !b
  {
    if IsDefault(r) then false else MatchesAny(r.aliases, a)
  }

  /** The first of `subs` having alias `a`. */
  function FindIn(subs: seq<Route>, a: string): (r: Option<Route>)
    ensures r.None? <==> forall i :: 0 <= i < |subs| ==> !HasAlias(subs[i], a)
    ensures r.Some? ==> exists i :: 0 <= i < |subs| && subs[i] == r.value && HasAlias(subs[i], a)
                          && forall j :: 0 <= j < i ==> !HasAlias(subs[j], a)
  {
    if |subs| == 0 then None
    else if HasAlias(subs[0], a) then Some(subs[0])
    else
      var r := FindIn(subs[1..], a);
      assert forall i :: 1 <= i < |subs| ==> subs[i] == subs[1..][i - 1];
      r
  }

  /** The subsequence of `subs` having alias `a`, in order. */
  function AllIn(subs: seq<Route>, a: string): (r: seq<Route>)
    ensures |r| <= |subs|
    ensures forall i :: 0 <= i < |r| ==> r[i] in subs && HasAlias(r[i], a)
    ensures forall i :: 0 <= i < |subs| && HasAlias(subs[i], a) ==> subs[i] in r
  {
    if |subs| == 0 then []
    else
      var rest := AllIn(subs[1..], a);
      assert forall i :: 1 <= i < |subs| ==> subs[i] == subs[1..][i - 1];
      if HasAlias(subs[0], a) then [subs[0]] + rest else rest
  }

  /** Filtering distributes over concatenation, so the registration order of the children is kept. */
  lemma {:induction false} AllInAppend(xs: seq<Route>, ys: seq<Route>, a: string)
    ensures AllIn(xs + ys, a) == AllIn(xs, a) + AllIn(ys, a)
  {
    if |xs| == 0 {
      assert xs + ys == ys;
    } else {
      assert (xs + ys)[1..] == xs[1..] + ys;
      AllInAppend(xs[1..], ys, a);
    }
  }

  /** `Find`: the earliest-registered child having alias `a`, or nil. */
  function Find(r: Route, a: string): (s: Option<Route>)
    ensures s.Some? ==> s.value in r.subroutes && HasAlias(s.value, a)
    ensures s.None? <==> forall i :: 0 <= i < |r.subroutes| ==> !HasAlias(r.subroutes[i], a)
  {
    FindIn(r.subroutes, a)
  }

  /** `FindAllSubroutes`: the children having alias `a`, in registration order. */
  function FindAllSubroutes(r: Route, a: string): (s: seq<Route>)
    ensures forall i :: 0 <= i < |s| ==> s[i] in r.subroutes && HasAlias(s[i], a) && !IsDefault(s[i])
    ensures forall i :: 0 <= i < |r.subroutes| && HasAlias(r.subroutes[i], a) ==> r.subroutes[i] in s
  {
    AllIn(r.subroutes, a)
  }

  /** `Find` returns the head of what `FindAllSubroutes` returns. */
  lemma {:induction false} FindIsFirstOfAll(subs: seq<Route>, a: string)
    ensures FindIn(subs, a) == if |AllIn(subs, a)| == 0 then None else Some(AllIn(subs, a)[0])
  {
    if |subs| > 0 && !HasAlias(subs[0], a) {
      FindIsFirstOfAll(subs[1..], a);
    }
  }

  /** `NewRoute`: a default route with the given prefixer and no handler, children or middlewares. */
  function NewRoute(p: Option<PrefixerId>): (r: Route)
    ensures IsDefault(r) && r.h.None? && r.p == p
    ensures r.subroutes == [] && r.middlewares == []
  {
    Route(None, p, [], [], [])
  }

  /** `On`: appends aliases; the route then answers to its old aliases and the new ones. */
  function On(r: Route, aliases: seq<string>): (r': Route)
    ensures forall a :: HasAlias(r', a) <==> HasAlias(r, a) || MatchesAny(aliases, a)
    ensures r'.h == r.h && r'.p == r.p && r'.subroutes == r.subroutes && r'.middlewares == r.middlewares
  {
    var r' := r.(aliases := r.aliases + aliases);
    forall a ensures HasAlias(r', a) <==> HasAlias(r, a) || MatchesAny(aliases, a) {
      if HasAlias(r', a) {
        var i :| 0 <= i < |r'.aliases| && SameFold(r'.aliases[i], a);
        if i >= |r.aliases| {
          assert aliases[i - |r.aliases|] == r'.aliases[i];
        }
      }
      if HasAlias(r, a) {
        var i :| 0 <= i < |r.aliases| && SameFold(r.aliases[i], a);
        assert r'.aliases[i] == r.aliases[i];
      }
      if MatchesAny(aliases, a) {
        var i :| 0 <= i < |aliases| && SameFold(aliases[i], a);
        assert r'.aliases[|r.aliases| + i] == aliases[i];
      }
    }
    r'
  }

  /**
   * `Has`: appends subroutes. Children added later never take priority over earlier ones with
   * the same alias: `Find` keeps its old answer when it had one, and `FindAllSubroutes` lists the
   * new matches after the old.
   */
  function Has(r: Route, subroutes: seq<Route>): (r': Route)
    ensures forall a :: FindAllSubroutes(r', a) == FindAllSubroutes(r, a) + AllIn(subroutes, a)
    ensures forall a :: Find(r, a).Some? ==> Find(r', a) == Find(r, a)
    ensures r'.h == r.h && r'.p == r.p && r'.aliases == r.aliases && r'.middlewares == r.middlewares
  {
    var r' := r.(subroutes := r.subroutes + subroutes);
    forall a ensures FindAllSubroutes(r', a) == FindAllSubroutes(r, a) + AllIn(subroutes, a) {
      AllInAppend(r.subroutes, subroutes, a);
    }
    forall a | Find(r, a).Some? ensures Find(r', a) == Find(r, a) {
      FindIsFirstOfAll(r.subroutes, a);
      FindIsFirstOfAll(r'.subroutes, a);
      AllInAppend(r.subroutes, subroutes, a);
    }
    r'
  }

  /** `Use`: appends middlewares, which then run in the order they were added. */
  function Use(r: Route, middlewares: seq<MiddlewareId>): (r': Route)
    ensures |r'.middlewares| == |r.middlewares| + |middlewares|
    ensures r'.middlewares[..|r.middlewares|] == r.middlewares && r'.middlewares[|r.middlewares|..] == middlewares
    ensures r'.h == r.h && r'.p == r.p && r'.aliases == r.aliases && r'.subroutes == r.subroutes
  {
    r.(middlewares := r.middlewares + middlewares)
  }

  /** `Do`: binds the handler, replacing any earlier one (a nil handler clears it). */
  function Do(r: Route, h: Option<HandlerId>): (r': Route)
    ensures r'.h == h
    ensures r'.p == r.p && r'.aliases == r.aliases && r'.subroutes == r.subroutes && r'.middlewares == r.middlewares
  {
    r.(h := h)
  }

  /** The last `Do` wins. */
  lemma DoLastWins(r: Route, h1: Option<HandlerId>, h2: Option<HandlerId>)
    ensures Do(Do(r, h1), h2) == Do(r, h2)
  {
  }

  /** The two prefixer methods: `Load(guildID)` (prefix and ok) and `Default()`. */
  datatype Prefixers = Prefixers(load: (PrefixerId, string) -> Option<string>, default: PrefixerId -> string)

  /** `getGuildPrefix`: "" without a prefixer, the loaded prefix when the prefixer has one, else its default. */
  function GetGuildPrefix(r: Route, guildId: string, px: Prefixers): (prefix: string)
    ensures r.p.None? ==> prefix == ""
    ensures r.p.Some? && px.load(r.p.value, guildId).Some? ==> prefix == px.load(r.p.value, guildId).value
    ensures r.p.Some? && px.load(r.p.value, guildId).None? ==> prefix == px.default(r.p.value)
  {
    match r.p
    case None => ""
    case Some(p) =>
      match px.load(p, guildId)
      case Some(prefix) => prefix
      case None => px.default(p)
  }

  /** `trimPrefix`'s pair: the command without its prefix, and whether it is a command at all. */
  datatype Trimmed = Trimmed(cmd: string, ok: bool)

  /**
   * `trimPrefix`: succeeds exactly when the command is non-empty, starts with the prefix and is
   * more than the prefix; the remainder then completes the prefix to the command. A failure
   * always comes with an empty string.
   */
  function TrimCommand(command: string, prefix: string): (r: Trimmed)
    ensures r.ok <==> command != "" && HasPrefix(command, prefix) && prefix != command
    ensures r.ok ==> prefix + r.cmd == command && r.cmd != ""
    ensures !r.ok ==> r.cmd == ""
  {
    if prefix == "" && command != "" then
      assert command[..0] == "";
      Trimmed(command, true)
    else if command == "" then Trimmed(command, false)
    else
      var c := TrimPrefix(command, prefix);
      if c == command then Trimmed("", false)
      else Trimmed(c, |c| != 0)
  }
}
