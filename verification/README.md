# sayori command routing, modelled in Dafny

sayori is a command router for Discord bots written in Go. This project models its routing
core as immutable Dafny datatypes and pure functions, and proves what the code promises about
them. It covers:

- **The v2 route tree** (`v2/route.go`), module `Routes`:
  - routes with case-insensitive aliases, ordered subroutes and middlewares;
  - their builders (`NewRoute`, `On`, `Has`, `Use`, `Do`);
  - alias lookup among children (`HasAlias`, `Find`, `FindAllSubroutes`);
  - the guild prefix lookup and prefix trimming.
- **The v2 resolver**, module `Resolver`:
  - `findRouteRecursive`, the deepest-match search with its later-sibling tie-break;
  - the older first-match `findRoute`, as a method with a loop.
- **The v2 per-message pipeline** (`createHandlerFunc`), module `Pipeline`. It is a function
  from an incoming context to the trace of calls it makes into user code: middlewares, `Handle`
  and `Resolve`, each with the context it receives, plus where it stopped.
- **The two context-helper packages** (`v2/utils` and `v2` itself), module `GoContext`:
  - a chain of key/value bindings;
  - keys owned by one of the two packages;
  - the typed `WithX`/`GetX` pairs with their fallbacks, and `CmdFromContext`.
- **Message filters**: the v2 filter (`Filter`), the first-generation filter (`LegacyFilter`)
  and the "handle X" rules of `rule.go` (`HandlerRule`). All three are flag words, represented
  as sets of bit positions.
- **The first-generation router and helpers**:
  - `router.go`: prefix lookup, trimming, and the `makeCommand`/`msgEvent` pipelines (`LegacyRouter`);
  - `toks.go` (`Tokens`), `args.go` (`ArgMap`), `builder.go` (`CommandBuilder`) and `context.go` (`LegacyContext`).
- **The custom parser** of the `parse` example program (`CustomParse`). It joins the first two
  words of a command, and is plugged into the v2 pipeline.

User code is a set of parameters, because nothing about it is known beyond its signature:

- handlers, parsers, resolvers, middlewares, prefixers and the v1 `Match`/`Parse`/`Handle`;
- the channel lookups of the v2 filter;
- the rule check that the v1 router calls.

Routes, handlers and middlewares are known by identity (`nat`).

Two modelling choices:

- **Nil dereferences in the v2 pipeline.** Each of the three the source can reach is a
  distinct stop, with no call into user code:
  - `NilHandlerFunc`: the root route has no handler, so `createHandlerFunc` returns a nil
    function, which `Router.Has` binds and calls (`v2/route.go:201-203`, `v2/router.go:36-46`);
  - `MessageMissing`: no message is stored under the keys the pipeline reads (`v2/route.go:208-209`);
  - `NoHandlerBound`: a matched subroute has no handler (`v2/route.go:239`).
- **`Do(nil)`.** The doc comment says a nil handler is a no-op, but the code assigns it. The
  model follows the code: `Do(None)` clears the handler.

The "first-in-first-called" comment of `findRouteRecursive` disagrees with its `<=` tie-break
and with the route tests. The model follows the code: at equal depth, the later-registered
sibling wins (`Resolver.BestLastDeepest`, `ResolverExamples.LaterSiblingWinsTie`).

## Model

| member | source | states |
|---|---|---|
| Routes.HasAlias | v2/route.go:88-100 | true exactly when some alias equals the token up to (ASCII) case; never true of a route without aliases |
| Routes.IsDefault | v2/route.go:78-86 | a route without aliases, which takes every message and whose children are never searched; behaviour stated by `HasAlias` (never true of a default route), `FindAllSubroutes` (never returns one), `NewRoute` (a new route is one), `Resolver.Search` (a default route is returned one level up) and `ResolverExamples.DefaultRootTakesAll` |
| Routes.Find | v2/route.go:102-112 | a child with the alias when one exists, and nil exactly when no child has it |
| Routes.FindIsFirstOfAll | v2/route.go:102-123 | `Find` returns the first element of what `FindAllSubroutes` returns, so the earliest-registered match wins |
| Routes.FindAllSubroutes | v2/route.go:114-123 | every returned child is a child with the alias (hence never a default route), and every child with the alias is returned |
| Routes.AllInAppend | v2/route.go:116-123 | the children matching in `xs + ys` are those of `xs` followed by those of `ys`, so registration order is kept |
| Routes.NewRoute | v2/route.go:174-185 | a default route with the given prefixer and no handler, children or middlewares |
| Routes.On | v2/route.go:138-143 | afterwards the route answers to an alias iff it did before or the alias is among the new ones; nothing else changes |
| Routes.Has | v2/route.go:145-150 | children matching an alias are the old matches followed by the new ones; an existing `Find` answer is never displaced by a later child |
| Routes.Use | v2/route.go:152-158 | the old middlewares, then the new ones, in order; nothing else changes |
| Routes.Do | v2/route.go:160-172 | the handler is replaced (a nil handler clears it); nothing else changes |
| Routes.DoLastWins | v2/route.go:168-172 | two `Do` calls equal the last one alone |
| Routes.GetGuildPrefix | v2/route.go:125-136 | "" without a prefixer, the loaded prefix when `Load` succeeds, otherwise `Default()` |
| Routes.TrimCommand | v2/route.go:44-65 | succeeds iff the command is non-empty, starts with the prefix and differs from it; then prefix ++ remainder == command and the remainder is non-empty; a failure returns "" |
| Resolver.Search | v2/route.go:295-329 | a miss reports depth-1; a default route is returned at depth-1; for an aliased route the result is non-nil iff the route has `args[depth-1]` as an alias, and then lies between depth and the token count |
| Resolver.Best | v2/route.go:316-326 | scanning the candidates never lowers the depth found so far and never exceeds the token count |
| Resolver.FindRouteRecursive | v2/route.go:295-302 | a non-positive depth or no tokens or a nil route give nil; a nil result reports depth-1; from depth 1 the depth is within the token count |
| Resolver.ChainEnd | v2/route.go:309-312 | a route reached by consuming tokens has the last consumed token as an alias and is not a default route |
| Resolver.SearchSound | v2/route.go:309-328 | the route found below an aliased route is reached by a path of children whose aliases are exactly the consumed tokens |
| Resolver.BestSound | v2/route.go:316-326 | the candidate scan keeps that path property for whatever it keeps |
| Resolver.BestCovers | v2/route.go:316-326 | the scan's result is at least as deep as what any single candidate reaches |
| Resolver.SearchOptimal | v2/route.go:314-328 | any path of aliases matching the tokens down to depth d means the search succeeds at depth at least d (deepest match wins) |
| Resolver.BestKeeps | v2/route.go:320-324 | when no candidate reaches the current best depth, the current best is kept |
| Resolver.BestLastDeepest | v2/route.go:320-324 | the scan returns some candidate's result such that every later candidate reaches strictly less, so at equal depth the later sibling wins |
| Resolver.RootShallow | v2/route.go:295-312 | from the root: depth within the token count; no tokens give (nil, 0); a default root gives (root, 0); a missed root alias gives (nil, 0); a matched one gives a non-nil route at depth at least 1 |
| Resolver.RootSound | v2/route.go:309-328 | a non-nil result at depth d >= 1 is reached from the root by aliases matching args[0..d), and has args[d-1] as an alias |
| Resolver.RootOptimal | v2/route.go:314-328 | any alias path from the root matching d tokens gives a result of depth at least d |
| Resolver.FirstMatch | v2/route.go:270-284 | first-match descent stays between the starting depth and the token count |
| Resolver.FindRoute | v2/route.go:252-285 | the iterative `findRoute` returns exactly the first-match descent (`FindRouteSpec`), with a depth within the token count |
| Resolver.FirstMatchChain | v2/route.go:270-284 | the first-match result is reached by a path whose aliases are the consumed tokens |
| Resolver.FirstMatchNoDeeper | v2/route.go:252-285 | `findRoute` finds a route exactly when `findRouteRecursive` does, and never deeper |
| ResolverExamples.LaterSiblingWinsTie | v2/route_test.go:121-128 | two `sub1` siblings and "root sub1": the later sibling at depth 2 |
| ResolverExamples.DuplicateSiblingsMerge | v2/route_test.go:129-136 | "root sub1 subsub2 sub2 arg1 arg2" reaches the second sibling's child at depth 3 |
| ResolverExamples.DeeperEarlierSiblingWins | v2/route_test.go:164-171 | a deeper match through the earlier sibling beats the later sibling's shallower one (depth 4) |
| ResolverExamples.NewestAtEqualDepth | v2/route_test.go:172-179 | at equal depth 3 the later sibling's child is chosen |
| ResolverExamples.DefaultChildIgnored | v2/route_test.go:323-330 | an alias-less child is not descended into; its parent is returned at depth 2 |
| ResolverExamples.DefaultRootTakesAll | v2/route_test.go:301-308 | a default root takes every message at depth 0 whatever its children |
| Pipeline.HandleParse | v2/route.go:12-23 | without a custom parser: no error, and the tokens hold exactly the non-space text, empty iff the text is blank; with one: the parser's result |
| Pipeline.ResolveCalls | v2/route.go:25-31 | one `Resolve` call with the given context iff the handler implements `Resolver`, otherwise none |
| Pipeline.HandleMiddlewares | v2/route.go:33-42 | middlewares run in order on the same context; the run stops at and returns the first error; nil only when all ran and succeeded |
| Pipeline.FoundOf | v2/route.go:225 | the resolved depth is within the number of tokens, so the alias/args split is defined |
| Pipeline.SilentStops | v2/route.go:196-228 | no call at all for a nil route, a root without a handler (the nil handler function), a missing message (exactly when the route has a handler and no message is stored), a prefix that does not trim, or no resolved route (including a blank command under the default parser) |
| Pipeline.ParseFailure | v2/route.go:218-223 | a parse error stops the pipeline; at most the root's `Resolve` runs, seeing the parse error and the prefix |
| Pipeline.RoutedContextHolds | v2/route.go:230-231 | the routed context holds the prefix, tokens[:depth] as alias and tokens[depth:] as args |
| Pipeline.RoutedCallsSeeSplit | v2/route.go:225-244 | every call after resolution sees that alias, args and prefix |
| Pipeline.DispatchContexts | v2/route.go:233-244 | every call after resolution gets the routed context, at most with the middleware's or handler's error added |
| Pipeline.DispatchFailure | v2/route.go:233-237 | for any matched route and routed context, a middleware error skips `Handle`; only `Resolve` can follow, last, seeing the error |
| Pipeline.DispatchCompletion | v2/route.go:239-244 | for any matched route with a handler and a succeeding chain: all middlewares, then `Handle` once, then `Resolve` iff implemented, seeing `Handle`'s error |
| Pipeline.MiddlewareFailure | v2/route.go:233-237 | a middleware error skips `Handle`; only the matched route's `Resolve` can follow, last, seeing the error |
| Pipeline.Completion | v2/route.go:239-244 | otherwise all middlewares succeed in order, `Handle` runs exactly once, then `Resolve` (iff implemented) sees `Handle`'s error |
| Pipeline.HandlerMissing | v2/route.go:239 | a matched route without a handler runs its middlewares and then stops |
| Pipeline.RouterMessageLost | v2/router.go:31-38 | as written, a message the router delivers is stored under the `v2` keys and read through `v2/utils`: no user code runs for any route, and a route with a handler stops at the missing message |
| Pipeline.RouterMessageReachesFixed | v2/route.go:205-214 | reading through the `v2` keys, the pipeline finds the delivered message and trims its content with its guild's prefix; it never stops at a missing message, and stops at the prefix iff trimming fails |
| Pipeline.WrittenViewBlind | v2/route.go:230-231 | as written, storing under the `v2/utils` keys leaves the `CmdFromContext` view of every call equal to the incoming context's view |
| Pipeline.FixedViewSees | v2/context.go:32-42 | storing under the `v2` keys, `CmdFromContext` in every call shows the prefix, alias and args |
| Pipeline.FirstCallAlias | v2/route.go:230-239 | through the corrected pipeline, the first call's `CmdFromContext` alias is the consumed tokens |
| Pipeline.WrittenViewExample | v2/route_test.go:121-128 | the tie-break tree with "root sub1", delivered through `v2/utils` as the route tests do (v2/route_test.go:408), resolves at depth 2, yet the handler's `CmdFromContext` alias is empty |
| Pipeline.FixedViewExample | v2/route_test.go:121-128 | the same message delivered under the `v2` keys as the router does, through the corrected pipeline: the handler runs once and its alias is ["root", "sub1"] |
| Pipeline.Registered | v2/route.go:196-203 | `createHandlerFunc` returns a function only for a non-nil route with a handler; behaviour stated by `SilentStops` (a nil route stops at `Unregistered`, a handler-less root at `NilHandlerFunc`) |
| Pipeline.PrefixOf | v2/route.go:208-213 | the prefix of the message's guild from the root's prefixer, the message read through the pipeline's keys; behaviour stated by `RoutedContextHolds` (it is the prefix every routed call sees) and `RouterMessageReachesFixed` |
| Pipeline.CommandOf | v2/route.go:208-216 | the message content with that prefix trimmed; behaviour stated by `SilentStops` (a failed trim stops at `PrefixMismatch` with no call) and `RouterMessageReachesFixed` |
| Pipeline.TokensOf | v2/route.go:218 | the root handler's parse of the trimmed command; behaviour stated by `HandleParse` and `ParseFailure` |
| Pipeline.RoutedContext | v2/route.go:213-231 | the context after resolution; behaviour stated by `RoutedContextHolds` (prefix, tokens[:depth] as alias, tokens[depth:] as args) and `RoutedCallsSeeSplit` |
| Pipeline.Run | v2/route.go:196-246 | the whole handler function for one message; behaviour stated by `SilentStops`, `ParseFailure`, `MiddlewareFailure`, `Completion` and `HandlerMissing` |
| Pipeline.Dispatch | v2/route.go:233-246 | the stage after resolution: middlewares, handler, `Resolve`; behaviour stated by `DispatchContexts`, `DispatchFailure` and `DispatchCompletion` |
| Pipeline.HandlerFunc | v2/route.go:196-246 | `createHandlerFunc(route)` as written, reading and writing through the `v2/utils` keys; behaviour stated by `RouterMessageLost`, `WrittenViewBlind` and `WrittenViewExample` |
| Pipeline.HandlerFuncFixed | v2/route.go:196-246 | the same pipeline through the `v2` keys; behaviour stated by `RouterMessageReachesFixed`, `FixedViewSees`, `FirstCallAlias` and `FixedViewExample` |
| Pipeline.DeliveredContext | v2/router.go:31-38 | `makeHandlerForDgo`'s context: a background context with the message, then the session; behaviour stated by `RouterMessageLost` and `RouterMessageReachesFixed` |
| GoContext.Lookup | v2/utils/context_helpers.go:21-23 | a found value's key is bound in the chain, and the newest binding of a key wins |
| GoContext.LookupFindsBound | v2/utils/context_helpers.go:27 | a lookup finds a value exactly when the key is bound |
| GoContext.Get | v2/utils/context_helpers.go:25-32 | the getter's value always has the getter's type, and is the fallback when the key is unbound |
| GoContext.With | v2/utils/context_helpers.go:20-23 | binding adds exactly the package's key for the slot |
| GoContext.GetWith | v2/utils/context_helpers.go:20-32 | a getter reads back what its setter stored |
| GoContext.GetWithOther | v2/utils/context_helpers.go:9-18 | storing under one key changes no other getter, including the same slot of the other package |
| GoContext.GetForeign | v2/utils/context_helpers.go:9-18 | bindings of keys outside the package never change the getters |
| GoContext.RoundTrips | v2/utils/context_helpers.go:20-102 | all six pairs (Ses, Msg, Prefix, Alias, Args, Err) round-trip, for either package |
| GoContext.Defaults | v2/utils/context_helpers.go:25-102 | with nothing stored: nil session, message and error; empty prefix; empty alias and args |
| GoContext.WithSes | v2/utils/context_helpers.go:20-23 | binds the session under the package's session key (the `v2` copy in v2/context.go is the same with the `v2` package's keys); behaviour stated by `GetWith`, `GetWithOther` and `RoundTrips` |
| GoContext.GetSes | v2/utils/context_helpers.go:25-32 | the stored session, nil when none is stored (the `v2` copy in v2/context.go is the same with the `v2` package's keys); behaviour stated by `GetWith`, `RoundTrips` and `Defaults` |
| GoContext.WithMsg | v2/utils/context_helpers.go:34-37 | binds the message under the package's message key (the `v2` copy in v2/context.go is the same with the `v2` package's keys); behaviour stated by `GetWith`, `GetWithOther` and `RoundTrips` |
| GoContext.GetMsg | v2/utils/context_helpers.go:39-46 | the stored message, nil when none is stored (the `v2` copy in v2/context.go is the same with the `v2` package's keys); behaviour stated by `GetWith`, `RoundTrips` and `Defaults` |
| GoContext.WithPrefix | v2/utils/context_helpers.go:48-51 | binds the prefix (the `v2` copy in v2/context.go is the same with the `v2` package's keys); behaviour stated by `GetWith`, `GetWithOther` and `RoundTrips` |
| GoContext.GetPrefix | v2/utils/context_helpers.go:53-60 | the stored prefix, "" when none is stored (the `v2` copy in v2/context.go is the same with the `v2` package's keys); behaviour stated by `GetWith`, `RoundTrips` and `Defaults` |
| GoContext.WithAlias | v2/utils/context_helpers.go:62-65 | binds the consumed aliases (the `v2` copy in v2/context.go is the same with the `v2` package's keys); behaviour stated by `GetWith`, `GetWithOther` and `RoundTrips` |
| GoContext.GetAlias | v2/utils/context_helpers.go:67-74 | the stored aliases, empty when none are stored (the `v2` copy in v2/context.go is the same with the `v2` package's keys); behaviour stated by `GetWith`, `RoundTrips` and `Defaults` |
| GoContext.WithArgs | v2/utils/context_helpers.go:76-79 | binds the remaining args (the `v2` copy in v2/context.go is the same with the `v2` package's keys); behaviour stated by `GetWith`, `GetWithOther` and `RoundTrips` |
| GoContext.GetArgs | v2/utils/context_helpers.go:81-88 | the stored args, empty when none are stored (the `v2` copy in v2/context.go is the same with the `v2` package's keys); behaviour stated by `GetWith`, `RoundTrips` and `Defaults` |
| GoContext.WithErr | v2/utils/context_helpers.go:90-93 | binds the command error (the `v2` copy in v2/context.go is the same with the `v2` package's keys); behaviour stated by `GetWith`, `GetWithOther` and `RoundTrips` |
| GoContext.GetErr | v2/utils/context_helpers.go:95-102 | the stored command error, nil when none is stored (the `v2` copy in v2/context.go is the same with the `v2` package's keys); behaviour stated by `GetWith`, `RoundTrips` and `Defaults` |
| Bitset.UnsignedFromBound | filter.go:22-29 | bits k..63 of a word are worth at most 2^64 - 2^k |
| Bitset.ValueOfFlag | filter.go:22-29 | a word reads as a Go `int` in [-2^63, 2^63), and a single flag k below the sign bit reads as 2^k, so the `1 << iota` constants print as powers of two |
| GoContext.CmdFromContext | v2/context.go:32-42 | each field equals the matching `v2` getter |
| GoContext.CmdFromWithPrefix | v2/context.go:72-84 | storing a prefix through `v2` changes exactly the prefix field of the view |
| GoContext.CmdFromIgnoresUtils | v2/context.go:9-18 | nothing stored through `v2/utils` is visible to `CmdFromContext` |
| GoContext.CmdFromBackground | v2/context.go:32-42 | the empty context's view is all zero values |
| Filter.New | v2/filter/filter.go:57-64 | every argument is contained in the result; no arguments give zero |
| Filter.NewHasFlag | v2/filter/filter.go:57-64 | a bit is set in the result iff some argument sets it |
| Filter.NewLeast | v2/filter/filter.go:57-64 | the result is the least filter containing every argument |
| Filter.Validate | v2/filter/filter.go:76-128 | (false, 0) when the message or session is missing or an enabled identity check lacks author, state or self user; otherwise it passes iff the failed set is empty |
| Filter.ValidateFlags | v2/filter/filter.go:91-125 | each flag fails iff it is enabled and the message has the property it excludes, all violations are reported, and no other bit is |
| Filter.ValidateWithin | v2/filter/filter.go:91-125 | the failed bits are always a subset of the enabled bits |
| Filter.AsError | v2/filter/filter.go:19-40 | the error's `Filter()` is the filter and its text is `FmtErrDefault` of it |
| Filter.FmtErrDefault | v2/filter/filter.go:10-13 | `filter fail code '<n>'` with the filter's decimal value; behaviour stated by `AsError` and `LegacyContext.NewContextErrorText` |
| Filter.ErrorFilter | v2/filter/filter.go:33-36 | the violated filter stored in the error; behaviour stated by `AsError` (it returns the filter the error was made from) |
| Filter.Contains | v2/filter/filter.go:66-69 | every bit of the argument is set; behaviour stated by `New`, `NewHasFlag`, `NewLeast` and `ValidateWithin` |
| Filter.Ignores | v2/filter/filter.go:71-74 | the same bit inclusion, under which `Validate` enables each check; behaviour stated by `Validate` and `ValidateFlags` |
| Filter.Indeterminate | v2/filter/filter.go:83-107 | the cases in which `Validate` returns (false, 0) before judging; behaviour stated by `Validate` |
| HandlerRule.NewEventHandlerRule | rule.go:15-22 | every argument is enabled in the result; no arguments give zero |
| HandlerRule.NewEventHandlerRuleLeast | rule.go:15-22 | the result is the least rule enabling every argument |
| HandlerRule.IsRuleEnabled | rule.go:24-27 | every bit of the argument is set; behaviour stated by `NewEventHandlerRule`, `NewEventHandlerRuleLeast` and `Allow` (a failing rule is never an enabled one) |
| HandlerRule.Allow | rule.go:29-47 | passes with zero iff none of the five checks fires; otherwise returns exactly the first firing check, in the order self, bot, empty, private, guild, as one bit that the rule does not enable |
| HandlerRule.NoChannelRejectsAll | rule.go:40-45 | a rule enabling neither private nor guild messages rejects everything |
| HandlerRule.AllowExamples | rule_test.go:84-90 | the zero rule rejects a plain DM as private; a self-authored bot message is rejected as self first |
| LegacyFilter.NewFilter | filter.go:31-38 | every argument is contained in the result; no arguments give zero |
| LegacyFilter.NewFilterLeast | filter.go:31-38 | the result is the least filter containing every argument |
| LegacyFilter.NewFilterHasFlag | filter.go:31-38 | a bit is set in the result iff some argument sets it |
| LegacyFilter.Contains | filter.go:40-48 | `Contains` and its synonym `filters`: every bit of the argument is set; behaviour stated by `NewFilter`, `NewFilterHasFlag`, `NewFilterLeast` and `AllowWithin` |
| LegacyFilter.Indeterminate | filter.go:57-81 | the cases in which `allow` returns (false, 0) before judging; behaviour stated by `Allow` |
| LegacyFilter.ErrorFilter | filter.go:13-16 | the violated filter stored in the error; behaviour stated by `LegacyContext.FilterToErr` (it returns the filter the error was made from) |
| LegacyFilter.Allow | filter.go:50-97 | (false, 0) when the message or session is missing or an enabled identity check lacks what it needs; otherwise it passes iff nothing failed |
| LegacyFilter.AllowFlags | filter.go:66-94 | each flag fails iff enabled and violated (private iff no guild ID, guild iff a guild ID) |
| LegacyFilter.AllowWithin | filter.go:66-96 | the failed bits are a subset of the enabled bits |
| LegacyFilter.BothChannelsNeverPass | filter.go:89-94 | excluding both private and guild messages rejects every message |
| LegacyFilter.AllowAccumulates | filter_test.go:91-98 | the zero filter passes; a bot's empty guild message fails both Bot and Empty; a self guild message fails Guild and Self |
| LegacyContext.FilterToErr | context.go:27-33 | a filter error carrying the filter, whose text is the context's rendering of it |
| LegacyContext.FilterToErrOnlyFormat | context.go:27-33 | the error depends only on the filter and the rendering function |
| LegacyContext.NewContext | context.go:34-48 | zero filter; no session, message, args or error; empty prefix, alias and tokens; default rendering |
| LegacyContext.NewContextErrorText | context.go:9-12 | a fresh context renders `filter fail code '<n>'` |
| LegacyContext.DefaultFmtFilterErr | context.go:9-12 | the same text as `Filter.FmtErrDefault`; behaviour stated by `NewContext` (the default rendering) and `NewContextErrorText` |
| Tokens.Len | toks.go:11-14 | the number of tokens |
| Tokens.Get | toks.go:16-26 | (t[i], true) iff 0 <= i < Len, otherwise ("", false) |
| Tokens.GetAll | toks.go:16-26 | reading every valid index gives back the token slice |
| Tokens.NewToks | toks.go:28-34 | the raw text is kept; tokens are non-empty and space-free, none iff the text is blank, and together hold all its non-space text |
| ArgMap.NewArgs | args.go:6-9 | no key is bound |
| ArgMap.Load | args.go:11-15 | found iff the key is bound, with its value |
| ArgMap.Store | args.go:17-20 | the key then loads the value; every other key is unchanged |
| ArgMap.Delete | args.go:22-25 | the key then loads nothing; every other key is unchanged |
| ArgMap.DeleteMissing | args.go:22-25 | deleting an unbound key is a no-op |
| ArgMap.DeleteUndoesStore | args.go:17-25 | deleting a freshly stored key restores the map |
| ArgMap.StoreLastWins | args.go:17-20 | the second store of a key replaces the first |
| CommandBuilder.NewBuilder | builder.go:10-13 | no handler, zero filter, no middlewares |
| CommandBuilder.Command | builder.go:15-20 | binds the command, replacing any handler; nothing else changes |
| CommandBuilder.Event | builder.go:22-27 | binds the event, replacing any handler; nothing else changes |
| CommandBuilder.LastBindingWins | builder.go:15-27 | of successive `Command`/`Event` calls only the last matters |
| CommandBuilder.Filter | builder.go:29-33 | the new filter contains the old one and the argument and nothing else |
| CommandBuilder.FilterCommutesAndIdempotent | builder.go:29-33 | `Filter` calls commute and repeating one changes nothing |
| CommandBuilder.FilterAllIsNewFilter | builder.go:29-33 | a chain of `Filter` calls ORs in `NewFilter` of all their arguments |
| CommandBuilder.Use | builder.go:35-40 | appends the middleware; nothing else changes |
| CommandBuilder.UseAllAppends | builder.go:35-40 | a chain of `Use` calls appends the middlewares in call order |
| LegacyRouter.NewContext | router.go:102-115 | the `NewRule()` rule and every other field empty |
| LegacyRouter.RuleToErr | router.go:94-100 | a rule error carrying the rule and the default rendering |
| LegacyRouter.DefaultFmtRule | router.go:76-79 | `rule id <n> failed` with the rule's decimal value; behaviour stated by `RuleToErr` |
| LegacyRouter.GetGuildPrefix | router.go:131-138 | the loaded prefix on a hit, otherwise `Default()` |
| LegacyRouter.TrimPrefix | router.go:140-154 | an empty prefix accepts the command as is; otherwise it succeeds iff the command starts with the prefix, with prefix ++ remainder == command (the remainder may be empty); a failure returns "" |
| LegacyRouter.TrimPrefixVersusV2 | router.go:143-154 | v2 trimming succeeds iff this one does with a non-empty remainder, and then they agree; ("", "") and ("!", "!") separate them |
| LegacyRouter.CommandText | router.go:216-221 | the message content with the guild's prefix trimmed; behaviour stated by `MakeCommand` (a failed trim makes no call; otherwise `Match` sees this text) |
| LegacyRouter.Installed | router.go:186-187 | installing a rule changes only the context's rule |
| LegacyRouter.Judge | router.go:186-197 | `Catch` exactly once, last, and `Handle` at most once, first; `Handle` runs iff no rule is given or the rule allows the context with the rule installed; every call sees that context changed only in its error: `Handle` the incoming error, `Catch` `Handle`'s result or else the failing rule's error |
| LegacyRouter.CommandContext | router.go:227-232 | the context holds the session, message, prefix, matched alias and the fields of the command |
| LegacyRouter.MakeCommand | router.go:204-258 | other events, a failed trim or a failed `Match` make no call; a `Parse` error goes to `Catch` alone; otherwise every call sees the command context with the args and the rule, `Handle` (with no error) runs iff no rule or an allowing one, and the one `Catch`, last, sees `Handle`'s result or the failing rule's error |
| LegacyRouter.EventContext | router.go:181-184 | the session, the message and the fields of its content, with every other field as `NewContext` leaves it |
| LegacyRouter.MsgEvent | router.go:175-202 | other events make no call; every message's calls see its event context with the rule, `Handle` (with no error) runs iff no rule or an allowing one, and the one `Catch`, last, sees `Handle`'s result or the failing rule's error |
| LegacyRouter.HandleThenCatch | router.go:242-253 | `Handle` sees no error, and `Catch` after it sees `Handle`'s result |
| LegacyRouter.RuleRejects | router.go:242-253 | with a rule, the context carries it, and `Handle` is skipped iff the rule rejects, with the rule error |
| LegacyRouter.RuleRejectsEvent | router.go:186-192 | the same for `msgEvent`: the context carries the rule, and `Catch` runs alone iff the rule rejects, with the rule error |
| CustomParse.Parse | v2/examples/parse/main.go:48-67 | fewer than two fields: ([], token-length error); otherwise no error, with the first two fields merged iff the trimmed text starts with them joined by one space |
| CustomParse.ParseKeepsText | v2/examples/parse/main.go:55-66 | on success there are as many tokens as fields or one fewer, and the space-joined text is unchanged |
| CustomParse.JoinMerge | v2/examples/parse/main.go:63-66 | merging the first two tokens with a space keeps the space-joined text |
| CustomParse.ParseMergesSingleSpace | v2/examples/parse/main.go:57-66 | "a b" followed by space-led text merges into the token "a b" followed by the remaining fields |
| CustomParse.ParseRefusesOneWord | v2/examples/parse/main.go:50-53 | a one-word command is refused with the token-length error |
| CustomParse.ShortCommandStopsPipeline | v2/route.go:218-223 | as the root handler's parser, a command of fewer than two words stops the v2 pipeline at parsing, and `Resolve` sees the token-length error |

## Left out

- Discord transport is not modelled, because it is plumbing over the Discord library:
  - `v2/router.go` (`AddHandler`, `Open`, `Close`);
  - `New` and `Has` of `router.go:117-173`, and the session calls.
  - The v1 pipelines start from the event that registration would hand them.
  - The v2 pipeline starts from any context. `Pipeline.DeliveredContext` is the one
    `makeHandlerForDgo` builds (v2/router.go:31-38), with the message and session under a
    chosen package's keys.
- `comesFromDM` and `comesFromGuild` (v2/filter/filter.go:130-153) are the `Channels` parameter of `Filter.Validate`. They consult the state cache and a REST call.
- `strings.ToLower` is ASCII-only here (`Text.Lower`). Full Unicode case folding is not modelled.
- Formatting is narrowed to what the router uses: `%d` of a filter or rule is rendered from its 64-bit two's complement value (`Bitset.Value`).
- Routes are values, not shared pointers. The source's builders mutate a route in place, which a parent already holding it would observe. Each model builder returns the updated route instead.
- Go's distinction between a nil slice and an empty one is not modelled. `GetAlias` and `GetArgs` return an empty sequence.
- `ArgMap.Store` on a nil map panics in Go; the model does not. The context's `Args` is nil until `Parse` provides one.
- The first-generation `Rule` type, `NewRule`, `RuleError` and `rule.allow` are not defined in `router.go`'s snapshot. They are modelled as follows:
  - `Rule` is a flag word;
  - `NewRule()` is the `newRule` parameter;
  - `rule.allow` is the `Allow` parameter;
  - `RuleError` is `Errors.RuleError`.
- `LegacyRouter.Ctx` has no `FmtRuleErr` field. `NewContext` sets it to `defaultFmtRule` and nothing assigns it afterwards, so `RuleToErr` uses the default directly.
- `router.go`'s second `Context` (rule-based) and `context.go`'s (filter-based) conflict in one package. Each is modelled separately.
- `router.go:62-74` redeclares `Toks` as a bare slice, with the same `Get` and `newToks`. The model uses `Tokens` for both.
- `makeCommand`'s captured variables (router.go:207-210) are shared between concurrent events. Each invocation is modelled on its own.
- Panics in the v2 pipeline are modelled as stops (see above). Other panics on nil values are not modelled:
  - a nil message in an event;
  - a nil prefixer in the first-generation router;
  - an unregistered key type.
- `Resolver.Search` requires `depth <= |args|` for an aliased route, because Go would index out of range otherwise. The resolver is only ever called with depth 1, where this holds.
- The custom parser's `strings.Index(TrimSpace(s), t0+" "+t1) == 0` is modelled as `HasPrefix`. The two are equivalent.
- A concrete merge of "foo bar baz" is not stated. `CustomParse.ParseMergesSingleSpace` states it for every such command.
- Routes.FindAllSubroutes: its own contract states membership in both directions. Registration order is stated by `Routes.AllInAppend`.
- Declaration-only files are not modelled: `v2/interfaces.go` and `v2/context/context.go`.
- The example programs other than the custom parser are not modelled, because they are flag parsing, signal handling and one-line plugins.

## Findings

| source | as written | input that shows it | evidently intended | confidence | as-written member | corrected member |
|---|---|---|---|---|---|---|
| v2/route.go:213-241 | `createHandlerFunc` stores the prefix, error, alias and args with the `v2/utils` helpers. The handlers read them back through `v2.CmdFromContext`, whose key type is a different one. | Root "root" with two children "sub1", message "root sub1": the route resolves at depth 2, yet the handler's `CmdFromContext(ctx).Alias` is empty. The route tests expect its length to equal the depth (v2/route_test.go:66-68). | Store the values under the keys `CmdFromContext` reads, so the handler sees prefix, alias and args. | not executed; high | Pipeline.WrittenViewExample | Pipeline.FixedViewExample |
| v2/router.go:31-38 | `makeHandlerForDgo` stores the message and session with the `v2` helpers, but `createHandlerFunc` reads the message with `utils.GetMsg` (v2/route.go:208-209). That finds nothing, and `msg.Content` dereferences nil. | Any message the router delivers to a route with a handler, for instance "root sub1" to the tie-break tree. | Read the message through the package the router writes, so the pipeline runs on the router's context. | not executed; high | Pipeline.RouterMessageLost | Pipeline.RouterMessageReachesFixed |
