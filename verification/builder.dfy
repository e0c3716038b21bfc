/**
 * The first-generation command builder (`builder.go`): collects one handler, an accumulated
 * filter and an ordered list of middlewares.
 */
module CommandBuilder {
  import opened Options
  import opened Bitset
  import LegacyFilter

  /** The bound handler: a `Command` or an `Event` implementation, known by identity. */
  datatype Handler = CommandHandler(id: nat) | EventHandler(id: nat)

  type MiddlewareId = nat

  datatype Builder = Builder(handler: Option<Handler>, filter: LegacyFilter.Filter, middlewares: seq<MiddlewareId>)

  /** `NewBuilder`: no handler, the zero filter and no middlewares. */
  function NewBuilder(): (b: Builder)
    ensures b.handler.None? && b.filter == {} && |b.middlewares| == 0
  {
    Builder(None, {}, [])
  }

  /** `Command`: binds `c`, replacing any handler bound before; nothing else changes. */
  function Command(b: Builder, c: nat): (r: Builder)
    ensures r.handler == Some(CommandHandler(c))
    ensures r.filter == b.filter && r.middlewares == b.middlewares
  {
    b.(handler := Some(CommandHandler(c)))
  }

  /** `Event`: binds `e`, replacing any handler bound before; nothing else changes. */
  function Event(b: Builder, e: nat): (r: Builder)
    ensures r.handler == Some(EventHandler(e))
    ensures r.filter == b.filter && r.middlewares == b.middlewares
  {
    b.(handler := Some(EventHandler(e)))
  }

  /** Of several `Command`/`Event` calls only the last one matters. */
  lemma LastBindingWins(b: Builder, c: nat, e: nat)
    ensures Event(Command(b, c), e) == Event(b, e)
    ensures Command(Event(b, e), c) == Command(b, c)
  {
  }

  /** `Filter`: ORs `f` into the builder's filter; no bit is ever removed. */
  function Filter(b: Builder, f: LegacyFilter.Filter): (r: Builder)
    ensures LegacyFilter.Contains(r.filter, b.filter) && LegacyFilter.Contains(r.filter, f)
    ensures forall k :: k in r.filter ==> k in b.filter || k in f
    ensures r.handler == b.handler && r.middlewares == b.middlewares
  {
    assert Combine([b.filter]) == b.filter by {
      assert [b.filter][..0] == [];
    }
    assert [b.filter, f][..1] == [b.filter];
    b.(filter := LegacyFilter.NewFilter([b.filter, f]))
  }

  /** The order of `Filter` calls does not matter, and repeating one changes nothing. */
  lemma FilterCommutesAndIdempotent(b: Builder, f: LegacyFilter.Filter, g: LegacyFilter.Filter)
    ensures Filter(Filter(b, f), g) == Filter(Filter(b, g), f)
    ensures Filter(Filter(b, f), f) == Filter(b, f)
  {
    var bf, bg := Filter(b, f), Filter(b, g);
    assert Filter(bf, g).filter == Filter(bg, f).filter;
    assert Filter(bf, f).filter == bf.filter;
  }

  /** `Filter` applied once per element of `fs`, left to right. */
  function FilterAll(b: Builder, fs: seq<LegacyFilter.Filter>): Builder
    decreases |fs|
  {
    if |fs| == 0 then b else FilterAll(Filter(b, fs[0]), fs[1..])
  }

  /** Chaining `Filter(f1)…Filter(fn)` leaves the builder's filter ORed with `NewFilter(f1, …, fn)`. */
  lemma {:induction false} FilterAllIsNewFilter(b: Builder, fs: seq<LegacyFilter.Filter>)
    ensures FilterAll(b, fs).filter == Or(b.filter, LegacyFilter.NewFilter(fs))
    decreases |fs|
  {
    if |fs| > 0 {
      FilterAllIsNewFilter(Filter(b, fs[0]), fs[1..]);
      var r := FilterAll(b, fs).filter;
      forall k | 0 <= k < 64
        ensures k in r <==> k in Or(b.filter, LegacyFilter.NewFilter(fs))
      {
        CombineHasBit(fs, k);
        CombineHasBit(fs[1..], k);
        if exists i :: 0 <= i < |fs[1..]| && k in fs[1..][i] {
          var i :| 0 <= i < |fs[1..]| && k in fs[1..][i];
          assert fs[i + 1] == fs[1..][i];
        }
        if exists i :: 0 <= i < |fs| && k in fs[i] {
          var i :| 0 <= i < |fs| && k in fs[i];
          if i > 0 { assert fs[1..][i - 1] == fs[i]; }
        }
      }
    }
  }

  /** `Use`: appends `m`, so middlewares keep the order they were added in. */
  function Use(b: Builder, m: MiddlewareId): (r: Builder)
    ensures r.middlewares == b.middlewares + [m]
    ensures r.handler == b.handler && r.filter == b.filter
  {
    b.(middlewares := b.middlewares + [m])
  }

  /** `Use` applied once per element of `ms`, left to right. */
  function UseAll(b: Builder, ms: seq<MiddlewareId>): Builder
    decreases |ms|
  {
    if |ms| == 0 then b else UseAll(Use(b, ms[0]), ms[1..])
  }

  /** Chaining `Use(m1)…Use(mn)` appends `m1 … mn` in that order. */
  lemma {:induction false} UseAllAppends(b: Builder, ms: seq<MiddlewareId>)
    ensures UseAll(b, ms).middlewares == b.middlewares + ms
    decreases |ms|
  {
    if |ms| > 0 {
      UseAllAppends(Use(b, ms[0]), ms[1..]);
      assert b.middlewares + [ms[0]] + ms[1..] == b.middlewares + ms;
    }
  }
}
