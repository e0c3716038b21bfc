/**
 * Go's `context.Context` as far as the router uses it: an immutable chain of key/value bindings
 * in which the newest binding of a key shadows older ones.
 *
 * The two context-helper packages (`v2/utils` and `v2` itself) each declare a private key type
 * with the same six constants. Go compares keys by dynamic type and value, so a key carries the
 * package that owns it and the two stores never see each other's values.
 */
module GoContext {
  import opened Options
  import opened Discord
  import Errors

  /** The package whose private key type a key belongs to. */
  datatype Pkg = Utils | Sayori

  /** The six key constants `ctxSesKey` … `ctxCmdErrKey`. */
  datatype Slot = SesSlot | MsgSlot | PrefixSlot | AliasSlot | ArgsSlot | ErrSlot

  datatype Key =
    | CtxKey(pkg: Pkg, slot: Slot)
    | /** A key of code outside the router, known only by identity. */
      ForeignKey(id: nat)

  datatype Value =
    | SesValue(ses: Option<Session>)
    | MsgValue(msg: Option<Message>)
    | StrValue(s: string)
    | StrsValue(ss: seq<string>)
    | ErrValue(err: Option<Errors.Error>)
    | ForeignValue(id: nat)

  datatype Context = Background | WithValue(parent: Context, key: Key, val: Value)

  /** The keys bound anywhere in the chain. */
  function Keys(c: Context): set<Key> {
    match c
    case Background => {}
    case WithValue(parent, k, _) => Keys(parent) + {k}
  }

  /** `ctx.Value(k)`: the newest binding of `k`, or none. */
  function Lookup(c: Context, k: Key): (r: Option<Value>)
    ensures r.Some? ==> k in Keys(c)
    ensures c.WithValue? && c.key == k ==> r == Some(c.val)
  {
    match c
    case Background => None
    case WithValue(parent, k', v) => if k' == k then Some(v) else Lookup(parent, k)
  }

  /** A lookup finds a value exactly when the key is bound somewhere in the chain. */
  lemma {:induction false} LookupFindsBound(c: Context, k: Key)
    ensures Lookup(c, k).Some? <==> k in Keys(c)
  {
    match c
    case Background =>
    case WithValue(parent, k', v) =>
      if k' != k {
        LookupFindsBound(parent, k);
      }
  }

  /** The value kind the getters of `slot` accept (their type assertion). */
  predicate Fits(slot: Slot, v: Value) {
    match slot
    case SesSlot => v.SesValue?
    case MsgSlot => v.MsgValue?
    case PrefixSlot => v.StrValue?
    case AliasSlot => v.StrsValue?
    case ArgsSlot => v.StrsValue?
    case ErrSlot => v.ErrValue?
  }

  /** What a getter returns when its assertion fails: nil, the empty string or an empty slice. */
  function Default(slot: Slot): (v: Value)
    ensures Fits(slot, v)
  {
    match slot
    case SesSlot => SesValue(None)
    case MsgSlot => MsgValue(None)
    case PrefixSlot => StrValue("")
    case AliasSlot => StrsValue([])
    case ArgsSlot => StrsValue([])
    case ErrSlot => ErrValue(None)
  }

  /** `ctx.Value(key).(T)` with the getter's fallback. */
  function Get(pkg: Pkg, slot: Slot, c: Context): (v: Value)
    ensures Fits(slot, v)
    ensures CtxKey(pkg, slot) !in Keys(c) ==> v == Default(slot)
  {
    match Lookup(c, CtxKey(pkg, slot))
    case Some(v) => if Fits(slot, v) then v else Default(slot)
    case None => Default(slot)
  }

  /** `context.WithValue(ctx, key, v)` with one of the package's own keys. */
  function With(pkg: Pkg, slot: Slot, c: Context, v: Value): (r: Context)
    requires Fits(slot, v)
    ensures Keys(r) == Keys(c) + {CtxKey(pkg, slot)}
  {
    WithValue(c, CtxKey(pkg, slot), v)
  }

  /** Get after With returns the stored value. */
  lemma GetWith(pkg: Pkg, slot: Slot, c: Context, v: Value)
    requires Fits(slot, v)
    ensures Get(pkg, slot, With(pkg, slot, c, v)) == v
  {
  }

  /**
   * Storing under one key leaves every other getter unchanged, including the same slot of the
   * other package.
   */
  lemma GetWithOther(pkg: Pkg, slot: Slot, pkg': Pkg, slot': Slot, c: Context, v: Value)
    requires Fits(slot, v)
    requires pkg != pkg' || slot != slot'
    ensures Get(pkg', slot', With(pkg, slot, c, v)) == Get(pkg', slot', c)
  {
  }

  /** Binding foreign keys never changes what the router's getters see. */
  lemma GetForeign(pkg: Pkg, slot: Slot, c: Context, id: nat, v: Value)
    ensures Get(pkg, slot, WithValue(c, ForeignKey(id), v)) == Get(pkg, slot, c)
  {
  }

  // The typed getters and setters, one pair per key; `pkg` selects the helper package.

  function WithSes(pkg: Pkg, c: Context, ses: Option<Session>): Context {
    With(pkg, SesSlot, c, SesValue(ses))
  }

  function GetSes(pkg: Pkg, c: Context): Option<Session> {
    Get(pkg, SesSlot, c).ses
  }

  function WithMsg(pkg: Pkg, c: Context, msg: Option<Message>): Context {
    With(pkg, MsgSlot, c, MsgValue(msg))
  }

  function GetMsg(pkg: Pkg, c: Context): Option<Message> {
    Get(pkg, MsgSlot, c).msg
  }

  function WithPrefix(pkg: Pkg, c: Context, prefix: string): Context {
    With(pkg, PrefixSlot, c, StrValue(prefix))
  }

  function GetPrefix(pkg: Pkg, c: Context): string {
    Get(pkg, PrefixSlot, c).s
  }

  function WithAlias(pkg: Pkg, c: Context, aliases: seq<string>): Context {
    With(pkg, AliasSlot, c, StrsValue(aliases))
  }

  function GetAlias(pkg: Pkg, c: Context): seq<string> {
    Get(pkg, AliasSlot, c).ss
  }

  function WithArgs(pkg: Pkg, c: Context, args: seq<string>): Context {
    With(pkg, ArgsSlot, c, StrsValue(args))
  }

  function GetArgs(pkg: Pkg, c: Context): seq<string> {
    Get(pkg, ArgsSlot, c).ss
  }

  function WithErr(pkg: Pkg, c: Context, err: Option<Errors.Error>): Context {
    With(pkg, ErrSlot, c, ErrValue(err))
  }

  function GetErr(pkg: Pkg, c: Context): Option<Errors.Error> {
    Get(pkg, ErrSlot, c).err
  }

  /** The six getters read back what the matching setter stored. */
  lemma RoundTrips(pkg: Pkg, c: Context, ses: Option<Session>, msg: Option<Message>, prefix: string,
                   aliases: seq<string>, args: seq<string>, err: Option<Errors.Error>)
    ensures GetSes(pkg, WithSes(pkg, c, ses)) == ses
    ensures GetMsg(pkg, WithMsg(pkg, c, msg)) == msg
    ensures GetPrefix(pkg, WithPrefix(pkg, c, prefix)) == prefix
    ensures GetAlias(pkg, WithAlias(pkg, c, aliases)) == aliases
    ensures GetArgs(pkg, WithArgs(pkg, c, args)) == args
    ensures GetErr(pkg, WithErr(pkg, c, err)) == err
  {
  }

  /** With nothing stored under the package's keys, the getters give their zero values. */
  lemma Defaults(pkg: Pkg, c: Context)
    requires forall s: Slot :: CtxKey(pkg, s) !in Keys(c)
    ensures GetSes(pkg, c) == None && GetMsg(pkg, c) == None && GetErr(pkg, c) == None
    ensures GetPrefix(pkg, c) == ""
    ensures GetAlias(pkg, c) == [] && GetArgs(pkg, c) == []
  {
    assert CtxKey(pkg, SesSlot) !in Keys(c);
    assert CtxKey(pkg, MsgSlot) !in Keys(c);
    assert CtxKey(pkg, PrefixSlot) !in Keys(c);
    assert CtxKey(pkg, AliasSlot) !in Keys(c);
    assert CtxKey(pkg, ArgsSlot) !in Keys(c);
    assert CtxKey(pkg, ErrSlot) !in Keys(c);
  }

  /** `CmdContext`: the six invocation values read out of a context in one go. */
  datatype CmdContext = CmdContext(
    ses: Option<Session>,
    msg: Option<Message>,
    prefix: string,
    alias: seq<string>,
    args: seq<string>,
    err: Option<Errors.Error>)

  /** `CmdFromContext`, which reads through the `v2` package's own getters. */
  function CmdFromContext(c: Context): (r: CmdContext)
    ensures r.ses == GetSes(Sayori, c) && r.msg == GetMsg(Sayori, c) && r.prefix == GetPrefix(Sayori, c)
    ensures r.alias == GetAlias(Sayori, c) && r.args == GetArgs(Sayori, c) && r.err == GetErr(Sayori, c)
  {
    CmdContext(GetSes(Sayori, c), GetMsg(Sayori, c), GetPrefix(Sayori, c),
               GetAlias(Sayori, c), GetArgs(Sayori, c), GetErr(Sayori, c))
  }

  /** Storing a prefix through the `v2` helpers changes exactly the prefix of the `CmdContext` view. */
  lemma CmdFromWithPrefix(c: Context, prefix: string)
    ensures CmdFromContext(WithPrefix(Sayori, c, prefix)) == CmdFromContext(c).(prefix := prefix)
  {
  }

  /** Nothing stored through the `v2/utils` helpers is visible in the `CmdContext` view. */
  lemma CmdFromIgnoresUtils(c: Context, slot: Slot, v: Value)
    requires Fits(slot, v)
    ensures CmdFromContext(With(Utils, slot, c, v)) == CmdFromContext(c)
  {
  }

  /** The view of the empty context is all zero values. */
  lemma CmdFromBackground()
    ensures CmdFromContext(Background) == CmdContext(None, None, "", [], [], None)
  {
  }
}
