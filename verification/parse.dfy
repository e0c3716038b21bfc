/**
 * The custom parser of the `parse` example program (`v2/examples/parse/main.go`): splits a
 * command into whitespace fields, joining the first two into one token when the command starts
 * with them separated by a single space, so that two-word aliases such as "foo bar" can match.
 */
module CustomParse {
  import opened Options
  import opened Text
  import Errors
  import GoContext
  import Routes
  import Pipeline

  /** The first two fields written with one space between them. */
  function Pair(toks: seq<string>): string
    requires |toks| >= 2
  {
    toks[0] + " " + toks[1]
  }

  /**
   * `Parse`: fewer than two fields is a token-length error with no tokens. Otherwise it never
   * fails: when the trimmed command begins with the first two fields joined by one space they
   * become a single token, and otherwise the fields are returned unchanged.
   */
  function Parse(s: string): (r: Errors.Parsed)
    ensures |Fields(s)| < 2 ==> r == Errors.Parsed([], Some(Errors.TokLengthError))
    ensures |Fields(s)| >= 2 ==> r.err.None?
    ensures |Fields(s)| >= 2 && HasPrefix(TrimSpace(s), Pair(Fields(s))) ==>
      r.toks == [Pair(Fields(s))] + Fields(s)[2..]
    ensures |Fields(s)| >= 2 && !HasPrefix(TrimSpace(s), Pair(Fields(s))) ==> r.toks == Fields(s)
  {
    var toks := Fields(s);
    if |toks| < 2 then Errors.Parsed([], Some(Errors.TokLengthError))
    else if !HasPrefix(TrimSpace(s), Pair(toks)) then Errors.Parsed(toks, None)
    else
      assert Join(toks[..2], " ") == Pair(toks) by {
        assert toks[..2][1..] == [toks[1]];
      }
      Errors.Parsed([Join(toks[..2], " ")] + toks[2..], None)
  }

  /** Merging the first two tokens with a space does not change their space-joined text. */
  lemma JoinMerge(toks: seq<string>)
    requires |toks| >= 2
    ensures Join([Pair(toks)] + toks[2..], " ") == Join(toks, " ")
  {
    if |toks| == 2 {
      JoinMergeTwo(toks);
    } else {
      JoinMergeMore(toks);
    }
  }

  lemma JoinMergeTwo(toks: seq<string>)
    requires |toks| == 2
    ensures Join([Pair(toks)] + toks[2..], " ") == Join(toks, " ")
  {
    assert [Pair(toks)] + toks[2..] == [Pair(toks)];
    assert Join(toks[1..], " ") == toks[1] by {
      assert toks[1..] == [toks[1]];
    }
  }

  lemma JoinMergeMore(toks: seq<string>)
    requires |toks| > 2
    ensures Join([Pair(toks)] + toks[2..], " ") == Join(toks, " ")
  {
    var rest := toks[2..];
    var j := Join(rest, " ");
    assert Join([Pair(toks)] + rest, " ") == Pair(toks) + " " + j by {
      assert ([Pair(toks)] + rest)[1..] == rest;
    }
    assert Join(toks[1..], " ") == toks[1] + " " + j by {
      assert toks[1..][1..] == rest;
    }
  }

  /**
   * A successful parse loses no text: it yields one token fewer or the same number of tokens as
   * there are fields, and joining its tokens with single spaces gives the same text as joining
   * the fields.
   */
  lemma ParseKeepsText(s: string)
    requires Parse(s).err.None?
    ensures |Parse(s).toks| == |Fields(s)| || |Parse(s).toks| == |Fields(s)| - 1
    ensures Join(Parse(s).toks, " ") == Join(Fields(s), " ")
  {
    var toks := Fields(s);
    if |toks| >= 2 && HasPrefix(TrimSpace(s), Pair(toks)) {
      JoinMerge(toks);
    }
  }

  /** A command whose trimmed text starts with "a b" for two fields a, b is merged. */
  lemma ParseMergesSingleSpace(a: string, b: string, rest: string)
    requires |a| > 0 && NoSpace(a) && |b| > 0 && NoSpace(b)
    requires |rest| == 0 || IsSpace(rest[0])
    ensures Parse(a + " " + b + rest).toks == [a + " " + b] + Fields(rest)
  {
    var s := a + " " + b + rest;
    FieldsOfPair(a, b, rest);
    var toks := Fields(s);
    assert Pair(toks) == a + " " + b;
    assert toks[2..] == Fields(rest);
    PairStartsTrimmed(a, b, rest);
  }

  /** "a b" followed by anything is still at the start after trimming. */
  lemma PairStartsTrimmed(a: string, b: string, rest: string)
    requires |a| > 0 && NoSpace(a) && |b| > 0 && NoSpace(b)
    ensures HasPrefix(TrimSpace(a + " " + b + rest), a + " " + b)
  {
    var s := a + " " + b + rest;
    var p := a + " " + b;
    assert s[0] == a[0];
    TrimLeftOfWord(s);
    assert s[..|p|] == p;
    assert p[|p| - 1] == b[|b| - 1];
    TrimRightKeepsPrefix(s, p);
  }

  /** Text that starts with a non-space character is its own left trim. */
  lemma TrimLeftOfWord(s: string)
    requires |s| > 0 && !IsSpace(s[0])
    ensures TrimLeft(s) == s
  {
  }

  /** Trimming trailing space keeps a prefix that ends in a non-space character. */
  lemma {:induction false} TrimRightKeepsPrefix(s: string, p: string)
    requires |p| > 0 && HasPrefix(s, p) && !IsSpace(p[|p| - 1])
    ensures HasPrefix(TrimRight(s), p)
    decreases |s|
  {
    if |s| > 0 && IsSpace(s[|s| - 1]) {
      assert |s| > |p|;
      assert s[..|s| - 1][..|p|] == s[..|p|];
      TrimRightKeepsPrefix(s[..|s| - 1], p);
    }
  }

  /** A command of one word is refused. */
  lemma ParseRefusesOneWord()
    ensures Parse("foo") == Errors.Parsed([], Some(Errors.TokLengthError))
  {
    OneWord("foo");
  }

  /** A three-letter word is its only field. */
  lemma OneWord(w: string)
    requires |w| == 3 && !IsSpace(w[0]) && !IsSpace(w[1]) && !IsSpace(w[2])
    ensures Fields(w) == [w]
  {
    assert w + "" == w;
    FieldsOfWord(w, "");
  }

  /**
   * Plugged into the pipeline as the root handler's parser, a command of fewer than two words
   * stops the pipeline at parsing, and the root handler's Resolve (if any) sees the token-length
   * error.
   */
  lemma ShortCommandStopsPipeline(store: GoContext.Pkg, route: Option<Routes.Route>, ctx: GoContext.Context, env: Pipeline.Env)
    requires GoContext.GetMsg(store, ctx).Some?
    requires Pipeline.Registered(route) && Pipeline.CommandOf(store, route, ctx, env).ok
    requires env.parses(route.value.h.value)
    requires env.parse(route.value.h.value, Pipeline.CommandOf(store, route, ctx, env).cmd) == Parse(Pipeline.CommandOf(store, route, ctx, env).cmd)
    requires |Fields(Pipeline.CommandOf(store, route, ctx, env).cmd)| < 2
    ensures var t := Pipeline.Run(store, route, ctx, env);
      && t.stop == Pipeline.ParseFailed
      && forall i :: 0 <= i < |t.calls| ==> GoContext.GetErr(store, t.calls[i].ctx) == Some(Errors.TokLengthError)
  {
    Pipeline.ParseFailure(store, route, ctx, env);
  }
}
