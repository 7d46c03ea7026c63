/** What a script does: which texts it is made of, which of them are run, and how it ends. */
module ScriptLaws {
  import opened NativeTypes
  import opened Executor
  import Streams

  /** Trimming drops white space at both ends, all of it there and nothing else. */
  lemma TrimmedIsTheMiddle(s: string) returns (l: string, r: string)
    ensures var t := Streams.TrimSpace(s);
      && s == l + t + r
      && (forall k :: 0 <= k < |l| ==> Streams.IsSpace(l[k])) && (forall k :: 0 <= k < |r| ==> Streams.IsSpace(r[k]))
      && (t != "" ==> !Streams.IsSpace(t[0]) && !Streams.IsSpace(t[|t| - 1]))
  {
    l := TrimmedLeft(s);
    var t := Streams.TrimLeft(s);
    r := TrimmedRight(t);
  }

  lemma {:induction false} TrimmedLeft(s: string) returns (l: string)
    ensures s == l + Streams.TrimLeft(s) && forall k :: 0 <= k < |l| ==> Streams.IsSpace(l[k])
    ensures Streams.TrimLeft(s) != "" ==> !Streams.IsSpace(Streams.TrimLeft(s)[0])
  {
    l := "";
    if s != "" && Streams.IsSpace(s[0]) {
      l := TrimmedLeft(s[1..]);
      assert s == [s[0]] + s[1..];
      l := [s[0]] + l;
    }
  }

  lemma {:induction false} TrimmedRight(s: string) returns (r: string)
    ensures s == Streams.TrimRight(s) + r && forall k :: 0 <= k < |r| ==> Streams.IsSpace(r[k])
    ensures Streams.TrimRight(s) != "" ==>
      Streams.TrimRight(s)[0] == s[0] && !Streams.IsSpace(Streams.TrimRight(s)[|Streams.TrimRight(s)| - 1])
  {
    r := "";
    if s != "" && Streams.IsSpace(s[|s| - 1]) {
      r := TrimmedRight(s[..|s| - 1]);
      assert s == s[..|s| - 1] + [s[|s| - 1]];
      r := r + [s[|s| - 1]];
    }
  }

  /** The texts a script is made of: its pieces, trimmed, without the empty ones. */
  function TextsOf(pieces: seq<string>): seq<string> {
    if pieces == [] then []
    else
      var t := Streams.TrimSpace(pieces[0]);
      (if t == "" then [] else [t]) + TextsOf(pieces[1..])
  }

  /** The database after the first n texts have been run. */
  function AfterTexts<S>(env: Env<S>, state: S, texts: seq<string>, n: nat): S
    requires n <= |texts|
  {
    if n == 0 then state else env.exec(AfterTexts(env, state, texts, n - 1), texts[n - 1], []).0
  }

  /** What the call of text k is answered. */
  function ReplyAt<S>(env: Env<S>, state: S, texts: seq<string>, k: nat): ExecReply
    requires k < |texts|
  {
    env.exec(AfterTexts(env, state, texts, k), texts[k], []).1
  }

  predicate Forbidden<S>(env: Env<S>, text: string) {
    env.readonly && env.isWrite(text)
  }

  /** The first n of the texts are run and nothing else; all but the last of them succeed, and none is forbidden. */
  ghost predicate RunsTexts<S>(env: Env<S>, state: S, texts: seq<string>, ran: Ran<S, Option<string>>) {
    var n := |ran.calls|;
    && n <= |texts| && ran.state == AfterTexts(env, state, texts, n)
    && (forall k :: 0 <= k < n ==> ran.calls[k] == ExecCall(texts[k], []) && !Forbidden(env, texts[k]))
    && (forall k :: 0 <= k < n - 1 ==> ReplyAt(env, state, texts, k).Executed?)
    && (ran.outcome.None? ==> n == |texts| && (n > 0 ==> ReplyAt(env, state, texts, n - 1).Executed?))
    && (ran.outcome.Some? ==>
          if n > 0 && ReplyAt(env, state, texts, n - 1).ExecFailed?
          then ran.outcome == Some("hrana: sequence error: " + ReplyAt(env, state, texts, n - 1).message)
          else n < |texts| && Forbidden(env, texts[n]) && ran.outcome == Some(READONLY))
  }

  lemma {:induction false} AfterMoreTexts<S>(env: Env<S>, state: S, texts: seq<string>, n: nat)
    requires texts != [] && n < |texts|
    ensures AfterTexts(env, state, texts, n + 1) == AfterTexts(env, env.exec(state, texts[0], []).0, texts[1..], n)
  {
    if n > 0 { AfterMoreTexts(env, state, texts, n - 1); }
  }

  lemma {:induction false} PiecesRun<S>(env: Env<S>, state: S, pieces: seq<string>)
    ensures RunsTexts(env, state, TextsOf(pieces), Streams.RunPieces(env, state, pieces))
  {
    hide Streams.TrimSpace, RunsTexts;
    if pieces == [] {
      NothingToRun(env, state);
    } else {
      var t := Streams.TrimSpace(pieces[0]);
      if t == "" {
        PiecesRun(env, state, pieces[1..]);
        assert [] + TextsOf(pieces[1..]) == TextsOf(pieces[1..]);
      } else {
        var (after, reply) := env.exec(state, t, []);
        PiecesRun(env, after, pieces[1..]);
        OneTextRuns(env, state, t, TextsOf(pieces[1..]), Streams.RunPieces(env, after, pieces[1..]));
      }
    }
  }

  lemma NothingToRun<S>(env: Env<S>, state: S)
    ensures RunsTexts(env, state, [], Ran(state, None, []))
  {
  }

  lemma Shifted<S>(env: Env<S>, state: S, t: string, texts: seq<string>)
    ensures var all, after := [t] + texts, env.exec(state, t, []).0;
      && AfterTexts(env, state, all, 1) == after && ReplyAt(env, state, all, 0) == env.exec(state, t, []).1
      && (forall k :: 0 <= k <= |texts| ==> AfterTexts(env, state, all, k + 1) == AfterTexts(env, after, texts, k))
      && (forall k :: 0 <= k < |texts| ==> ReplyAt(env, state, all, k + 1) == ReplyAt(env, after, texts, k))
  {
    var all := [t] + texts;
    assert all[1..] == texts && all[0] == t && AfterTexts(env, state, all, 0) == state;
    var after := env.exec(state, t, []).0;
    forall k | 0 <= k <= |texts| ensures AfterTexts(env, state, all, k + 1) == AfterTexts(env, after, texts, k) {
      AfterMoreTexts(env, state, all, k);
    }
    hide AfterTexts;
  }

  lemma OneTextRuns<S>(env: Env<S>, state: S, t: string, texts: seq<string>, rest: Ran<S, Option<string>>)
    requires RunsTexts(env, env.exec(state, t, []).0, texts, rest)
    ensures var (after, reply) := env.exec(state, t, []);
      RunsTexts(env, state, [t] + texts,
        if Forbidden(env, t) then Ran(state, Some(READONLY), [])
        else if reply.ExecFailed? then Ran(after, Some("hrana: sequence error: " + reply.message), [ExecCall(t, [])])
        else Ran(rest.state, rest.outcome, [ExecCall(t, [])] + rest.calls))
  {
    var all := [t] + texts;
    var (after, reply) := env.exec(state, t, []);
    Shifted(env, state, t, texts);
    assert AfterTexts(env, state, all, 0) == state;
    hide AfterTexts, ReplyAt;
    if !Forbidden(env, t) && reply.Executed? {
      hide Forbidden;
      MoreTextsRun(env, state, t, texts, rest);
    }
  }

  lemma MoreTextsRun<S>(env: Env<S>, state: S, t: string, texts: seq<string>, rest: Ran<S, Option<string>>)
    requires RunsTexts(env, env.exec(state, t, []).0, texts, rest)
    requires !Forbidden(env, t) && env.exec(state, t, []).1.Executed?
    ensures RunsTexts(env, state, [t] + texts, Ran(rest.state, rest.outcome, [ExecCall(t, [])] + rest.calls))
  {
    var all, n, calls := [t] + texts, |rest.calls|, [ExecCall(t, [])] + rest.calls;
    Shifted(env, state, t, texts);
    hide AfterTexts, ReplyAt, Forbidden;
    forall k | 0 <= k < n + 1 ensures calls[k] == ExecCall(all[k], []) && !Forbidden(env, all[k]) {
      if k > 0 { assert calls[k] == rest.calls[k - 1] && all[k] == texts[k - 1]; }
    }
    forall k | 0 <= k < n ensures ReplyAt(env, state, all, k).Executed? {
      if k > 0 { assert ReplyAt(env, state, all, k - 1 + 1) == ReplyAt(env, env.exec(state, t, []).0, texts, k - 1); }
    }
    if n > 0 { assert ReplyAt(env, state, all, n - 1 + 1) == ReplyAt(env, env.exec(state, t, []).0, texts, n - 1); }
    if n < |texts| { assert all[n + 1] == texts[n]; }
  }

  /**
   A script runs its texts in order, each in one call, up to the first that fails or that the
   mode forbids; so a stream in readonly mode runs no script text that is a write.
   */
  lemma ScriptRunsItsTexts<S>(env: Env<S>, state: S, script: string)
    ensures var ran := Streams.RunSequence(env, state, script);
      && RunsTexts(env, state, TextsOf(Streams.Split(script, ';')), ran)
      && (env.readonly ==> forall c :: c in ran.calls ==> !env.isWrite(c.sql))
  {
    PiecesRun(env, state, Streams.Split(script, ';'));
    hide Streams.RunPieces, AfterTexts, ReplyAt;
  }
}
