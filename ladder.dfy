/** The invocation ladder of `run_plugin`: a first call in JSON style, a
    text-style retry when the engine cannot render JSON for this plugin, and a
    retry with a scratch directory when the engine asks for one.

    The Volatility engine is a parameter: a function from the output style
    and whether a dump directory is passed to what the call gives back. */
module Ladder {
  import opened PyStr
  import opened Tables

  datatype Style = Json | PlainText

  /** What one call of `RunVol.run_plugin` gives: a result (`None` when the
      plugin produced nothing) or an exception whose `str()` is `msg`. */
  datatype Reply = Returned(output: Option<Table>) | Raised(msg: string)

  /** The engine for one plugin, session and option set: (output_style, dump_dir given) -> reply. */
  type Engine = (Style, bool) -> Reply

  const UNIFIED_MISSING: string := "unified output format has not been implemented"
  const JSON_TREES: string := "JSON output for trees"
  const DUMP_DIR_FLAG: string := "--dump-dir"
  const DUMP_DIR_ASK: string := "specify a dump directory"

  /** `str(error)`, where `error` is still None when no call has raised. */
  function ErrText(error: Option<string>): string
  {
    match error
    case None => "None"
    case Some(m) => m
  }

  /** The test at web/views.py:416. */
  predicate WantsText(error: Option<string>)
  {
    Contains(ErrText(error), UNIFIED_MISSING) || Contains(ErrText(error), JSON_TREES)
  }

  /** The test at web/views.py:430. */
  predicate WantsDumpDir(error: Option<string>)
  {
    Contains(ErrText(error), DUMP_DIR_FLAG) || Contains(ErrText(error), DUMP_DIR_ASK)
  }

  /** `str(None)` matches neither test, so a call that did not raise never
      leads to a retry. */
  lemma NoneTriggersNothing()
    ensures !WantsText(None) && !WantsDumpDir(None)
  {
    ContainsShorter("None", UNIFIED_MISSING);
    ContainsShorter("None", JSON_TREES);
    ContainsShorter("None", DUMP_DIR_FLAG);
    ContainsShorter("None", DUMP_DIR_ASK);
  }

  /** The Python variables `results` and `error` after one try/except.
      `results = False` in the except branch is `None` here; `error` keeps
      its last value after the except block (Python 2 scoping). */
  datatype Vars = Vars(results: Option<Table>, error: Option<string>)

  /** The effect of one call on `results` and `error`; `clearError` is the
      `error = None` after the text-style call. */
  function Step(reply: Reply, before: Vars, clearError: bool): (after: Vars)
    ensures reply.Raised? ==> after == Vars(None, Some(reply.msg))
    ensures reply.Returned? ==> after.results == reply.output
    ensures reply.Returned? ==> after.error == if clearError then None else before.error
  {
    match reply
    case Returned(out) => Vars(out, if clearError then None else before.error)
    case Raised(m) => Vars(None, Some(m))
  }

  datatype Call = Call(style: Style, dumpDir: bool)

  /** The outcome of the ladder: the calls made, in order, the final
      `results` and `error`, the output style in force, whether a dump
      directory was created, and whether the dump-directory call raised (the
      one place the ladder writes status 'error'). */
  datatype LadderRun = LadderRun(
    calls: seq<Call>,
    vars: Vars,
    style: Style,
    dumpDir: bool,
    dumpFailed: bool)

  /** Whether a reply is an exception whose text asks for text output. */
  predicate AsksForText(reply: Reply)
  {
    reply.Raised? && (Contains(reply.msg, UNIFIED_MISSING) || Contains(reply.msg, JSON_TREES))
  }

  /** Whether a reply is an exception whose text asks for a dump directory. */
  predicate AsksForDumpDir(reply: Reply)
  {
    reply.Raised? && (Contains(reply.msg, DUMP_DIR_FLAG) || Contains(reply.msg, DUMP_DIR_ASK))
  }

  /** The ladder of web/views.py:405-447. */
  function RunLadder(engine: Engine): (r: LadderRun)
  {
    var first := Step(engine(Json, false), Vars(None, None), false);
    var text := WantsText(first.error);
    var style := if text then PlainText else Json;
    var second := if text then Step(engine(PlainText, false), first, true) else first;
    var dump := WantsDumpDir(second.error);
    var third := if dump then Step(engine(style, true), second, false) else second;
    LadderRun(
      [Call(Json, false)] + (if text then [Call(PlainText, false)] else []) + (if dump then [Call(style, true)] else []),
      third, style, dump, dump && engine(style, true).Raised?)
  }

  /** What the ladder promises for every engine. */
  lemma LadderShape(engine: Engine)
    ensures var r := RunLadder(engine);
      // The first call is always JSON without a dump directory.
      && 1 <= |r.calls| <= 3 && r.calls[0] == Call(Json, false)
      // A text-style call is made exactly when the first call's error asks for it.
      && (Call(PlainText, false) in r.calls <==> AsksForText(engine(Json, false)))
      && r.style == (if AsksForText(engine(Json, false)) then PlainText else Json)
      // A dump-directory call is made exactly when the latest error asks for it,
      // with the style then in force, and it is always the last call.
      && (r.dumpDir <==> AsksForDumpDir(engine(r.style, false)))
      && (r.dumpDir <==> Call(r.style, true) in r.calls)
      && (r.dumpDir ==> r.calls[|r.calls| - 1] == Call(r.style, true))
      && (!r.dumpDir ==> forall k :: 0 <= k < |r.calls| ==> !r.calls[k].dumpDir)
      // The result is what the last call returned; a call that raised leaves none.
      && r.vars.results == (var last := engine(r.calls[|r.calls| - 1].style, r.calls[|r.calls| - 1].dumpDir);
                            if last.Returned? then last.output else None)
      // Status 'error' is written exactly when the dump-directory call raised.
      && (r.dumpFailed <==> r.dumpDir && engine(r.style, true).Raised?)
      // A successful text-style call clears the error, so no dump directory follows it.
      && (AsksForText(engine(Json, false)) && engine(PlainText, false).Returned? ==> !r.dumpDir)
  {
    NoneTriggersNothing();
  }

  /** A plugin whose JSON rendering is missing and whose text rendering works
      ends with the text result and never gets a scratch directory. */
  lemma TextRetrySucceeds(engine: Engine, t: Table)
    requires engine(Json, false) == Raised(UNIFIED_MISSING)
    requires engine(PlainText, false) == Returned(Some(t))
    ensures RunLadder(engine).calls == [Call(Json, false), Call(PlainText, false)]
    ensures RunLadder(engine).vars.results == Some(t) && !RunLadder(engine).dumpDir
  {
    assert UNIFIED_MISSING <= UNIFIED_MISSING;
    assert AsksForText(engine(Json, false));
    LadderShape(engine);
  }

  /** A plugin that fails in JSON asking for a dump directory is retried once,
      in JSON, with a dump directory. */
  lemma DumpRetryKeepsJson(engine: Engine)
    requires AsksForDumpDir(engine(Json, false)) && !AsksForText(engine(Json, false))
    ensures RunLadder(engine).calls == [Call(Json, false), Call(Json, true)]
  {
  }
}
