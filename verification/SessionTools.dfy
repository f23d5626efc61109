/** The keys of a session's tools over whole runs: resolved by each turn, merged by the record. */
module SessionTools {
  import opened Text
  import opened Sessions
  import opened SessionRuns
  import opened SessionInvariants
  import Continuation

  function ToolTokens(record: Option<Record>): (tokens: map<string, string>) {
    if record.None? then map[] else record.value.toolContinuations
  }

  lemma {:induction false} WritesKeepToolTokens(record: Option<Record>, writes: seq<MidTurn>)
    ensures ToolTokens(AfterWrites(record, writes)) == ToolTokens(record)
  {
    if writes == [] {
    } else {
      WritesKeepToolTokens(record, Front(writes));
    }
  }

  lemma PersistedToolTokens(existing: Option<Record>, subject: Option<string>, outcome: Outcome)
    ensures ToolTokens(Persisted(existing, subject, outcome)) ==
      Merge(ToolTokens(existing), if subject.None? then None else outcome.extractedContinuation)
  {
    if subject.Some? {
      WrittenSharesBase(existing, subject.value, outcome);
      assert Base(existing, subject.value, outcome).toolContinuations ==
        Merge(ToolTokens(existing), outcome.extractedContinuation);
    }
  }

  /** Only what a persisted turn extracted moves the stored tool tokens. */
  lemma TurnMovesToolTokens(record: Option<Record>, e: Event)
    requires e.Turn?
    ensures ToolTokens(After(record, e)) == Merge(ToolTokens(record), ExtractedBy(e, false))
  {
    if !e.fate.NotStarted? {
      var mode := Mode(record, e.trigger);
      assert ToolTokens(Opened(record, e.surface, e.trigger)) == ToolTokens(record);
      WritesKeepToolTokens(Opened(record, e.surface, e.trigger), e.fate.writes);
      if e.fate.Ended? {
        ForwardedTokens(e.surface, e.fate.state, mode);
        PersistedToolTokens(Found(record, e), e.fate.subject, Forwarded(e.surface, e.fate.state, mode));
      }
    }
  }

  /**
   * The tool calls behind the turns after `before`: each persisted turn that extracted a token made one, its key
   * resolved against the tokens the turn was given. The record is not lost meanwhile.
   */
  predicate Calls(before: seq<Event>, after: seq<Event>, calls: seq<Continuation.Call>) {
    if after == [] then calls == []
    else
      var record, e := Run(before + Front(after)), Last(after);
      if e.Lost? then false
      else if ExtractedBy(e, false).None? then Calls(before, Front(after), calls)
      else
        && calls != []
        && ExtractedBy(e, false) == Some(Continuation.Reported(ToolTokens(record), Last(calls)))
        && Calls(before, Front(after), Front(calls))
  }

  lemma RunNext(before: seq<Event>, after: seq<Event>)
    requires after != []
    ensures Run(before + after) == After(Run(before + Front(after)), Last(after))
  {
    assert Front(before + after) == before + Front(after);
  }

  /** The record's tool tokens are those calls, folded over the tokens they started from. */
  lemma {:induction false} ToolTokensAreCalls(before: seq<Event>, after: seq<Event>, calls: seq<Continuation.Call>)
    requires Calls(before, after, calls)
    ensures ToolTokens(Run(before + after)) == Continuation.AfterCalls(ToolTokens(Run(before)), calls)
  {
    if after == [] {
      assert before + after == before;
    } else {
      var e := Last(after);
      RunNext(before, after);
      if e.Turn? {
        TurnMovesToolTokens(Run(before + Front(after)), e);
      }
      if ExtractedBy(e, false).None? {
        ToolTokensAreCalls(before, Front(after), calls);
      } else {
        ToolTokensAreCalls(before, Front(after), Front(calls));
      }
    }
  }

  /**
   * Once the session's record holds exactly one entry of a tool, then over every later run, whatever branches its turns
   * end in, a call of that tool naming no instance resolves to that entry's key, exactly if the key is the bare tool id
   * or no call of it but the last returned an empty token; the record then holds that entry, or none after such a token.
   */
  lemma SessionKeyIsStable(
    before: seq<Event>, after: seq<Event>, calls: seq<Continuation.Call>, toolId: string, key: string)
    requires Calls(before, after, calls) && Continuation.NamesNoInstance(toolId, calls)
    requires Continuation.Own(toolId, ToolTokens(Run(before))) == {key}
    ensures var held := Continuation.KeyHolds(toolId, key, ToolTokens(Run(before)), calls);
      && (held <==> key == toolId || Continuation.NoneForgotten(toolId, calls))
      && (held ==>
            var left := if Continuation.LastForgets(toolId, calls) then {} else {key};
            Continuation.Own(toolId, ToolTokens(Run(before + after))) == left)
  {
    ToolTokensAreCalls(before, after, calls);
    Continuation.KeyIsStable(toolId, key, ToolTokens(Run(before)), calls);
  }
}
