/** The critic/replanner agent (src/agents/critic_replanner.py). */
module Critic {
  import opened Values
  import opened Records
  import opened Ordering
  import opened Executor

  /** A ToolFailureMemory entry returned by retrieval. */
  datatype FailureHit = FailureHit(
    tool: string, failureType: string, recovery: string, fixApplied: string, confidence: real)

  /** One entry of the LLM verdict's `failures` list; absent keys are None. */
  datatype FailureNote = FailureNote(
    tool: string, category: Option<string>, confidence: Option<real>, strategy: Option<string>)

  datatype CriticReply = CriticReply(resolved: bool, failedTools: seq<string>, failures: seq<FailureNote>)

  datatype CriticOutput = CriticOutput(
    resolved: bool, failedTools: seq<string>, memoryHit: bool,
    category: string, confidence: real, strategy: string)

  const ALL_USABLE := CriticOutput(true, [], false, "", 1.0, "")

  function FailedIn(env: Env, results: seq<Record>): set<string> {
    set c | c in results && !env.usable(c) :: c.tool
  }

  function FirstOf(results: seq<Record>, tool: string): Record
    requires exists c :: c in results && c.tool == tool
  {
    if results[0].tool == tool then results[0] else FirstOf(results[1..], tool)
  }

  function FirstHit(hits: seq<FailureHit>, tool: string, category: string): Option<FailureHit> {
    if hits == [] then None
    else if hits[0].tool == tool && hits[0].failureType == category then Some(hits[0])
    else FirstHit(hits[1..], tool, category)
  }

  function FirstNote(notes: seq<FailureNote>, tool: string): Option<FailureNote> {
    if notes == [] then None
    else if notes[0].tool == tool then Some(notes[0])
    else FirstNote(notes[1..], tool)
  }

  function OrElse<T>(o: Option<T>, default: T): T {
    match o case Some(v) => v case None => default
  }

  /** The verdict. `reply` is None when the LLM call or the parsing of its answer failed. */
  function Judge(env: Env, results: seq<Record>, hits: seq<FailureHit>, reply: Option<CriticReply>): CriticOutput {
    var quick := FailedIn(env, results);
    if quick == {} then ALL_USABLE else
      var failedTool := Sorted(quick)[0];
      assert failedTool in quick;
      var category := ClassifyFailure(FirstOf(results, failedTool));
      match FirstHit(hits, failedTool, category)
      case Some(hit) =>
        CriticOutput(false, Sorted(quick), true, category, hit.confidence,
                     if hit.recovery != "" then hit.recovery else hit.fixApplied)
      case None =>
        if !env.useLlm || reply.None? then CriticOutput(false, Sorted(quick), false, category, 0.5, "retry")
        else
          var said := reply.value;
          var failed := if said.failedTools == [] then quick else Elements(said.failedTools);
          match FirstNote(said.failures, failedTool)
          case None => CriticOutput(said.resolved, Sorted(failed), false, category, 0.8, "retry")
          case Some(note) =>
            CriticOutput(said.resolved, Sorted(failed), false, OrElse(note.category, category),
                         OrElse(note.confidence, 0.8), OrElse(note.strategy, "retry"))
  }

  /** The loop over retrieved entries: the first one for this tool and category. */
  method ScanHits(hits: seq<FailureHit>, tool: string, category: string) returns (found: Option<FailureHit>)
    ensures found == FirstHit(hits, tool, category)
    ensures found.Some? ==> found.value in hits && found.value.tool == tool && found.value.failureType == category
    ensures found.None? ==> forall h :: h in hits ==> h.tool != tool || h.failureType != category
  {
    assert hits[0..] == hits;
    for k := 0 to |hits|
      invariant FirstHit(hits, tool, category) == FirstHit(hits[k..], tool, category)
      invariant forall j :: 0 <= j < k ==> hits[j].tool != tool || hits[j].failureType != category
    {
      assert hits[k..][1..] == hits[k + 1..];
      if hits[k].tool == tool && hits[k].failureType == category { return Some(hits[k]); }
    }
    return None;
  }

  /** The loop over the verdict's failures, which overwrites the defaults at the first entry for the tool. */
  method ScanNotes(notes: seq<FailureNote>, tool: string, predicted: string)
    returns (category: string, confidence: real, strategy: string)
    ensures var note := FirstNote(notes, tool);
            (category, confidence, strategy) ==
            if note.None? then (predicted, 0.8, "retry")
            else (OrElse(note.value.category, predicted), OrElse(note.value.confidence, 0.8), OrElse(note.value.strategy, "retry"))
  {
    category, confidence, strategy := predicted, 0.8, "retry";
    assert notes[0..] == notes;
    for k := 0 to |notes|
      invariant FirstNote(notes, tool) == FirstNote(notes[k..], tool)
      invariant category == predicted && confidence == 0.8 && strategy == "retry"
    {
      assert notes[k..][1..] == notes[k + 1..];
      if notes[k].tool == tool {
        return OrElse(notes[k].category, predicted), OrElse(notes[k].confidence, 0.8), OrElse(notes[k].strategy, "retry");
      }
    }
  }

  /** `_run`. */
  method Run(env: Env, results: seq<Record>, hits: seq<FailureHit>, reply: Option<CriticReply>)
    returns (output: CriticOutput)
    ensures output == Judge(env, results, hits, reply)
  {
    var quick := FailedIn(env, results);
    if quick == {} { return ALL_USABLE; }
    var failedTool := Sorted(quick)[0];
    assert failedTool in quick;
    var category := ClassifyFailure(FirstOf(results, failedTool));
    var hit := ScanHits(hits, failedTool, category);
    if hit.Some? {
      return CriticOutput(false, Sorted(quick), true, category, hit.value.confidence,
                          if hit.value.recovery != "" then hit.value.recovery else hit.value.fixApplied);
    }
    if !env.useLlm || reply.None? {
      return CriticOutput(false, Sorted(quick), false, category, 0.5, "retry");
    }
    var failed := if reply.value.failedTools == [] then quick else Elements(reply.value.failedTools);
    var finalCategory, confidence, strategy := ScanNotes(reply.value.failures, failedTool, category);
    output := CriticOutput(reply.value.resolved, Sorted(failed), false, finalCategory, confidence, strategy);
  }
}
