/** Running configured commands, for provisioning (stopping at a failure) and for verification. */
module Commands {
  import opened Text
  import opened Document
  import opened Transitions

  /** A command passed: it did not time out and exited with 0. */
  predicate RunOk(r: CommandRun) {
    !r.timedOut && r.returncode == Some(0)
  }

  /** A summary tells what the runs did, command by command and on the whole. */
  predicate Tells(v: VerificationResult, commands: seq<string>, runs: seq<CommandRun>) {
    && |v.commands| == |commands| == |runs|
    && (forall k :: 0 <= k < |runs| ==>
          && v.commands[k].command == commands[k]
          && v.commands[k].returncode == runs[k].returncode && v.commands[k].timedOut == runs[k].timedOut
          && (v.commands[k].ok <==> RunOk(runs[k]))
          && v.commands[k].log == k + 1)
    && (v.ok <==> forall k :: 0 <= k < |runs| ==> RunOk(runs[k]))
  }

  lemma SummaryTells(commands: seq<string>, runs: seq<CommandRun>)
    requires |runs| == |commands|
    ensures Tells(Summary(commands, runs), commands, runs)
  {
    var v := Summary(commands, runs);
    assert forall k :: 0 <= k < |runs| ==> v.commands[k].ok == RunOk(runs[k]);
  }

  /** `run_commands`: `outcomes` is what each command would do if it were run. */
  method RunCommands(commands: seq<string>, outcomes: seq<CommandRun>, stopOnFailure: bool) returns (results: seq<CommandRun>)
    requires |outcomes| == |commands|
    ensures results <= outcomes
    ensures !stopOnFailure ==> results == outcomes
    ensures stopOnFailure ==> forall k :: 0 <= k < |results| - 1 ==> RunOk(results[k])
    ensures stopOnFailure && results != outcomes ==> results != [] && !RunOk(results[|results| - 1])
  {
    results := [];
    for n := 0 to |commands|
      invariant results == outcomes[..n]
      invariant stopOnFailure ==> forall k :: 0 <= k < n ==> RunOk(outcomes[k])
    {
      results := results + [outcomes[n]];
      if !RunOk(outcomes[n]) && stopOnFailure {
        break;
      }
    }
  }

  /** `_summarize_verification`: one record per result, numbered from 1, in order, each with what
      its command did, and ok on the whole exactly if all of them passed. */
  method SummarizeVerification(commands: seq<string>, results: seq<CommandRun>) returns (summary: VerificationResult)
    requires |results| == |commands|
    ensures Tells(summary, commands, results)
    ensures summary == Summary(commands, results)
  {
    var records: seq<CommandRecord> := [];
    var ok := true;
    for n := 0 to |results|
      invariant |records| == n
      invariant forall k :: 0 <= k < n ==>
                  records[k] == CommandRecord(commands[k], RunOk(results[k]), results[k].returncode, results[k].timedOut, k + 1)
      invariant ok == forall k :: 0 <= k < n ==> records[k].ok
    {
      records := records + [CommandRecord(commands[n], RunOk(results[n]), results[n].returncode, results[n].timedOut, n + 1)];
      ok := ok && RunOk(results[n]);
    }
    summary := VerificationResult(ok, records);
    assert records == Summary(commands, results).commands;
    SummaryTells(commands, results);
  }
}
