/**
 * `run_setup`: for every combination of a configuration, in nested order,
 * append the record [task, ns, rs, d, m], run the experiment, and extend the
 * record with the outcome text, whether the run succeeded or raised. The
 * method is proved against SweepRecords, the list of records the sweep
 * writes, and the lemmas state what the driver promises about that list.
 */
module Sweep {
  import opened Experiments
  import opened Dispatch
  import opened Grid

  /** `run_experiment`: build the command line and hand it to the runner as
      call number `call`. */
  function RunExperiment(runner: Runner, call: nat, c: Combination): Outcome
  {
    runner(call, CommandLine(c))
  }

  /** The record stored for one combination. */
  function RecordOf(c: Combination, o: Outcome): Record
  {
    [c.task, c.node, c.ranking, c.dataset, c.model, OutcomeText(o)]
  }

  /** The records of a sweep, in enumeration order: record p belongs to
      combination p, whose command is the runner's call number p. */
  function SweepRecords(task: string, setup: SweepSetup, runner: Runner): (records: seq<Record>)
    ensures |records| == GridSize(setup)
  {
    var combos := Combinations(task, setup);
    seq(|combos|, p requires 0 <= p < |combos| => RecordOf(combos[p], RunExperiment(runner, p, combos[p])))
  }

  /** The commands of a sweep, in enumeration order: the command the runner
      receives as call number p is that of combination p. */
  function SweepCommands(task: string, setup: SweepSetup): (commands: seq<string>)
    ensures |commands| == GridSize(setup)
  {
    var combos := Combinations(task, setup);
    seq(|combos|, p requires 0 <= p < |combos| => CommandLine(combos[p]))
  }

  /** The four nested loops of `run_setup`. The record is appended with its
      five values first and the outcome is added to the last record after the
      run, as the driver does; a failed run leaves its message there and the
      loops go on. `calls` logs the command of every runner call, in the order
      of the calls. */
  method RunSetup(task: string, setup: SweepSetup, runner: Runner)
    returns (results: seq<Record>, ghost calls: seq<string>)
    ensures results == SweepRecords(task, setup, runner)
    ensures |results| == GridSize(setup)
    ensures calls == SweepCommands(task, setup)
  {
    ghost var expected := SweepRecords(task, setup, runner);
    ghost var commands := SweepCommands(task, setup);
    results, calls := [], [];
    for i := 0 to |setup.nodeSimilarity|
      invariant |results| == Position(setup, i, 0, 0, 0) <= |expected|
      invariant results == expected[..|results|]
      invariant calls == commands[..|results|]
    {
      for j := 0 to |setup.rankingSimilarity|
        invariant |results| == Position(setup, i, j, 0, 0) <= |expected|
        invariant results == expected[..|results|]
        invariant calls == commands[..|results|]
      {
        for k := 0 to |setup.dataset|
          invariant |results| == Position(setup, i, j, k, 0) <= |expected|
          invariant results == expected[..|results|]
          invariant calls == commands[..|results|]
        {
          for l := 0 to |setup.model|
            invariant |results| == Position(setup, i, j, k, l) <= |expected|
            invariant results == expected[..|results|]
            invariant calls == commands[..|results|]
          {
            var c := Combination(task, setup.nodeSimilarity[i], setup.rankingSimilarity[j],
                                 setup.dataset[k], setup.model[l]);
            NextRecord(task, setup, runner, i, j, k, l);
            NextCommand(task, setup, i, j, k, l);
            var p := |results|;
            results := results + [[c.task, c.node, c.ranking, c.dataset, c.model]];
            var outcome := RunExperiment(runner, p, c);
            calls := calls + [CommandLine(c)];
            results := results[..p] + [results[p] + [OutcomeText(outcome)]];
          }
          PositionNextDataset(setup, i, j, k);
        }
        PositionNextRanking(setup, i, j);
      }
      PositionNextNode(setup, i);
    }
    PositionEnd(setup);
  }

  /** The record the loop body adds at Position(i, j, k, l): the five values,
      extended with the outcome text. */
  lemma NextRecord(task: string, setup: SweepSetup, runner: Runner, i: nat, j: nat, k: nat, l: nat)
    requires i < |setup.nodeSimilarity| && j < |setup.rankingSimilarity|
    requires k < |setup.dataset| && l < |setup.model|
    ensures var p := Position(setup, i, j, k, l);
      var records := SweepRecords(task, setup, runner);
      var c := Combination(task, setup.nodeSimilarity[i], setup.rankingSimilarity[j],
                           setup.dataset[k], setup.model[l]);
      && p < |records|
      && records[..p + 1]
         == records[..p] + [[task, c.node, c.ranking, c.dataset, c.model] + [OutcomeText(RunExperiment(runner, p, c))]]
  {
    var p := Position(setup, i, j, k, l);
    var records := SweepRecords(task, setup, runner);
    var c := Combination(task, setup.nodeSimilarity[i], setup.rankingSimilarity[j],
                         setup.dataset[k], setup.model[l]);
    CombinationAt(task, setup, i, j, k, l);
    assert records[p] == RecordOf(c, RunExperiment(runner, p, c));
    RecordOfSplits(c, RunExperiment(runner, p, c));
    assert records[..p + 1] == records[..p] + [records[p]];
  }

  /** The command the loop body passes to the runner at Position(i, j, k, l)
      is the next command of the sweep. */
  lemma NextCommand(task: string, setup: SweepSetup, i: nat, j: nat, k: nat, l: nat)
    requires i < |setup.nodeSimilarity| && j < |setup.rankingSimilarity|
    requires k < |setup.dataset| && l < |setup.model|
    ensures var p := Position(setup, i, j, k, l);
      var commands := SweepCommands(task, setup);
      && p < |commands|
      && commands[..p + 1]
         == commands[..p] + [CommandLine(Combination(task, setup.nodeSimilarity[i], setup.rankingSimilarity[j],
                                                     setup.dataset[k], setup.model[l]))]
  {
    var p := Position(setup, i, j, k, l);
    CombinationAt(task, setup, i, j, k, l);
    SliceNext(SweepCommands(task, setup), p);
  }

  /** A prefix one longer is the prefix followed by the next element. */
  lemma SliceNext<T>(s: seq<T>, p: nat)
    requires p < |s|
    ensures s[..p + 1] == s[..p] + [s[p]]
  {
    assert s[..p + 1] == s[..p] + [s[p]];
  }

  /** A record is the five values followed by the outcome text (a step the
      loop proof uses, kept apart so that proof stays small). */
  lemma RecordOfSplits(c: Combination, o: Outcome)
    ensures RecordOf(c, o) == [c.task, c.node, c.ranking, c.dataset, c.model] + [OutcomeText(o)]
  {
  }

  /** Record shape and order: the record at Position(i, j, k, l) has six
      fields, the task and the i-th, j-th, k-th and l-th values of the four
      dimensions followed by the text of the runner's answer to that
      combination's command, asked as call number Position(i, j, k, l). */
  lemma RecordAt(task: string, setup: SweepSetup, runner: Runner, i: nat, j: nat, k: nat, l: nat)
    requires i < |setup.nodeSimilarity| && j < |setup.rankingSimilarity|
    requires k < |setup.dataset| && l < |setup.model|
    ensures var p := Position(setup, i, j, k, l);
      var c := Combination(task, setup.nodeSimilarity[i], setup.rankingSimilarity[j],
                           setup.dataset[k], setup.model[l]);
      && p < |SweepRecords(task, setup, runner)|
      && SweepRecords(task, setup, runner)[p]
         == [task, setup.nodeSimilarity[i], setup.rankingSimilarity[j], setup.dataset[k], setup.model[l],
             OutcomeText(runner(p, CommandLine(c)))]
  {
    CombinationAt(task, setup, i, j, k, l);
  }

  /** Every record has six fields: the task, four values taken from the
      configuration, and the outcome text. */
  lemma RecordsWellFormed(task: string, setup: SweepSetup, runner: Runner)
    ensures forall rec :: rec in SweepRecords(task, setup, runner) ==>
      |rec| == 6 && rec[0] == task && rec[1] in setup.nodeSimilarity && rec[2] in setup.rankingSimilarity
      && rec[3] in setup.dataset && rec[4] in setup.model
  {
    var records := SweepRecords(task, setup, runner);
    var combos := Combinations(task, setup);
    forall rec | rec in records
      ensures |rec| == 6 && rec[0] == task && rec[1] in setup.nodeSimilarity
      ensures rec[2] in setup.rankingSimilarity && rec[3] in setup.dataset && rec[4] in setup.model
    {
      var p :| 0 <= p < |records| && records[p] == rec;
      CombinationMembers(task, setup, combos[p]);
    }
  }

  /** Failure isolation: what the runner answers decides only the outcome
      fields. Two sweeps over the same configuration have the same number of
      records whatever the runs return, their records agree on the first five
      fields, and a record differs only where the runner's answer to that
      call differs. A failure is stored as its message and a success as its
      output text. */
  lemma OutcomesOnlyAffectOwnRecord(task: string, setup: SweepSetup, runner1: Runner, runner2: Runner)
    ensures var s1, s2 := SweepRecords(task, setup, runner1), SweepRecords(task, setup, runner2);
      var combos := Combinations(task, setup);
      && |s1| == |s2| == GridSize(setup)
      && (forall p :: 0 <= p < |s1| ==> |s1[p]| == |s2[p]| == 6 && s1[p][..5] == s2[p][..5])
      && (forall p :: 0 <= p < |s1| && runner1(p, CommandLine(combos[p])) == runner2(p, CommandLine(combos[p]))
            ==> s1[p] == s2[p])
      && (forall p :: 0 <= p < |s1| && runner1(p, CommandLine(combos[p])).Err?
            ==> s1[p][5] == runner1(p, CommandLine(combos[p])).message)
      && (forall p :: 0 <= p < |s1| && runner1(p, CommandLine(combos[p])).Ok?
            ==> s1[p][5] == runner1(p, CommandLine(combos[p])).text)
  {
  }

  /** The two sweeps the script runs, each on its own runner. */
  method RunBuiltInSweeps(classificationRunner: Runner, predictionRunner: Runner)
    returns (classification: seq<Record>, prediction: seq<Record>)
    ensures classification == SweepRecords(NodeClassification, NodeClassificationSetup, classificationRunner)
    ensures prediction == SweepRecords(LinkPrediction, LinkPredictionSetup, predictionRunner)
    ensures |classification| == 24 && |prediction| == 24
  {
    ghost var classificationCalls, predictionCalls;
    classification, classificationCalls := RunSetup(NodeClassification, NodeClassificationSetup, classificationRunner);
    prediction, predictionCalls := RunSetup(LinkPrediction, LinkPredictionSetup, predictionRunner);
  }

  /** Each built-in configuration spans 3 x 2 x 2 x 2 = 24 combinations. */
  lemma BuiltInSweepSizes(classificationRunner: Runner, predictionRunner: Runner)
    ensures |SweepRecords(NodeClassification, NodeClassificationSetup, classificationRunner)| == 24
    ensures |SweepRecords(LinkPrediction, LinkPredictionSetup, predictionRunner)| == 24
  {
  }

  /** One value per dimension and a runner that always answers "ok": the
      sweep stores exactly one record. */
  lemma AllSucceedScenario()
    ensures SweepRecords(NodeClassification, SweepSetup(["ACM"], ["SGC"], ["feature"], ["NDCG"]),
                         (call: nat, command: string) => Ok("ok"))
         == [[NodeClassification, "feature", "NDCG", "ACM", "SGC", "ok"]]
  {
    var setup := SweepSetup(["ACM"], ["SGC"], ["feature"], ["NDCG"]);
    CombinationAt(NodeClassification, setup, 0, 0, 0, 0);
  }

  /** Two combinations, the first run raising "boom" and the second
      answering "ok": both records are stored, in order, with those outcomes. */
  lemma FailureThenSuccessScenario(task: string, n: string, r: string, d: string, m1: string, m2: string)
    ensures var records := SweepRecords(task, SweepSetup([d], [m1, m2], [n], [r]),
                                        (call: nat, command: string) => if call == 0 then Err("boom") else Ok("ok"));
      records == [[task, n, r, d, m1, "boom"], [task, n, r, d, m2, "ok"]]
  {
    var setup := SweepSetup([d], [m1, m2], [n], [r]);
    CombinationAt(task, setup, 0, 0, 0, 0);
    CombinationAt(task, setup, 0, 0, 0, 1);
  }
}
