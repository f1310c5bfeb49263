# REDRESS experiment sweep driver, modelled in Dafny

REDRESS has a driver script, `expo.py`, that runs its fairness experiments.
The script holds two sweep configurations, one for node classification and one for link prediction.
Each configuration lists datasets, models, node similarities and ranking similarities.
For every combination of these values the script does three things:

- it builds a shell command line for the right experiment program and runs it;
- it catches any failure of that run;
- it keeps one record `[task, node similarity, ranking similarity, dataset, model, outcome]`.

This project models that driver and proves what it promises:

- which program a combination selects, and the exact command text;
- the nested order of the sweep, where the model varies fastest;
- that every combination is visited exactly as listed, that each record belongs to exactly one index tuple, and that no built-in experiment runs twice;
- that the runner is called once per combination, in loop order, with that combination's command;
- the shape of each record;
- that a failing run is stored as its message and the sweep carries on;
- that each built-in configuration yields 24 records.

The modules follow the script's structure:

- `Experiments`: the values, meaning the configuration, a combination, a run's outcome, the record and the two built-in configurations.
- `Dispatch`: `run_experiment`'s command construction. It is modelled twice, as the string templates and as a structured invocation (directory, script, options) rendered to text. A lemma proves the two agree.
- `Grid`: the order of the four nested loops, as functions over the lists they walk.
- `Sweep`: `run_setup` as a method with the same four loops. It is proved against `SweepRecords`, the list of records the sweep produces, and lemmas state the driver's promises about that list.

The external process is a parameter, `Runner`. The runner receives two things:

- the position of the call within the sweep (0, 1, 2, ...);
- the command line.

It answers `Ok(output)` or `Err(message)`. Passing the position lets the outside world answer the same command differently at different times. It also lets the lemmas state that call number `p` received the command for combination `p`.

## Model

| member | source | states |
|---|---|---|
| Dispatch.LowerChar | expo.py:28 | an ASCII capital letter maps to its small letter; every other character is unchanged; the result is never a capital |
| Dispatch.Lower | expo.py:28 | `model.lower()` keeps the length, lower-cases each character at its own position, and leaves no capital letter |
| Dispatch.LowerIdempotent | expo.py:28 | lower-casing an already lower-cased name changes nothing |
| Dispatch.CommandLine | expo.py:21-30 | the definition of the two command templates, chosen by exact comparison of the task with "node classification"; what it means is stated by CommandLineRendersDispatch, NodeFamilyExactlyForNodeTask and LinkCommandIgnoresModelCase |
| Dispatch.Dispatch | expo.py:21-30 | the task "node classification" and only that task selects the node-classification directory, and every other task selects the link-prediction directory; the script name is `REDRESS` (node classification) or the lower-cased model (link prediction) followed by `_<node>_<ranking>`, fixed by its prefix, its suffix and its length; the options are exactly `--dataset <dataset>` followed, for node classification only, by `--model <model>` |
| Dispatch.CommandLineRendersDispatch | expo.py:21-30 | the command text built by the two templates is exactly the rendering of the invocation `Dispatch` describes |
| Dispatch.NodeCommandRenders | expo.py:21-25 | the node-classification template renders `cd node\ classification; time python REDRESS_<node>_<ranking>.py --dataset <dataset> --model <model>` |
| Dispatch.LinkCommandRenders | expo.py:26-30 | the link-prediction template renders `cd link\ prediction; time python <model lower-cased>_<node>_<ranking>.py --dataset <dataset>` |
| Dispatch.NodeFamilyExactlyForNodeTask | expo.py:21 | a command starts with `cd node\ classification;` if and only if the task equals "node classification"; a different spelling or capitalisation falls to link prediction |
| Dispatch.LinkCommandIgnoresModelCase | expo.py:28 | for link prediction, the command does not depend on the capitalisation of the model name |
| Dispatch.ExampleProgramNames | expo.py:23-28 | the "feature"/"NDCG" combination selects `REDRESS_feature_NDCG` for node classification and, with model "GCN", `gcn_feature_NDCG` for link prediction |
| Experiments.GridSize | expo.py:35-38 | the number of combinations is zero exactly when one of the four lists is empty |
| Grid.Combinations | expo.py:35-38 | the loops visit as many combinations as the product of the four list lengths |
| Grid.Position | expo.py:35-38 | the definition of the index of the combination (i, j, k, l) in the loop order; PositionIsMixedRadix, PositionCovers and PositionUnique state what it means |
| Grid.PositionIsMixedRadix | expo.py:35-38 | the position of the combination with indices (i, j, k, l) is the mixed-radix number i·(R·D·M) + j·(D·M) + k·M + l |
| Grid.PositionCovers | expo.py:35-38 | every position below the number of combinations is the position of some in-range index tuple (i, j, k, l), so record p belongs to one node similarity, ranking similarity, dataset and model |
| Grid.PositionUnique | expo.py:35-38 | two in-range index tuples with the same position are the same tuple |
| Grid.PositionNextDataset | expo.py:37-38 | after the last model of one dataset comes the first model of the next dataset |
| Grid.PositionNextRanking | expo.py:36-37 | after the last dataset of one ranking similarity comes the next ranking similarity |
| Grid.PositionNextNode | expo.py:35-36 | after the last ranking similarity of one node similarity comes the next node similarity |
| Grid.PositionEnd | expo.py:35-38 | past the last node similarity, every combination has been counted |
| Grid.CombinationAt | expo.py:35-38 | the combination at position (i, j, k, l) is the task with the i-th node similarity, j-th ranking similarity, k-th dataset and l-th model |
| Grid.CombinationMembers | expo.py:35-38 | every visited combination carries the sweep's task and values taken from the four lists |
| Grid.CombinationsComplete | expo.py:35-38 | a combination is visited if and only if its task is the sweep's task and each of its values is listed in the matching dimension |
| Grid.NestedOrderExample | expo.py:35-38 | with node similarities [a, b], ranking similarities [x, y], one dataset and one model, the order is (a,x), (a,y), (b,x), (b,y) |
| Grid.CombinationsDistinct | expo.py:35-38 | when no list names a value twice, no combination is visited twice |
| Grid.BuiltInCombinationsDistinct | expo.py:5-17 | neither built-in configuration lists a value twice, so each built-in sweep runs 24 different experiments |
| Experiments.OutcomeText | expo.py:40-44 | the definition of `str(r)`: the output text on success, the exception's message on failure; OutcomesOnlyAffectOwnRecord states what the records keep of it |
| Sweep.RunExperiment | expo.py:19-30 | the definition of `run_experiment`: the runner's answer, as call number `call`, to the combination's command line |
| Sweep.RecordOf | expo.py:39-44 | the definition of one record: the five values followed by the outcome text; RecordAt and RecordsWellFormed state its shape within the sweep |
| Sweep.SweepRecords | expo.py:33-44 | the records the sweep leaves for the JSON dump, one per combination in loop order, as many as the product of the list lengths |
| Sweep.SweepCommands | expo.py:38-41 | the commands of the sweep's runner calls, one per combination in loop order, as many as the product of the list lengths |
| Sweep.RunSetup | expo.py:33-44 | the four loops produce exactly `SweepRecords`, one record per combination in nested order, and as many records as the product of the list lengths; the log of runner calls is exactly `SweepCommands`, so the runner is called once per combination, in loop order, with that combination's command |
| Sweep.NextRecord | expo.py:39-44 | the loop body at position p extends the first p records with the five values followed by the text of run number p |
| Sweep.NextCommand | expo.py:38-41 | the command the loop body passes to the runner at position p extends the first p commands by combination p's command |
| Sweep.RecordAt | expo.py:39-44 | record number p holds the task, the four values of combination p, and the text of the runner's answer to call p on that combination's command |
| Sweep.RecordsWellFormed | expo.py:39-44 | every record has six fields, starts with the task, and takes fields 2 to 5 from the matching dimension lists |
| Sweep.OutcomesOnlyAffectOwnRecord | expo.py:40-44 | whatever the runs return, the sweep has the same number of records and the same first five fields; a record changes only where its own run's answer changes; a failure stores its message and a success its output |
| Sweep.RunBuiltInSweeps | expo.py:49-50 | the script's two sweeps produce the records of the built-in configurations, 24 each |
| Sweep.BuiltInSweepSizes | expo.py:5-17 | each built-in configuration spans 2·2·3·2 = 24 combinations |
| Sweep.AllSucceedScenario | expo.py:33-44 | a one-value configuration whose run answers "ok" gives one record ending in "ok" |
| Sweep.FailureThenSuccessScenario | expo.py:40-44 | when the first of two runs fails with "boom" and the second answers "ok", both records are kept in order, ending in "boom" and in "ok" |

## Left out

- The external process (`subprocess.check_output` through a shell, then UTF-8 decoding of its output) is the `Runner` parameter. What the shell does with the command and what the experiment programs compute is not modelled.
- The trace print of the five arguments at expo.py:20 is output only and is not modelled.
- Sweep.RunSetup: writing the records as JSON to `<task>_results.json` (expo.py:46-47) is file output and is not modelled. The model ends with the record list the script dumps.
- Sweep.RunSetup: the message `str(e)` of an exception is taken as given in `Err(message)`. Python's formatting of exception texts is not modelled.
- Sweep.RunSetup: exceptions that are not `Exception`s, such as a keyboard interrupt, end the script. They are not modelled.
- Sweep.RunSetup: the same Python list object is first appended and then extended in place. The model rebuilds the last record as a value, so it does not model aliasing of that list.
- Experiments.SweepSetup: a configuration is a record with the four keys, so a dictionary with a missing key, which would raise `KeyError` outside the try block, cannot arise.
- Dispatch.Lower: lower-casing is ASCII only. Python's full Unicode case mapping is not modelled; all model names in the configurations are ASCII.
- Sweep.RunSetup: the runner is a function, so calling it has no effect Dafny can observe. The ghost log `calls` records the command of each call the loop makes; that each entry starts one external process is how the log is read, not something the verifier checks.
- The runner receives the call position as well as the command. This is more general than the script, whose runs see only the command. Every property proved holds for any runner.
