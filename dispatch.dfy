/**
 * Command dispatch of `run_experiment`: the task decides which family of
 * experiment programs runs, and the combination's values are formatted into
 * a shell command line. The command is modelled twice: once as the
 * string template the driver interpolates, once as a structured invocation
 * (directory, script, argument list) rendered to text, and the two are
 * proved to agree.
 */
module Dispatch {
  import opened Experiments

  /** ASCII lower-casing of one character. */
  function LowerChar(ch: char): (r: char)
    ensures 'A' <= ch <= 'Z' ==> r as int == ch as int + 32
    ensures !('A' <= ch <= 'Z') ==> r == ch
    ensures !('A' <= r <= 'Z')
  {
    if 'A' <= ch <= 'Z' then (ch as int - 'A' as int + 'a' as int) as char else ch
  }

  /** `str.lower`, restricted to ASCII letters. */
  function Lower(s: string): (r: string)
    ensures |r| == |s|
    ensures forall i :: 0 <= i < |s| ==> r[i] == LowerChar(s[i])
    ensures forall i :: 0 <= i < |r| ==> !('A' <= r[i] <= 'Z')
  {
    if s == [] then [] else [LowerChar(s[0])] + Lower(s[1..])
  }

  /** Lower-casing twice is lower-casing once. */
  lemma LowerIdempotent(s: string)
    ensures Lower(Lower(s)) == Lower(s)
  {
    assert forall i :: 0 <= i < |s| ==> Lower(Lower(s))[i] == Lower(s)[i];
  }

  /** The shell command line `run_experiment` passes to the external process,
      written as the two string templates of the driver. The directory names
      hold a backslash before the space, as the source's string does. */
  function CommandLine(c: Combination): string
  {
    if c.task == NodeClassification then
      "cd node\\ classification; time python REDRESS_" + c.node + "_" + c.ranking
        + ".py --dataset " + c.dataset + " --model " + c.model
    else
      "cd link\\ prediction; time python " + Lower(c.model) + "_" + c.node + "_" + c.ranking
        + ".py --dataset " + c.dataset
  }

  /** One command-line option `--flag value`. */
  datatype Argument = Argument(flag: string, value: string)

  /** A structured description of one experiment invocation: the working
      directory, the Python script (without `.py`) and its options. */
  datatype Invocation = Invocation(directory: string, script: string, arguments: seq<Argument>)

  /** The directory of the node-classification programs. */
  const NodeDirectory: string := "node\\ classification"

  /** The directory of the link-prediction programs. */
  const LinkDirectory: string := "link\\ prediction"

  /** Which program a combination selects, and with which options. The
      node-classification family is chosen by exact equality of the task
      name; every other task falls to the link-prediction family. */
  function Dispatch(c: Combination): (inv: Invocation)
    ensures c.task == NodeClassification ==> "REDRESS" <= inv.script
    ensures c.task != NodeClassification ==> Lower(c.model) <= inv.script
    ensures |inv.script| == (if c.task == NodeClassification then 7 else |c.model|) + |c.node| + |c.ranking| + 2
    ensures inv.script[|inv.script| - (|c.node| + |c.ranking| + 2)..] == "_" + c.node + "_" + c.ranking
    ensures |inv.arguments| == (if c.task == NodeClassification then 2 else 1)
    ensures inv.arguments[0] == Argument("dataset", c.dataset)
    ensures c.task == NodeClassification ==> inv.arguments[1] == Argument("model", c.model)
    ensures c.task == NodeClassification <==> inv.directory == NodeDirectory
    ensures c.task != NodeClassification <==> inv.directory == LinkDirectory
    ensures (exists a :: a in inv.arguments && a.flag == "model") <==> c.task == NodeClassification
    ensures forall a :: a in inv.arguments && a.flag == "model" ==> a.value == c.model
  {
    if c.task == NodeClassification then
      Invocation(NodeDirectory, "REDRESS_" + c.node + "_" + c.ranking,
                 [Argument("dataset", c.dataset), Argument("model", c.model)])
    else
      Invocation(LinkDirectory, Lower(c.model) + "_" + c.node + "_" + c.ranking,
                 [Argument("dataset", c.dataset)])
  }

  /** The options as they appear on a command line, each preceded by a space. */
  function RenderArguments(args: seq<Argument>): string
  {
    if args == [] then "" else " --" + args[0].flag + " " + args[0].value + RenderArguments(args[1..])
  }

  /** The shell command line of a structured invocation. */
  function Render(inv: Invocation): string
  {
    "cd " + inv.directory + "; time python " + inv.script + ".py" + RenderArguments(inv.arguments)
  }

  // The lemmas from here to LinkRegroup state nothing about the driver: each
  // splits or regroups fixed text. They are separate small proofs so that
  // CommandLineRendersDispatch does not take long string literals apart
  // itself, which keeps its proof cheap.

  /** The fixed text of the node-classification template, split where a
      rendering splits it. */
  lemma NodeTextSplits()
    ensures "cd node\\ classification; time python REDRESS_"
         == "cd " + NodeDirectory + "; time python " + "REDRESS_"
  {
    NodeTextSplitsScript();
    NodeTextSplitsPython();
    NodeTextSplitsDirectory();
  }

  lemma NodeTextSplitsScript()
    ensures "cd node\\ classification; time python REDRESS_"
         == "cd node\\ classification; time python " + "REDRESS_"
  {
  }

  lemma NodeTextSplitsPython()
    ensures "cd node\\ classification; time python " == "cd node\\ classification" + "; time python "
  {
  }

  lemma NodeTextSplitsDirectory()
    ensures "cd node\\ classification" == "cd " + "node\\ classification"
  {
  }

  /** The fixed text of the link-prediction template, split likewise. */
  lemma LinkTextSplits()
    ensures "cd link\\ prediction; time python " == "cd " + LinkDirectory + "; time python "
  {
    LinkTextSplitsPython();
    LinkTextSplitsDirectory();
  }

  lemma LinkTextSplitsPython()
    ensures "cd link\\ prediction; time python " == "cd link\\ prediction" + "; time python "
  {
  }

  lemma LinkTextSplitsDirectory()
    ensures "cd link\\ prediction" == "cd " + "link\\ prediction"
  {
  }

  /** The fixed text before the dataset, split likewise. */
  lemma DatasetTextSplits()
    ensures ".py --dataset " == ".py" + " --dataset "
  {
  }

  /** Regrouping a node-classification command line. */
  lemma NodeRegroup(prefix: string, n: string, r: string, middle: string, d: string, m: string)
    requires prefix == "cd " + NodeDirectory + "; time python " + "REDRESS_"
    requires middle == ".py" + " --dataset "
    ensures prefix + n + "_" + r + middle + d + " --model " + m
         == "cd " + NodeDirectory + "; time python " + ("REDRESS_" + n + "_" + r) + ".py"
              + (" --dataset " + d + " --model " + m)
  {
  }

  /** Regrouping a link-prediction command line. */
  lemma LinkRegroup(prefix: string, lowered: string, n: string, r: string, middle: string, d: string)
    requires prefix == "cd " + LinkDirectory + "; time python "
    requires middle == ".py" + " --dataset "
    ensures prefix + lowered + "_" + n + "_" + r + middle + d
         == "cd " + LinkDirectory + "; time python " + (lowered + "_" + n + "_" + r) + ".py"
              + (" --dataset " + d)
  {
  }

  /** The driver's string templates are exactly the rendering of the
      structured invocation: the templates select the program and options
      that `Dispatch` describes. */
  lemma CommandLineRendersDispatch(c: Combination)
    ensures CommandLine(c) == Render(Dispatch(c))
  {
    if c.task == NodeClassification {
      NodeCommandRenders(c);
    } else {
      LinkCommandRenders(c);
    }
  }

  /** The node-classification half of CommandLineRendersDispatch. */
  lemma NodeCommandRenders(c: Combination)
    requires c.task == NodeClassification
    ensures CommandLine(c) == Render(Dispatch(c))
  {
    var args := [Argument("dataset", c.dataset), Argument("model", c.model)];
    assert args[1..][1..] == [];
    assert RenderArguments(args[1..]) == " --model " + c.model;
    assert RenderArguments(args) == " --dataset " + c.dataset + " --model " + c.model;
    NodeTextSplits();
    DatasetTextSplits();
    NodeRegroup("cd node\\ classification; time python REDRESS_", c.node, c.ranking,
                ".py --dataset ", c.dataset, c.model);
  }

  /** The link-prediction half of CommandLineRendersDispatch. */
  lemma LinkCommandRenders(c: Combination)
    requires c.task != NodeClassification
    ensures CommandLine(c) == Render(Dispatch(c))
  {
    var args := [Argument("dataset", c.dataset)];
    assert args[1..] == [];
    assert RenderArguments(args) == " --dataset " + c.dataset;
    LinkTextSplits();
    DatasetTextSplits();
    LinkRegroup("cd link\\ prediction; time python ", Lower(c.model), c.node, c.ranking,
                ".py --dataset ", c.dataset);
  }

  /** The prefix that marks a node-classification command. */
  const NodePrefix: string := "cd node\\ classification;"

  /** A command changes into the node-classification directory exactly when
      the task is "node classification"; any other task string, including a
      differently capitalised one, yields a link-prediction command. */
  lemma NodeFamilyExactlyForNodeTask(c: Combination)
    ensures NodePrefix <= CommandLine(c) <==> c.task == NodeClassification
  {
    CommandLineRendersDispatch(c);
    var cmd := CommandLine(c);
    if c.task != NodeClassification {
      assert cmd[3] == 'l';
      assert NodePrefix[3] == 'n';
    } else {
      assert cmd[..|NodePrefix|] == NodePrefix;
    }
  }

  /** The link-prediction command does not depend on the capitalisation of
      the model name. */
  lemma LinkCommandIgnoresModelCase(c: Combination)
    requires c.task != NodeClassification
    ensures CommandLine(c) == CommandLine(c.(model := Lower(c.model)))
  {
    LowerIdempotent(c.model);
  }

  /** The programs selected for the example combinations: node similarity
      "feature" and ranking similarity "NDCG" select REDRESS_feature_NDCG for
      node classification, and gcn_feature_NDCG for link prediction with the
      model "GCN". */
  lemma ExampleProgramNames(dataset: string, model: string)
    ensures Dispatch(Combination(NodeClassification, "feature", "NDCG", dataset, model)).script
         == "REDRESS_feature_NDCG"
    ensures Dispatch(Combination(LinkPrediction, "feature", "NDCG", dataset, "GCN")).script
         == "gcn_feature_NDCG"
  {
    LowerGcn();
    ExampleScriptTexts();
  }

  // LowerGcn and ExampleScriptTexts likewise only evaluate fixed text for
  // ExampleProgramNames.

  /** "GCN" lower-cased. */
  lemma LowerGcn()
    ensures Lower("GCN") == "gcn"
  {
    var r := Lower("GCN");
    assert r[0] == LowerChar('G') && r[1] == LowerChar('C') && r[2] == LowerChar('N');
  }

  /** The two example script names, as concatenations. */
  lemma ExampleScriptTexts()
    ensures "REDRESS_" + "feature" + "_" + "NDCG" == "REDRESS_feature_NDCG"
    ensures "gcn" + "_" + "feature" + "_" + "NDCG" == "gcn_feature_NDCG"
  {
  }
}
