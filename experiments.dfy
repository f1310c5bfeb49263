/**
 * The values the REDRESS experiment sweep works on: a sweep configuration
 * (one list of values per dimension), one combination of those values, the
 * outcome of one external experiment run, and the record stored for it.
 */
module Experiments {

  /** What the external experiment process gives back: its decoded standard
      output, or the string form of the exception raised while running it. */
  datatype Outcome = Ok(text: string) | Err(message: string)

  /** The external experiment runner. It receives the position of the call
      within the sweep (0 for the first combination, 1 for the next, ...) and
      the shell command line, so that the outside world may answer the same
      command differently at different times. */
  type Runner = (nat, string) -> Outcome

  /** A sweep configuration: the dictionary with the keys "dataset", "model",
      "node_similarity" and "ranking_similarity", each an ordered list. */
  datatype SweepSetup = SweepSetup(
    dataset: seq<string>,
    model: seq<string>,
    nodeSimilarity: seq<string>,
    rankingSimilarity: seq<string>)

  /** One experiment: the task and one value of each dimension. */
  datatype Combination = Combination(
    task: string,
    node: string,
    ranking: string,
    dataset: string,
    model: string)

  /** A result record is a list of strings:
      [task, node_similarity, ranking_similarity, dataset, model, outcome]. */
  type Record = seq<string>

  /** The one task name that selects the node-classification programs. */
  const NodeClassification: string := "node classification"

  /** The task name of the second built-in sweep. */
  const LinkPrediction: string := "link prediction"

  /** The built-in configuration of the node-classification sweep. */
  const NodeClassificationSetup: SweepSetup := SweepSetup(
    dataset := ["ACM", "coauthor-cs", "coauthor-phy"],
    model := ["SGC", "GCN"],
    nodeSimilarity := ["feature", "structural"],
    rankingSimilarity := ["NDCG", "ERR"])

  /** The built-in configuration of the link-prediction sweep. */
  const LinkPredictionSetup: SweepSetup := SweepSetup(
    dataset := ["BlogCatalog", "facebook", "Flickr"],
    model := ["GCN", "GAE"],
    nodeSimilarity := ["feature", "structural"],
    rankingSimilarity := ["NDCG", "ERR"])

  /** The number of combinations a configuration spans. */
  function GridSize(setup: SweepSetup): (size: nat)
    ensures size == 0 <==> (|setup.nodeSimilarity| == 0 || |setup.rankingSimilarity| == 0
                            || |setup.dataset| == 0 || |setup.model| == 0)
  {
    |setup.nodeSimilarity| * (|setup.rankingSimilarity| * (|setup.dataset| * |setup.model|))
  }

  /** `str(r)` of the value the try block leaves in `r`: the output text on
      success, the exception's message on failure. */
  function OutcomeText(o: Outcome): string
  {
    match o
    case Ok(text) => text
    case Err(message) => message
  }
}
