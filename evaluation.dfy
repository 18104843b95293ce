/**
 * The evaluation half of the 03 scripts: `judge_answer` asks the model for a
 * verdict on one answer, and `run_evaluation` answers and judges every row of
 * test_set.csv. Reading the CSV and writing the results file are outside the
 * model: the test set arrives as an Option (None when the file is missing).
 */
module Evaluation {
  import opened Text
  import opened Oracles
  import opened Scripts
  import opened Prompts
  import opened Rag

  /** One row of test_set.csv. */
  datatype TestRow = TestRow(question: string, category: string, expectedBehavior: string)

  /** One entry of `results`. */
  datatype ResultRow = ResultRow(question: string, category: string, answer: string, sources: string, score: string)

  /** What `run_evaluation` ends with: the missing-file message, the results and the closing message, or the IndexError of a search. */
  datatype EvalOutcome =
    | TestSetMissing(message: string)
    | Completed(results: seq<ResultRow>, message: string)
    | EvaluationCrashed

  /** `judge_answer(question, answer, expected)`. */
  function Judge(v: Variant, question: string, answer: string, expected: string, generate: Prompt -> GenResult): string
    requires v.HasEvaluation()
  {
    Verdict(generate(JudgePrompt(v, question, answer, expected)))
  }

  /** What `judge_answer` makes of the generation call's outcome. */
  function Verdict(g: GenResult): string
  {
    match g
    case Generated(response) => Strip(response)
    case GenFailed(e) => "Judge error: " + e
  }

  /** A verdict is the model's reply without surrounding whitespace, or "Judge error: " followed by the exception text. */
  lemma VerdictShape(g: GenResult)
    ensures g.Generated? ==> IsStripped(Verdict(g)) && |Verdict(g)| <= |g.response|
    ensures g.GenFailed? ==> StartsWith(Verdict(g), "Judge error: ") && EndsWith(Verdict(g), g.error)
  {
    var r := Verdict(g);
    if g.Generated? {
      StripShape(g.response);
    } else {
      assert r == "Judge error: " + g.error;
      assert r[..13] == "Judge error: ";
      assert r[|r| - |g.error|..] == g.error;
    }
  }

  /** One iteration of the `run_evaluation` loop; None when its search raises. */
  function EvaluateRow(store: VectorStore, v: Variant, row: TestRow, hits: seq<int>, generate: Prompt -> GenResult): (r: Option<ResultRow>)
    reads store
    requires v.HasEvaluation()
    requires store.index.Some? ==> FaissRow(hits, store.index.value.ntotal)
    ensures r.None? <==> store.Answer(v, row.question, hits, generate).SearchCrashed?
    ensures r.Some? ==> r.value.question == row.question && r.value.category == row.category
  {
    match store.Answer(v, row.question, hits, generate)
    case SearchCrashed => None
    case Reply(answer, sources) =>
      Some(ResultRow(row.question, row.category, answer, sources, Judge(v, row.question, answer, row.expectedBehavior, generate)))
  }

  /** Each row's faiss row is a valid answer of the store's index (any row will do without an index). */
  predicate RowsAnswerable(store: VectorStore, rows: seq<TestRow>, hits: seq<seq<int>>)
    reads store
  {
    |hits| == |rows| && (store.index.Some? ==> forall k :: 0 <= k < |hits| ==> FaissRow(hits[k], store.index.value.ntotal))
  }

  /**
   * `run_evaluation()`, hits[k] being the index's answer for row k's question:
   * the missing-file message; or one result per row, in row order, each
   * copying its row's question and category, and the closing message; or the
   * IndexError of some row's search, which a consistent store never raises.
   */
  method RunEvaluation(store: VectorStore, v: Variant, testSet: Option<seq<TestRow>>, hits: seq<seq<int>>,
                       generate: Prompt -> GenResult) returns (out: EvalOutcome)
    requires v.HasEvaluation()
    requires testSet.Some? ==> RowsAnswerable(store, testSet.value, hits)
    ensures testSet.None? <==> out.TestSetMissing?
    ensures out.TestSetMissing? ==> out.message == v.MissingTestSetMessage()
    ensures testSet.Some? && store.Valid() ==> out.Completed?
    ensures out.Completed? ==>
      && testSet.Some?
      && out.message == v.EvaluationDoneMessage()
      && |out.results| == |testSet.value|
      && forall k :: 0 <= k < |out.results| ==>
           && out.results[k].question == testSet.value[k].question
           && out.results[k].category == testSet.value[k].category
           && EvaluateRow(store, v, testSet.value[k], hits[k], generate) == Some(out.results[k])
    ensures out.EvaluationCrashed? ==>
      && testSet.Some?
      && exists k :: 0 <= k < |testSet.value|
           && EvaluateRow(store, v, testSet.value[k], hits[k], generate).None?
           && forall i :: 0 <= i < k ==> EvaluateRow(store, v, testSet.value[i], hits[i], generate).Some?
  {
    if testSet.None? {
      return TestSetMissing(v.MissingTestSetMessage());
    }
    var rows := testSet.value;
    var results: seq<ResultRow> := [];
    for k := 0 to |rows|
      invariant |results| == k
      invariant forall i :: 0 <= i < k ==> EvaluateRow(store, v, rows[i], hits[i], generate) == Some(results[i])
    {
      var result := EvaluateRow(store, v, rows[k], hits[k], generate);
      if result.None? {
        ValidStoreAnswers(store, v, rows[k].question, hits[k], generate);
        return EvaluationCrashed;
      }
      results := results + [result.value];
    }
    assert forall i :: 0 <= i < |rows| ==>
      results[i].question == rows[i].question && results[i].category == rows[i].category;
    return Completed(results, v.EvaluationDoneMessage());
  }
}
