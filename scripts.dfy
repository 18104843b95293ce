/**
 * The four retrieval scripts share one loader, one search and one answer
 * step; they differ only in the strings they return and in whether a reader
 * exception skips the file. Those differences live here, one `Variant` per
 * script:
 *   PersonalRag      01-first-project/projects/02-personal-rag/app.py
 *   EvaluatedRagApp  .../03-evaluated-rag/app.py
 *   EvaluatedRagEval .../03-evaluated-rag/eval.py
 *   ReliableAgent    projects/04-reliable-agent/app.py
 */
module Scripts {
  import opened Text

  /** `TOP_K`: neighbours asked of the index per question. */
  const TopK: nat := 3

  datatype Variant = PersonalRag | EvaluatedRagApp | EvaluatedRagEval | ReliableAgent
  {
    /** The 03 scripts wrap each reader in try/except and `continue`; 02 and 04 let the exception escape. */
    predicate SkipsUnreadableFiles()
    {
      this == EvaluatedRagApp || this == EvaluatedRagEval
    }

    /** What `load_documents` returns when no chunk was produced. */
    function NoDocumentsStatus(): string
    {
      match this
      case PersonalRag => "No documents loaded or text extracted."
      case EvaluatedRagEval => "No documents loaded or no text extracted."
      case _ => "No documents loaded."
    }

    /** What `load_documents` returns after building the index; fileCount is the folder's entry count. */
    function LoadedStatus(chunkCount: nat, fileCount: nat): string
    {
      if this == ReliableAgent then "Loaded " + NatToString(chunkCount) + " chunks."
      else "Loaded " + NatToString(chunkCount) + " chunks from " + NatToString(fileCount) + " files."
    }

    /** The context `search` returns when no index exists (its sources are always ""). */
    function NoIndexContext(): string
    {
      if this == PersonalRag then "Please load documents first." else ""
    }

    /** The words before the start offset in a source entry. */
    function ChunkLabel(): string
    {
      if this == PersonalRag || this == EvaluatedRagEval then "chunk starting at " else "chunk "
    }

    /** What the reply starts with when the final generation call raises. */
    function GenerationErrorPrefix(): string
    {
      if this == PersonalRag || this == EvaluatedRagEval then "Error generating answer: " else "Error: "
    }

    /** The scripts with an `answer(question)` function (04 answers through its agent instead). */
    predicate HasAnswer()
    {
      this != ReliableAgent
    }

    /** The instructions `answer` puts before the context. */
    function AnswerPreamble(): string
      requires HasAnswer()
    {
      match this
      case PersonalRag =>
        "You are a helpful assistant answering questions about the AI Engineering book.\n"
        + "Use ONLY the provided context to answer. Be concise, clear, and accurate.\n"
        + "If the information is not in the context, say exactly: \"I don't have enough information from the documents.\"\n\n"
        + "Always cite the source file and relevant part when possible."
      case EvaluatedRagApp =>
        "You are a helpful assistant answering questions strictly based on the AI Engineering book.\n"
        + "Use ONLY the provided context. Be concise, accurate.\n"
        + "If not in context, say: \"I don't have enough information from the documents.\"\n\n"
        + "Always cite source file and chunk when possible."
      case EvaluatedRagEval =>
        "You are a helpful assistant answering questions strictly based on the AI Engineering book.\n"
        + "Use ONLY the provided context below to answer. Be concise, clear, accurate, and professional.\n"
        + "If the information is not in the context, say exactly: \"I don't have enough information from the documents.\"\n\n"
        + "Always cite the source file and relevant part when possible (e.g., \"From ai-engineering-book.pdf, chunk starting at 1500: ...\")."
    }

    /** The last line of the answer prompt. */
    function AnswerCue(): string
      requires HasAnswer()
    {
      if this == EvaluatedRagApp then "Answer (short, bullet points if helpful):"
      else "Answer (keep short, use bullet points if helpful):"
    }

    /** The 03 scripts, which have `judge_answer` and `run_evaluation` over `answer`. */
    predicate HasEvaluation()
    {
      this == EvaluatedRagApp || this == EvaluatedRagEval
    }

    /** The outcome of `run_evaluation` when test_set.csv cannot be read (eval.py prints it and returns None). */
    function MissingTestSetMessage(): string
      requires HasEvaluation()
    {
      if this == EvaluatedRagApp then "test_set.csv not found." else "Error: test_set.csv not found in the folder."
    }

    /** The closing message of `run_evaluation` (eval.py prints it after writing evaluation_results.csv). */
    function EvaluationDoneMessage(): string
      requires HasEvaluation()
    {
      if this == EvaluatedRagApp then "Evaluation complete!"
      else "\nEvaluation complete. Results saved to evaluation_results.csv"
    }
  }
}
