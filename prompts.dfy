/**
 * What the scripts ask the model. A call `ollama.generate(model, prompt=...)`
 * is modelled as `generate(p)` for a `Prompt` p whose text is `Render(p)`:
 * since the model's reply is arbitrary anyway, an oracle on prompts covers
 * every oracle on prompt strings, and the template wording is spelled out
 * once, here, instead of inside every operation that calls the model.
 */
module Prompts {
  import opened Text
  import opened Scripts

  datatype Prompt =
    | AnswerPrompt(variant: Variant, context: string, question: string)
    | JudgePrompt(variant: Variant, question: string, answer: string, expected: string)
    | ToolDecisionPrompt(historyText: string, question: string)
    | AgentAnswerPrompt(historyText: string, toolMessage: string, context: string, question: string)
    | ConceptCardsPrompt(excerpt: string)
    | QuizPrompt(excerpt: string)

  /** The prompt exists in the script named by its variant. */
  predicate Renderable(p: Prompt)
  {
    match p
    case AnswerPrompt(v, _, _) => v.HasAnswer()
    case JudgePrompt(v, _, _, _) => v.HasEvaluation()
    case _ => true
  }

  /** The text of the prompt, as the scripts' f-strings build it. */
  function Render(p: Prompt): string
    requires Renderable(p)
  {
    match p
    case AnswerPrompt(v, context, question) =>
      v.AnswerPreamble() + "\n\nContext:\n" + context + "\n\nQuestion: " + question + "\n\n" + v.AnswerCue()
    case JudgePrompt(v, question, answer, expected) =>
      if v == EvaluatedRagApp then
        "You are an impartial judge.\nQuestion: " + question + "\nAI Answer: " + answer
        + "\nExpected: " + expected + "\n\nScore (1\U{2013}5):\n"
        + "1. Faithfulness (no hallucination)\n2. Relevance (direct answer)\n"
        + "3. Abstention (says \"I don't know\" if no info)\n4. Overall Quality\n\n"
        + "Output only:\nScore: X/5\nReason: [1-2 sentences]\n"
      else
        "You are an impartial judge evaluating an AI answer against expected behavior.\nQuestion: " + question
        + "\nAI Answer: " + answer + "\nExpected Behavior: " + expected
        + "\n\nScore the answer on these criteria (1\U{E2}\U{20AC}\U{201C}5):\n"
        + "1. Faithfulness: Does it stick to facts without hallucination?\n"
        + "2. Relevance: Does it answer the question directly?\n"
        + "3. Abstention: If no info, does it say \"I don't have enough information\"?\n"
        + "4. Overall Quality\n\n"
        + "Output only:\nScore: X/5\nReason: [short explanation, 1-2 sentences]\n"
    case ToolDecisionPrompt(historyText, question) =>
      "You MUST reply with EXACTLY one of these, nothing else:\n\n"
      + "TOOL: calculate\nINPUT: the exact math expression (e.g. 15 * 23)\n\n"
      + "TOOL: get_current_time\nINPUT: none\n\n"
      + "NO_TOOL\n\n"
      + "Rules:\n"
      + "- ALWAYS use calculate for ANY math, multiplication, addition, numbers together\n"
      + "- Use get_current_time for time/date questions\n"
      + "- Do NOT calculate yourself\n"
      + "- Do NOT explain or add text\n\n"
      + "History:\n" + historyText + "\n\nQuestion: " + question
    case AgentAnswerPrompt(historyText, toolMessage, context, question) =>
      "You are a reliable assistant for the AI Engineering book.\n"
      + "Use ONLY context, history, and tool results.\n"
      + "Be concise, accurate. Cite sources when possible.\n"
      + "If no info, say: \"I don't have enough information.\"\n\n"
      + "History:\n" + historyText + "\n\nTool result: " + toolMessage
      + "\n\nContext:\n" + context + "\n\nQuestion: " + question
      + "\n\nAnswer (short, cite file/chunk when relevant):"
    case ConceptCardsPrompt(excerpt) =>
      "Extract 6\U{2013}8 key concepts from this chapter text.\n"
      + "For each concept:\n- Concept name (short)\n- 1-sentence explanation\n- Why it matters (1 sentence)\n\n"
      + "Output only JSON array:\n"
      + "[{\"concept\": \"...\", \"explanation\": \"...\", \"why_matters\": \"...\"}, ...]\n\n"
      + "Text:\n" + excerpt
    case QuizPrompt(excerpt) =>
      "Create 10 self-test quiz questions from this chapter text.\n"
      + "Mix: 4 multiple choice, 3 short answer, 3 true/false.\n"
      + "For each question:\n- question text\n- options (if MC)\n- correct_answer\n- explanation (1-2 sentences)\n\n"
      + "Output only JSON array:\n"
      + "[{\"type\": \"mc/short/tf\", \"question\": \"...\", \"options\": [\"A\", \"B\", ...] or null, "
      + "\"correct\": \"A\" or \"short answer text\", \"explanation\": \"...\"}, ...]\n\n"
      + "Text:\n" + excerpt
  }
}
