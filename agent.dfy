/**
 * The agent of projects/04-reliable-agent/app.py: a calculator tool behind
 * an input sanitiser, a math shortcut that answers arithmetic questions
 * without the model, a strict `TOOL:` / `INPUT:` reply protocol, and a
 * conversation history trimmed to the last 2 * MAX_HISTORY entries.
 */
module Agent {
  import opened Text
  import opened Oracles
  import opened Scripts
  import opened Prompts
  import opened Chunking
  import opened Rag

  /** `MAX_HISTORY`: the history keeps 2 * MaxHistory entries after a trim. */
  const MaxHistory: nat := 5

  // ---------------------------------------------------------------------
  // calculate
  // ---------------------------------------------------------------------

  // The characters the class `[^\d\+\-\*/xX(). ]` does not remove.
  predicate Allowed(c: char)
  {
    IsDigit(c) || c == '+' || c == '-' || c == '*' || c == '/' || c == 'x' || c == 'X'
    || c == '(' || c == ')' || c == '.' || c == ' '
  }

  /** What may reach numexpr: digits, `+ - * / ( ) .` and spaces. */
  predicate Safe(c: char)
  {
    Allowed(c) && c != 'x' && c != 'X'
  }

  // `re.sub(r'[^\d\+\-\*/xX(). ]', '', s)`: the allowed characters, in order.
  function Filter(s: string): (r: string)
    ensures |r| <= |s|
    ensures forall k :: 0 <= k < |r| ==> Allowed(r[k])
  {
    if s == [] then []
    else
      var c := s[|s| - 1];
      Filter(s[..|s| - 1]) + (if Allowed(c) then [c] else [])
  }

  /** `s.replace(a, b)` for one-character a and b. */
  function ReplaceChar(s: string, a: char, b: char): (r: string)
    ensures |r| == |s| && forall k :: 0 <= k < |s| ==> r[k] == (if s[k] == a then b else s[k])
    ensures a != b ==> a !in r
  {
    seq(|s|, k requires 0 <= k < |s| => if s[k] == a then b else s[k])
  }

  /** The expression `calculate` hands to numexpr: only safe characters, never an x or X. */
  function Sanitize(expression: string): (r: string)
    ensures |r| <= |expression|
    ensures forall k :: 0 <= k < |r| ==> Safe(r[k])
  {
    ReplaceChar(ReplaceChar(Filter(expression), 'x', '*'), 'X', '*')
  }

  /** The filter works character by character: on a concatenation it filters each part. */
  lemma {:induction false} FilterAppend(a: string, b: string)
    ensures Filter(a + b) == Filter(a) + Filter(b)
    decreases |b|
  {
    if b == [] {
      assert a + b == a;
    } else {
      var c := b[|b| - 1];
      assert (a + b)[..|a + b| - 1] == a + b[..|b| - 1];
      assert (a + b)[|a + b| - 1] == c;
      FilterAppend(a, b[..|b| - 1]);
    }
  }

  /** One character survives the filter exactly when it is allowed. */
  lemma FilterChar(c: char)
    ensures Filter([c]) == (if Allowed(c) then [c] else [])
  {
    assert [c][..0] == [];
  }

  /** The sanitiser, too, treats each part of a concatenation on its own. */
  lemma SanitizeAppend(a: string, b: string)
    ensures Sanitize(a + b) == Sanitize(a) + Sanitize(b)
  {
    FilterAppend(a, b);
    var fa, fb := Filter(a), Filter(b);
    assert ReplaceChar(fa + fb, 'x', '*') == ReplaceChar(fa, 'x', '*') + ReplaceChar(fb, 'x', '*');
    var ra, rb := ReplaceChar(fa, 'x', '*'), ReplaceChar(fb, 'x', '*');
    assert ReplaceChar(ra + rb, 'X', '*') == ReplaceChar(ra, 'X', '*') + ReplaceChar(rb, 'X', '*');
  }

  /** Text made of allowed characters passes the filter unchanged. */
  lemma {:induction false} FilterKeepsAllowed(s: string)
    requires forall k :: 0 <= k < |s| ==> Allowed(s[k])
    ensures Filter(s) == s
    decreases |s|
  {
    if s != [] {
      FilterKeepsAllowed(s[..|s| - 1]);
      assert s == s[..|s| - 1] + [s[|s| - 1]];
    }
  }

  /** The sanitiser leaves a text unchanged exactly when every character of it is safe. */
  lemma SanitizeFixedPoints(s: string)
    ensures Sanitize(s) == s <==> forall k :: 0 <= k < |s| ==> Safe(s[k])
  {
    if forall k :: 0 <= k < |s| ==> Safe(s[k]) {
      FilterKeepsAllowed(s);
      assert ReplaceChar(s, 'x', '*') == s;
      assert ReplaceChar(s, 'X', '*') == s;
    }
  }

  /** Sanitising twice is sanitising once. */
  lemma SanitizeIdempotent(expression: string)
    ensures Sanitize(Sanitize(expression)) == Sanitize(expression)
  {
    SanitizeFixedPoints(Sanitize(expression));
  }

  /**
   * `calculate(expression)`, evaluate(s) being `str(numexpr.evaluate(s))`,
   * None where numexpr raises: the result, or "Calculation error.".
   */
  function Calculate(expression: string, evaluate: string -> Option<string>): (r: string)
    ensures evaluate(Sanitize(expression)).None? ==> r == "Calculation error."
    ensures evaluate(Sanitize(expression)).Some? ==> r == evaluate(Sanitize(expression)).value
    ensures evaluate(Sanitize(expression)).None? ==> Contains(Lower(r), "error")
  {
    match evaluate(Sanitize(expression))
    case Some(result) => result
    case None => CalculationErrorMentionsError(); "Calculation error."
  }

  /** The failure text of `calculate` contains "error" once lower-cased. */
  lemma CalculationErrorMentionsError()
    ensures Contains(Lower("Calculation error."), "error")
  {
    var low := Lower("Calculation error.");
    assert low[12..17] == "error";
    assert OccursAt(low, "error", 12);
    ContainsIff(low, "error");
  }

  // ---------------------------------------------------------------------
  // The math shortcut: re.search(r'\d+\s*[\+\-\*/xX]\s*\d+', question)
  // ---------------------------------------------------------------------

  predicate IsOperator(c: char)
  {
    c == '+' || c == '-' || c == '*' || c == '/' || c == 'x' || c == 'X'
  }

  /**
   * q[p..d] spells the pattern with its operator at o: digits up to i,
   * whitespace up to o, whitespace from o + 1 up to k, digits from k up to d.
   */
  predicate ArithAt(q: string, p: nat, i: nat, o: nat, k: nat, d: nat)
  {
    && p < i <= o < k < d <= |q|
    && AllIn(q, p, i, IsDigit) && AllIn(q, i, o, IsSpace) && IsOperator(q[o])
    && AllIn(q, o + 1, k, IsSpace) && AllIn(q, k, d, IsDigit)
  }

  /** Where the pattern matches from p, the end of the match: every repetition takes all it can. */
  function MatchFrom(q: string, p: nat): (r: Option<nat>)
    requires p <= |q|
    ensures r.Some? ==> p < r.value <= |q|
  {
    if p < |q| && IsDigit(q[p]) then
      var i := RunEnd(q, p, IsDigit);
      var o := RunEnd(q, i, IsSpace);
      if o < |q| && IsOperator(q[o]) then
        var k := RunEnd(q, o + 1, IsSpace);
        var d := RunEnd(q, k, IsDigit);
        if k < d then Some(d) else None
      else None
    else None
  }

  /** A match from p is an occurrence of the pattern, ending where the digits run out. */
  lemma MatchFromSound(q: string, p: nat)
    requires p <= |q| && MatchFrom(q, p).Some?
    ensures var d := MatchFrom(q, p).value;
      (exists i, o, k :: ArithAt(q, p, i, o, k, d)) && (d == |q| || !IsDigit(q[d]))
  {
    var i := RunEnd(q, p, IsDigit);
    var o := RunEnd(q, i, IsSpace);
    var k := RunEnd(q, o + 1, IsSpace);
    var d := RunEnd(q, k, IsDigit);
    assert ArithAt(q, p, i, o, k, d);
  }

  /** Wherever the pattern occurs from p, the matcher matches from p, at least as far. */
  lemma MatchFromComplete(q: string, p: nat, i: nat, o: nat, k: nat, d: nat)
    requires ArithAt(q, p, i, o, k, d)
    ensures MatchFrom(q, p).Some? && MatchFrom(q, p).value >= d
  {
    RunEndAt(q, p, i, IsDigit);
    RunEndAt(q, i, o, IsSpace);
    RunEndAt(q, o + 1, k, IsSpace);
    RunEndAt(q, k, d, IsDigit);
  }

  /** `re.search`: the leftmost start from p on where the pattern matches, with the end of that match. */
  function SearchFrom(q: string, p: nat): (r: Option<(nat, nat)>)
    requires p <= |q|
    ensures r.Some? ==> p <= r.value.0 < r.value.1 <= |q|
    decreases |q| - p
  {
    match MatchFrom(q, p)
    case Some(d) => Some((p, d))
    case None => if p == |q| then None else SearchFrom(q, p + 1)
  }

  /** The search stops at the first start from which the matcher matches, with that match. */
  lemma {:induction false} SearchFromFirst(q: string, p: nat)
    requires p <= |q|
    ensures var r := SearchFrom(q, p);
      && (r.Some? ==> MatchFrom(q, r.value.0) == Some(r.value.1))
      && forall t: nat :: p <= t <= |q| && (r.None? || t < r.value.0) ==> MatchFrom(q, t).None?
    decreases |q| - p
  {
    if MatchFrom(q, p).None? && p < |q| {
      SearchFromFirst(q, p + 1);
    }
  }

  /** `math_match.group(0)`, None where there is no match. */
  function MathMatch(question: string): Option<string>
  {
    match SearchFrom(question, 0)
    case None => None
    case Some(m) => Some(question[m.0..m.1])
  }

  /**
   * The search finds the leftmost occurrence of the pattern and extends it as
   * far as the digits go; it finds nothing only when the pattern occurs nowhere.
   */
  lemma MathSearchLeftmost(q: string)
    ensures SearchFrom(q, 0).Some? ==>
      var s := SearchFrom(q, 0).value.0;
      var d := SearchFrom(q, 0).value.1;
      && (exists i, o, k :: ArithAt(q, s, i, o, k, d))
      && (d == |q| || !IsDigit(q[d]))
      && forall t: nat, i: nat, o: nat, k: nat, e: nat :: t < s ==> !ArithAt(q, t, i, o, k, e)
    ensures SearchFrom(q, 0).None? ==> forall t: nat, i: nat, o: nat, k: nat, e: nat :: !ArithAt(q, t, i, o, k, e)
  {
    var r := SearchFrom(q, 0);
    SearchFromFirst(q, 0);
    if r.Some? {
      MatchFromSound(q, r.value.0);
    }
    forall t, i, o, k, e | ArithAt(q, t, i, o, k, e)
      ensures r.Some? && r.value.0 <= t
    {
      MatchFromComplete(q, t, i, o, k, e);
    }
  }

  // ---------------------------------------------------------------------
  // The tool protocol
  // ---------------------------------------------------------------------

  /** How the stripped tool-decision reply reads. */
  datatype ToolDecision =
    | NoTool                                    // does not start with "TOOL:"
    | MalformedToolLine                         // "TOOL:" without "TOOL: " on the first line: IndexError
    | ToolCall(name: string, input: string)

  /** The markers of the tool-call reply format. */
  const ToolPrefix := "TOOL:"
  const ToolMarker := "TOOL: "
  const InputMarker := "INPUT: "

  /** The parsing in `agent`, applied to the stripped reply. */
  function ParseToolDecision(decision: string): ToolDecision
  {
    if !StartsWith(decision, ToolPrefix) then NoTool
    else
      LinesRoundTrip(decision);
      var lines := Lines(decision);
      match SplitSecond(Strip(lines[0]), ToolMarker)
      case None => MalformedToolLine
      case Some(name) =>
        var inputLine := if |lines| > 1 then Strip(lines[1]) else "";
        var input := match SplitSecond(inputLine, InputMarker) case Some(x) => Strip(x) case None => "";
        ToolCall(Strip(name), input)
  }

  /** The reply the tool prompt asks for. */
  function FormatToolCall(name: string, input: string): string
  {
    ToolMarker + name + "\n" + InputMarker + input
  }

  /**
   * A reply written as the prompt asks parses back into the same call, as
   * long as the name and the input are non-empty, stripped, on one line, and
   * free of the markers.
   */
  lemma ParseFormatted(name: string, input: string)
    requires name != "" && input != "" && IsStripped(name) && IsStripped(input)
    requires '\n' !in name && '\n' !in input
    requires !Contains(name, ToolMarker) && !Contains(input, InputMarker)
    ensures ParseToolDecision(FormatToolCall(name, input)) == ToolCall(name, input)
  {
    var a := ToolMarker + name;
    var b := InputMarker + input;
    var s := FormatToolCall(name, input);
    assert s == a + "\n" + b;
    assert s[..5] == ToolPrefix;
    assert '\n' !in a && '\n' !in b;
    LinesOfTwo(a, b);
    MarkedLine(ToolMarker, name);
    MarkedLine(InputMarker, input);
  }

  /** The names in `TOOLS`. */
  predicate IsTool(name: string)
  {
    name == "calculate" || name == "get_current_time"
  }

  /** What the tool step leaves in `tool_msg`, and whether it appended that message to the history. */
  datatype ToolStep = ToolStep(message: string, logged: bool)

  /**
   * The dispatch in `agent`: calculate runs and is logged; get_current_time,
   * called with one argument while it takes none, raises TypeError, caught as
   * "Tool call failed."; an unknown name does nothing.
   */
  function RunTool(decision: ToolDecision, evaluate: string -> Option<string>): ToolStep
  {
    match decision
    case NoTool => ToolStep("", false)
    case MalformedToolLine => ToolStep("Tool call failed.", false)
    case ToolCall(name, input) =>
      if name == "calculate" then ToolStep("Tool calculate result: " + Calculate(input, evaluate), true)
      else if name == "get_current_time" then ToolStep("Tool call failed.", false)
      else ToolStep("", false)
  }

  /**
   * `tool_msg` stays "" exactly when the reply names no tool of `TOOLS`; the
   * history gains an entry exactly for a calculate call; every other outcome
   * of a tool line is "Tool call failed.".
   */
  lemma RunToolOutcomes(decision: ToolDecision, evaluate: string -> Option<string>)
    ensures var step := RunTool(decision, evaluate);
      && (step.message == "" <==> decision.NoTool? || (decision.ToolCall? && !IsTool(decision.name)))
      && (step.logged <==> decision.ToolCall? && decision.name == "calculate")
      && (step.message != "" && !step.logged ==> step.message == "Tool call failed.")
  {
  }

  // ---------------------------------------------------------------------
  // History
  // ---------------------------------------------------------------------

  datatype Role = User | Assistant

  datatype Message = Message(role: Role, content: string)

  /** `msg['role'].capitalize()` for the two roles the agent writes. */
  function RoleLabel(r: Role): string
  {
    match r
    case User => "User"
    case Assistant => "Assistant"
  }

  /** `"\n".join(f"{role}: {content}" for msg in history)` */
  function HistoryText(h: seq<Message>): string
  {
    Join(seq(|h|, k requires 0 <= k < |h| => RoleLabel(h[k].role) + ": " + h[k].content), "\n")
  }

  /** The trim: `history[-MAX_HISTORY * 2:]` when longer than that. */
  function Window(h: seq<Message>): (r: seq<Message>)
  {
    if |h| > 2 * MaxHistory then h[|h| - 2 * MaxHistory..] else h
  }

  /** The trim keeps the last 2 * MaxHistory entries in their order, and all of a history no longer than that. */
  lemma WindowShape(h: seq<Message>)
    ensures |Window(h)| == Min(|h|, 2 * MaxHistory)
    ensures Window(h) == h[|h| - |Window(h)|..]
    ensures Window(Window(h)) == Window(h)
  {
  }

  // ---------------------------------------------------------------------
  // One turn
  // ---------------------------------------------------------------------

  /** `agent` returns (answer, sources), or raises: a failed tool-decision call or an IndexError in search. */
  datatype AgentReply = AgentReply(answer: string, sources: string) | AgentCrashed

  datatype TurnResult = TurnResult(history: seq<Message>, reply: AgentReply)

  /** The math shortcut's reply text, when it fires: a match whose calculation does not mention "error". */
  function Shortcut(question: string, evaluate: string -> Option<string>): Option<string>
  {
    match MathMatch(question)
    case None => None
    case Some(expression) =>
      var result := Calculate(expression, evaluate);
      if Contains(Lower(result), "error") then None else Some("Calculation: " + result)
  }

  /**
   * `agent(question)` from history h: the new history and the reply. The
   * index answers the question with `hits`; the model answers prompt p with
   * generate(p).
   */
  function Turn(h: seq<Message>, question: string, index: Option<FlatIndex>, metadata: seq<ChunkMeta>,
                hits: seq<int>, generate: Prompt -> GenResult, evaluate: string -> Option<string>): TurnResult
    requires index.Some? ==> FaissRow(hits, index.value.ntotal)
  {
    match Shortcut(question, evaluate)
    case Some(text) =>
      TurnResult(h + [Message(User, question), Message(Assistant, text)], AgentReply(text, ""))
    case None =>
      ModelTurn(Window(h + [Message(User, question)]), question, index, metadata, hits, generate, evaluate)
  }

  /** The turn after the trim, h1 being the trimmed history: the tool decision, the tool, the search and the answer. */
  function ModelTurn(h1: seq<Message>, question: string, index: Option<FlatIndex>, metadata: seq<ChunkMeta>,
                     hits: seq<int>, generate: Prompt -> GenResult, evaluate: string -> Option<string>): TurnResult
    requires index.Some? ==> FaissRow(hits, index.value.ntotal)
  {
    var historyText := HistoryText(h1);
    match generate(ToolDecisionPrompt(historyText, question))
    case GenFailed(_) => TurnResult(h1, AgentCrashed)
    case Generated(response) =>
      var step := RunTool(ParseToolDecision(Strip(response)), evaluate);
      var h2 := if step.logged then h1 + [Message(Assistant, step.message)] else h1;
      AnswerStep(h2, historyText, step.message, question, SearchResult(ReliableAgent, index, metadata, hits), generate)
  }

  /** The turn after the tool step, h2 being the history so far: the search's outcome and the final generation. */
  function AnswerStep(h2: seq<Message>, historyText: string, toolMessage: string, question: string,
                      found: SearchOutcome, generate: Prompt -> GenResult): TurnResult
  {
    match found
    case SearchFailed => TurnResult(h2, AgentCrashed)
    case Found(context, sources) =>
      match generate(AgentAnswerPrompt(historyText, toolMessage, context, question))
      case Generated(answer) => TurnResult(h2 + [Message(Assistant, Strip(answer))], AgentReply(Strip(answer), sources))
      case GenFailed(e) => TurnResult(h2, AgentReply("Error: " + e, sources))
  }

  /**
   * When the shortcut fires the turn calls neither the model nor the index:
   * any model and any index give the same turn, which appends exactly the
   * question and "Calculation: ..." to the history, untrimmed, with no sources.
   */
  lemma ShortcutSkipsModel(h: seq<Message>, question: string, evaluate: string -> Option<string>,
                           index1: Option<FlatIndex>, metadata1: seq<ChunkMeta>, hits1: seq<int>, generate1: Prompt -> GenResult,
                           index2: Option<FlatIndex>, metadata2: seq<ChunkMeta>, hits2: seq<int>, generate2: Prompt -> GenResult)
    requires Shortcut(question, evaluate).Some?
    requires index1.Some? ==> FaissRow(hits1, index1.value.ntotal)
    requires index2.Some? ==> FaissRow(hits2, index2.value.ntotal)
    ensures var t := Turn(h, question, index1, metadata1, hits1, generate1, evaluate);
      && t == Turn(h, question, index2, metadata2, hits2, generate2, evaluate)
      && |t.history| == |h| + 2 && t.history[..|h|] == h
      && t.history[|h|..] == [Message(User, question), Message(Assistant, Shortcut(question, evaluate).value)]
      && t.reply == AgentReply(Shortcut(question, evaluate).value, "")
      && Shortcut(question, evaluate).value == "Calculation: " + Calculate(MathMatch(question).value, evaluate)
  {
  }

  /**
   * Without the shortcut the turn first trims: the history it shows the model
   * is the last 2 * MaxHistory entries of the old history plus the question,
   * and the new history extends that window by at most the tool entry and the
   * answer.
   */
  lemma TurnKeepsWindow(h: seq<Message>, question: string, index: Option<FlatIndex>, metadata: seq<ChunkMeta>,
                        hits: seq<int>, generate: Prompt -> GenResult, evaluate: string -> Option<string>)
    requires Shortcut(question, evaluate).None?
    requires index.Some? ==> FaissRow(hits, index.value.ntotal)
    ensures var w := Window(h + [Message(User, question)]);
      var t := Turn(h, question, index, metadata, hits, generate, evaluate);
      && |w| <= 2 * MaxHistory
      && w[|w| - 1] == Message(User, question)
      && |w| <= |t.history| <= |w| + 2
      && t.history[..|w|] == w
  {
    var w := Window(h + [Message(User, question)]);
    WindowShape(h + [Message(User, question)]);
    ModelTurnExtends(w, question, index, metadata, hits, generate, evaluate);
  }

  /** After the trim the turn only appends: at most the tool entry and the answer. */
  lemma ModelTurnExtends(h1: seq<Message>, question: string, index: Option<FlatIndex>, metadata: seq<ChunkMeta>,
                         hits: seq<int>, generate: Prompt -> GenResult, evaluate: string -> Option<string>)
    requires index.Some? ==> FaissRow(hits, index.value.ntotal)
    ensures var t := ModelTurn(h1, question, index, metadata, hits, generate, evaluate);
      |h1| <= |t.history| <= |h1| + 2 && t.history[..|h1|] == h1
  {
    var g := generate(ToolDecisionPrompt(HistoryText(h1), question));
    if g.Generated? {
      ToolReplyExtends(h1, question, index, metadata, hits, generate, evaluate, g.response);
    }
  }

  /** Once the model has replied to the tool prompt, the tool step and the answer step append one entry each at most. */
  lemma ToolReplyExtends(h1: seq<Message>, question: string, index: Option<FlatIndex>, metadata: seq<ChunkMeta>,
                         hits: seq<int>, generate: Prompt -> GenResult, evaluate: string -> Option<string>, response: string)
    requires index.Some? ==> FaissRow(hits, index.value.ntotal)
    requires generate(ToolDecisionPrompt(HistoryText(h1), question)) == Generated(response)
    ensures var t := ModelTurn(h1, question, index, metadata, hits, generate, evaluate);
      |h1| <= |t.history| <= |h1| + 2 && t.history[..|h1|] == h1
  {
    ModelTurnAfterTool(h1, question, index, metadata, hits, generate, evaluate, response);
    StepsExtend(h1, RunTool(ParseToolDecision(Strip(response)), evaluate), HistoryText(h1), question,
                SearchResult(ReliableAgent, index, metadata, hits), generate);
  }

  /** Whatever the tool step was, it and the answer step after it append one entry each at most. */
  lemma StepsExtend(h1: seq<Message>, step: ToolStep, historyText: string, question: string,
                    found: SearchOutcome, generate: Prompt -> GenResult)
    ensures var h2 := if step.logged then h1 + [Message(Assistant, step.message)] else h1;
      var t := AnswerStep(h2, historyText, step.message, question, found, generate);
      |h1| <= |t.history| <= |h1| + 2 && t.history[..|h1|] == h1
  {
    var h2 := if step.logged then h1 + [Message(Assistant, step.message)] else h1;
    AnswerStepExtends(h2, historyText, step.message, question, found, generate);
    assert h2[..|h1|] == h1;
    ExtendsTwice(h1, h2, AnswerStep(h2, historyText, step.message, question, found, generate).history);
  }

  /** Two steps that each append at most one entry append at most two. */
  lemma ExtendsTwice(h1: seq<Message>, h2: seq<Message>, h3: seq<Message>)
    requires |h1| <= |h2| <= |h1| + 1 && h2[..|h1|] == h1
    requires |h2| <= |h3| <= |h2| + 1 && h3[..|h2|] == h2
    ensures |h1| <= |h3| <= |h1| + 2 && h3[..|h1|] == h1
  {
    assert h3[..|h1|] == h3[..|h2|][..|h1|];
  }

  /** Once the model has replied to the tool prompt, the turn is the answer step after that reply's tool step. */
  lemma ModelTurnAfterTool(h1: seq<Message>, question: string, index: Option<FlatIndex>, metadata: seq<ChunkMeta>,
                           hits: seq<int>, generate: Prompt -> GenResult, evaluate: string -> Option<string>, response: string)
    requires index.Some? ==> FaissRow(hits, index.value.ntotal)
    requires generate(ToolDecisionPrompt(HistoryText(h1), question)) == Generated(response)
    ensures var step := RunTool(ParseToolDecision(Strip(response)), evaluate);
      ModelTurn(h1, question, index, metadata, hits, generate, evaluate)
      == AnswerStep(if step.logged then h1 + [Message(Assistant, step.message)] else h1,
                    HistoryText(h1), step.message, question, SearchResult(ReliableAgent, index, metadata, hits), generate)
  {
  }

  /** The answer step appends at most the answer. */
  lemma AnswerStepExtends(h2: seq<Message>, historyText: string, toolMessage: string, question: string,
                          found: SearchOutcome, generate: Prompt -> GenResult)
    ensures var t := AnswerStep(h2, historyText, toolMessage, question, found, generate);
      |h2| <= |t.history| <= |h2| + 1 && t.history[..|h2|] == h2
  {
  }

  /** A failed final generation still returns the search's sources, and the history gains no answer. */
  lemma FailedAnswerKeepsSources(h: seq<Message>, question: string, index: Option<FlatIndex>, metadata: seq<ChunkMeta>,
                                 hits: seq<int>, generate: Prompt -> GenResult, evaluate: string -> Option<string>,
                                 response: string)
    requires Shortcut(question, evaluate).None?
    requires index.Some? ==> FaissRow(hits, index.value.ntotal)
    requires SearchResult(ReliableAgent, index, metadata, hits).Found?
    requires var h1 := Window(h + [Message(User, question)]);
      && generate(ToolDecisionPrompt(HistoryText(h1), question)) == Generated(response)
      && generate(AgentAnswerPrompt(HistoryText(h1), RunTool(ParseToolDecision(Strip(response)), evaluate).message,
                                    SearchResult(ReliableAgent, index, metadata, hits).context, question)).GenFailed?
    ensures var t := Turn(h, question, index, metadata, hits, generate, evaluate);
      && t.reply.AgentReply?
      && StartsWith(t.reply.answer, "Error: ")
      && t.reply.sources == SearchResult(ReliableAgent, index, metadata, hits).sources
      && |t.history| <= |Window(h + [Message(User, question)])| + 1
  {
    var h1 := Window(h + [Message(User, question)]);
    var found := SearchResult(ReliableAgent, index, metadata, hits);
    var step := RunTool(ParseToolDecision(Strip(response)), evaluate);
    var h2 := if step.logged then h1 + [Message(Assistant, step.message)] else h1;
    assert Turn(h, question, index, metadata, hits, generate, evaluate)
      == ModelTurn(h1, question, index, metadata, hits, generate, evaluate);
    ModelTurnAfterTool(h1, question, index, metadata, hits, generate, evaluate, response);
    FailedAnswer(h2, HistoryText(h1), step.message, question, found, generate);
  }

  /** When the final generation fails, the answer step returns "Error: ..." with the sources and appends nothing. */
  lemma FailedAnswer(h2: seq<Message>, historyText: string, toolMessage: string, question: string,
                     found: SearchOutcome, generate: Prompt -> GenResult)
    requires found.Found?
    requires generate(AgentAnswerPrompt(historyText, toolMessage, found.context, question)).GenFailed?
    ensures var t := AnswerStep(h2, historyText, toolMessage, question, found, generate);
      && t.history == h2
      && t.reply.AgentReply?
      && StartsWith(t.reply.answer, "Error: ")
      && t.reply.sources == found.sources
  {
    var e := generate(AgentAnswerPrompt(historyText, toolMessage, found.context, question)).error;
    assert ("Error: " + e)[..7] == "Error: ";
  }

  /** A calculation that fails never takes the shortcut: "Calculation error." mentions "error". */
  lemma FailedCalculationFallsThrough(question: string, evaluate: string -> Option<string>)
    requires MathMatch(question).Some? && evaluate(Sanitize(MathMatch(question).value)).None?
    ensures Shortcut(question, evaluate).None?
  {
  }

  // ---------------------------------------------------------------------
  // The global history
  // ---------------------------------------------------------------------

  /** The module-level `history` list. */
  class AgentState {
    var history: seq<Message>

    constructor ()
      ensures history == []
    {
      history := [];
    }

    /** `agent(question)`, the index of `store` answering the question with `hits`. */
    method Ask(store: VectorStore, question: string, hits: seq<int>,
               generate: Prompt -> GenResult, evaluate: string -> Option<string>) returns (reply: AgentReply)
      requires store.index.Some? ==> FaissRow(hits, store.index.value.ntotal)
      modifies this
      ensures TurnResult(history, reply) == Turn(old(history), question, store.index, store.metadata, hits, generate, evaluate)
    {
      ghost var goal := Turn(history, question, store.index, store.metadata, hits, generate, evaluate);
      var mathMatch := MathMatch(question);
      if mathMatch.Some? {
        var result := Calculate(mathMatch.value, evaluate);
        if !Contains(Lower(result), "error") {
          assert Shortcut(question, evaluate) == Some("Calculation: " + result);
          history := history + [Message(User, question), Message(Assistant, "Calculation: " + result)];
          return AgentReply("Calculation: " + result, "");
        }
      }
      assert Shortcut(question, evaluate).None?;
      assert goal == ModelTurn(Window(history + [Message(User, question)]), question, store.index, store.metadata, hits, generate, evaluate);
      Remember(question);
      reply := ModelPhase(store, question, hits, generate, evaluate);
    }

    /** The question joins the history, which is then cut to its last 2 * MaxHistory entries. */
    method Remember(question: string)
      modifies this
      ensures history == Window(old(history) + [Message(User, question)])
    {
      history := history + [Message(User, question)];
      if |history| > 2 * MaxHistory {
        history := history[|history| - 2 * MaxHistory..];
      }
    }

    /** The turn after the trim: the tool decision, the tool, the search and the answer. */
    method ModelPhase(store: VectorStore, question: string, hits: seq<int>,
                      generate: Prompt -> GenResult, evaluate: string -> Option<string>) returns (reply: AgentReply)
      requires store.index.Some? ==> FaissRow(hits, store.index.value.ntotal)
      modifies this
      ensures TurnResult(history, reply) == ModelTurn(old(history), question, store.index, store.metadata, hits, generate, evaluate)
    {
      ghost var h1 := history;
      var historyText := HistoryText(history);
      var decision := generate(ToolDecisionPrompt(historyText, question));
      if decision.GenFailed? {
        return AgentCrashed;
      }
      ghost var step := RunTool(ParseToolDecision(Strip(decision.response)), evaluate);
      var toolMsg := ToolPhase(ParseToolDecision(Strip(decision.response)), evaluate);
      assert toolMsg == step.message;
      assert history == if step.logged then h1 + [Message(Assistant, step.message)] else h1;
      ModelTurnAfterTool(h1, question, store.index, store.metadata, hits, generate, evaluate, decision.response);
      reply := AnswerPhase(store, historyText, toolMsg, question, hits, generate);
    }

    /** The search and the final generation, historyText being the history the tool prompt showed. */
    method AnswerPhase(store: VectorStore, historyText: string, toolMsg: string, question: string, hits: seq<int>,
                       generate: Prompt -> GenResult) returns (reply: AgentReply)
      requires store.index.Some? ==> FaissRow(hits, store.index.value.ntotal)
      modifies this
      ensures TurnResult(history, reply)
        == AnswerStep(old(history), historyText, toolMsg, question, SearchResult(ReliableAgent, store.index, store.metadata, hits), generate)
    {
      var found := store.Search(ReliableAgent, hits);
      if found.SearchFailed? {
        return AgentCrashed;
      }
      var response := generate(AgentAnswerPrompt(historyText, toolMsg, found.context, question));
      if response.GenFailed? {
        return AgentReply("Error: " + response.error, found.sources);
      }
      var finalAnswer := Strip(response.response);
      history := history + [Message(Assistant, finalAnswer)];
      return AgentReply(finalAnswer, found.sources);
    }

    /** The try block around the tool call: the message left in `tool_msg`, appended to the history for a calculate call. */
    method ToolPhase(decision: ToolDecision, evaluate: string -> Option<string>) returns (toolMsg: string)
      modifies this
      ensures toolMsg == RunTool(decision, evaluate).message
      ensures history == if RunTool(decision, evaluate).logged then old(history) + [Message(Assistant, toolMsg)] else old(history)
    {
      toolMsg := "";
      if decision.MalformedToolLine? {
        toolMsg := "Tool call failed.";
      } else if decision.ToolCall? {
        if decision.name == "calculate" {
          var toolResult := Calculate(decision.input, evaluate);
          toolMsg := "Tool " + decision.name + " result: " + toolResult;
          assert toolMsg == "Tool calculate result: " + toolResult;
          history := history + [Message(Assistant, toolMsg)];
        } else if decision.name == "get_current_time" {
          toolMsg := "Tool call failed.";
        }
      }
    }
  }
}
