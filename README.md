# Local RAG, agent and study-pack scripts: a Dafny model

This project models the core of a set of small Python apps built around one
book ("AI Engineering"). They answer questions from a folder of documents and
turn a chapter into a study pack:

- **Retrieval** has four scripts with one shared design:
  - `02-personal-rag/app.py`
  - `03-evaluated-rag/app.py`
  - `03-evaluated-rag/eval.py`
  - `04-reliable-agent/app.py`
- **Loading.** `load_documents` reads every PDF, `.txt` and `.md` file in the
  documents folder. It cuts each text into windows of 500 characters that
  start 400 apart, so consecutive windows share 100 characters. It keeps two
  parallel module-level lists, `chunks` and `metadata`, and builds a FAISS
  index over the chunks.
- **Search.** `search(question)` maps the index's top three positions to
  metadata entries. It returns the joined chunk texts as the context and a
  formatted "sources" panel.
- **Answer.** `answer(question)` wraps that context in a prompt for the local
  model.
- **Evaluation.** The two 03 scripts add `judge_answer` and `run_evaluation`.
  These answer every row of `test_set.csv` and have the model grade each
  answer.
- **Agent.** `04-reliable-agent/app.py` replaces `answer` with an agent. The
  agent has:
  - a calculator tool with an input sanitiser;
  - a regular-expression "math shortcut" that answers arithmetic without the
    model;
  - a strict `TOOL:` / `INPUT:` reply protocol for tool calls;
  - a conversation history trimmed to the last ten entries.
- **Study pack.** `06-chapter-compass/app.py` reads one chapter (PDF or text)
  and picks its outline lines with two regular expressions. It asks the model
  for concept cards and a quiz as JSON, and renders both as HTML.

Modules:

| module | what it holds |
|---|---|
| `Text` (text.dfy) | the Python string operations the scripts use: `strip`, `lower`, `startswith`, `find`, `split(sep)[k]`, `join`, `splitlines`, `str(int)`, slicing |
| `Oracles` (oracles.dfy) | what comes from outside: a folder entry as its readers see it, and the outcome of a generation call |
| `Prompts` (prompts.dfy) | every prompt the scripts send, as a datatype, with its full text in `Render` |
| `Scripts` (scripts.dfy) | the constant `TOP_K` and the per-script differences of the four retrieval scripts (`Variant`): status strings, the no-index context, the wording of a source entry, error prefixes, whether a reader exception skips the file |
| `Chunking` (chunking.dfy) | the overlapping fixed-window chunker |
| `Rag` (rag.dfy) | the vector store as a class (`index`, `chunks`, `metadata`) with `load_documents`, `search` and `answer` |
| `Evaluation` (evaluation.dfy) | `judge_answer` and `run_evaluation` |
| `Agent` (agent.dfy) | `calculate`, the math shortcut, the tool protocol, and the agent turn over a class holding the global history |
| `Compass` (compass.dfy) | `read_chapter`, `extract_outline`, the card and quiz generators, and `generate_study_pack` |

The retrieval scripts' `load_documents`, `search` and `answer` are the same
apart from their strings and whether a reader exception skips the file, and
apart from the prints of the 03 scripts (progress lines in eval.py, the
reader's error in both), which are not modelled. They are
modelled once, with a `Variant` parameter. In the table these rows cite the copy in
`04-reliable-agent/app.py`, or in `03-evaluated-rag/eval.py` for `answer`,
which 04 does not have. The same code sits at:

| operation | 02 app.py | 03 app.py | 03 eval.py | 04 app.py |
|---|---|---|---|---|
| `load_documents` | 24-62 | 27-71 | 30-86 | 35-70 |
| `search` | 64-84 | 73-91 | 91-112 | 72-90 |
| `answer` | 86-111 | 93-113 | 117-141 | — |

The Python code mutates state step by step, and the model follows it:

- The globals are fields of a class: `Rag.VectorStore` and
  `Agent.AgentState`.
- Every loop of the source is a method with a loop. Each such method is proved
  equal to a specification function: `Corpus`, `SearchResult`, `Turn`,
  `OutlineOf`, `CardsHtmlOf`, `QuizHtmlOf` and others.
- The lemmas about those functions state what the scripts promise.

## Model

A row whose third column begins "definition" names a specification function
with no contract of its own. The column then lists the lemmas and methods
that state its properties.

| member | source | states |
|---|---|---|
| Text.LowerShape | projects/projects/06-chapter-compass/app.py:101 | `lower()` keeps the length, leaves no upper-case letter, changes no other character, and lowering twice is lowering once |
| Text.TrimLeft | projects/projects/04-reliable-agent/app.py:161 | the result is the longest suffix that does not start with whitespace; everything removed was whitespace |
| Text.TrimRight | projects/projects/04-reliable-agent/app.py:161 | the result is the longest prefix that does not end with whitespace; everything removed was whitespace |
| Text.StripShape | projects/projects/04-reliable-agent/app.py:155 | a stripped string has no outer whitespace, is no longer than the input, and is empty exactly when the input is all whitespace (the `not text.strip()` test) |
| Text.StripIdempotent | projects/projects/04-reliable-agent/app.py:161 | stripping twice is stripping once |
| Text.StraightStripped | projects/projects/06-chapter-compass/app.py:33 | a string with no outer whitespace strips to itself |
| Text.IndexFrom | projects/projects/04-reliable-agent/app.py:162 | the first occurrence at or after i: it is an occurrence and none comes before it |
| Text.ContainsIff | projects/projects/04-reliable-agent/app.py:122 | `sep in s` holds exactly when sep occurs at some position |
| Text.SplitHead | projects/projects/06-chapter-compass/app.py:66 | `split(sep)[0]` is a prefix of the text |
| Text.SplitSecond | projects/projects/04-reliable-agent/app.py:162 | `split(sep)[1]` exists (no IndexError) exactly when sep occurs |
| Text.SplitHeadAt | projects/projects/06-chapter-compass/app.py:66 | where sep first occurs at i, `find` gives i and `split(sep)[0]` is the text before it |
| Text.JoinAppend | projects/projects/04-reliable-agent/app.py:90 | joining a + b puts one separator between the joins of a and b |
| Text.JoinCons | projects/projects/04-reliable-agent/app.py:131 | joining x + rest is x, the separator, then the join of rest |
| Text.Take | projects/projects/06-chapter-compass/app.py:60 | `s[:n]` is the prefix of length min(n, len(s)) |
| Text.NatToString | projects/projects/04-reliable-agent/app.py:70 | `str(n)` is non-empty decimal digits with no leading zero |
| Text.ParseNatToString | projects/projects/04-reliable-agent/app.py:87 | reading the digits of `str(n)` back gives n |
| Text.NatToStringInjective | projects/projects/04-reliable-agent/app.py:87 | different start offsets render differently in a source entry |
| Text.SplitNewlines | projects/projects/04-reliable-agent/app.py:160 | splitting on '\n' gives at least one piece, none holding '\n' |
| Text.SplitNewlinesJoin | projects/projects/04-reliable-agent/app.py:160 | joining the pieces with '\n' gives the text back |
| Text.SplitNewlinesTrailing | projects/projects/04-reliable-agent/app.py:160 | a text ending in '\n' splits with an empty last piece, which `splitlines` drops |
| Text.LinesRoundTrip | projects/projects/06-chapter-compass/app.py:39 | `splitlines()` lines hold no '\n', and joining them with '\n' (plus a final '\n' if the text had one) gives the text back |
| Text.FirstLine | projects/projects/04-reliable-agent/app.py:160-161 | the first line is the text up to the first '\n' |
| Text.SplitNewlinesSingle | projects/projects/04-reliable-agent/app.py:160 | a text without '\n' is a single line |
| Text.LinesOfTwo | projects/projects/04-reliable-agent/app.py:160-163 | two newline-free lines joined by '\n' read back as exactly those two lines |
| Text.SplitHeadAbsent | projects/projects/06-chapter-compass/app.py:66 | without sep, `split(sep)[0]` is the whole text |
| Text.SplitSecondAfterMarker | projects/projects/04-reliable-agent/app.py:162 | behind a leading marker that does not occur again, `split(marker)[1]` is the rest |
| Text.MarkedStripped | projects/projects/04-reliable-agent/app.py:161 | a marker followed by stripped text strips to itself |
| Text.MarkedLine | projects/projects/04-reliable-agent/app.py:161-164 | a marked line strips to itself and splits back into its payload, itself stripped |
| Text.SplitNewlinesOfJoin | projects/projects/06-chapter-compass/app.py:47 | splitting a '\n'-join of newline-free parts gives the parts back |
| Text.JoinEnds | projects/projects/06-chapter-compass/app.py:47 | a join ends with the last character of its last part |
| Text.LinesOfJoin | projects/projects/06-chapter-compass/app.py:47 | `"\n".join(parts).splitlines()` is parts, when no part holds '\n' and the last is non-empty |
| Text.RunEnd | projects/projects/04-reliable-agent/app.py:118 | a greedy run of one character class: all of it is in the class and the next character is not |
| Text.RunEndAt | projects/projects/04-reliable-agent/app.py:118 | any run of the class from i reaches no further than the greedy run, which stops exactly where the class ends |
| Chunking.SliceShape | projects/projects/04-reliable-agent/app.py:56 | `text[i:j]` holds the characters from i on, as many as lie below both j and the end: none from the end on |
| Chunking.ChunksFrom | projects/projects/04-reliable-agent/app.py:55-58 | definition of the chunk loop; Chunking.ChunkStarts, ChunkWindows, ChunksCover and ReassembleChunks state its properties |
| Chunking.ChunkStarts | projects/projects/04-reliable-agent/app.py:55 | the loop gives no chunk exactly when it starts at or past the end; starts run i, i + step, … with the last one less than a step before the end |
| Chunking.ChunkWindows | projects/projects/04-reliable-agent/app.py:55-58 | every chunk is the window of the text at its start: non-empty, `min(size, len - start)` long, equal to the text there |
| Chunking.ChunksFromStep | projects/projects/04-reliable-agent/app.py:55 | the chunks after the first are the chunks from the next start |
| Chunking.ChunksCover | projects/projects/04-reliable-agent/app.py:55-58 | every character of the text lies inside some chunk |
| Chunking.SharedStretch | projects/projects/04-reliable-agent/app.py:56 | two windows a step apart, the first full, share the characters where they meet |
| Chunking.ChunksOverlap | projects/projects/04-reliable-agent/app.py:18-19 | consecutive chunks share CHUNK_OVERLAP = 100 characters whenever the first is a full window |
| Chunking.ReassembleChunks | projects/projects/04-reliable-agent/app.py:55-58 | cutting every chunk but the last to the step and concatenating gives the text back |
| Chunking.ShortTextIsOneChunk | projects/projects/04-reliable-agent/app.py:55-58 | a non-empty text of at most 400 characters is one chunk holding all of it |
| Chunking.WindowLengthTextIsTwoChunks | projects/projects/04-reliable-agent/app.py:55-58 | a text of 401 to 500 characters gives two chunks: the whole text, then its tail from 400 |
| Chunking.TwelveHundredCharacters | projects/projects/04-reliable-agent/app.py:55-58 | a 1200-character text gives chunks at 0, 400 and 800, of 500, 500 and 400 characters |
| Rag.ReadDocument | projects/projects/04-reliable-agent/app.py:42-50 | the text read for one folder entry: the pages' `extract_text() or ""` in order for a PDF, the file for .txt/.md, "" otherwise, or the reader's exception |
| Rag.FirstAbortStops | projects/projects/04-reliable-agent/app.py:40-50 | how far the loop over the folder gets: every entry before that point reads or is skipped, and the entry at that point raises out of the loop |
| Rag.FileChunksEmpty | projects/projects/04-reliable-agent/app.py:52-53 | a file adds no chunk exactly when its read raised or its text is empty or all whitespace |
| Rag.CorpusEntriesAreWindows | projects/projects/04-reliable-agent/app.py:40-58 | every metadata entry is a non-empty window, at most 500 characters, of a readable non-blank file of the folder |
| Rag.Corpus | projects/projects/04-reliable-agent/app.py:37-58 | definition of the folder loop's chunks; Rag.CorpusEntriesAreWindows and Rag.VectorStore.LoadDocuments state its properties |
| Rag.TextsAppend | projects/projects/04-reliable-agent/app.py:57-58 | `chunks` is built by appending: the chunk texts of a concatenation of entries are those of each part, in order |
| Rag.Kept | projects/projects/04-reliable-agent/app.py:82-84 | the positions the loop keeps are those of the row that are not -1, and no others |
| Rag.KeptAppend | projects/projects/04-reliable-agent/app.py:82-84 | skipping -1 keeps the row's order |
| Rag.Retrieved | projects/projects/04-reliable-agent/app.py:85 | `metadata[idx]` raises for some position exactly when a position of the row is past the metadata |
| Rag.RetrievedAtKept | projects/projects/04-reliable-agent/app.py:82-86 | the retrieved entries are `metadata` at the kept positions, one each, in row order |
| Rag.Preview | projects/projects/04-reliable-agent/app.py:87 | `chunk_text[:300]` is the first min(300, len) characters |
| Rag.SourceEntryShape | projects/projects/04-reliable-agent/app.py:87 | a source entry starts with the file name in bold, ends with the preview and "..." (even for a short chunk), and has the length that follows |
| Rag.EntriesAppend | projects/projects/04-reliable-agent/app.py:87-88 | the display entries of a concatenation of retrieved chunks are those of each part, in order |
| Rag.ConsistentSearchFinds | projects/projects/04-reliable-agent/app.py:72-90 | with an index as large as `metadata`, search never raises and returns at most TOP_K texts joined by blank lines and their entries joined by rules |
| Rag.PaddingOnlyFindsNothing | projects/projects/04-reliable-agent/app.py:82-90 | a row of -1 only gives an empty context and no sources |
| Rag.SearchResult | projects/projects/04-reliable-agent/app.py:72-90 | definition of `search`'s outcome; Rag.ConsistentSearchFinds, Rag.PaddingOnlyFindsNothing and Rag.VectorStore.Search state its properties |
| Rag.VectorStore.constructor | projects/projects/04-reliable-agent/app.py:28-30 | no index and empty lists at import time |
| Rag.VectorStore.LoadDocuments | projects/projects/04-reliable-agent/app.py:35-70 | both lists become the folder's chunks in folder order, in step; the status message; a new index only when some chunk was made, the old one otherwise; a reader exception (02, 04) ends the load with the lists as far as they got and the old index |
| Rag.VectorStore.ReadFolder | projects/projects/04-reliable-agent/app.py:37-58 | the folder loop: the lists restart empty and gain each entry's chunks until an entry's exception escapes |
| Rag.VectorStore.AppendChunks | projects/projects/04-reliable-agent/app.py:55-58 | the inner loop appends exactly this document's chunks to `metadata`, and their texts to `chunks` |
| Rag.VectorStore.LoadDocumentsAtomic | projects/projects/04-reliable-agent/app.py:60-61 | the corrected load: same lists and messages, and the index is cleared whenever no new one is built, so the store stays consistent |
| Rag.VectorStore.Search | projects/projects/04-reliable-agent/app.py:72-90 | search returns the specified context and sources for the index's row, or fails on a position past `metadata` |
| Rag.VectorStore.Answer | projects/01-first-project/projects/03-evaluated-rag/projects/03-evaluated-rag/eval.py:117-141 | answer raises exactly when its search does; otherwise it returns the search's sources and either the stripped reply or the script's error prefix and the exception text |
| Rag.ValidStoreAnswers | projects/01-first-project/projects/03-evaluated-rag/projects/03-evaluated-rag/eval.py:117-118 | a consistent store always answers |
| Rag.CorpusOfOneShortTextFile | projects/projects/04-reliable-agent/app.py:48-58 | a single short non-blank .txt file loads as one chunk covering it |
| Rag.FirstOfThree | projects/projects/04-reliable-agent/app.py:82-85 | [0, -1, -1] is a valid row for a one-vector index, and its 0 is out of range for empty metadata |
| Rag.NotesFolderLoads | projects/projects/04-reliable-agent/app.py:40-58 | a one-note folder loads as one chunk in every script; an empty folder loads nothing |
| Rag.StaleIndexAfterEmptyLoad | projects/projects/04-reliable-agent/app.py:60-61 | as written: loading one note and then an empty folder reports both loads normally, yet the next search raises IndexError |
| Rag.NoStaleIndexAfterAtomicLoad | projects/projects/04-reliable-agent/app.py:60-61 | with the corrected load the same calls search an empty store and find nothing |
| Evaluation.VerdictShape | projects/01-first-project/projects/03-evaluated-rag/projects/03-evaluated-rag/eval.py:163-170 | a verdict is the stripped reply, or "Judge error: " followed by the exception text |
| Evaluation.Judge | projects/01-first-project/projects/03-evaluated-rag/projects/03-evaluated-rag/eval.py:146-170 | definition of `judge_answer`; Evaluation.VerdictShape states the shape of its verdict |
| Evaluation.EvaluateRow | projects/01-first-project/projects/03-evaluated-rag/projects/03-evaluated-rag/eval.py:185-198 | one row raises exactly when its answer's search does; otherwise the result copies the row's question and category |
| Evaluation.RunEvaluation | projects/01-first-project/projects/03-evaluated-rag/projects/03-evaluated-rag/eval.py:175-204 | the missing-file message exactly when test_set.csv is missing; otherwise one result per row in row order, each the row's evaluation, and the closing message; a failed search only when some row's search fails, never with a consistent store |
| Agent.Filter | projects/projects/04-reliable-agent/app.py:97 | the character-class filter keeps only allowed characters and never lengthens the input |
| Agent.FilterAppend | projects/projects/04-reliable-agent/app.py:97 | the character-class filter works character by character: on a concatenation it filters each part |
| Agent.FilterChar | projects/projects/04-reliable-agent/app.py:97 | one character survives the filter exactly when the class allows it |
| Agent.ReplaceChar | projects/projects/04-reliable-agent/app.py:97 | `replace(a, b)` changes every a to b in place and nothing else, so no a is left when b differs from it |
| Agent.Sanitize | projects/projects/04-reliable-agent/app.py:97 | only digits, `+ - * / ( ) .` and spaces reach numexpr; never an x |
| Agent.SanitizeAppend | projects/projects/04-reliable-agent/app.py:97 | the whole sanitiser, too, treats each part of a concatenation on its own |
| Agent.FilterKeepsAllowed | projects/projects/04-reliable-agent/app.py:97 | text of allowed characters passes the filter unchanged |
| Agent.SanitizeFixedPoints | projects/projects/04-reliable-agent/app.py:97 | the sanitiser leaves a text unchanged exactly when all its characters are safe |
| Agent.SanitizeIdempotent | projects/projects/04-reliable-agent/app.py:97 | sanitising twice is sanitising once |
| Agent.Calculate | projects/projects/04-reliable-agent/app.py:95-101 | "Calculation error." exactly when numexpr raises on the sanitised text, the result's string otherwise; a failure always contains "error" once lower-cased |
| Agent.CalculationErrorMentionsError | projects/projects/04-reliable-agent/app.py:101 | "Calculation error." lower-cased contains "error" |
| Agent.MatchFrom | projects/projects/04-reliable-agent/app.py:118 | a match from p ends after p, within the text |
| Agent.MatchFromSound | projects/projects/04-reliable-agent/app.py:118 | a match is an occurrence of `\d+\s*[\+\-\*/xX]\s*\d+` and ends where the digits run out |
| Agent.MatchFromComplete | projects/projects/04-reliable-agent/app.py:118 | wherever the pattern occurs from p, the matcher matches from p, at least as far |
| Agent.SearchFrom | projects/projects/04-reliable-agent/app.py:118 | a found match lies within the text, from p on |
| Agent.SearchFromFirst | projects/projects/04-reliable-agent/app.py:118 | the search stops at the first start the matcher accepts |
| Agent.MathSearchLeftmost | projects/projects/04-reliable-agent/app.py:118-120 | `re.search` finds the leftmost occurrence, extended as far as the digits go, and finds nothing only when the pattern occurs nowhere |
| Agent.ParseFormatted | projects/projects/04-reliable-agent/app.py:155-164 | a reply in the `TOOL: name` / `INPUT: input` format parses back into that call |
| Agent.RunToolOutcomes | projects/projects/04-reliable-agent/app.py:157-171 | `tool_msg` stays "" exactly when no tool of TOOLS is named; the history gains an entry exactly for a calculate call; every other tool outcome is "Tool call failed." |
| Agent.ParseToolDecision | projects/projects/04-reliable-agent/app.py:158-164 | definition of the parse of a `TOOL:` reply; Agent.ParseFormatted states that a reply in the format parses back into its call |
| Agent.RunTool | projects/projects/04-reliable-agent/app.py:157-171 | definition of the tool step; Agent.RunToolOutcomes states its outcomes |
| Agent.WindowShape | projects/projects/04-reliable-agent/app.py:127-129 | the trim keeps the last 2 * MAX_HISTORY entries in order, keeps a short history whole, and is idempotent |
| Agent.Window | projects/projects/04-reliable-agent/app.py:127-129 | definition of the trim; Agent.WindowShape states its length, that it is a suffix of the history, and its idempotence |
| Agent.HistoryText | projects/projects/04-reliable-agent/app.py:131 | definition of `history_text`, shared by both prompts of a turn; no property of its own is stated |
| Agent.Shortcut | projects/projects/04-reliable-agent/app.py:117-125 | definition of the math shortcut; Agent.ShortcutSkipsModel and Agent.FailedCalculationFallsThrough state its properties |
| Agent.Turn | projects/projects/04-reliable-agent/app.py:114-198 | definition of one `agent` call; Agent.TurnKeepsWindow and Agent.ShortcutSkipsModel state its properties, and Agent.AgentState.Ask is proved to compute it |
| Agent.ModelTurn | projects/projects/04-reliable-agent/app.py:131-198 | definition of the turn after the trim; Agent.ModelTurnExtends and Agent.ModelTurnAfterTool state its properties, and Agent.AgentState.ModelPhase is proved to compute it |
| Agent.AnswerStep | projects/projects/04-reliable-agent/app.py:173-198 | definition of the search and final generation; Agent.AnswerStepExtends and Agent.FailedAnswerKeepsSources state its properties, and Agent.AgentState.AnswerPhase is proved to compute it |
| Agent.ShortcutSkipsModel | projects/projects/04-reliable-agent/app.py:117-125 | when the shortcut fires the turn is independent of the model and the index, appends exactly the question and "Calculation: …" untrimmed, and returns no sources |
| Agent.TurnKeepsWindow | projects/projects/04-reliable-agent/app.py:127-198 | otherwise the history is first cut to at most ten entries ending with the question, and the turn appends at most the tool entry and the answer |
| Agent.ModelTurnExtends | projects/projects/04-reliable-agent/app.py:155-198 | after the trim the turn only appends, at most two entries |
| Agent.ToolReplyExtends | projects/projects/04-reliable-agent/app.py:155-198 | once the model has replied to the tool prompt, the rest of the turn appends at most two entries and keeps the trimmed history in front |
| Agent.StepsExtend | projects/projects/04-reliable-agent/app.py:166-198 | whatever the tool step was, it and the answer step append one entry each at most |
| Agent.ModelTurnAfterTool | projects/projects/04-reliable-agent/app.py:155-173 | after the tool decision reply, the turn is the answer step following that reply's tool step |
| Agent.AnswerStepExtends | projects/projects/04-reliable-agent/app.py:192-198 | the answer step appends at most the answer |
| Agent.FailedAnswerKeepsSources | projects/projects/04-reliable-agent/app.py:155-198 | when the final generation fails on the prompt that carries the tool message of the model's actual tool reply, the turn returns "Error: …" with the search's sources and the history gains no answer |
| Agent.FailedAnswer | projects/projects/04-reliable-agent/app.py:192-198 | when the final generation raises, the answer step returns "Error: …" with the search's sources and leaves the history as it was |
| Agent.FailedCalculationFallsThrough | projects/projects/04-reliable-agent/app.py:121-122 | a calculation that fails never takes the shortcut |
| Agent.AgentState.constructor | projects/projects/04-reliable-agent/app.py:33 | the history starts empty |
| Agent.AgentState.Ask | projects/projects/04-reliable-agent/app.py:114-198 | one `agent(question)` call: the new history and the reply are those of the specified turn |
| Agent.AgentState.Remember | projects/projects/04-reliable-agent/app.py:127-129 | the question joins the history, which is cut to its last ten entries |
| Agent.AgentState.ModelPhase | projects/projects/04-reliable-agent/app.py:131-198 | the tool decision, tool, search and answer after the trim, as specified |
| Agent.AgentState.ToolPhase | projects/projects/04-reliable-agent/app.py:157-171 | `tool_msg` and the history after the tool step, as specified |
| Agent.AgentState.AnswerPhase | projects/projects/04-reliable-agent/app.py:173-198 | the search and the final generation, as specified |
| Compass.PagesTextIsJoin | projects/projects/06-chapter-compass/app.py:22-26 | the page loop's text is the pages with text joined by '\n', with one '\n' after the last |
| Compass.ReadChapter | projects/projects/06-chapter-compass/app.py:18-36 | the chapter text stripped, or the reader's error message, or "Unsupported file type." |
| Compass.ChapterOf | projects/projects/06-chapter-compass/app.py:18-36 | definition of `read_chapter`'s result; Compass.ReadChapter is proved to compute it, and Compass.ReadErrorsMentionError and Compass.CheckedGate state its properties |
| Compass.WordNumberMatchIff | projects/projects/06-chapter-compass/app.py:43 | the matcher for `Chapter\s+\d+\s` and `Section\s+\d+\s` (any case) accepts exactly the lines the pattern describes |
| Compass.DecimalMatchIff | projects/projects/06-chapter-compass/app.py:43 | the matcher for `\d+\.\d+\s` accepts exactly the lines the pattern describes |
| Compass.NumberedMatchIff | projects/projects/06-chapter-compass/app.py:43 | the matcher for `\d+\.\s` accepts exactly the lines the pattern describes |
| Compass.HeadingMatcherIff | projects/projects/06-chapter-compass/app.py:43 | the heading test accepts exactly the lines the whole pattern describes |
| Compass.BareHeadingDropped | projects/projects/06-chapter-compass/app.py:42-46 | a stripped line holding only "Chapter 1" is not kept, while "Chapter 1 Introduction" is |
| Compass.KeptLineNonEmpty | projects/projects/06-chapter-compass/app.py:43-45 | both outline patterns need characters, so a kept line is never empty |
| Compass.StripAll | projects/projects/06-chapter-compass/app.py:42 | definition of the per-line `strip()`; Compass.OutlineLinesAreStrippedInputLines and Compass.KeepStripped state what it contributes to the outline |
| Compass.KeptAppend | projects/projects/06-chapter-compass/app.py:41-46 | the kept lines keep their input order |
| Compass.KeptExactly | projects/projects/06-chapter-compass/app.py:41-46 | every kept line is an input line that passes the test, and every input line that passes is kept |
| Compass.OutlineLines | projects/projects/06-chapter-compass/app.py:47 | the outline reads back, line by line, as the first fifteen kept lines, or is "No clear outline detected." when none is kept |
| Compass.OutlineLinesAreStrippedInputLines | projects/projects/06-chapter-compass/app.py:38-47 | every line of the outline passes the heading or title test and is some line of the text, stripped |
| Compass.OutlineOf | projects/projects/06-chapter-compass/app.py:38-47 | definition of the outline; Compass.OutlineLines and Compass.KeptExactly state its properties, and Compass.ExtractOutline is proved to compute it |
| Compass.NoNewlineInStrip | projects/projects/06-chapter-compass/app.py:42 | stripping a line cannot bring in a '\n' |
| Compass.ExtractOutline | projects/projects/06-chapter-compass/app.py:38-47 | `extract_outline` computes the specified outline |
| Compass.KeepStripped | projects/projects/06-chapter-compass/app.py:40-46 | the loop keeps the stripped lines that pass the test, in order |
| Compass.FenceStripUnfenced | projects/projects/06-chapter-compass/app.py:65 | a reply without the opening fence passes unchanged |
| Compass.FenceStripFenced | projects/projects/06-chapter-compass/app.py:65-66 | a fenced body free of backticks comes back stripped |
| Compass.FenceStrip | projects/projects/06-chapter-compass/app.py:65-66 | definition of the fence removal; Compass.FenceStripUnfenced and Compass.FenceStripFenced state its properties |
| Compass.ConceptCardsFallback | projects/projects/06-chapter-compass/app.py:62-69 | a failed generation or a reply that is not JSON yields the single "Error" card |
| Compass.ConceptCards | projects/projects/06-chapter-compass/app.py:49-69 | definition of `generate_concept_cards`; Compass.ConceptCardsFallback states its fallback |
| Compass.QuizOutcomes | projects/projects/06-chapter-compass/app.py:86-93 | the quiz is the parsed list exactly when the model replied with JSON of the quiz's shape; the fallback raises too |
| Compass.Quiz | projects/projects/06-chapter-compass/app.py:71-93 | definition of `generate_quiz`; Compass.QuizOutcomes states its outcomes |
| Compass.CardItemsAppend | projects/projects/06-chapter-compass/app.py:110-111 | the card items of a list are those of its parts, in order |
| Compass.CardsHtml | projects/projects/06-chapter-compass/app.py:109-112 | the cards HTML is the header, one item per card in order, and the closing tag |
| Compass.NumberedAppend | projects/projects/06-chapter-compass/app.py:115 | numbering runs on across a split of the quiz |
| Compass.QuizNumbering | projects/projects/06-chapter-compass/app.py:115-122 | question k of the quiz (from 0) is rendered as number k + 1, between the questions before and after it |
| Compass.NumberedAround | projects/projects/06-chapter-compass/app.py:115 | an item between two runs of items is numbered one past the items before it, and those after it continue from there |
| Compass.NumberedFirst | projects/projects/06-chapter-compass/app.py:115 | an item in front of others carries the first number, and the others continue from the next |
| Compass.NumberedOne | projects/projects/06-chapter-compass/app.py:115 | a single question carries the number it starts from |
| Compass.OptionsHtml | projects/projects/06-chapter-compass/app.py:118-119 | one list item per option, in order |
| Compass.QuestionHtml | projects/projects/06-chapter-compass/app.py:116-122 | one question as specified; only a multiple-choice question lists its options |
| Compass.QuizHtml | projects/projects/06-chapter-compass/app.py:114-123 | the quiz HTML is the header, the numbered questions in order, and the footer |
| Compass.BaseName | projects/projects/06-chapter-compass/app.py:138 | `os.path.basename` is the longest suffix of the path with no '/': the whole path, or the part after its last '/' |
| Compass.BuildPack | projects/projects/06-chapter-compass/app.py:104-142 | the outline, cards HTML, quiz HTML and "Study pack saved to: outputs/study-pack-<base>.html", or the exception when the cards' or quiz's JSON cannot be rendered |
| Compass.GenerateStudyPack | projects/projects/06-chapter-compass/app.py:95-142 | as written: the upload prompt without a file, the read result itself when it mentions "error", the pack otherwise |
| Compass.GenerateStudyPackChecked | projects/projects/06-chapter-compass/app.py:95-142 | corrected: the read's own message when the read failed or the type is unsupported, the pack otherwise |
| Compass.CheckedGate | projects/projects/06-chapter-compass/app.py:100-102 | the corrected gate stops exactly on the reader's messages and otherwise always builds the pack |
| Compass.ReadErrorsMentionError | projects/projects/06-chapter-compass/app.py:28-35 | both reader error messages mention "error", so the written gate stops them |
| Compass.ReadingErrorMentionsError | projects/projects/06-chapter-compass/app.py:29-35 | a message starting "Error reading " contains "error" once lower-cased |
| Compass.GateRejectsChapter | projects/projects/06-chapter-compass/app.py:101-102 | as written, a readable chapter "Error handling" is answered with its own text and nothing else |
| Compass.GateAdmitsUnsupported | projects/projects/06-chapter-compass/app.py:36 | as written, an unsupported file passes the gate and "Unsupported file type." is taken for the chapter |
| Compass.NoErrorInUnsupported | projects/projects/06-chapter-compass/app.py:36 | "Unsupported file type." does not contain "error" in any case |
| Compass.NoErrorInLowered | projects/projects/06-chapter-compass/app.py:101 | "error" occurs nowhere in "unsupported file type." |

## Left out

- Embedding and FAISS: the sentence-transformer embedding and the index's nearest-neighbour search are not modelled. An index is its vector count. One query's answer is a row of TOP_K positions, each -1 or below that count, supplied by the caller. Which chunks are nearest is therefore not modelled.
- The local model (`ollama.generate`) is a function from a prompt to a reply or an exception text. It is deterministic per prompt, whereas the real model may answer the same prompt differently on two calls. The prompts' wording is kept in `Prompts.Render` but appears in no contract.
- numexpr is a function from the sanitised expression to the result's string, or to nothing where it raises. What it computes is not modelled.
- `json.loads` together with the loops over its result is a function with three outcomes: a list of cards or quiz items the HTML loop can render, text that is not JSON, or JSON of another shape (the loop raises). Card and quiz fields are strings.
- PDF reading is the sequence of each page's `extract_text()` results, or the reader's exception. `open(...).read()` is the file's text or the exception.
- File-system order: the folder is the sequence `os.listdir` returns. The file count in the 02/03 load message is its length.
- Python's `\d`, `\s` and `str.isspace` are restricted to ASCII. `re.I` is ASCII case folding. `splitlines` breaks on '\n' only, not '\r' or the Unicode separators. `lower()` lowers ASCII letters only.
- Rag.ReadDocument: a PDF whose page loop raises part-way is modelled as raising for the whole file. The 03 scripts skip that file anyway. In 02 and 04 the exception leaves the load the same way.
- Printing in eval.py (progress lines, the results table) is not modelled. Its two closing messages become the outcome messages of `run_evaluation`. Writing `evaluation_results.csv` and reading `test_set.csv` are not modelled: the test set is an Option of its rows.
- 04's `judge_answer`, `run_evaluation` and test-set code below line 198 are not part of this model. Neither is the 05 summarizer or the 01 first project.
- Compass: the HTML report written to `outputs/`, its `datetime` stamp and `os.makedirs` are not modelled. The returned status line, which names the report path, is.
- Compass.Quiz: the fallback in `generate_quiz` names the undefined `null`, so it raises NameError. It is modelled as the crash outcome PackCrashed rather than as a fallback quiz.
- get_current_time is never called successfully. TOOLS calls it with one argument and it takes none, so the TypeError is caught as "Tool call failed.". Its clock is therefore not modelled.
- The Gradio user interface and the `__main__` blocks are not modelled.
- Compass.BaseName: paths are POSIX paths. On Windows `os.path.basename` also splits at a backslash, and the model does not.
- Chunking.ChunksFrom requires overlap < size. The scripts never check this; with their constants 500 and 100 it holds. Otherwise `range` would get a zero or negative step.

## Findings

| source | as written | input that shows it | evidently intended | confidence | as-written member | corrected member |
|---|---|---|---|---|---|---|
| projects/projects/04-reliable-agent/app.py:60-61 | A load that produces no chunk empties `chunks` and `metadata` but returns before replacing `index`, so the previous index stays. 02 and 03 have the same lines (02 app.py:50-51, 03 app.py:61-62, eval.py:73-74). | Load a folder holding one short note, then load an empty folder. Both report normally, but the next search receives position 0 from the one-vector index and `metadata[0]` raises IndexError. | An empty load leaves no index, so search answers from nothing. | not executed | Rag.VectorStore.LoadDocuments, Rag.StaleIndexAfterEmptyLoad | Rag.VectorStore.LoadDocumentsAtomic, Rag.NoStaleIndexAfterAtomicLoad |
| projects/projects/06-chapter-compass/app.py:101-102 | The success test on `read_chapter`'s result is `"error" in text.lower()`. A chapter whose text mentions "error" anywhere is returned as if it were an error message. "Unsupported file type." contains no "error", so an unsupported file goes on to outline, cards and quiz, with that sentence as the chapter. | A .txt chapter reading "Error handling"; a file named notes.docx. | Stop exactly on the reader's failure messages, and build the pack for every chapter that was read. | not executed | Compass.GenerateStudyPack, Compass.GateRejectsChapter, Compass.GateAdmitsUnsupported | Compass.GenerateStudyPackChecked, Compass.CheckedGate |

Three more observations need no corrected member:

- **No overlap check.** The chunk loop steps by `CHUNK_SIZE - CHUNK_OVERLAP`, with no check that this is positive.
- **Chunking example.** A 1200-character document is cut at 0, 400 and 800, and its last chunk is 400 characters long. There is no chunk at 1100 (Chunking.TwelveHundredCharacters). A document of 401 to 500 characters gets a second chunk, which lies entirely inside the first (Chunking.WindowLengthTextIsTwoChunks).
- **Bare headings dropped.** The outline's heading pattern needs whitespace after the number. The line has already been stripped, so a heading line holding only "Chapter 3" or "2." is never kept (Compass.BareHeadingDropped).
