/**
 * Chapter Compass, projects/06-chapter-compass/app.py: read one chapter,
 * pick its outline lines, ask the model for concept cards and a quiz, and
 * render both as HTML. The model's replies and `json.loads` are parameters.
 */
module Compass {
  import opened Text
  import opened Oracles
  import opened Prompts

  /** The words of the heading pattern, matched in any letter case. */
  const ChapterWord := "chapter"
  const SectionWord := "section"

  /** What `extract_outline` returns when no line is kept. */
  const NoOutline := "No clear outline detected."

  /** The fixed pieces of the HTML that `generate_study_pack` assembles. */
  const CardsHeader := "<h3>Key Concept Cards</h3><ul>"
  const CardOpen := "<li><strong>"
  const CardAfterConcept := "</strong><br>"
  const CardAfterExplanation := "<br><em>Why it matters:</em> "
  const ItemOpen := "<li>"
  const ItemClose := "</li>"
  const ListOpen := "<ul>"
  const ListClose := "</ul>"
  const QuizHeader := "<h3>Self-Test Quiz (10 questions)</h3><form>"
  const QuestionOpen := "<p><strong>Q"
  const AfterNumber := ":</strong> "
  const QuestionClose := "</p>"
  const QuizFooter := "</form><p>Answers & explanations hidden \U{2013} check manually against the chapter.</p>"
  const MultipleChoice := "mc"

  /** The status line before the report path, and the report path before the chapter's base name. */
  const StatusPrefix := "Study pack saved to: "
  const ReportPrefix := "outputs/study-pack-"

  // ---------------------------------------------------------------------
  // read_chapter
  // ---------------------------------------------------------------------

  /**
   * What `read_chapter` returns, tagged by the return statement that produced
   * it: the chapter text, or one of its three messages.
   */
  datatype ChapterRead = Chapter(text: string) | NotAChapter(message: string)
  {
    /** The string `read_chapter` returns. */
    function AsText(): string
    {
      match this
      case Chapter(text) => text
      case NotAChapter(message) => message
    }
  }

  /** The text the page loop accumulates: each page with text, followed by '\n'. */
  function PagesText(pages: seq<Option<string>>): string
  {
    if pages == [] then ""
    else
      var page := pages[|pages| - 1];
      PagesText(pages[..|pages| - 1]) + (if page.Some? && page.value != "" then page.value + "\n" else "")
  }

  /** The pages with text, in order. */
  function NonEmptyPages(pages: seq<Option<string>>): seq<string>
  {
    if pages == [] then []
    else
      var page := pages[|pages| - 1];
      NonEmptyPages(pages[..|pages| - 1]) + (if page.Some? && page.value != "" then [page.value] else [])
  }

  /** The accumulated text is the pages with text joined by '\n', with one '\n' after the last. */
  lemma {:induction false} PagesTextIsJoin(pages: seq<Option<string>>)
    ensures PagesText(pages) == if NonEmptyPages(pages) == [] then "" else Join(NonEmptyPages(pages), "\n") + "\n"
    decreases |pages|
  {
    if pages != [] {
      var init := pages[..|pages| - 1];
      var page := pages[|pages| - 1];
      PagesTextIsJoin(init);
      var before := NonEmptyPages(init);
      if page.Some? && page.value != "" {
        var after := before + [page.value];
        assert NonEmptyPages(pages) == after;
        assert after[..|after| - 1] == before;
        if before == [] {
          assert Join(after, "\n") == page.value;
        } else {
          assert Join(after, "\n") == Join(before, "\n") + "\n" + page.value;
          assert PagesText(pages) == (Join(before, "\n") + "\n") + (page.value + "\n");
        }
      } else {
        assert NonEmptyPages(pages) == before;
        assert PagesText(pages) == PagesText(init);
      }
    }
  }

  /** `read_chapter(file)` on the file the reader sees. */
  function ChapterOf(f: DocFile): ChapterRead
  {
    if IsPdfName(f.name) then
      match f.pdf
      case Read(pages) => Chapter(Strip(PagesText(pages)))
      case Raised(e) => NotAChapter("Error reading PDF: " + e)
    else if IsPlainTextName(f.name) then
      match f.text
      case Read(t) => Chapter(Strip(t))
      case Raised(e) => NotAChapter("Error reading text file: " + e)
    else NotAChapter("Unsupported file type.")
  }

  /** `read_chapter(file_path)`, page by page. */
  method ReadChapter(f: DocFile) returns (r: ChapterRead)
    ensures r == ChapterOf(f)
  {
    if IsPdfName(f.name) {
      if f.pdf.Raised? {
        return NotAChapter("Error reading PDF: " + f.pdf.message);
      }
      var pages := f.pdf.value;
      var text := "";
      for i := 0 to |pages|
        invariant text == PagesText(pages[..i])
      {
        var pageText := pages[i];
        if pageText.Some? && pageText.value != "" {
          text := text + pageText.value + "\n";
        }
        assert pages[..i + 1][..i] == pages[..i];
      }
      assert pages[..|pages|] == pages;
      return Chapter(Strip(text));
    } else if IsPlainTextName(f.name) {
      if f.text.Raised? {
        return NotAChapter("Error reading text file: " + f.text.message);
      }
      return Chapter(Strip(f.text.value));
    }
    return NotAChapter("Unsupported file type.");
  }

  // ---------------------------------------------------------------------
  // extract_outline: re.match(r'^(Chapter\s+\d+|Section\s+\d+|\d+\.\d+|\d+\.)\s', line, re.I)
  // ---------------------------------------------------------------------

  /** l begins with the lower-case word w in any letter case. */
  predicate WordAt(l: string, w: string)
  {
    |w| <= |l| && Lower(l[..|w|]) == w
  }

  /** `w\s+\d+\s` at the start of l: spaces up to i, digits up to k, a space at k. */
  predicate WordNumberSplit(l: string, w: string, i: nat, k: nat)
  {
    && WordAt(l, w) && |w| < i < k < |l|
    && AllIn(l, |w|, i, IsSpace) && AllIn(l, i, k, IsDigit) && IsSpace(l[k])
  }

  /** `\d+\.\d+\s` at the start of l: digits up to i, '.', digits up to k, a space at k. */
  predicate DecimalSplit(l: string, i: nat, k: nat)
  {
    && 0 < i && i + 1 < k < |l|
    && AllIn(l, 0, i, IsDigit) && l[i] == '.' && AllIn(l, i + 1, k, IsDigit) && IsSpace(l[k])
  }

  /** `\d+\.\s` at the start of l: digits up to i, '.', a space. */
  predicate NumberedSplit(l: string, i: nat)
  {
    0 < i && i + 1 < |l| && AllIn(l, 0, i, IsDigit) && l[i] == '.' && IsSpace(l[i + 1])
  }

  /** What the heading pattern accepts, read off the regular expression. */
  ghost predicate HeadingForm(l: string)
  {
    || (exists i: nat, k: nat :: WordNumberSplit(l, ChapterWord, i, k))
    || (exists i: nat, k: nat :: WordNumberSplit(l, SectionWord, i, k))
    || (exists i: nat, k: nat :: DecimalSplit(l, i, k))
    || (exists i: nat :: NumberedSplit(l, i))
  }

  /** The matcher for `w\s+\d+\s`: each run takes all it can, since what follows it cannot belong to it. */
  predicate WordNumberMatch(l: string, w: string)
  {
    WordAt(l, w) &&
    var i := RunEnd(l, |w|, IsSpace);
    |w| < i &&
    var k := RunEnd(l, i, IsDigit);
    i < k < |l| && IsSpace(l[k])
  }

  predicate DecimalMatch(l: string)
  {
    var i := RunEnd(l, 0, IsDigit);
    0 < i && i + 1 < |l| && l[i] == '.' &&
    var k := RunEnd(l, i + 1, IsDigit);
    i + 1 < k < |l| && IsSpace(l[k])
  }

  predicate NumberedMatch(l: string)
  {
    var i := RunEnd(l, 0, IsDigit);
    0 < i && i + 1 < |l| && l[i] == '.' && IsSpace(l[i + 1])
  }

  /** The heading test of `extract_outline`. */
  predicate IsHeading(l: string)
  {
    WordNumberMatch(l, ChapterWord) || WordNumberMatch(l, SectionWord) || DecimalMatch(l) || NumberedMatch(l)
  }

  lemma WordNumberMatchIff(l: string, w: string)
    ensures WordNumberMatch(l, w) <==> exists i: nat, k: nat :: WordNumberSplit(l, w, i, k)
  {
    if WordNumberMatch(l, w) {
      var i := RunEnd(l, |w|, IsSpace);
      var k := RunEnd(l, i, IsDigit);
      assert WordNumberSplit(l, w, i, k);
    }
    if exists i: nat, k: nat :: WordNumberSplit(l, w, i, k) {
      var i: nat, k: nat :| WordNumberSplit(l, w, i, k);
      RunEndAt(l, |w|, i, IsSpace);
      RunEndAt(l, i, k, IsDigit);
    }
  }

  lemma DecimalMatchIff(l: string)
    ensures DecimalMatch(l) <==> exists i: nat, k: nat :: DecimalSplit(l, i, k)
  {
    if DecimalMatch(l) {
      var i := RunEnd(l, 0, IsDigit);
      var k := RunEnd(l, i + 1, IsDigit);
      assert DecimalSplit(l, i, k);
    }
    if exists i: nat, k: nat :: DecimalSplit(l, i, k) {
      var i: nat, k: nat :| DecimalSplit(l, i, k);
      RunEndAt(l, 0, i, IsDigit);
      RunEndAt(l, i + 1, k, IsDigit);
    }
  }

  lemma NumberedMatchIff(l: string)
    ensures NumberedMatch(l) <==> exists i: nat :: NumberedSplit(l, i)
  {
    if NumberedMatch(l) {
      assert NumberedSplit(l, RunEnd(l, 0, IsDigit));
    }
    if exists i: nat :: NumberedSplit(l, i) {
      var i: nat :| NumberedSplit(l, i);
      RunEndAt(l, 0, i, IsDigit);
    }
  }

  /** The heading matcher accepts exactly the lines the heading pattern describes. */
  lemma HeadingMatcherIff(l: string)
    ensures IsHeading(l) <==> HeadingForm(l)
  {
    WordNumberMatchIff(l, ChapterWord);
    WordNumberMatchIff(l, SectionWord);
    DecimalMatchIff(l);
    NumberedMatchIff(l);
  }

  /** `re.match(r'^[A-Z][A-Za-z\s]{10,}$', line) and len(line) < 80`. */
  predicate IsTitle(l: string)
  {
    11 <= |l| < 80 && IsUpper(l[0]) && forall k :: 1 <= k < |l| ==> IsLetter(l[k]) || IsSpace(l[k])
  }

  /** Whether `extract_outline` keeps a stripped line. */
  predicate Keep(l: string)
  {
    IsHeading(l) || IsTitle(l)
  }

  /**
   * The heading pattern needs whitespace after the number, and the line is
   * stripped before the test: a line holding only "Chapter 1" is dropped,
   * while "Chapter 1 Introduction" is kept.
   */
  lemma BareHeadingDropped()
    ensures !Keep("Chapter 1") && Keep("Chapter 1 Introduction")
  {
    var bare, titled := "Chapter 1", "Chapter 1 Introduction";
    assert !IsSpace(bare[|bare| - 1]);
    assert Lower(bare[..7]) == ChapterWord;
    assert RunEnd(bare, 7, IsSpace) == 8 by {
      RunEndAt(bare, 7, 8, IsSpace);
    }
    assert RunEnd(bare, 8, IsDigit) == 9 by {
      RunEndAt(bare, 8, 9, IsDigit);
    }
    assert !IsTitle(bare) by {
      assert !IsLetter(bare[8]) && !IsSpace(bare[8]);
    }
    assert Lower(titled[..7]) == ChapterWord;
    RunEndAt(titled, 7, 8, IsSpace);
    RunEndAt(titled, 8, 9, IsDigit);
    assert IsSpace(titled[9]);
  }

  /** A kept line is never empty: both patterns need characters. */
  lemma KeptLineNonEmpty(l: string)
    requires Keep(l)
    ensures l != []
  {
  }

  /** `[line.strip() for line in lines]` */
  function StripAll(lines: seq<string>): seq<string>
  {
    seq(|lines|, k requires 0 <= k < |lines| => Strip(lines[k]))
  }

  /**
   * The lines that pass `keep`, in order; `extract_outline` keeps the
   * stripped lines that pass `Keep`. The test is a parameter so that the
   * facts below about order and membership hold whatever the patterns accept.
   */
  function Kept(lines: seq<string>, keep: string -> bool): seq<string>
  {
    if lines == [] then []
    else
      var line := lines[|lines| - 1];
      Kept(lines[..|lines| - 1], keep) + (if keep(line) then [line] else [])
  }

  /** Keeping distributes over concatenation: the kept lines keep their input order. */
  lemma {:induction false} KeptAppend(a: seq<string>, b: seq<string>, keep: string -> bool)
    ensures Kept(a + b, keep) == Kept(a, keep) + Kept(b, keep)
    decreases |b|
  {
    if b == [] {
      assert a + b == a;
    } else {
      var b' := b[..|b| - 1];
      assert (a + b)[..|a + b| - 1] == a + b';
      KeptAppend(a, b', keep);
    }
  }

  /**
   * Every kept line is an input line that passes the test, and every input
   * line that passes is kept.
   */
  lemma {:induction false} KeptExactly(lines: seq<string>, keep: string -> bool)
    ensures |Kept(lines, keep)| <= |lines|
    ensures forall k :: 0 <= k < |Kept(lines, keep)| ==> keep(Kept(lines, keep)[k]) && Kept(lines, keep)[k] in lines
    ensures forall j :: 0 <= j < |lines| && keep(lines[j]) ==> lines[j] in Kept(lines, keep)
    decreases |lines|
  {
    if lines != [] {
      var init := lines[..|lines| - 1];
      KeptExactly(init, keep);
      var before := Kept(init, keep);
      var r := Kept(lines, keep);
      forall k | 0 <= k < |r|
        ensures keep(r[k]) && r[k] in lines
      {
        if k < |before| {
          assert r[k] == before[k];
          assert forall x :: x in init ==> x in lines;
        }
      }
      forall j | 0 <= j < |lines| && keep(lines[j])
        ensures lines[j] in r
      {
        if j < |init| {
          assert lines[j] == init[j];
        }
      }
    }
  }

  /** `outline[:15]` */
  function FirstFifteen(outline: seq<string>): seq<string>
  {
    if |outline| <= 15 then outline else outline[..15]
  }

  /** `extract_outline(text)`. */
  function OutlineOf(text: string): string
  {
    var outline := Kept(StripAll(Lines(text)), Keep);
    if outline == [] then NoOutline else Join(FirstFifteen(outline), "\n")
  }

  /**
   * The outline reads back, line by line, as the first fifteen kept lines;
   * without any, it is the fixed message.
   */
  lemma OutlineLines(text: string)
    ensures Kept(StripAll(Lines(text)), Keep) == [] ==> OutlineOf(text) == NoOutline
    ensures Kept(StripAll(Lines(text)), Keep) != [] ==> Lines(OutlineOf(text)) == FirstFifteen(Kept(StripAll(Lines(text)), Keep))
    ensures Kept(StripAll(Lines(text)), Keep) != [] ==> |Lines(OutlineOf(text))| <= 15
  {
    var lines := Lines(text);
    var stripped := StripAll(lines);
    var outline := Kept(stripped, Keep);
    if outline != [] {
      var first := FirstFifteen(outline);
      LinesRoundTrip(text);
      KeptExactly(stripped, Keep);
      forall k | 0 <= k < |first| ensures '\n' !in first[k] && first[k] != [] {
        assert first[k] == outline[k];
        var j :| 0 <= j < |stripped| && outline[k] == stripped[j];
        NoNewlineInStrip(lines[j]);
        KeptLineNonEmpty(outline[k]);
      }
      LinesOfJoin(first);
    }
  }

  /** Every line of the outline passes the test and is some line of the text, stripped. */
  lemma OutlineLinesAreStrippedInputLines(text: string)
    requires Kept(StripAll(Lines(text)), Keep) != []
    ensures forall line :: line in Lines(OutlineOf(text)) ==>
      Keep(line) && exists j :: 0 <= j < |Lines(text)| && line == Strip(Lines(text)[j])
  {
    var lines := Lines(text);
    var stripped := StripAll(lines);
    var outline := Kept(stripped, Keep);
    OutlineLines(text);
    KeptExactly(stripped, Keep);
    forall line | line in Lines(OutlineOf(text))
      ensures Keep(line) && exists j :: 0 <= j < |lines| && line == Strip(lines[j])
    {
      var k :| 0 <= k < |FirstFifteen(outline)| && FirstFifteen(outline)[k] == line;
      assert outline[k] == line;
      var j :| 0 <= j < |stripped| && outline[k] == stripped[j];
      assert line == Strip(lines[j]);
    }
  }

  /** Stripping cannot bring in a '\n'. */
  lemma NoNewlineInStrip(s: string)
    requires '\n' !in s
    ensures '\n' !in Strip(s)
  {
    var l := TrimLeft(s);
    var r := TrimRight(l);
    assert forall c :: c in l ==> c in s;
    assert forall c :: c in r ==> c in l;
  }

  /** `extract_outline(text)`, line by line. */
  method ExtractOutline(text: string) returns (r: string)
    ensures r == OutlineOf(text)
  {
    var outline := KeepStripped(Lines(text), Keep);
    if outline == [] {
      return NoOutline;
    }
    return Join(FirstFifteen(outline), "\n");
  }

  /** The loop of `extract_outline`: strip each line and keep it when it passes the test. */
  method KeepStripped(lines: seq<string>, keep: string -> bool) returns (outline: seq<string>)
    ensures outline == Kept(StripAll(lines), keep)
  {
    ghost var stripped := StripAll(lines);
    outline := [];
    for i := 0 to |lines|
      invariant outline == Kept(stripped[..i], keep)
    {
      var line := Strip(lines[i]);
      if keep(line) {
        outline := outline + [line];
      }
      assert stripped[..i + 1][..i] == stripped[..i];
    }
    assert stripped[..|lines|] == stripped;
  }

  // ---------------------------------------------------------------------
  // The model's replies
  // ---------------------------------------------------------------------

  /**
   * The code-fence stripping before `json.loads`: a reply opening with
   * ```json keeps what lies between that marker and the next ``` (stopping
   * early at a second ```json), stripped.
   */
  function FenceStrip(raw: string): string
  {
    if StartsWith(raw, "```json") then
      assert raw[..7] == "```json";
      SplitHeadAt(raw, "```json", 0);
      Strip(SplitHead(SplitSecond(raw, "```json").value, "```"))
    else raw
  }

  /** A reply without the opening fence passes unchanged. */
  lemma FenceStripUnfenced(raw: string)
    requires !StartsWith(raw, "```json")
    ensures FenceStrip(raw) == raw
  {
  }

  /** A fenced body free of backticks comes back stripped. */
  lemma FenceStripFenced(body: string)
    requires '`' !in body
    ensures FenceStrip("```json" + body + "```") == Strip(body)
  {
    var raw := "```json" + body + "```";
    assert raw[..7] == "```json";
    SplitHeadAt(raw, "```json", 0);
    var rest := raw[7..];
    assert rest == body + "```";
    // no "```json" in rest: the only backticks are the last three characters
    forall j: nat ensures !OccursAt(rest, "```json", j) {
      if j + 7 <= |rest| {
        assert rest[j..j + 7][0] == rest[j];
        assert j < |body|;
        assert rest[j] == body[j];
      }
    }
    assert IndexOf(rest, "```json").None?;
    forall j | 0 <= j < |body| ensures !OccursAt(rest, "```", j) {
      if j + 3 <= |rest| {
        assert rest[j..j + 3][0] == rest[j];
        assert rest[j] == body[j];
      }
    }
    assert rest[|body|..|body| + 3] == "```";
    SplitHeadAt(rest, "```", |body|);
    assert rest[..|body|] == body;
  }

  /** One entry of the concept-card JSON array. */
  datatype Card = Card(concept: string, explanation: string, whyMatters: string)

  /** One entry of the quiz JSON array; options is None for `null`. */
  datatype QuizItem = QuizItem(kind: string, question: string, options: Option<seq<string>>)

  /**
   * What `json.loads` made of a reply, as the HTML loops will use it: a list
   * they can render, text that is not JSON (loads raises), or JSON of another
   * shape (the loop over it raises).
   */
  datatype Parsed<T> = Parsed(value: T) | NotJson | WrongShape

  /** The fallback of `generate_concept_cards`. */
  function ErrorCards(): seq<Card>
  {
    [Card("Error", "Could not generate cards", "")]
  }

  /** `generate_concept_cards(text)`; None when the JSON it returns makes the card loop raise. */
  function ConceptCards(text: string, generate: Prompt -> GenResult, parseCards: string -> Parsed<seq<Card>>): Option<seq<Card>>
  {
    match generate(ConceptCardsPrompt(Take(text, 8000)))
    case GenFailed(_) => Some(ErrorCards())
    case Generated(response) =>
      match parseCards(FenceStrip(Strip(response)))
      case Parsed(cards) => Some(cards)
      case NotJson => Some(ErrorCards())
      case WrongShape => None
  }

  /** A failed generation or a reply that is not JSON yields the single "Error" card. */
  lemma ConceptCardsFallback(text: string, generate: Prompt -> GenResult, parseCards: string -> Parsed<seq<Card>>)
    requires generate(ConceptCardsPrompt(Take(text, 8000))).GenFailed?
      || parseCards(FenceStrip(Strip(generate(ConceptCardsPrompt(Take(text, 8000))).response))).NotJson?
    ensures var cards := ConceptCards(text, generate, parseCards);
      cards.Some? && |cards.value| == 1 && cards.value[0].concept == "Error"
  {
  }

  /**
   * `generate_quiz(text)`; None where it raises: its handler names the
   * undefined `null`, so a failed generation or a reply that is not JSON
   * raises NameError, and JSON of another shape makes the quiz loop raise.
   */
  function Quiz(text: string, generate: Prompt -> GenResult, parseQuiz: string -> Parsed<seq<QuizItem>>): Option<seq<QuizItem>>
  {
    match generate(QuizPrompt(Take(text, 8000)))
    case GenFailed(_) => None
    case Generated(response) =>
      match parseQuiz(FenceStrip(Strip(response)))
      case Parsed(items) => Some(items)
      case _ => None
  }

  /**
   * The quiz is the parsed list exactly when the model replied with JSON of
   * the quiz's shape; every other outcome raises, the fallback included.
   */
  lemma QuizOutcomes(text: string, generate: Prompt -> GenResult, parseQuiz: string -> Parsed<seq<QuizItem>>)
    ensures var g := generate(QuizPrompt(Take(text, 8000)));
      Quiz(text, generate, parseQuiz).Some? <==> g.Generated? && parseQuiz(FenceStrip(Strip(g.response))).Parsed?
    ensures var g := generate(QuizPrompt(Take(text, 8000)));
      Quiz(text, generate, parseQuiz).Some? ==> Quiz(text, generate, parseQuiz).value == parseQuiz(FenceStrip(Strip(g.response))).value
  {
  }

  // ---------------------------------------------------------------------
  // The HTML of generate_study_pack
  // ---------------------------------------------------------------------

  function CardItem(c: Card): string
  {
    CardOpen + c.concept + CardAfterConcept + c.explanation + CardAfterExplanation + c.whyMatters + ItemClose
  }

  /** One list item per card, in order. */
  function CardItems(cards: seq<Card>): string
  {
    if cards == [] then "" else CardItems(cards[..|cards| - 1]) + CardItem(cards[|cards| - 1])
  }

  function CardsHtmlOf(cards: seq<Card>): string
  {
    CardsHeader + CardItems(cards) + ListClose
  }

  /** The card items of a list are those of its parts, in order. */
  lemma {:induction false} CardItemsAppend(a: seq<Card>, b: seq<Card>)
    ensures CardItems(a + b) == CardItems(a) + CardItems(b)
    decreases |b|
  {
    if b == [] {
      assert a + b == a;
    } else {
      var b' := b[..|b| - 1];
      var last := CardItem(b[|b| - 1]);
      assert (a + b)[..|a + b| - 1] == a + b';
      assert CardItems(a + b) == CardItems(a + b') + last;
      assert CardItems(b) == CardItems(b') + last;
      CardItemsAppend(a, b');
    }
  }

  /** The `cards_html` loop. */
  method CardsHtml(cards: seq<Card>) returns (html: string)
    ensures html == CardsHtmlOf(cards)
  {
    html := CardsHeader;
    for i := 0 to |cards|
      invariant html == CardsHeader + CardItems(cards[..i])
    {
      html := html + CardItem(cards[i]);
      assert cards[..i + 1][..i] == cards[..i];
    }
    assert cards[..|cards|] == cards;
    html := html + ListClose;
  }

  /** One list item per option, in order. */
  function OptionItems(options: seq<string>): string
  {
    if options == [] then "" else OptionItems(options[..|options| - 1]) + ItemOpen + options[|options| - 1] + ItemClose
  }

  /** `q['options'] or []` */
  function OptionsOrEmpty(options: Option<seq<string>>): seq<string>
  {
    match options
    case Some(list) => list
    case None => []
  }

  /** Question n of the quiz; only a multiple-choice question lists its options. */
  function QuizItemHtml(n: nat, q: QuizItem): string
  {
    QuestionOpen + NatToString(n) + AfterNumber + q.question + QuestionClose
      + (if q.kind == MultipleChoice then ListOpen + OptionItems(OptionsOrEmpty(q.options)) + ListClose else "")
  }

  /**
   * The items rendered in order, numbered from first on. The rendering is a
   * parameter so that the numbering facts below hold whatever one question
   * looks like.
   */
  function Numbered(items: seq<QuizItem>, first: nat, render: (nat, QuizItem) -> string): string
  {
    if items == [] then ""
    else Numbered(items[..|items| - 1], first, render) + render(first + |items| - 1, items[|items| - 1])
  }

  /** The questions, numbered from first on. */
  function QuizItems(items: seq<QuizItem>, first: nat): string
  {
    Numbered(items, first, QuizItemHtml)
  }

  function QuizHtmlOf(items: seq<QuizItem>): string
  {
    QuizHeader + QuizItems(items, 1)
      + QuizFooter
  }

  /** Numbering runs on across a split: the items after a prefix of length m start at first + m. */
  lemma {:induction false} NumberedAppend(a: seq<QuizItem>, b: seq<QuizItem>, first: nat, render: (nat, QuizItem) -> string)
    ensures Numbered(a + b, first, render) == Numbered(a, first, render) + Numbered(b, first + |a|, render)
    decreases |b|
  {
    if b == [] {
      assert a + b == a;
    } else {
      var b' := b[..|b| - 1];
      var last := render(first + |a| + |b| - 1, b[|b| - 1]);
      assert (a + b)[..|a + b| - 1] == a + b';
      assert Numbered(a + b, first, render) == Numbered(a + b', first, render) + last;
      assert Numbered(b, first + |a|, render) == Numbered(b', first + |a|, render) + last;
      NumberedAppend(a, b', first, render);
    }
  }

  /**
   * Item k of the list (from 0) is rendered as number k + 1, in its place;
   * for the quiz, `QuizItems(items, 1)` is `Numbered(items, 1, QuizItemHtml)`.
   */
  lemma QuizNumbering(items: seq<QuizItem>, k: nat, render: (nat, QuizItem) -> string)
    requires k < |items|
    ensures Numbered(items, 1, render)
      == Numbered(items[..k], 1, render) + render(k + 1, items[k]) + Numbered(items[k + 1..], k + 2, render)
  {
    assert items == items[..k] + [items[k]] + items[k + 1..];
    NumberedAround(items[..k], items[k], items[k + 1..], render);
  }

  /** An item between two runs of items is rendered with the number after those before it. */
  lemma NumberedAround(pre: seq<QuizItem>, item: QuizItem, rest: seq<QuizItem>, render: (nat, QuizItem) -> string)
    ensures Numbered(pre + [item] + rest, 1, render)
      == Numbered(pre, 1, render) + render(|pre| + 1, item) + Numbered(rest, |pre| + 2, render)
  {
    var whole := [item] + rest;
    assert pre + [item] + rest == pre + whole;
    var front, middle, back := Numbered(pre, 1, render), render(|pre| + 1, item), Numbered(rest, |pre| + 2, render);
    NumberedAppend(pre, whole, 1, render);
    NumberedFirst(item, rest, |pre| + 1, render);
    assert Numbered(whole, |pre| + 1, render) == middle + back;
    assert front + (middle + back) == front + middle + back;
  }

  /** An item put in front of others is rendered with the first number, and the others follow from the next. */
  lemma NumberedFirst(item: QuizItem, rest: seq<QuizItem>, n: nat, render: (nat, QuizItem) -> string)
    ensures Numbered([item] + rest, n, render) == render(n, item) + Numbered(rest, n + 1, render)
  {
    NumberedAppend([item], rest, n, render);
    NumberedOne(item, n, render);
  }

  /** A single item is rendered with the number it starts from. */
  lemma NumberedOne(item: QuizItem, n: nat, render: (nat, QuizItem) -> string)
    ensures Numbered([item], n, render) == render(n, item)
  {
    assert [item][..0] == [];
  }

  /** The inner `for opt in q['options'] or []` loop. */
  method OptionsHtml(options: seq<string>) returns (html: string)
    ensures html == OptionItems(options)
  {
    html := "";
    for i := 0 to |options|
      invariant html == OptionItems(options[..i])
    {
      html := html + ItemOpen + options[i] + ItemClose;
      assert options[..i + 1][..i] == options[..i];
    }
    assert options[..|options|] == options;
  }

  /** The `quiz_html` loop over `enumerate(quiz, 1)`. */
  method QuizHtml(items: seq<QuizItem>) returns (html: string)
    ensures html == QuizHtmlOf(items)
  {
    html := QuizHeader;
    for i := 0 to |items|
      invariant html == QuizHeader + QuizItems(items[..i], 1)
    {
      var question := QuestionHtml(i + 1, items[i]);
      html := html + question;
      assert items[..i + 1][..i] == items[..i];
    }
    assert items[..|items|] == items;
    html := html + QuizFooter;
  }

  /** One pass of the `quiz_html` loop: question n, with its options when it is multiple choice. */
  method QuestionHtml(n: nat, q: QuizItem) returns (html: string)
    ensures html == QuizItemHtml(n, q)
  {
    html := QuestionOpen + NatToString(n) + AfterNumber + q.question + QuestionClose;
    if q.kind == MultipleChoice {
      html := html + ListOpen;
      var options := OptionsHtml(OptionsOrEmpty(q.options));
      html := html + options + ListClose;
    }
  }

  // ---------------------------------------------------------------------
  // generate_study_pack
  // ---------------------------------------------------------------------

  /** `os.path.basename(path)`: what follows the last '/'. */
  function BaseName(path: string): (r: string)
    ensures '/' !in r && EndsWith(path, r)
    ensures |r| == |path| || path[|path| - |r| - 1] == '/'
  {
    if path == [] || path[|path| - 1] == '/' then []
    else
      var init := path[..|path| - 1];
      var r := BaseName(init);
      assert init[|init| - |r|..] == r;
      assert path[|path| - 1 - |r|..] == r + [path[|path| - 1]];
      assert |r| < |init| ==> path[|path| - |r| - 2] == init[|init| - |r| - 1];
      r + [path[|path| - 1]]
  }

  /** `os.path.join("outputs", f"study-pack-{base}.html")` for the uploaded file's name. */
  function ReportPath(name: string): string
  {
    ReportPrefix + BaseName(name) + ".html"
  }

  /** The four outputs: outline, cards HTML, quiz HTML and the download status. */
  datatype StudyPack = StudyPack(outline: string, cardsHtml: string, quizHtml: string, status: string)

  /** The study pack, or an exception out of `generate_study_pack`. */
  datatype PackOutcome = Pack(pack: StudyPack) | PackCrashed

  /** A result with only its first field filled in. */
  function MessageOnly(message: string): PackOutcome
  {
    Pack(StudyPack(message, "", "", ""))
  }

  /** The work after the gate, on a chapter text read from the file named name. */
  function PackOf(name: string, text: string, generate: Prompt -> GenResult,
                  parseCards: string -> Parsed<seq<Card>>, parseQuiz: string -> Parsed<seq<QuizItem>>): PackOutcome
  {
    var cards := ConceptCards(text, generate, parseCards);
    var quiz := Quiz(text, generate, parseQuiz);
    if cards.None? || quiz.None? then PackCrashed
    else
      Pack(StudyPack(OutlineOf(text), CardsHtmlOf(cards.value), QuizHtmlOf(quiz.value),
                     StatusPrefix + ReportPath(name)))
  }

  /** The "error" test on the read result, as written. */
  predicate MentionsError(text: string)
  {
    Contains(Lower(text), "error")
  }

  /** `generate_study_pack(file)` as written: any chapter text mentioning "error" is taken for a failed read. */
  function StudyPackAsWritten(file: Option<DocFile>, generate: Prompt -> GenResult,
                              parseCards: string -> Parsed<seq<Card>>, parseQuiz: string -> Parsed<seq<QuizItem>>): PackOutcome
  {
    if file.None? then MessageOnly("Upload a chapter file first.")
    else
      var text := ChapterOf(file.value).AsText();
      if MentionsError(text) then MessageOnly(text)
      else PackOf(file.value.name, text, generate, parseCards, parseQuiz)
  }

  /** `generate_study_pack(file)` with the gate on what the read actually returned. */
  function StudyPackChecked(file: Option<DocFile>, generate: Prompt -> GenResult,
                            parseCards: string -> Parsed<seq<Card>>, parseQuiz: string -> Parsed<seq<QuizItem>>): PackOutcome
  {
    if file.None? then MessageOnly("Upload a chapter file first.")
    else
      match ChapterOf(file.value)
      case NotAChapter(message) => MessageOnly(message)
      case Chapter(text) => PackOf(file.value.name, text, generate, parseCards, parseQuiz)
  }

  /** The shared part of both versions: outline, cards, quiz and their HTML. */
  method BuildPack(name: string, text: string, generate: Prompt -> GenResult,
                   parseCards: string -> Parsed<seq<Card>>, parseQuiz: string -> Parsed<seq<QuizItem>>) returns (out: PackOutcome)
    ensures out == PackOf(name, text, generate, parseCards, parseQuiz)
  {
    var outline := ExtractOutline(text);
    var cards := ConceptCards(text, generate, parseCards);
    var quiz := Quiz(text, generate, parseQuiz);
    if cards.None? || quiz.None? {
      return PackCrashed;
    }
    var cardsHtml := CardsHtml(cards.value);
    var quizHtml := QuizHtml(quiz.value);
    var reportPath := ReportPath(name);
    return Pack(StudyPack(outline, cardsHtml, quizHtml, StatusPrefix + reportPath));
  }

  /** `generate_study_pack(file)`, as written. */
  method GenerateStudyPack(file: Option<DocFile>, generate: Prompt -> GenResult,
                           parseCards: string -> Parsed<seq<Card>>, parseQuiz: string -> Parsed<seq<QuizItem>>) returns (out: PackOutcome)
    ensures out == StudyPackAsWritten(file, generate, parseCards, parseQuiz)
  {
    if file.None? {
      return MessageOnly("Upload a chapter file first.");
    }
    var read := ReadChapter(file.value);
    var text := read.AsText();
    if Contains(Lower(text), "error") {
      return MessageOnly(text);
    }
    out := BuildPack(file.value.name, text, generate, parseCards, parseQuiz);
  }

  /** `generate_study_pack(file)`, stopping exactly on a failed or unsupported read. */
  method GenerateStudyPackChecked(file: Option<DocFile>, generate: Prompt -> GenResult,
                                  parseCards: string -> Parsed<seq<Card>>, parseQuiz: string -> Parsed<seq<QuizItem>>) returns (out: PackOutcome)
    ensures out == StudyPackChecked(file, generate, parseCards, parseQuiz)
  {
    if file.None? {
      return MessageOnly("Upload a chapter file first.");
    }
    var read := ReadChapter(file.value);
    if read.NotAChapter? {
      return MessageOnly(read.message);
    }
    out := BuildPack(file.value.name, read.text, generate, parseCards, parseQuiz);
  }

  /**
   * The corrected gate stops exactly on the reader's messages, which go back
   * in the first output, and otherwise always goes on to the pack.
   */
  lemma CheckedGate(f: DocFile, generate: Prompt -> GenResult,
                    parseCards: string -> Parsed<seq<Card>>, parseQuiz: string -> Parsed<seq<QuizItem>>)
    ensures ChapterOf(f).NotAChapter? ==>
      StudyPackChecked(Some(f), generate, parseCards, parseQuiz) == MessageOnly(ChapterOf(f).message)
    ensures ChapterOf(f).Chapter? ==>
      StudyPackChecked(Some(f), generate, parseCards, parseQuiz) == PackOf(f.name, ChapterOf(f).text, generate, parseCards, parseQuiz)
  {
  }

  /** Every message of a failed read mentions "error", so the written gate does stop those. */
  lemma ReadErrorsMentionError(f: DocFile)
    requires ChapterOf(f).NotAChapter? && ChapterOf(f).message != "Unsupported file type."
    ensures MentionsError(ChapterOf(f).message)
  {
    if IsPdfName(f.name) {
      ReadingErrorMentionsError("PDF: " + f.pdf.message);
      assert ChapterOf(f).message == "Error reading " + ("PDF: " + f.pdf.message);
    } else {
      ReadingErrorMentionsError("text file: " + f.text.message);
      assert ChapterOf(f).message == "Error reading " + ("text file: " + f.text.message);
    }
  }

  /** Both reader messages start "Error reading ", which mentions "error" once lower-cased. */
  lemma ReadingErrorMentionsError(rest: string)
    ensures MentionsError("Error reading " + rest)
  {
    var m := "Error reading " + rest;
    var low := Lower(m);
    LowerShape(m);
    assert low[..5] == "error";
    assert OccursAt(low, "error", 0);
  }

  /** As written: a readable chapter whose text mentions errors is answered with its own text and nothing else. */
  lemma GateRejectsChapter(generate: Prompt -> GenResult,
                           parseCards: string -> Parsed<seq<Card>>, parseQuiz: string -> Parsed<seq<QuizItem>>)
    ensures var f := DocFile("errors.txt", Raised("not a PDF"), Read("Error handling"));
      && ChapterOf(f) == Chapter("Error handling")
      && StudyPackAsWritten(Some(f), generate, parseCards, parseQuiz) == MessageOnly("Error handling")
      && StudyPackChecked(Some(f), generate, parseCards, parseQuiz) == PackOf("errors.txt", "Error handling", generate, parseCards, parseQuiz)
  {
    var f := DocFile("errors.txt", Raised("not a PDF"), Read("Error handling"));
    ErrorsFileReads();
    ErrorHandlingMentionsError();
    assert StudyPackAsWritten(Some(f), generate, parseCards, parseQuiz) == MessageOnly("Error handling");
  }

  /** A readable .txt file holding "Error handling" reads as that chapter. */
  lemma ErrorsFileReads()
    ensures ChapterOf(DocFile("errors.txt", Raised("not a PDF"), Read("Error handling"))) == Chapter("Error handling")
  {
    var name := "errors.txt";
    assert !IsPdfName(name) by {
      assert name[|name| - 4..] == ".txt";
    }
    assert IsPlainTextName(name) by {
      assert name[|name| - 4..] == ".txt";
    }
    assert IsStripped("Error handling");
    StraightStripped("Error handling");
  }

  /** The chapter text "Error handling" mentions "error" once lower-cased. */
  lemma ErrorHandlingMentionsError()
    ensures MentionsError("Error handling")
  {
    var low := Lower("Error handling");
    assert low[..5] == "error";
    assert OccursAt(low, "error", 0);
  }

  /** As written: an unsupported file passes the gate, and its message is treated as the chapter. */
  lemma GateAdmitsUnsupported(generate: Prompt -> GenResult,
                              parseCards: string -> Parsed<seq<Card>>, parseQuiz: string -> Parsed<seq<QuizItem>>)
    ensures var f := DocFile("notes.docx", Raised("not a PDF"), Raised("not text"));
      && ChapterOf(f) == NotAChapter("Unsupported file type.")
      && StudyPackAsWritten(Some(f), generate, parseCards, parseQuiz)
         == PackOf("notes.docx", "Unsupported file type.", generate, parseCards, parseQuiz)
      && StudyPackChecked(Some(f), generate, parseCards, parseQuiz) == MessageOnly("Unsupported file type.")
  {
    var f := DocFile("notes.docx", Raised("not a PDF"), Raised("not text"));
    assert !IsPdfName(f.name) by {
      assert f.name[|f.name| - 4..] != ".pdf";
    }
    assert !IsPlainTextName(f.name) by {
      assert f.name[|f.name| - 4..] != ".txt";
      assert f.name[|f.name| - 3..] != ".md";
    }
    NoErrorInUnsupported();
  }

  /** "unsupported file type." holds no "error". */
  lemma NoErrorInUnsupported()
    ensures !MentionsError("Unsupported file type.")
  {
    var low := Lower("Unsupported file type.");
    assert low == "unsupported file type.";
    NoErrorInLowered(low);
    ContainsIff(low, "error");
  }

  /** The lowered message has a single 'r', at index 7, and "error" needs two in a row. */
  lemma NoErrorInLowered(low: string)
    requires low == "unsupported file type."
    ensures forall j: nat :: !OccursAt(low, "error", j)
  {
    var before, after := low[..7], low[8..];
    assert 'r' !in before && 'r' !in after;
    forall j: nat ensures !OccursAt(low, "error", j) {
      if j + 5 <= |low| {
        if j + 1 < 7 {
          assert low[j + 1] == before[j + 1];
        } else {
          assert low[j + 2] == after[j + 2 - 8];
        }
        assert low[j..j + 5][1] == low[j + 1] && low[j..j + 5][2] == low[j + 2];
      }
    }
  }
}
