/**
 * The vector store of the retrieval scripts: `load_documents` fills two
 * parallel lists (`chunks`, `metadata`) and replaces the index; `search`
 * maps the positions the index returns to metadata entries and formats them;
 * `answer` wraps the search in a prompt and a generation call.
 *
 * The embedding model and the FAISS index are outside the model: an index is
 * represented by the number of vectors it holds, and one query's result is a
 * row of TopK positions supplied by the caller (see `FaissRow`).
 */
module Rag {
  import opened Text
  import opened Oracles
  import opened Chunking
  import opened Scripts
  import opened Prompts

  /** A `faiss.IndexFlatL2` after `index.add(embeddings)`: all the model needs is how many vectors it holds. */
  datatype FlatIndex = FlatIndex(ntotal: nat)

  /** What `index.search(q, TOP_K)` returns for one query: TopK positions, each below ntotal, -1 for a missing neighbour. */
  predicate FaissRow(hits: seq<int>, ntotal: nat)
  {
    |hits| == TopK && forall j :: 0 <= j < |hits| ==> -1 <= hits[j] < ntotal
  }

  // ---------------------------------------------------------------------
  // Reading the documents folder
  // ---------------------------------------------------------------------

  /** `page.extract_text() or ""` */
  function PageOr(page: Option<string>): string
  {
    match page
    case Some(t) => t
    case None => ""
  }

  /** The PDF text: every page's text, in page order, with no separator. */
  function PageText(pages: seq<Option<string>>): string
  {
    if pages == [] then "" else PageText(pages[..|pages| - 1]) + PageOr(pages[|pages| - 1])
  }

  /** The text the loader reads for one folder entry; an entry that is neither PDF nor .txt/.md reads as "". */
  function ExtractedText(f: DocFile): Reading<string>
  {
    if IsPdfName(f.name) then
      match f.pdf
      case Read(pages) => Read(PageText(pages))
      case Raised(e) => Raised(e)
    else if IsPlainTextName(f.name) then f.text
    else Read("")
  }

  /** The reader the loader picks for f raises, and the script lets the exception out of `load_documents`. */
  predicate Aborts(v: Variant, f: DocFile)
  {
    !v.SkipsUnreadableFiles() && ExtractedText(f).Raised?
  }

  /** How many folder entries the load gets through: up to the first one whose exception escapes, or all of them. */
  function FirstAbort(v: Variant, files: seq<DocFile>): (r: nat)
    ensures r <= |files|
  {
    if files == [] || Aborts(v, files[0]) then 0
    else 1 + FirstAbort(v, files[1..])
  }

  /** The load stops at the first entry whose exception escapes: every entry before it gets through. */
  lemma {:induction false} FirstAbortStops(v: Variant, files: seq<DocFile>)
    ensures forall k :: 0 <= k < FirstAbort(v, files) ==> !Aborts(v, files[k])
    ensures FirstAbort(v, files) < |files| ==> Aborts(v, files[FirstAbort(v, files)])
    decreases |files|
  {
    if files != [] && !Aborts(v, files[0]) {
      var rest := files[1..];
      var n := FirstAbort(v, files);
      assert n == 1 + FirstAbort(v, rest);
      FirstAbortStops(v, rest);
      forall k | 0 <= k < n ensures !Aborts(v, files[k]) {
        if k > 0 {
          assert files[k] == rest[k - 1];
        }
      }
      if n < |files| {
        assert files[n] == rest[n - 1];
      }
    }
  }

  /** The per-file reading step of `load_documents`, with its page loop. */
  method ReadDocument(f: DocFile) returns (text: Reading<string>)
    ensures text == ExtractedText(f)
  {
    if IsPdfName(f.name) {
      match f.pdf
      case Raised(e) =>
        text := Raised(e);
      case Read(pages) =>
        var t := "";
        for p := 0 to |pages|
          invariant t == PageText(pages[..p])
        {
          assert pages[..p + 1][..p] == pages[..p];
          t := t + PageOr(pages[p]);
        }
        assert pages[..|pages|] == pages;
        text := Read(t);
    } else if IsPlainTextName(f.name) {
      text := f.text;
    } else {
      text := Read("");
    }
  }

  /** The metadata entries one file contributes: none when its read raised or its text is blank. */
  function FileChunks(f: DocFile): seq<ChunkMeta>
  {
    match ExtractedText(f)
    case Raised(_) => []
    case Read(t) => if Strip(t) == "" then [] else Chunks(f.name, t)
  }

  /** A file contributes no chunk exactly when its read raised or its text is empty or whitespace only. */
  lemma FileChunksEmpty(f: DocFile)
    ensures FileChunks(f) == [] <==> ExtractedText(f).Raised? || Strip(ExtractedText(f).value) == ""
  {
    if ExtractedText(f).Read? {
      var t := ExtractedText(f).value;
      StripShape(t);
      ChunkStarts(f.name, t, ChunkSize, ChunkOverlap, 0);
      if Strip(t) != "" {
        assert t != [];
      }
    }
  }

  /** The whole `metadata` list after a load of `files`, in folder order. */
  function Corpus(files: seq<DocFile>): seq<ChunkMeta>
  {
    if files == [] then [] else Corpus(files[..|files| - 1]) + FileChunks(files[|files| - 1])
  }

  /** m is a window of file f's text, as the chunker cuts it. */
  predicate ChunkOf(f: DocFile, m: ChunkMeta)
  {
    && ExtractedText(f).Read?
    && Strip(ExtractedText(f).value) != ""
    && WindowOf(f.name, ExtractedText(f).value, ChunkSize, m)
  }

  /** Every metadata entry is a non-empty window, at most ChunkSize long, of a readable non-blank file of the folder. */
  lemma {:induction false} CorpusEntriesAreWindows(files: seq<DocFile>)
    ensures forall k :: 0 <= k < |Corpus(files)| ==>
      exists j :: 0 <= j < |files| && ChunkOf(files[j], Corpus(files)[k])
    decreases |files|
  {
    if files != [] {
      var n := |files| - 1;
      var init := files[..n];
      CorpusEntriesAreWindows(init);
      var f := files[n];
      var fc := FileChunks(f);
      assert Corpus(files) == Corpus(init) + fc;
      if ExtractedText(f).Read? && Strip(ExtractedText(f).value) != "" {
        ChunkWindows(f.name, ExtractedText(f).value, ChunkSize, ChunkOverlap, 0);
      }
      forall k | 0 <= k < |Corpus(files)|
        ensures exists j :: 0 <= j < |files| && ChunkOf(files[j], Corpus(files)[k])
      {
        if k < |Corpus(init)| {
          var j :| 0 <= j < |init| && ChunkOf(init[j], Corpus(init)[k]);
          assert files[j] == init[j];
          assert Corpus(files)[k] == Corpus(init)[k];
          assert ChunkOf(files[j], Corpus(files)[k]);
        } else {
          var t := ExtractedText(f).value;
          assert ExtractedText(f).Read? && Strip(t) != "" && fc == Chunks(f.name, t);
          assert Corpus(files)[k] == fc[k - |Corpus(init)|];
          assert ChunkOf(files[n], Corpus(files)[k]);
        }
      }
    } else {
      assert Corpus(files) == [];
    }
  }

  /** `chunks` as it relates to `metadata`: entry k's `chunk_text`. */
  function Texts(ms: seq<ChunkMeta>): seq<string>
  {
    seq(|ms|, k requires 0 <= k < |ms| => ms[k].text)
  }

  /** The chunk texts of a + b are those of a, then those of b: `chunks` grows in step with `metadata`. */
  lemma TextsAppend(a: seq<ChunkMeta>, b: seq<ChunkMeta>)
    ensures Texts(a + b) == Texts(a) + Texts(b)
  {
    var l, r := Texts(a + b), Texts(a) + Texts(b);
    assert |l| == |r|;
    forall k | 0 <= k < |l| ensures l[k] == r[k] {
      if k < |a| { assert (a + b)[k] == a[k]; } else { assert (a + b)[k] == b[k - |a|]; }
    }
  }

  /** An entry the load reaches and whose exception escapes is where the load stops. */
  lemma AbortsHere(v: Variant, files: seq<DocFile>, j: nat)
    requires j < |files| && j <= FirstAbort(v, files) && Aborts(v, files[j])
    ensures j == FirstAbort(v, files)
  {
    FirstAbortStops(v, files);
  }

  /** An entry the load reaches and gets through leaves the stop further on. */
  lemma PassesHere(v: Variant, files: seq<DocFile>, j: nat)
    requires j < |files| && j <= FirstAbort(v, files) && !Aborts(v, files[j])
    ensures j < FirstAbort(v, files)
  {
    FirstAbortStops(v, files);
  }

  // ---------------------------------------------------------------------
  // Search results
  // ---------------------------------------------------------------------

  /** The positions of a faiss row the loop does not skip (every one but -1), in row order. */
  function Kept(hits: seq<int>): (r: seq<int>)
    ensures |r| <= |hits|
    ensures forall j :: 0 <= j < |r| ==> r[j] != -1 && r[j] in hits
    ensures forall j :: 0 <= j < |hits| && hits[j] != -1 ==> hits[j] in r
  {
    if hits == [] then []
    else
      var last := hits[|hits| - 1];
      Kept(hits[..|hits| - 1]) + (if last == -1 then [] else [last])
  }

  /** Skipping -1 keeps the order: the kept positions of a + b are a's, then b's. */
  lemma {:induction false} KeptAppend(a: seq<int>, b: seq<int>)
    ensures Kept(a + b) == Kept(a) + Kept(b)
    decreases |b|
  {
    if b != [] {
      var b' := b[..|b| - 1];
      assert (a + b)[..|a + b| - 1] == a + b';
      KeptAppend(a, b');
    } else {
      assert a + b == a;
    }
  }

  /**
   * `metadata[idx]` for each kept position, in row order; None where some
   * position is out of range, which raises IndexError in the scripts.
   */
  function Retrieved(metadata: seq<ChunkMeta>, hits: seq<int>): (r: Option<seq<ChunkMeta>>)
    requires forall j :: 0 <= j < |hits| ==> hits[j] >= -1
    ensures r.Some? <==> forall j :: 0 <= j < |hits| ==> hits[j] < |metadata|
  {
    if hits == [] then Some([])
    else
      var h := hits[|hits| - 1];
      match Retrieved(metadata, hits[..|hits| - 1])
      case None => None
      case Some(ms) =>
        if h == -1 then Some(ms)
        else if h < |metadata| then Some(ms + [metadata[h]])
        else None
  }

  /** The entries retrieved are `metadata` at the kept positions, one per kept position, in row order. */
  lemma {:induction false} RetrievedAtKept(metadata: seq<ChunkMeta>, hits: seq<int>)
    requires forall j :: 0 <= j < |hits| ==> -1 <= hits[j] < |metadata|
    ensures Retrieved(metadata, hits).Some?
    ensures var ms := Retrieved(metadata, hits).value;
      && |ms| == |Kept(hits)|
      && forall j :: 0 <= j < |ms| ==> 0 <= Kept(hits)[j] < |metadata| && ms[j] == metadata[Kept(hits)[j]]
    decreases |hits|
  {
    if hits != [] {
      var init := hits[..|hits| - 1];
      RetrievedAtKept(metadata, init);
    }
  }

  /** `chunk_info['chunk_text'][:300]`: the first 300 characters of a chunk. */
  function Preview(text: string): (r: string)
    ensures |r| == Min(300, |text|) && r <= text
  {
    Take(text, 300)
  }

  /** One entry of the sources panel. */
  function SourceEntry(v: Variant, m: ChunkMeta): string
  {
    "**From " + m.file + "** (" + v.ChunkLabel() + NatToString(m.start) + "):\n" + Preview(m.text) + "..."
  }

  /** An entry names its file first, and ends with the chunk's preview and an "..." that is there even for short chunks. */
  lemma SourceEntryShape(v: Variant, m: ChunkMeta)
    ensures var e := SourceEntry(v, m);
      && StartsWith(e, "**From " + m.file + "** (")
      && EndsWith(e, Preview(m.text) + "...")
      && |e| == |"**From " + m.file + "** (" + v.ChunkLabel() + NatToString(m.start) + "):\n"| + Min(300, |m.text|) + 3
  {
    var head := "**From " + m.file + "** (";
    var e := SourceEntry(v, m);
    var tail := Preview(m.text) + "...";
    assert e == head + (v.ChunkLabel() + NatToString(m.start) + "):\n" + tail);
    assert e[..|head|] == head;
    assert e == (head + v.ChunkLabel() + NatToString(m.start) + "):\n") + tail;
    assert e[|e| - |tail|..] == tail;
  }

  function Entries(v: Variant, ms: seq<ChunkMeta>): seq<string>
  {
    seq(|ms|, k requires 0 <= k < |ms| => SourceEntry(v, ms[k]))
  }

  /** The source entries of a + b are those of a, then those of b. */
  lemma EntriesAppend(v: Variant, a: seq<ChunkMeta>, b: seq<ChunkMeta>)
    ensures Entries(v, a + b) == Entries(v, a) + Entries(v, b)
  {
    var l, r := Entries(v, a + b), Entries(v, a) + Entries(v, b);
    assert |l| == |r|;
    forall k | 0 <= k < |l| ensures l[k] == r[k] {
      if k < |a| { assert (a + b)[k] == a[k]; } else { assert (a + b)[k] == b[k - |a|]; }
    }
  }

  /** `search` returns (context, sources), or raises IndexError on a position past `metadata`. */
  datatype SearchOutcome = Found(context: string, sources: string) | SearchFailed

  /** What `search` returns for a store in the given state and the row the index answers with. */
  function SearchResult(v: Variant, index: Option<FlatIndex>, metadata: seq<ChunkMeta>, hits: seq<int>): SearchOutcome
    requires index.Some? ==> FaissRow(hits, index.value.ntotal)
  {
    if index.None? then Found(v.NoIndexContext(), "")
    else
      match Retrieved(metadata, hits)
      case None => SearchFailed
      case Some(ms) => Found(Join(Texts(ms), "\n\n"), Join(Entries(v, ms), "\n\n---\n\n"))
  }

  /**
   * With an index whose size matches `metadata`, search never fails, and the
   * context is the texts of at most TopK entries, the row's non-padding
   * positions in the row's order.
   */
  lemma ConsistentSearchFinds(v: Variant, metadata: seq<ChunkMeta>, hits: seq<int>)
    requires FaissRow(hits, |metadata|)
    ensures Retrieved(metadata, hits).Some?
    ensures var ms := Retrieved(metadata, hits).value;
      && |ms| <= TopK
      && SearchResult(v, Some(FlatIndex(|metadata|)), metadata, hits)
         == Found(Join(Texts(ms), "\n\n"), Join(Entries(v, ms), "\n\n---\n\n"))
  {
    RetrievedAtKept(metadata, hits);
  }

  /** A row of padding only yields an empty context and no sources. */
  lemma PaddingOnlyFindsNothing(v: Variant, metadata: seq<ChunkMeta>, n: nat)
    ensures SearchResult(v, Some(FlatIndex(n)), metadata, [-1, -1, -1]) == Found("", "")
  {
    assert Kept([-1, -1, -1]) == [] by {
      assert [-1, -1, -1][..2] == [-1, -1];
      assert [-1, -1][..1] == [-1];
      assert [-1][..0] == [];
    }
    RetrievedAtKept(metadata, [-1, -1, -1]);
  }

  /** `answer`'s outcome: the reply and the sources, or the IndexError of its search. */
  datatype Reply = Reply(answer: string, sources: string) | SearchCrashed

  // ---------------------------------------------------------------------
  // The store
  // ---------------------------------------------------------------------

  /** The module-level globals `index`, `chunks` and `metadata`. */
  class VectorStore {
    var index: Option<FlatIndex>
    var chunks: seq<string>
    var metadata: seq<ChunkMeta>

    /** `chunks[k]` is `metadata[k]["chunk_text"]` for every k. */
    ghost predicate Lockstep()
      reads this
    {
      chunks == Texts(metadata)
    }

    /** In lockstep, and an index, if any, holds one vector per chunk. */
    ghost predicate Valid()
      reads this
    {
      Lockstep() && (index.Some? ==> index.value.ntotal == |metadata|)
    }

    /** The state at import time: no index, both lists empty. */
    constructor ()
      ensures Valid() && index == None && chunks == [] && metadata == []
    {
      index := None;
      chunks := [];
      metadata := [];
    }

    /**
     * `load_documents()` as written: both lists are rebuilt from the folder;
     * the index is replaced only when some chunk was produced, so a load that
     * produces none leaves the previous index in place. In the scripts that
     * do not catch reader exceptions (status None), the lists keep what the
     * entries before the failing one contributed, and the index is the old one.
     */
    method LoadDocuments(v: Variant, files: seq<DocFile>) returns (status: Option<string>)
      modifies this
      ensures metadata == Corpus(files[..FirstAbort(v, files)]) && Lockstep()
      ensures status.None? <==> FirstAbort(v, files) < |files|
      ensures status.None? ==> index == old(index)
      ensures status.Some? && metadata == [] ==> status == Some(v.NoDocumentsStatus()) && index == old(index)
      ensures status.Some? && metadata != [] ==> status == Some(v.LoadedStatus(|metadata|, |files|)) && index == Some(FlatIndex(|metadata|))
    {
      var complete := ReadFolder(v, files);
      if !complete {
        return None;
      }
      if chunks == [] {
        return Some(v.NoDocumentsStatus());
      }
      index := Some(FlatIndex(|chunks|));
      status := Some(v.LoadedStatus(|chunks|, |files|));
    }

    /**
     * The loop over the folder: both lists restart empty and gain each
     * entry's chunks in turn, until an entry's reader exception escapes
     * (complete false) or the folder ends.
     */
    method ReadFolder(v: Variant, files: seq<DocFile>) returns (complete: bool)
      modifies this
      ensures complete <==> FirstAbort(v, files) == |files|
      ensures metadata == Corpus(files[..FirstAbort(v, files)]) && Lockstep()
      ensures index == old(index)
    {
      chunks := [];
      metadata := [];
      for j := 0 to |files|
        invariant j <= FirstAbort(v, files)
        invariant metadata == Corpus(files[..j]) && chunks == Texts(metadata)
        invariant index == old(index)
      {
        var f := files[j];
        assert files[..j + 1][..j] == files[..j];
        var read := ReadDocument(f);
        if read.Raised? && !v.SkipsUnreadableFiles() {
          AbortsHere(v, files, j);
          return false;
        }
        PassesHere(v, files, j);
        if read.Read? && Strip(read.value) != "" {
          AppendChunks(f.name, read.value);
        }
      }
      return true;
    }

    /** The inner loop of `load_documents`: the windows of one document, appended to both lists in step. */
    method AppendChunks(file: string, text: string)
      requires Lockstep()
      modifies this
      ensures metadata == old(metadata) + Chunks(file, text) && Lockstep()
      ensures index == old(index)
    {
      var i: nat := 0;
      while i < |text|
        invariant metadata + ChunksFrom(file, text, ChunkSize, ChunkOverlap, i) == old(metadata) + Chunks(file, text)
        invariant chunks == Texts(metadata)
        invariant index == old(index)
        decreases |text| - i
      {
        var chunk := Slice(text, i, i + ChunkSize);
        var m := ChunkMeta(file, i, chunk);
        ghost var rest := ChunksFrom(file, text, ChunkSize, ChunkOverlap, i + (ChunkSize - ChunkOverlap));
        assert ChunksFrom(file, text, ChunkSize, ChunkOverlap, i) == [m] + rest;
        assert metadata + ([m] + rest) == (metadata + [m]) + rest;
        TextsAppend(metadata, [m]);
        chunks := chunks + [chunk];
        metadata := metadata + [m];
        i := i + (ChunkSize - ChunkOverlap);
      }
      assert ChunksFrom(file, text, ChunkSize, ChunkOverlap, i) == [];
      assert metadata + [] == metadata;
    }

    /**
     * `load_documents()` with the index cleared whenever the load does not
     * build a new one (no chunk, or a reader exception), so the store stays
     * consistent.
     */
    method LoadDocumentsAtomic(v: Variant, files: seq<DocFile>) returns (status: Option<string>)
      modifies this
      ensures Valid() && metadata == Corpus(files[..FirstAbort(v, files)])
      ensures status.None? <==> FirstAbort(v, files) < |files|
      ensures status.None? || metadata == [] ==> index == None
      ensures status.Some? && metadata == [] ==> status == Some(v.NoDocumentsStatus())
      ensures status.Some? && metadata != [] ==> status == Some(v.LoadedStatus(|metadata|, |files|)) && index == Some(FlatIndex(|metadata|))
    {
      status := LoadDocuments(v, files);
      if status.None? || metadata == [] {
        index := None;
      }
    }

    /** `search(question)`, the index's answer for the question being `hits`. */
    method Search(v: Variant, hits: seq<int>) returns (r: SearchOutcome)
      requires index.Some? ==> FaissRow(hits, index.value.ntotal)
      ensures r == SearchResult(v, index, metadata, hits)
    {
      if index.None? {
        return Found(v.NoIndexContext(), "");
      }
      var retrievedChunks: seq<string> := [];
      var retrievedDisplay: seq<string> := [];
      ghost var picked: seq<ChunkMeta> := [];
      var j := 0;
      while j < |hits|
        invariant 0 <= j <= |hits|
        invariant Retrieved(metadata, hits[..j]) == Some(picked)
        invariant retrievedChunks == Texts(picked) && retrievedDisplay == Entries(v, picked)
      {
        var idx := hits[j];
        assert hits[..j + 1][..j] == hits[..j];
        if idx != -1 {
          if idx >= |metadata| {
            return SearchFailed;
          }
          var info := metadata[idx];
          TextsAppend(picked, [info]);
          EntriesAppend(v, picked, [info]);
          retrievedChunks := retrievedChunks + [info.text];
          retrievedDisplay := retrievedDisplay + [SourceEntry(v, info)];
          picked := picked + [info];
        }
        j := j + 1;
      }
      assert hits[..|hits|] == hits;
      return Found(Join(retrievedChunks, "\n\n"), Join(retrievedDisplay, "\n\n---\n\n"));
    }

    /**
     * `answer(question)`: the reply is the stripped generation, or the
     * script's error prefix and the exception text; either way the sources
     * of the search come back unchanged.
     */
    function Answer(v: Variant, question: string, hits: seq<int>, generate: Prompt -> GenResult): (r: Reply)
      reads this
      requires v.HasAnswer()
      requires index.Some? ==> FaissRow(hits, index.value.ntotal)
      ensures r.SearchCrashed? <==> SearchResult(v, index, metadata, hits).SearchFailed?
      ensures r.Reply? ==> r.sources == SearchResult(v, index, metadata, hits).sources
      ensures r.Reply? ==>
        var g := generate(AnswerPrompt(v, SearchResult(v, index, metadata, hits).context, question));
        r.answer == (if g.Generated? then Strip(g.response) else v.GenerationErrorPrefix() + g.error)
    {
      match SearchResult(v, index, metadata, hits)
      case SearchFailed => SearchCrashed
      case Found(context, sources) =>
        match generate(AnswerPrompt(v, context, question))
        case Generated(response) => Reply(Strip(response), sources)
        case GenFailed(e) => Reply(v.GenerationErrorPrefix() + e, sources)
    }
  }

  /** The search of a consistent store never raises, so `answer` always replies. */
  lemma ValidStoreAnswers(store: VectorStore, v: Variant, question: string, hits: seq<int>, generate: Prompt -> GenResult)
    requires v.HasAnswer()
    requires store.index.Some? ==> FaissRow(hits, store.index.value.ntotal)
    ensures store.Valid() ==> store.Answer(v, question, hits, generate).Reply?
  {
    if store.index.Some? && store.Valid() {
      ConsistentSearchFinds(v, store.metadata, hits);
    }
  }

  /** A folder holding one .txt file with a short non-blank text loads as a single chunk covering it. */
  lemma CorpusOfOneShortTextFile(f: DocFile)
    requires IsPlainTextName(f.name) && !IsPdfName(f.name)
    requires f.text.Read? && 0 < |f.text.value| <= ChunkSize - ChunkOverlap && !IsSpace(f.text.value[0])
    ensures Corpus([f]) == [ChunkMeta(f.name, 0, f.text.value)]
  {
    var t := f.text.value;
    StripShape(t);
    assert !AllSpace(t);
    ShortTextIsOneChunk(f.name, t);
    assert [f][..0] == [];
    assert Corpus([f]) == Corpus([]) + FileChunks(f);
  }

  /** [0, -1, -1] is a faiss row for a one-vector index; against empty metadata its 0 is out of range. */
  lemma FirstOfThree(hits: seq<int>, n: nat)
    requires hits == [0, -1, -1] && n == 1
    ensures FaissRow(hits, n) && Retrieved([], hits).None?
  {
    assert |hits| == 3;
    forall j | 0 <= j < |hits| ensures -1 <= hits[j] < n {
      assert hits[j] == 0 || hits[j] == -1;
    }
    var none: seq<ChunkMeta> := [];
    assert !(hits[0] < |none|);
  }

  /** A one-file folder, the file being a short plain-text note. */
  function NotesFolder(): seq<DocFile>
  {
    [DocFile("notes.txt", Raised("not read"), Read("Attention is all you need."))]
  }

  /** Every script gets through the note, which loads as one chunk; an empty folder loads nothing. */
  lemma NotesFolderLoads(v: Variant)
    ensures FirstAbort(v, NotesFolder()) == 1
    ensures Corpus(NotesFolder()[..1]) == [ChunkMeta("notes.txt", 0, "Attention is all you need.")]
    ensures FirstAbort(v, []) == 0 && Corpus([][..0]) == []
  {
    var files := NotesFolder();
    var f := files[0];
    assert f.name[|f.name| - 4..] == ".txt";
    CorpusOfOneShortTextFile(f);
    assert files[..1] == [f];
    assert files[1..] == [];
  }

  /**
   * The stale index, end to end: one non-empty file is loaded, then a folder
   * with no usable file; the old one-vector index survives the second load,
   * and the index's answer [0, -1, -1] sends search past the empty metadata.
   */
  method StaleIndexAfterEmptyLoad() returns (first: Option<string>, second: Option<string>, r: SearchOutcome)
    ensures first == Some(ReliableAgent.LoadedStatus(1, 1))
    ensures second == Some(ReliableAgent.NoDocumentsStatus())
    ensures r == SearchFailed
  {
    var store := new VectorStore();
    NotesFolderLoads(ReliableAgent);
    first := store.LoadDocuments(ReliableAgent, NotesFolder());
    second := store.LoadDocuments(ReliableAgent, []);
    var hits := [0, -1, -1];
    FirstOfThree(hits, 1);
    r := store.Search(ReliableAgent, hits);
  }

  /** After the corrected load, the same sequence of calls searches an empty store without an index. */
  method NoStaleIndexAfterAtomicLoad() returns (r: SearchOutcome)
    ensures r == Found("", "")
  {
    var store := new VectorStore();
    NotesFolderLoads(ReliableAgent);
    var first := store.LoadDocumentsAtomic(ReliableAgent, NotesFolder());
    var second := store.LoadDocumentsAtomic(ReliableAgent, []);
    r := store.Search(ReliableAgent, [0, -1, -1]);
  }
}
