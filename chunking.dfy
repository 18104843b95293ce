/**
 * The fixed-window chunker of the retrieval scripts: a start offset steps
 * over the text by `size - overlap` (500 - 100), and each step takes the
 * window `text[i:i + size]`, clamped at the end of the text as Python does.
 */
module Chunking {
  import opened Text

  const ChunkSize: nat := 500
  const ChunkOverlap: nat := 100

  /** One `metadata` entry: `{"file": ..., "start": i, "chunk_text": chunk}`. */
  datatype ChunkMeta = ChunkMeta(file: string, start: nat, text: string)

  /** `s[i:j]` for 0 <= i <= j: both ends clamp at the length. */
  function Slice(s: string, i: nat, j: nat): string
    requires i <= j
  {
    if i >= |s| then "" else s[i..Min(j, |s|)]
  }

  /**
   * A slice holds the characters of s from i on, as many as lie below both j
   * and the end of s: none when i is at or past the end.
   */
  lemma SliceShape(s: string, i: nat, j: nat)
    requires i <= j
    ensures |Slice(s, i, j)| == (if i < |s| then Min(j, |s|) - i else 0)
    ensures forall k :: 0 <= k < |Slice(s, i, j)| ==> Slice(s, i, j)[k] == s[i + k]
  {
  }

  /** m is the window of `text` that starts at m.start, cut at `size` or at the end of the text. */
  predicate WindowOf(file: string, text: string, size: nat, m: ChunkMeta)
  {
    && m.file == file
    && m.start < |text|
    && |m.text| == Min(size, |text| - m.start)
    && m.text == text[m.start..m.start + |m.text|]
  }

  /**
   * The chunks `for i in range(start, len(text), size - overlap)` produces.
   * The source never checks overlap < size; it is required here, since
   * otherwise `range` gets a step of zero (a ValueError) or a negative one.
   */
  function ChunksFrom(file: string, text: string, size: nat, overlap: nat, i: nat): seq<ChunkMeta>
    requires overlap < size
    decreases |text| - i
  {
    if i >= |text| then []
    else [ChunkMeta(file, i, Slice(text, i, i + size))] + ChunksFrom(file, text, size, overlap, i + (size - overlap))
  }

  /**
   * The starts are exactly i, i + step, i + 2 * step, ... below the length of
   * the text: there is no chunk only when i is already past the end, and the
   * last start leaves less than one step of text after it.
   */
  lemma {:induction false} ChunkStarts(file: string, text: string, size: nat, overlap: nat, i: nat)
    requires overlap < size
    ensures (ChunksFrom(file, text, size, overlap, i) == []) <==> i >= |text|
    ensures ChunksFrom(file, text, size, overlap, i) != [] ==>
      && ChunksFrom(file, text, size, overlap, i)[0].start == i
      && |text| <= ChunksFrom(file, text, size, overlap, i)[|ChunksFrom(file, text, size, overlap, i)| - 1].start + (size - overlap)
    ensures forall k :: 0 <= k < |ChunksFrom(file, text, size, overlap, i)| - 1 ==>
      ChunksFrom(file, text, size, overlap, i)[k + 1].start == ChunksFrom(file, text, size, overlap, i)[k].start + (size - overlap)
    decreases |text| - i
  {
    var step := size - overlap;
    if i < |text| {
      var r := ChunksFrom(file, text, size, overlap, i);
      var r' := ChunksFrom(file, text, size, overlap, i + step);
      ChunkStarts(file, text, size, overlap, i + step);
      assert r == [r[0]] + r';
      assert r[|r| - 1] == if r' == [] then r[0] else r'[|r'| - 1];
      forall k | 0 <= k < |r| - 1 ensures r[k + 1].start == r[k].start + step {
        if k > 0 { assert r[k] == r'[k - 1]; }
      }
    }
  }

  /** Every chunk is the clamped window at its start: non-empty, at most `size` long, and equal to the text there. */
  lemma {:induction false} ChunkWindows(file: string, text: string, size: nat, overlap: nat, i: nat)
    requires overlap < size
    ensures forall k :: 0 <= k < |ChunksFrom(file, text, size, overlap, i)| ==>
      WindowOf(file, text, size, ChunksFrom(file, text, size, overlap, i)[k])
    decreases |text| - i
  {
    var step := size - overlap;
    if i < |text| {
      var r := ChunksFrom(file, text, size, overlap, i);
      var r' := ChunksFrom(file, text, size, overlap, i + step);
      ChunkWindows(file, text, size, overlap, i + step);
      var m := ChunkMeta(file, i, Slice(text, i, i + size));
      assert r == [m] + r';
      assert WindowOf(file, text, size, m);
      forall k | 0 <= k < |r| ensures WindowOf(file, text, size, r[k]) {
        if k > 0 {
          assert r[k] == r'[k - 1];
          assert WindowOf(file, text, size, r'[k - 1]);
        }
      }
    }
  }

  /** The chunks of one document with the scripts' constants. */
  function Chunks(file: string, text: string): seq<ChunkMeta>
  {
    ChunksFrom(file, text, ChunkSize, ChunkOverlap, 0)
  }

  /** Position p falls inside chunk m. */
  predicate Covers(m: ChunkMeta, p: nat) { m.start <= p < m.start + |m.text| }

  /** The chunks after the first are the chunks from the next start. */
  lemma ChunksFromStep(file: string, text: string, size: nat, overlap: nat, i: nat)
    requires overlap < size && i < |text|
    ensures var r := ChunksFrom(file, text, size, overlap, i);
      r[1..] == ChunksFrom(file, text, size, overlap, i + (size - overlap))
  {
  }

  /** Every character from offset i on lies inside some chunk. */
  lemma {:induction false} ChunksCover(file: string, text: string, size: nat, overlap: nat, i: nat, p: nat)
    requires overlap < size && i <= p < |text|
    ensures exists k :: 0 <= k < |ChunksFrom(file, text, size, overlap, i)|
                        && Covers(ChunksFrom(file, text, size, overlap, i)[k], p)
    decreases |text| - i
  {
    var step := size - overlap;
    var r := ChunksFrom(file, text, size, overlap, i);
    var r' := ChunksFrom(file, text, size, overlap, i + step);
    var m := ChunkMeta(file, i, Slice(text, i, i + size));
    assert r == [m] + r';
    if p < i + step {
      assert |m.text| == Min(i + size, |text|) - i;
      assert Covers(r[0], p);
    } else {
      ChunksCover(file, text, size, overlap, i + step, p);
      var k :| 0 <= k < |r'| && Covers(r'[k], p);
      assert r[k + 1] == r'[k];
      assert Covers(r[k + 1], p);
    }
  }

  /** Two windows `step` apart, the first of them full, share the `size - step` characters where they meet. */
  lemma SharedStretch(file: string, text: string, size: nat, step: nat, a: ChunkMeta, b: ChunkMeta)
    requires 0 < step <= size
    requires WindowOf(file, text, size, a) && WindowOf(file, text, size, b)
    requires b.start == a.start + step && |a.text| == size
    ensures |b.text| >= size - step && a.text[step..] == b.text[..size - step]
  {
    var s := a.start;
    assert |b.text| >= size - step;
    assert a.text[step..] == text[s + step..s + size];
    assert b.text[..size - step] == text[s + step..s + size];
  }

  /** Consecutive chunks share `overlap` characters whenever the first one is a full window. */
  lemma ChunksOverlap(file: string, text: string, size: nat, overlap: nat, i: nat, k: nat)
    requires overlap < size
    requires var r := ChunksFrom(file, text, size, overlap, i); k + 1 < |r| && |r[k].text| == size
    ensures var r := ChunksFrom(file, text, size, overlap, i);
      r[k].text[size - overlap..] == Take(r[k + 1].text, overlap) && |r[k + 1].text| >= overlap
  {
    var r := ChunksFrom(file, text, size, overlap, i);
    ChunkStarts(file, text, size, overlap, i);
    ChunkWindows(file, text, size, overlap, i);
    SharedStretch(file, text, size, size - overlap, r[k], r[k + 1]);
  }

  /** The text each chunk contributes when overlaps are dropped: all but the last are cut to `step`. */
  function Reassemble(ms: seq<ChunkMeta>, step: nat): string
  {
    if ms == [] then ""
    else if |ms| == 1 then ms[0].text
    else Take(ms[0].text, step) + Reassemble(ms[1..], step)
  }

  /** Dropping the overlaps and concatenating the chunks gives the text back. */
  lemma {:induction false} ReassembleChunks(file: string, text: string, size: nat, overlap: nat, i: nat)
    requires overlap < size && i <= |text|
    ensures Reassemble(ChunksFrom(file, text, size, overlap, i), size - overlap) == text[i..]
    decreases |text| - i
  {
    var step := size - overlap;
    var r := ChunksFrom(file, text, size, overlap, i);
    if i < |text| {
      var m := r[0];
      assert m == ChunkMeta(file, i, Slice(text, i, i + size));
      if i + step >= |text| {
        assert ChunksFrom(file, text, size, overlap, i + step) == [];
        assert r == [m];
        assert m.text == text[i..];
      } else {
        var r' := ChunksFrom(file, text, size, overlap, i + step);
        ChunksFromStep(file, text, size, overlap, i);
        assert |r| >= 2;
        ReassembleChunks(file, text, size, overlap, i + step);
        assert Reassemble(r, step) == Take(m.text, step) + Reassemble(r', step);
        assert Take(m.text, step) == text[i..i + step];
        assert text[i..] == text[i..i + step] + text[i + step..];
      }
    }
  }

  /** A non-empty text no longer than one step is a single chunk holding all of it. */
  lemma ShortTextIsOneChunk(file: string, text: string)
    requires 0 < |text| <= ChunkSize - ChunkOverlap
    ensures Chunks(file, text) == [ChunkMeta(file, 0, text)]
  {
    assert ChunksFrom(file, text, ChunkSize, ChunkOverlap, 400) == [];
    assert Slice(text, 0, 500) == text[0..|text|] == text;
  }

  /**
   * A text longer than one step but no longer than a window gives two chunks:
   * the whole text, then its tail from offset 400, which the first already holds.
   */
  lemma WindowLengthTextIsTwoChunks(file: string, text: string)
    requires ChunkSize - ChunkOverlap < |text| <= ChunkSize
    ensures Chunks(file, text) == [ChunkMeta(file, 0, text), ChunkMeta(file, 400, text[400..])]
  {
    assert ChunksFrom(file, text, ChunkSize, ChunkOverlap, 800) == [];
    assert Slice(text, 400, 900) == text[400..|text|] == text[400..];
    assert ChunksFrom(file, text, ChunkSize, ChunkOverlap, 400) == [ChunkMeta(file, 400, text[400..])];
    assert Slice(text, 0, 500) == text[0..|text|] == text;
  }

  /** A 1200-character document: chunks start at 0, 400 and 800, and the last is 400 long. */
  lemma TwelveHundredCharacters(file: string, text: string)
    requires |text| == 1200
    ensures var r := Chunks(file, text);
      && |r| == 3
      && r[0].start == 0 && r[1].start == 400 && r[2].start == 800
      && |r[0].text| == 500 && |r[1].text| == 500 && |r[2].text| == 400
  {
    var r3 := ChunksFrom(file, text, ChunkSize, ChunkOverlap, 1200);
    var r2 := ChunksFrom(file, text, ChunkSize, ChunkOverlap, 800);
    var r1 := ChunksFrom(file, text, ChunkSize, ChunkOverlap, 400);
    assert r3 == [];
    assert |r2| == 1;
    assert |r1| == 2;
  }
}
