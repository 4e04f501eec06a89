/**
 * The chunker of `rag_agent.py` that cuts a file into pieces for embedding:
 * code files along structural boundaries, line by line, and other files in
 * fixed windows of tokens. The tokenizer is abstract: `encode` turns text
 * into tokens and `decode` turns tokens back into text.
 */
module TextChunking {
  import opened Wrappers
  import opened Strings

  datatype ChunkMetadata =
    | CodeMetadata(file: string, startLine: int, endLine: int, tokens: nat)
    | DocumentMetadata(file: string, chunkIndex: nat, tokens: nat)

  datatype Chunk = Chunk(content: string, metadata: ChunkMetadata)

  /** The prefixes that open a function, class or declaration. */
  const StructuralPrefixes: seq<string> := ["def ", "class ", "function ", "const ", "export "]

  /** The stripped line starts with one of the structural prefixes. */
  predicate IsStructural(line: string) {
    exists k :: 0 <= k < |StructuralPrefixes| && StartsWith(Strip(line), StructuralPrefixes[k])
  }

  /** The sum of the token counts of `ls`. */
  function SumTokens(ls: seq<string>, tok: string -> nat): nat {
    if |ls| == 0 then 0 else SumTokens(ls[..|ls| - 1], tok) + tok(ls[|ls| - 1])
  }

  /** Where the chunk after `c` starts: at its last five lines when it has more than five, else right after it. */
  function OverlapStart(c: Chunk): int
    requires c.metadata.CodeMetadata?
  {
    var m := c.metadata;
    if m.endLine - m.startLine + 1 > 5 then m.endLine + 1 - 5 else m.endLine + 1
  }

  /**
   * Line `j` closes a chunk that started at line `start`: it is structural,
   * or it would push the chunk past `size` tokens when the chunk already has
   * more than ten lines.
   */
  predicate BreakAt(lines: seq<string>, tok: string -> nat, size: nat, start: int, j: int) {
    0 <= start <= j < |lines|
    && (IsStructural(lines[j]) || (SumTokens(lines[start..j], tok) + tok(lines[j]) > size && j - start > 10))
  }

  /** No line strictly between `from` and `to` closes the chunk that started at `start`. */
  predicate Quiet(lines: seq<string>, tok: string -> nat, size: nat, start: int, from: int, to: int) {
    forall j :: from < j < to ==> !BreakAt(lines, tok, size, start, j)
  }

  /** `c` holds lines `startLine..endLine` of `lines`, joined by line feeds, with their token count. */
  predicate CodeChunkOf(lines: seq<string>, tok: string -> nat, file: string, c: Chunk) {
    c.metadata.CodeMetadata?
    && var m := c.metadata;
    0 <= m.startLine <= m.endLine < |lines|
    && c.content == Join(lines[m.startLine..m.endLine + 1], "\n")
    && m.tokens == SumTokens(lines[m.startLine..m.endLine + 1], tok)
    && m.file == file
  }

  /**
   * Chunk `d` follows chunk `c`: `c` was cut at a line that closes it, `d`
   * starts with the overlap of `c`, and no line between the cut and the end
   * of `d` closes `d`.
   */
  predicate Follows(lines: seq<string>, tok: string -> nat, size: nat, c: Chunk, d: Chunk) {
    c.metadata.CodeMetadata? && d.metadata.CodeMetadata?
    && d.metadata.startLine == OverlapStart(c)
    && BreakAt(lines, tok, size, c.metadata.startLine, c.metadata.endLine + 1)
    && Quiet(lines, tok, size, d.metadata.startLine, c.metadata.endLine + 1, d.metadata.endLine + 1)
  }

  /** The first chunk starts at line 0 and no line before its end closes it. */
  predicate FirstChunk(lines: seq<string>, tok: string -> nat, size: nat, cs: seq<Chunk>) {
    |cs| > 0 ==>
      cs[0].metadata.CodeMetadata? && cs[0].metadata.startLine == 0
      && Quiet(lines, tok, size, 0, 0, cs[0].metadata.endLine + 1)
  }

  /** Each chunk follows the one before it. */
  predicate AllFollow(lines: seq<string>, tok: string -> nat, size: nat, cs: seq<Chunk>) {
    forall j, k :: 0 <= j < |cs| && 0 <= k < |cs| && k == j + 1 ==> Follows(lines, tok, size, cs[j], cs[k])
  }

  /**
   * The chunks of `lines` cut along structural boundaries: each holds a run
   * of lines, the first starts at line 0, the last ends at the last line,
   * and each later one follows the one before it.
   */
  predicate StructureChunks(lines: seq<string>, tok: string -> nat, size: nat, file: string, cs: seq<Chunk>) {
    (forall k :: 0 <= k < |cs| ==> CodeChunkOf(lines, tok, file, cs[k]))
    && (|lines| == 0 <==> |cs| == 0)
    && FirstChunk(lines, tok, size, cs)
    && (|cs| > 0 ==> cs[|cs| - 1].metadata.endLine == |lines| - 1)
    && AllFollow(lines, tok, size, cs)
  }

  /** The document chunk of the token window that starts at `start`, numbered `k`. */
  function CodeChunk(lines: seq<string>, tok: string -> nat, file: string, start: int, end: int): (c: Chunk)
    requires 0 <= start <= end < |lines|
    ensures CodeChunkOf(lines, tok, file, c)
    ensures c.metadata.startLine == start && c.metadata.endLine == end
  {
    var ls := lines[start..end + 1];
    Chunk(Join(ls, "\n"), CodeMetadata(file, start, end, SumTokens(ls, tok)))
  }

  /** Each chunk emitted before line `i` holds its lines and was cut before `i`. */
  ghost predicate ChunksBefore(lines: seq<string>, tok: string -> nat, file: string, cs: seq<Chunk>, i: int) {
    forall k :: 0 <= k < |cs| ==> CodeChunkOf(lines, tok, file, cs[k]) && cs[k].metadata.endLine + 1 < i
  }

  /**
   * Where the current chunk starts and the line of the last cut: after the
   * last chunk, which was closed by the line it was cut at.
   */
  ghost predicate Resumes(lines: seq<string>, tok: string -> nat, size: nat, cs: seq<Chunk>, start: int, prevCut: int) {
    (|cs| == 0 ==> start == 0 && prevCut == 0)
    && (|cs| > 0 ==>
          var last := cs[|cs| - 1];
          last.metadata.CodeMetadata?
          && start == OverlapStart(last) && prevCut == last.metadata.endLine + 1
          && BreakAt(lines, tok, size, last.metadata.startLine, last.metadata.endLine + 1))
  }

  /** The chunks emitted before line `i` and the state the pass carries on with. */
  ghost predicate Emitted(lines: seq<string>, tok: string -> nat, size: nat, file: string, cs: seq<Chunk>,
                          start: int, prevCut: int, i: int) {
    ChunksBefore(lines, tok, file, cs, i)
    && FirstChunk(lines, tok, size, cs)
    && AllFollow(lines, tok, size, cs)
    && Resumes(lines, tok, size, cs, start, prevCut)
    && Quiet(lines, tok, size, start, prevCut, i)
  }

  /** Closing the current chunk before line `i` extends the chunks emitted so far. */
  lemma AppendChunk(lines: seq<string>, tok: string -> nat, size: nat, file: string, cs: seq<Chunk>,
                    start: int, prevCut: int, i: int)
    requires 0 <= start < i <= |lines|
    requires Emitted(lines, tok, size, file, cs, start, prevCut, i)
    ensures var cs' := cs + [CodeChunk(lines, tok, file, start, i - 1)];
      ChunksBefore(lines, tok, file, cs', i + 1) && FirstChunk(lines, tok, size, cs') && AllFollow(lines, tok, size, cs')
  {
    var c := CodeChunk(lines, tok, file, start, i - 1);
    AppendBefore(lines, tok, file, cs, c, i);
    AppendFirst(lines, tok, size, cs, c, prevCut);
    if |cs| > 0 {
      assert Follows(lines, tok, size, cs[|cs| - 1], c);
    }
    AppendFollow(lines, tok, size, cs, c);
  }

  lemma AppendBefore(lines: seq<string>, tok: string -> nat, file: string, cs: seq<Chunk>, c: Chunk, i: int)
    requires ChunksBefore(lines, tok, file, cs, i)
    requires CodeChunkOf(lines, tok, file, c) && c.metadata.endLine + 1 == i
    ensures ChunksBefore(lines, tok, file, cs + [c], i + 1)
  {
    var cs' := cs + [c];
    forall k | 0 <= k < |cs'|
      ensures CodeChunkOf(lines, tok, file, cs'[k]) && cs'[k].metadata.endLine + 1 < i + 1
    {
      if k < |cs| {
        assert cs'[k] == cs[k];
      }
    }
  }

  lemma AppendFirst(lines: seq<string>, tok: string -> nat, size: nat, cs: seq<Chunk>, c: Chunk, prevCut: int)
    requires FirstChunk(lines, tok, size, cs)
    requires c.metadata.CodeMetadata?
    requires |cs| == 0 ==> c.metadata.startLine == 0 && prevCut == 0
    requires Quiet(lines, tok, size, c.metadata.startLine, prevCut, c.metadata.endLine + 1)
    ensures FirstChunk(lines, tok, size, cs + [c])
  {
    if |cs| > 0 {
      assert (cs + [c])[0] == cs[0];
    } else {
      assert (cs + [c])[0] == c;
    }
  }

  lemma AppendFollow(lines: seq<string>, tok: string -> nat, size: nat, cs: seq<Chunk>, c: Chunk)
    requires AllFollow(lines, tok, size, cs)
    requires |cs| > 0 ==> Follows(lines, tok, size, cs[|cs| - 1], c)
    ensures AllFollow(lines, tok, size, cs + [c])
  {
    AppendPairs((x, y) => Follows(lines, tok, size, x, y), cs, c);
  }

  /** Appending `c` to `cs` keeps each element related to the next by `R` when the last one is related to `c`. */
  lemma AppendPairs<T>(R: (T, T) -> bool, cs: seq<T>, c: T)
    requires forall j, k :: 0 <= j < |cs| && 0 <= k < |cs| && k == j + 1 ==> R(cs[j], cs[k])
    requires |cs| > 0 ==> R(cs[|cs| - 1], c)
    ensures var cs' := cs + [c];
      forall j, k :: 0 <= j < |cs'| && 0 <= k < |cs'| && k == j + 1 ==> R(cs'[j], cs'[k])
  {
    var cs' := cs + [c];
    forall j, k | 0 <= j < |cs'| && 0 <= k < |cs'| && k == j + 1
      ensures R(cs'[j], cs'[k])
    {
      if k < |cs| {
        assert cs'[j] == cs[j] && cs'[k] == cs[k];
      } else {
        assert cs'[j] == cs[|cs| - 1] && cs'[k] == c;
      }
    }
  }

  /** Cutting at line `i` keeps the pass consistent. */
  lemma EmitStep(lines: seq<string>, tok: string -> nat, size: nat, file: string, cs: seq<Chunk>,
                 start: int, prevCut: int, i: int)
    requires 0 <= start < i < |lines|
    requires Emitted(lines, tok, size, file, cs, start, prevCut, i)
    requires BreakAt(lines, tok, size, start, i)
    ensures var c := CodeChunk(lines, tok, file, start, i - 1);
      Emitted(lines, tok, size, file, cs + [c], OverlapStart(c), i, i + 1)
  {
    AppendChunk(lines, tok, size, file, cs, start, prevCut, i);
    var c := CodeChunk(lines, tok, file, start, i - 1);
    ResumeAfter(lines, tok, size, cs, c, start, i);
    assert Quiet(lines, tok, size, OverlapStart(c), i, i + 1);
  }

  /** After chunk `c`, closed by the line it was cut at, the pass resumes at its overlap. */
  lemma ResumeAfter(lines: seq<string>, tok: string -> nat, size: nat, cs: seq<Chunk>, c: Chunk, start: int, cut: int)
    requires c.metadata.CodeMetadata? && c.metadata.startLine == start && c.metadata.endLine + 1 == cut
    requires BreakAt(lines, tok, size, start, cut)
    ensures Resumes(lines, tok, size, cs + [c], OverlapStart(c), cut)
  {
    assert (cs + [c])[|cs|] == c;
  }

  /** Line `i` that does not cut extends the current chunk. */
  lemma ExtendStep(lines: seq<string>, tok: string -> nat, size: nat, file: string, cs: seq<Chunk>,
                   start: int, prevCut: int, i: int)
    requires 0 <= start <= i < |lines|
    requires Emitted(lines, tok, size, file, cs, start, prevCut, i)
    requires i == prevCut || !BreakAt(lines, tok, size, start, i)
    requires prevCut <= i
    ensures Emitted(lines, tok, size, file, cs, start, prevCut, i + 1)
  {
  }

  /** A pass over no lines emits nothing. */
  lemma NoLines(lines: seq<string>, tok: string -> nat, size: nat, file: string, cs: seq<Chunk>,
                start: int, prevCut: int)
    requires |lines| == 0
    requires Emitted(lines, tok, size, file, cs, start, prevCut, 0)
    ensures StructureChunks(lines, tok, size, file, cs)
  {
  }

  /** The chunk left at the end completes the structure. */
  lemma FinishStep(lines: seq<string>, tok: string -> nat, size: nat, file: string, cs: seq<Chunk>,
                   start: int, prevCut: int)
    requires 0 <= start < |lines|
    requires Emitted(lines, tok, size, file, cs, start, prevCut, |lines|)
    ensures StructureChunks(lines, tok, size, file, cs + [CodeChunk(lines, tok, file, start, |lines| - 1)])
  {
    AppendChunk(lines, tok, size, file, cs, start, prevCut, |lines|);
    var c := CodeChunk(lines, tok, file, start, |lines| - 1);
    assert (cs + [c])[|cs|] == c;
  }

  /** Python's `range(i, n, step)` for a positive step. */
  function Range(i: nat, n: nat, step: nat): (r: seq<nat>)
    requires step > 0
    ensures forall k :: 0 <= k < |r| ==> i <= r[k] < n
    decreases n - i
  {
    if i >= n then [] else [i] + Range(i + step, n, step)
  }

  /** The `k`-th start is `i + k * step`, and the last start is within `step` of `n`. */
  lemma {:induction false} RangeSpec(i: nat, n: nat, step: nat)
    requires step > 0
    ensures var r := Range(i, n, step);
      (forall k :: 0 <= k < |r| ==> r[k] == i + k * step)
      && (i < n ==> |r| > 0 && n <= r[|r| - 1] + step)
    decreases n - i
  {
    if i < n {
      var r := Range(i, n, step);
      var rest := Range(i + step, n, step);
      RangeSpec(i + step, n, step);
      assert r == [i] + rest;
      forall k | 0 < k < |r|
        ensures r[k] == i + k * step
      {
        assert r[k] == rest[k - 1];
        MulSucc(k - 1, step);
      }
    }
  }

  /** The start of window `k` divided by the step is `k`. */
  lemma RangeIndex(n: nat, step: nat, k: nat)
    requires step > 0 && k < |Range(0, n, step)|
    ensures Range(0, n, step)[k] / step == k
  {
    RangeSpec(0, n, step);
    DivExact(k, step);
  }

  /** `tokens[start:start + size]`. */
  function Window(tokens: seq<nat>, start: nat, size: nat): (r: seq<nat>)
    requires start <= |tokens|
    ensures |r| <= size && r <= tokens[start..]
  {
    if start + size <= |tokens| then tokens[start..start + size] else tokens[start..]
  }

  /** The document chunk of the window at `start`, numbered `k`. */
  function SizeChunk(tokens: seq<nat>, decode: seq<nat> -> string, file: string, start: nat, k: nat, size: nat): Chunk
    requires start <= |tokens|
  {
    var w := Window(tokens, start, size);
    Chunk(decode(w), DocumentMetadata(file, k, |w|))
  }

  /** The first `|cs|` document chunks of `tokens`, one per start of `range(0, len(tokens), step)`. */
  predicate SizeChunksSoFar(tokens: seq<nat>, decode: seq<nat> -> string, step: nat, size: nat, file: string, cs: seq<Chunk>)
    requires step > 0
  {
    var starts := Range(0, |tokens|, step);
    |cs| <= |starts|
    && forall k :: 0 <= k < |cs| ==> cs[k] == SizeChunk(tokens, decode, file, starts[k], k, size)
  }

  /** The document chunks of `tokens`: one per start of `range(0, len(tokens), step)`, numbered from 0. */
  predicate SizeChunks(tokens: seq<nat>, decode: seq<nat> -> string, step: nat, size: nat, file: string, cs: seq<Chunk>)
    requires step > 0
  {
    SizeChunksSoFar(tokens, decode, step, size, file, cs) && |cs| == |Range(0, |tokens|, step)|
  }

  /** One more window: the one at the next start `i`, numbered `i / step`. */
  lemma WindowStep(tokens: seq<nat>, decode: seq<nat> -> string, step: nat, size: nat, file: string, cs: seq<Chunk>, i: nat)
    requires step > 0 && i < |tokens| && SizeChunksSoFar(tokens, decode, step, size, file, cs)
    requires Range(0, |tokens|, step)[|cs|..] == Range(i, |tokens|, step)
    ensures SizeChunksSoFar(tokens, decode, step, size, file, cs + [SizeChunk(tokens, decode, file, i, i / step, size)])
    ensures Range(0, |tokens|, step)[|cs| + 1..] == Range(i + step, |tokens|, step)
  {
    var starts := Range(0, |tokens|, step);
    assert starts[|cs|..] == [i] + Range(i + step, |tokens|, step);
    assert starts[|cs|] == i;
    assert starts[|cs| + 1..] == starts[|cs|..][1..];
    RangeIndex(|tokens|, step, |cs|);
  }

  /** Document chunk `k` is numbered `k` and holds at most `size` tokens. */
  lemma SizeChunksNumbered(tokens: seq<nat>, decode: seq<nat> -> string, step: nat, size: nat, file: string, cs: seq<Chunk>)
    requires step > 0 && SizeChunks(tokens, decode, step, size, file, cs)
    ensures forall k :: 0 <= k < |cs| ==>
      cs[k].metadata.DocumentMetadata? && cs[k].metadata.chunkIndex == k && cs[k].metadata.tokens <= size
  {
  }

  /** With windows no further apart than they are wide, every token from `i` on lies in some window. */
  lemma {:induction false} WindowsCover(i: nat, n: nat, step: nat, size: nat, t: nat) returns (k: nat)
    requires 0 < step <= size && i <= t < n
    ensures k < |Range(i, n, step)| && Range(i, n, step)[k] <= t < Range(i, n, step)[k] + size
    decreases n - i
  {
    var r := Range(i, n, step);
    assert r[0] == i;
    if t >= i + step {
      var rest := Range(i + step, n, step);
      assert r == [i] + rest;
      var j := WindowsCover(i + step, n, step, size, t);
      assert r[j + 1] == rest[j];
      k := j + 1;
    } else {
      k := 0;
    }
  }

  class TextChunker {
    const chunkSize: nat
    const overlap: int
    /** The tokenizer: text to tokens and back. */
    const encode: string -> seq<nat>
    const decode: seq<nat> -> string

    constructor (chunkSize: nat, overlap: int, encode: string -> seq<nat>, decode: seq<nat> -> string)
      ensures this.chunkSize == chunkSize && this.overlap == overlap
      ensures this.encode == encode && this.decode == decode
    {
      this.chunkSize := chunkSize;
      this.overlap := overlap;
      this.encode := encode;
      this.decode := decode;
    }

    /** The token count of a line. */
    function Tok(line: string): nat {
      |encode(line)|
    }

    /** `_chunk_by_structure`: one pass over the lines, cutting at boundaries with a five-line overlap. */
    method ChunkByStructure(lines: seq<string>, file: string) returns (chunks: seq<Chunk>)
      ensures StructureChunks(lines, Tok, chunkSize, file, chunks)
    {
      chunks := [];
      var current: seq<string> := [];
      var currentTokens: nat := 0;
      ghost var start := 0;
      ghost var prevCut := 0;
      var i := 0;
      while i < |lines|
        invariant 0 <= i <= |lines|
        invariant Pass(lines, file, chunks, current, currentTokens, start, prevCut, i)
      {
        chunks, current, currentTokens, start, prevCut := StructureStep(lines, file, chunks, current, currentTokens, start, prevCut, i);
        i := i + 1;
      }
      chunks := StructureFinish(lines, file, chunks, current, currentTokens, start, prevCut);
    }

    /** The end of the pass of `_chunk_by_structure`: the lines left over make the last chunk. */
    method StructureFinish(lines: seq<string>, file: string, chunks: seq<Chunk>, current: seq<string>, currentTokens: nat,
                           ghost start: int, ghost prevCut: int)
      returns (r: seq<Chunk>)
      requires 0 <= start <= |lines| && current == lines[start..|lines|]
      requires |lines| > 0 ==> start < |lines|
      requires currentTokens == SumTokens(current, Tok)
      requires Emitted(lines, Tok, chunkSize, file, chunks, start, prevCut, |lines|)
      ensures StructureChunks(lines, Tok, chunkSize, file, r)
    {
      if |current| > 0 {
        var c := Chunk(Join(current, "\n"), CodeMetadata(file, |lines| - |current|, |lines| - 1, currentTokens));
        CurrentChunk(lines, Tok, file, current, start, |lines|);
        FinishStep(lines, Tok, chunkSize, file, chunks, start, prevCut);
        r := chunks + [c];
      } else {
        NoLines(lines, Tok, chunkSize, file, chunks, start, prevCut);
        r := chunks;
      }
    }

    /**
     * The state of the pass of `_chunk_by_structure` before line `i`: the
     * current chunk holds the lines from `start`, with their token count,
     * after the chunks emitted so far.
     */
    ghost predicate Pass(lines: seq<string>, file: string, chunks: seq<Chunk>, current: seq<string>, currentTokens: nat,
                         start: int, prevCut: int, i: int)
    {
      0 <= start <= i <= |lines| && current == lines[start..i]
      && (i > 0 ==> start < i)
      && prevCut <= i && (i > 0 ==> prevCut < i)
      && currentTokens == SumTokens(current, Tok)
      && Emitted(lines, Tok, chunkSize, file, chunks, start, prevCut, i)
    }

    /** One line of the pass of `_chunk_by_structure`. */
    method StructureStep(lines: seq<string>, file: string, chunks: seq<Chunk>, current: seq<string>, currentTokens: nat,
                         ghost start: int, ghost prevCut: int, i: int)
      returns (chunks': seq<Chunk>, current': seq<string>, currentTokens': nat, ghost start': int, ghost prevCut': int)
      requires i < |lines| && Pass(lines, file, chunks, current, currentTokens, start, prevCut, i)
      ensures Pass(lines, file, chunks', current', currentTokens', start', prevCut', i + 1)
    {
      var line := lines[i];
      var tokens := Tok(line);
      var isBoundary := IsStructural(line) || (currentTokens + tokens > chunkSize && |current| > 10);
      assert isBoundary <==> BreakAt(lines, Tok, chunkSize, start, i);
      if isBoundary && |current| > 0 {
        chunks', current', currentTokens', start' := CutAt(lines, file, chunks, current, currentTokens, start, prevCut, i);
        prevCut' := i;
      } else {
        ExtendStep(lines, Tok, chunkSize, file, chunks, start, prevCut, i);
        chunks', current', currentTokens', start', prevCut' := chunks, current, currentTokens, start, prevCut;
      }
      SliceStep(lines, start', i, Tok);
      current' := current' + [line];
      currentTokens' := currentTokens' + tokens;
    }

    /** Saving the current chunk at a boundary line `i` and keeping its last five lines, if it has more. */
    method CutAt(lines: seq<string>, file: string, chunks: seq<Chunk>, current: seq<string>, currentTokens: nat,
                 ghost start: int, ghost prevCut: int, i: int)
      returns (chunks': seq<Chunk>, rest: seq<string>, restTokens: nat, ghost start': int)
      requires 0 <= start < i < |lines| && current == lines[start..i]
      requires currentTokens == SumTokens(current, Tok)
      requires Emitted(lines, Tok, chunkSize, file, chunks, start, prevCut, i)
      requires BreakAt(lines, Tok, chunkSize, start, i)
      ensures 0 <= start' <= i && rest == lines[start'..i] && restTokens == SumTokens(rest, Tok)
      ensures Emitted(lines, Tok, chunkSize, file, chunks', start', i, i + 1)
    {
      var c := Chunk(Join(current, "\n"), CodeMetadata(file, i - |current|, i - 1, currentTokens));
      CurrentChunk(lines, Tok, file, current, start, i);
      EmitStep(lines, Tok, chunkSize, file, chunks, start, prevCut, i);
      chunks' := chunks + [c];
      if |current| - 5 > 0 {
        SliceTail(lines, start, i, 5);
        rest := current[|current| - 5..];
        start' := i - 5;
      } else {
        rest := [];
        start' := i;
      }
      restTokens := SumTokens(rest, Tok);
    }

    /**
     * `_chunk_by_size`: windows of `chunkSize` tokens every `chunkSize - overlap`
     * tokens. A zero step is the `range` error, a negative one gives no chunk.
     */
    method ChunkBySize(content: string, file: string) returns (r: Option<seq<Chunk>>)
      ensures r.None? <==> chunkSize - overlap == 0
      ensures chunkSize - overlap < 0 ==> r == Some([])
      ensures chunkSize - overlap > 0 ==>
        r.Some? && SizeChunks(encode(content), decode, chunkSize - overlap, chunkSize, file, r.value)
      ensures r.Some? ==> forall k :: 0 <= k < |r.value| ==>
        r.value[k].metadata.DocumentMetadata? && r.value[k].metadata.chunkIndex == k && r.value[k].metadata.tokens <= chunkSize
    {
      var tokens := encode(content);
      var step := chunkSize - overlap;
      if step == 0 {
        return None;
      }
      if step < 0 {
        return Some([]);
      }
      var chunks := Windows(tokens, step, file);
      SizeChunksNumbered(tokens, decode, step, chunkSize, file, chunks);
      r := Some(chunks);
    }

    /** The loop of `_chunk_by_size` over `range(0, len(tokens), step)`. */
    method Windows(tokens: seq<nat>, step: nat, file: string) returns (chunks: seq<Chunk>)
      requires step > 0
      ensures SizeChunks(tokens, decode, step, chunkSize, file, chunks)
    {
      chunks := [];
      var i := 0;
      while i < |tokens|
        invariant SizeChunksSoFar(tokens, decode, step, chunkSize, file, chunks)
        invariant Range(0, |tokens|, step)[|chunks|..] == Range(i, |tokens|, step)
        decreases |tokens| - i
      {
        var c := NextWindow(tokens, i, step, file);
        WindowStep(tokens, decode, step, chunkSize, file, chunks, i);
        chunks := chunks + [c];
        i := i + step;
      }
    }

    /** One window of `_chunk_by_size`: `tokens[i:i + chunk_size]`, decoded and numbered. */
    method NextWindow(tokens: seq<nat>, i: nat, step: nat, file: string) returns (c: Chunk)
      requires 0 < step && i <= |tokens|
      ensures c == SizeChunk(tokens, decode, file, i, i / step, chunkSize)
    {
      var end := if i + chunkSize <= |tokens| then i + chunkSize else |tokens|;
      var chunkTokens := tokens[i..end];
      assert chunkTokens == Window(tokens, i, chunkSize);
      c := Chunk(decode(chunkTokens), DocumentMetadata(file, i / step, |chunkTokens|));
    }

    /** `chunk_code`: Python, JavaScript and TypeScript files by structure, everything else by size. */
    method ChunkCode(content: string, file: string) returns (r: Option<seq<Chunk>>)
      ensures var lines := Split(content, "\n");
        IsCodeFile(file) ==> r.Some? && StructureChunks(lines, Tok, chunkSize, file, r.value) && |r.value| > 0
      ensures !IsCodeFile(file) ==> (r.None? <==> chunkSize - overlap == 0)
      ensures !IsCodeFile(file) && chunkSize - overlap > 0 ==>
        r.Some? && SizeChunks(encode(content), decode, chunkSize - overlap, chunkSize, file, r.value)
    {
      var lines := Split(content, "\n");
      if IsCodeFile(file) {
        var cs := ChunkByStructure(lines, file);
        r := Some(cs);
      } else {
        r := ChunkBySize(content, file);
      }
    }
  }

  /** The chunk the pass builds from the lines it has collected since `start`. */
  lemma CurrentChunk(lines: seq<string>, tok: string -> nat, file: string, current: seq<string>, start: int, i: int)
    requires 0 <= start < i <= |lines| && current == lines[start..i]
    ensures Chunk(Join(current, "\n"), CodeMetadata(file, i - |current|, i - 1, SumTokens(current, tok)))
         == CodeChunk(lines, tok, file, start, i - 1)
  {
  }

  /** Appending line `i` to the lines from `start` gives the lines from `start` through `i`. */
  lemma SliceStep(lines: seq<string>, start: int, i: int, tok: string -> nat)
    requires 0 <= start <= i < |lines|
    ensures lines[start..i] + [lines[i]] == lines[start..i + 1]
    ensures SumTokens(lines[start..i + 1], tok) == SumTokens(lines[start..i], tok) + tok(lines[i])
  {
    assert lines[start..i + 1][..i - start] == lines[start..i];
  }

  /** The last `n` of the lines from `start` before `i` are the lines from `i - n`. */
  lemma SliceTail(lines: seq<string>, start: int, i: int, n: nat)
    requires 0 <= start <= i - n && i <= |lines|
    ensures lines[start..i][i - start - n..] == lines[i - n..i]
  {
  }

  predicate IsCodeFile(file: string) {
    EndsWith(file, ".py") || EndsWith(file, ".js") || EndsWith(file, ".ts")
  }

  lemma MulLe(a: nat, b: nat, step: nat)
    requires a <= b
    ensures a * step <= b * step
  {
  }

  lemma MulSucc(k: nat, step: nat)
    ensures (k + 1) * step == k * step + step
  {
  }

  lemma DivExact(k: nat, step: nat)
    requires step > 0
    ensures (k * step) / step == k
  {
    var q := (k * step) / step;
    var r := (k * step) % step;
    assert k * step == q * step + r && 0 <= r < step;
    if q < k {
      MulLe(q + 1, k, step);
      MulSucc(q, step);
    } else if q > k {
      MulLe(k + 1, q, step);
      MulSucc(k, step);
    }
  }
}
