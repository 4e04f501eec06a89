/**
 * The sacred plan layer of `sacred_layer_implementation.py`: plans are
 * created in draft status with a random verification code, written to one
 * JSON file each, and approved only when both the stored verification code
 * and the manager's approval key are presented. Large plans are cut into
 * chunks, first at blank lines and then, for chunks still too long, at
 * sentence ends.
 *
 * The plan directory is the map `planFiles` from plan id to the parsed
 * content of `<plan id>.json` (`None` for a file that does not parse).
 * Random bytes, the uuid, SHA-256 and the clock are parameters.
 */
module SacredLayer {
  import opened Wrappers
  import opened Strings
  import Json

  datatype PlanStatus = Draft | PendingApproval | Approved | Superseded | Archived

  /** The string a status is written as. */
  function StatusValue(s: PlanStatus): string {
    match s
    case Draft => "draft"
    case PendingApproval => "pending_approval"
    case Approved => "approved"
    case Superseded => "superseded"
    case Archived => "archived"
  }

  /** A plan; times are their ISO-8601 text and the metadata is its one `chunked` flag. */
  datatype SacredPlan = SacredPlan(
    planId: string,
    projectId: string,
    title: string,
    content: string,
    contentHash: string,
    status: PlanStatus,
    createdAt: string,
    approvedAt: Option<string>,
    approvedBy: Option<string>,
    verificationCode: Option<string>,
    chunks: seq<string>,
    chunked: bool)

  // ---------------------------------------------------------------------
  // Chunking (`chunk_large_plan`, `reconstruct_plan`)
  // ---------------------------------------------------------------------

  const ParagraphSeparator := "\n\n"
  const SentenceSeparator := ". "
  const LargePlanThreshold := 1000

  /** The chunks emitted so far and the chunk being built. */
  datatype Packing = Packing(out: seq<string>, current: string)

  /**
   * One part of a packing pass: when the part would push a non-empty current
   * chunk past `size`, the current chunk is emitted, stripped and followed by
   * `suffix`, and the part starts the next one; otherwise the part joins the
   * current chunk after `sep`. With `skipBlank` a current chunk that strips
   * to nothing is dropped instead of emitted.
   */
  function PackStep(st: Packing, part: string, sep: string, size: nat, suffix: string, skipBlank: bool): Packing {
    if |st.current| + |part| > size && st.current != "" then
      Packing(if skipBlank && Strip(st.current) == "" then st.out else st.out + [Strip(st.current) + suffix], part)
    else if st.current != "" then
      Packing(st.out, st.current + sep + part)
    else
      Packing(st.out, part)
  }

  /** The packing pass over `parts`, from no chunks and an empty current chunk. */
  function Pack(parts: seq<string>, sep: string, size: nat, suffix: string, skipBlank: bool): Packing
    decreases |parts|
  {
    if |parts| == 0 then Packing([], "")
    else PackStep(Pack(parts[..|parts| - 1], sep, size, suffix, skipBlank), parts[|parts| - 1], sep, size, suffix, skipBlank)
  }

  /** The last chunk of a pass, stripped, when it is not blank. */
  function Close(st: Packing): seq<string> {
    if Strip(st.current) != "" then st.out + [Strip(st.current)] else st.out
  }

  /** The first pass: paragraphs packed into chunks of about `size` characters. */
  function ParagraphChunks(content: string, size: nat, skipBlank: bool): seq<string> {
    Close(Pack(Split(content, ParagraphSeparator), ParagraphSeparator, size, "", skipBlank))
  }

  /** The second pass on one long chunk: its sentences packed, each emitted chunk ending in a full stop. */
  function SentenceChunks(chunk: string, size: nat): seq<string> {
    Close(Pack(Split(chunk, SentenceSeparator), SentenceSeparator, size, ".", false))
  }

  /** What the second pass makes of one first-pass chunk. */
  function Refined(chunk: string, size: nat): seq<string> {
    if |chunk| <= size then [chunk] else SentenceChunks(chunk, size)
  }

  /** The second pass over all first-pass chunks, in order. */
  function Refine(chunks: seq<string>, size: nat): seq<string>
    decreases |chunks|
  {
    if |chunks| == 0 then []
    else Refine(chunks[..|chunks| - 1], size) + Refined(chunks[|chunks| - 1], size)
  }

  /** `chunk_large_plan(content, size)` as written: a blank current chunk is emitted, stripped to nothing. */
  function PlanChunks(content: string, size: nat): seq<string> {
    Refine(ParagraphChunks(content, size, false), size)
  }

  /**
   * `chunk_large_plan(content, size)` as evidently intended: the paragraph
   * pass drops a current chunk that strips to nothing, as the final one is
   * dropped.
   */
  function PlanChunksSkippingBlank(content: string, size: nat): seq<string> {
    Refine(ParagraphChunks(content, size, true), size)
  }

  /** The second pass keeps the order of the first: it works chunk by chunk. */
  lemma {:induction false} RefineAppend(a: seq<string>, b: seq<string>, size: nat)
    ensures Refine(a + b, size) == Refine(a, size) + Refine(b, size)
    decreases |b|
  {
    if |b| > 0 {
      var b' := b[..|b| - 1];
      assert (a + b)[..|a + b| - 1] == a + b';
      RefineAppend(a, b', size);
    } else {
      assert a + b == a;
    }
  }

  /** A first-pass chunk no longer than `size` reaches the output unchanged, between what its neighbours become. */
  lemma ShortChunkKept(chunks: seq<string>, k: nat, size: nat)
    requires k < |chunks| && |chunks[k]| <= size
    ensures Refine(chunks, size) == Refine(chunks[..k], size) + [chunks[k]] + Refine(chunks[k + 1..], size)
  {
    assert chunks == chunks[..k] + [chunks[k]] + chunks[k + 1..];
    RefineAppend(chunks[..k] + [chunks[k]], chunks[k + 1..], size);
    RefineAppend(chunks[..k], [chunks[k]], size);
    assert [chunks[k]][..0] == [];
  }

  /** When every first-pass chunk is short, the second pass changes nothing. */
  lemma {:induction false} RefineShort(chunks: seq<string>, size: nat)
    requires forall k :: 0 <= k < |chunks| ==> |chunks[k]| <= size
    ensures Refine(chunks, size) == chunks
    decreases |chunks|
  {
    if |chunks| > 0 {
      RefineShort(chunks[..|chunks| - 1], size);
      assert chunks == chunks[..|chunks| - 1] + [chunks[|chunks| - 1]];
    }
  }

  /** Empty content has no chunks. */
  lemma EmptyPlanHasNoChunks(size: nat)
    ensures PlanChunks("", size) == [] && PlanChunksSkippingBlank("", size) == []
  {
    assert Split("", ParagraphSeparator) == [""];
    var parts := [""];
    assert parts[..0] == [];
    assert Pack(parts, ParagraphSeparator, size, "", false) == Packing([], "");
    assert Pack(parts, ParagraphSeparator, size, "", true) == Packing([], "");
    assert Strip("") == "";
  }

  /**
   * A current chunk past `size + |sep|` is a single part: parts join only
   * when the two lengths together stay within `size`.
   */
  lemma {:induction false} PackCurrentBound(parts: seq<string>, sep: string, size: nat, suffix: string, skipBlank: bool)
    ensures var cur := Pack(parts, sep, size, suffix, skipBlank).current;
      |cur| <= size + |sep| || (|parts| > 0 && cur == parts[|parts| - 1])
    decreases |parts|
  {
    if |parts| > 0 {
      PackCurrentBound(parts[..|parts| - 1], sep, size, suffix, skipBlank);
    }
  }

  /** `c` is no longer than `limit`, or is one of `parts`, stripped and followed by `suffix`. */
  predicate WithinOrPart(c: string, parts: seq<string>, limit: nat, suffix: string) {
    |c| <= limit || exists j :: 0 <= j < |parts| && c == Strip(parts[j]) + suffix
  }

  /**
   * Every chunk a pass emits is no longer than `size + |sep| + |suffix|`, or
   * is one part, stripped and followed by `suffix`.
   */
  lemma {:induction false} PackOutBound(parts: seq<string>, sep: string, size: nat, suffix: string, skipBlank: bool)
    ensures forall k :: 0 <= k < |Pack(parts, sep, size, suffix, skipBlank).out| ==>
      WithinOrPart(Pack(parts, sep, size, suffix, skipBlank).out[k], parts, size + |sep| + |suffix|, suffix)
    decreases |parts|
  {
    if |parts| > 0 {
      var front := parts[..|parts| - 1];
      var st := Pack(front, sep, size, suffix, skipBlank);
      var limit := size + |sep| + |suffix|;
      PackOutBound(front, sep, size, suffix, skipBlank);
      LastEmittedWithin(front, parts, sep, size, suffix, skipBlank);
      var out := Pack(parts, sep, size, suffix, skipBlank).out;
      assert out == st.out || out == st.out + [Strip(st.current) + suffix];
      forall k | 0 <= k < |out|
        ensures WithinOrPart(out[k], parts, limit, suffix)
      {
        if k < |st.out| {
          WithinOrPartGrows(st.out[k], front, parts, limit, suffix);
        }
      }
    }
  }

  /** The chunk a step may emit, the current one stripped and followed by `suffix`, is within bound or one part. */
  lemma LastEmittedWithin(front: seq<string>, parts: seq<string>, sep: string, size: nat, suffix: string, skipBlank: bool)
    requires |parts| > 0 && front == parts[..|parts| - 1]
    ensures WithinOrPart(Strip(Pack(front, sep, size, suffix, skipBlank).current) + suffix, parts, size + |sep| + |suffix|, suffix)
  {
    var cur := Pack(front, sep, size, suffix, skipBlank).current;
    PackCurrentBound(front, sep, size, suffix, skipBlank);
    if |cur| > size + |sep| {
      assert cur == parts[|parts| - 2];
    }
  }

  lemma WithinOrPartGrows(c: string, front: seq<string>, parts: seq<string>, limit: nat, suffix: string)
    requires front <= parts && WithinOrPart(c, front, limit, suffix)
    ensures WithinOrPart(c, parts, limit, suffix)
  {
    if |c| > limit {
      var j :| 0 <= j < |front| && c == Strip(front[j]) + suffix;
      assert parts[j] == front[j];
    }
  }

  /** With `skipBlank` a pass emits no chunk that is empty. */
  lemma {:induction false} PackSkipsBlank(parts: seq<string>, sep: string, size: nat)
    ensures NoEmpty(Pack(parts, sep, size, "", true).out)
    decreases |parts|
  {
    if |parts| > 0 {
      var st := Pack(parts[..|parts| - 1], sep, size, "", true);
      PackSkipsBlank(parts[..|parts| - 1], sep, size);
      assert Strip(st.current) + "" == Strip(st.current);
      var out := Pack(parts, sep, size, "", true).out;
      if out != st.out {
        assert out == st.out + [Strip(st.current)] && Strip(st.current) != "";
        NonEmptyAppend(st.out, Strip(st.current));
      }
    }
  }

  /** A sentence pass emits no chunk that is empty. */
  lemma {:induction false} SentencePackNonEmpty(parts: seq<string>, size: nat)
    ensures NoEmpty(Pack(parts, SentenceSeparator, size, ".", false).out)
    decreases |parts|
  {
    if |parts| > 0 {
      var st := Pack(parts[..|parts| - 1], SentenceSeparator, size, ".", false);
      SentencePackNonEmpty(parts[..|parts| - 1], size);
      var out := Pack(parts, SentenceSeparator, size, ".", false).out;
      if out != st.out {
        assert out == st.out + [Strip(st.current) + "."];
        NonEmptyAppend(st.out, Strip(st.current) + ".");
      }
    }
  }

  /** The second pass never makes an empty chunk out of non-empty ones. */
  lemma {:induction false} RefineNonEmpty(chunks: seq<string>, size: nat)
    requires NoEmpty(chunks)
    ensures NoEmpty(Refine(chunks, size))
    decreases |chunks|
  {
    if |chunks| > 0 {
      var c := chunks[|chunks| - 1];
      var rest := chunks[..|chunks| - 1];
      assert forall k :: 0 <= k < |rest| ==> rest[k] == chunks[k];
      RefineNonEmpty(rest, size);
      RefinedNonEmpty(c, size);
      NoEmptyConcat(Refine(rest, size), Refined(c, size));
    }
  }

  /** No chunk of `xs` is empty. */
  predicate NoEmpty(xs: seq<string>) {
    forall k :: 0 <= k < |xs| ==> xs[k] != ""
  }

  lemma NoEmptyConcat(a: seq<string>, b: seq<string>)
    requires NoEmpty(a) && NoEmpty(b)
    ensures NoEmpty(a + b)
  {
    forall k | 0 <= k < |a + b|
      ensures (a + b)[k] != ""
    {
      if k < |a| {
        assert (a + b)[k] == a[k];
      } else {
        assert (a + b)[k] == b[k - |a|];
      }
    }
  }

  lemma NonEmptyAppend(xs: seq<string>, x: string)
    requires NoEmpty(xs) && x != ""
    ensures NoEmpty(xs + [x])
  {
    forall k | 0 <= k < |xs + [x]|
      ensures (xs + [x])[k] != ""
    {
      if k < |xs| {
        assert (xs + [x])[k] == xs[k];
      }
    }
  }

  /** The second pass makes no empty chunk out of a non-empty one. */
  lemma RefinedNonEmpty(c: string, size: nat)
    requires c != ""
    ensures NoEmpty(Refined(c, size))
  {
    if |c| > size {
      var st := Pack(Split(c, SentenceSeparator), SentenceSeparator, size, ".", false);
      SentencePackNonEmpty(Split(c, SentenceSeparator), size);
      assert SentenceChunks(c, size) == Close(st);
      if Strip(st.current) != "" {
        NonEmptyAppend(st.out, Strip(st.current));
      }
    }
  }

  /** Dropping blank chunks in the paragraph pass leaves no empty chunk in the output. */
  lemma SkippingBlankHasNoEmptyChunk(content: string, size: nat)
    ensures NoEmpty(PlanChunksSkippingBlank(content, size))
  {
    var parts := Split(content, ParagraphSeparator);
    var st := Pack(parts, ParagraphSeparator, size, "", true);
    PackSkipsBlank(parts, ParagraphSeparator, size);
    if Strip(st.current) != "" {
      NonEmptyAppend(st.out, Strip(st.current));
    }
    RefineNonEmpty(ParagraphChunks(content, size, true), size);
  }

  /** `c` is one sentence of `chunk`, stripped, with or without the full stop the sentence pass adds. */
  predicate FromSentence(c: string, chunk: string) {
    exists j :: 0 <= j < |Split(chunk, SentenceSeparator)|
      && (c == Strip(Split(chunk, SentenceSeparator)[j]) || c == Strip(Split(chunk, SentenceSeparator)[j]) + ".")
  }

  /**
   * `c` is at most `size + 3` characters long (the size, the sentence
   * separator and the added full stop), or is one overlong sentence of one of
   * the first-pass `chunks`.
   */
  predicate BoundedOrSentence(c: string, chunks: seq<string>, size: nat) {
    |c| <= size + 3 || exists i :: 0 <= i < |chunks| && FromSentence(c, chunks[i])
  }

  /** Each chunk the second pass makes of `chunk` is within `size + 3`, or is one sentence of it. */
  lemma RefinedBound(chunk: string, size: nat)
    ensures forall k :: 0 <= k < |Refined(chunk, size)| ==>
      |Refined(chunk, size)[k]| <= size + 3 || FromSentence(Refined(chunk, size)[k], chunk)
  {
    if |chunk| > size {
      var parts := Split(chunk, SentenceSeparator);
      var st := Pack(parts, SentenceSeparator, size, ".", false);
      assert |SentenceSeparator| + |"."| == 3;
      PackOutBound(parts, SentenceSeparator, size, ".", false);
      PackCurrentBound(parts, SentenceSeparator, size, ".", false);
      var r := Refined(chunk, size);
      assert r == Close(st);
      forall k | 0 <= k < |r|
        ensures |r[k]| <= size + 3 || FromSentence(r[k], chunk)
      {
        if k < |st.out| {
          assert r[k] == st.out[k];
          assert WithinOrPart(st.out[k], parts, size + 3, ".");
          if |r[k]| > size + 3 {
            var j :| 0 <= j < |parts| && st.out[k] == Strip(parts[j]) + ".";
            assert r[k] == Strip(Split(chunk, SentenceSeparator)[j]) + ".";
          }
        } else {
          assert r[k] == Strip(st.current);
          if |st.current| > size + 2 {
            var j := |parts| - 1;
            assert r[k] == Strip(Split(chunk, SentenceSeparator)[j]);
          }
        }
      }
    }
  }

  /** Every chunk of the second pass is within `size + 3`, or is one sentence of a first-pass chunk. */
  lemma {:induction false} RefineBound(chunks: seq<string>, size: nat)
    ensures forall k :: 0 <= k < |Refine(chunks, size)| ==> BoundedOrSentence(Refine(chunks, size)[k], chunks, size)
    decreases |chunks|
  {
    if |chunks| > 0 {
      var front := chunks[..|chunks| - 1];
      var last := chunks[|chunks| - 1];
      RefineBound(front, size);
      RefinedBound(last, size);
      var a := Refine(front, size);
      var b := Refined(last, size);
      assert Refine(chunks, size) == a + b;
      forall k | 0 <= k < |a + b|
        ensures BoundedOrSentence((a + b)[k], chunks, size)
      {
        if k < |a| {
          var c := a[k];
          assert (a + b)[k] == c;
          if |c| > size + 3 {
            var i :| 0 <= i < |front| && FromSentence(c, front[i]);
            assert chunks[i] == front[i];
          }
        } else {
          var c := b[k - |a|];
          assert (a + b)[k] == c;
          if |c| > size + 3 {
            assert FromSentence(c, chunks[|chunks| - 1]);
          }
        }
      }
    }
  }

  /**
   * The size bound of `chunk_large_plan`: every chunk is at most `size + 3`
   * characters long, unless it is a single sentence of a first-pass chunk
   * that is itself longer than that, stripped and perhaps ending in a full
   * stop.
   */
  lemma PlanChunksBound(content: string, size: nat)
    ensures forall k :: 0 <= k < |PlanChunks(content, size)| ==>
      BoundedOrSentence(PlanChunks(content, size)[k], ParagraphChunks(content, size, false), size)
  {
    RefineBound(ParagraphChunks(content, size, false), size);
  }

  /** `s` strips to nothing exactly when every character of it is white space. */
  lemma StripEmptyIffBlank(s: string)
    ensures Strip(s) == "" <==> forall i :: 0 <= i < |s| ==> IsSpace(s[i])
  {
    var a := StripStart(s);
    assert Strip(s) == StripEnd(a);
  }

  /** A chunk ending in a part that is not blank is not blank. */
  lemma JoinedNotBlank(cur: string, sep: string, part: string)
    requires Strip(part) != ""
    ensures Strip(cur + sep + part) != ""
  {
    StripEmptyIffBlank(part);
    var k :| 0 <= k < |part| && !IsSpace(part[k]);
    var joined := cur + sep + part;
    assert joined[|cur| + |sep| + k] == part[k];
    StripEmptyIffBlank(joined);
  }

  /** One step of the pass on a part that is not blank, from a current chunk that is empty or not blank. */
  lemma PackStepWithoutBlank(st: Packing, part: string, sep: string, size: nat)
    requires Strip(part) != "" && (st.current == "" || Strip(st.current) != "")
    ensures PackStep(st, part, sep, size, "", false) == PackStep(st, part, sep, size, "", true)
    ensures var cur := PackStep(st, part, sep, size, "", false).current;
      cur == "" || Strip(cur) != ""
  {
    if st.current != "" {
      JoinedNotBlank(st.current, sep, part);
    }
  }

  /**
   * When no part strips to nothing, the paragraph pass never holds a blank
   * current chunk, so dropping blank chunks changes nothing.
   */
  lemma {:induction false} PackWithoutBlankParts(parts: seq<string>, sep: string, size: nat)
    requires forall j :: 0 <= j < |parts| ==> Strip(parts[j]) != ""
    ensures Pack(parts, sep, size, "", false) == Pack(parts, sep, size, "", true)
    ensures var cur := Pack(parts, sep, size, "", false).current;
      cur == "" || Strip(cur) != ""
    decreases |parts|
  {
    if |parts| > 0 {
      var front := parts[..|parts| - 1];
      PackWithoutBlankParts(front, sep, size);
      PackStepWithoutBlank(Pack(front, sep, size, "", false), parts[|parts| - 1], sep, size);
    }
  }

  /**
   * As written, the chunking makes no empty chunk when no paragraph strips
   * to nothing: it is then the chunking that drops blank chunks.
   */
  lemma NoBlankParagraphNoEmptyChunk(content: string, size: nat)
    requires forall j :: 0 <= j < |Split(content, ParagraphSeparator)| ==> Strip(Split(content, ParagraphSeparator)[j]) != ""
    ensures PlanChunks(content, size) == PlanChunksSkippingBlank(content, size)
    ensures NoEmpty(PlanChunks(content, size))
  {
    PackWithoutBlankParts(Split(content, ParagraphSeparator), ParagraphSeparator, size);
    SkippingBlankHasNoEmptyChunk(content, size);
  }

  /** A string without `sep` splits into itself. */
  lemma {:induction false} SplitWithoutSeparator(s: string, sep: string)
    requires |sep| > 0 && !Contains(s, sep)
    ensures Split(s, sep) == [s]
    decreases |s|
  {
    if |s| > 0 {
      SplitWithoutSeparator(s[1..], sep);
      assert [s[0]] + s[1..] == s;
    }
  }

  /**
   * As written, a blank paragraph followed by one of at least `size`
   * characters makes the first chunk empty: the blank current chunk is
   * emitted, stripped, before the long paragraph.
   */
  lemma BlankParagraphGivesEmptyChunk(p: string, size: nat)
    requires |p| >= size && !Contains(p, ParagraphSeparator)
    ensures var cs := PlanChunks(" " + ParagraphSeparator + p, size);
      |cs| > 0 && cs[0] == ""
  {
    var content := " " + ParagraphSeparator + p;
    BlankThenParagraph(p);
    var first := ParagraphChunks(content, size, false);
    BlankParagraphPass(p, size);
    assert first[..1] == [""];
    RefineAppend(first[..1], first[1..], size);
    assert first == first[..1] + first[1..];
    assert Refine([""], size) == [""] by {
      assert [""][..0] == [];
    }
  }

  /** The paragraphs of a blank paragraph followed by `p`. */
  lemma BlankThenParagraph(p: string)
    requires !Contains(p, ParagraphSeparator)
    ensures Split(" " + ParagraphSeparator + p, ParagraphSeparator) == [" ", p]
  {
    var content := " " + ParagraphSeparator + p;
    SplitWithoutSeparator(p, ParagraphSeparator);
    assert content[1..] == ParagraphSeparator + p;
    assert ParagraphSeparator <= content[1..];
    assert content[1..][|ParagraphSeparator|..] == p;
    var t := Split(content[1..], ParagraphSeparator);
    assert t == [""] + Split(p, ParagraphSeparator);
    assert t == ["", p];
    assert content[0] == ' ' && ParagraphSeparator[0] == '\n';
    assert !(ParagraphSeparator <= content);
    assert Split(content, ParagraphSeparator) == [[content[0]] + t[0]] + t[1..];
    assert [content[0]] + t[0] == " ";
  }

  /** The paragraph pass over a blank paragraph and a long one emits the blank one, stripped to nothing, first. */
  lemma BlankParagraphPass(p: string, size: nat)
    requires |p| >= size && !Contains(p, ParagraphSeparator)
    ensures var first := ParagraphChunks(" " + ParagraphSeparator + p, size, false);
      |first| > 0 && first[0] == ""
  {
    BlankThenParagraph(p);
    var parts := [" ", p];
    assert parts[..1] == [" "] && [" "][..0] == [];
    assert IsSpace(' ');
    assert Strip(" ") == "";
    assert Strip(" ") + "" == "";
    assert Pack([" "], ParagraphSeparator, size, "", false) == Packing([], " ");
    var st := Pack(parts, ParagraphSeparator, size, "", false);
    assert st.out == [""];
  }

  /** `reconstruct_plan`: the chunks joined with nothing between them. */
  function ReconstructPlan(chunks: seq<string>): (r: string)
    ensures forall k :: 0 <= k < |chunks| ==> |chunks[k]| <= |r|
    ensures |chunks| == 1 ==> r == chunks[0]
    decreases |chunks|
  {
    if |chunks| == 0 then "" else ReconstructPlan(chunks[..|chunks| - 1]) + chunks[|chunks| - 1]
  }

  /** Reconstruction works chunk by chunk, in order. */
  lemma {:induction false} ReconstructAppend(a: seq<string>, b: seq<string>)
    ensures ReconstructPlan(a + b) == ReconstructPlan(a) + ReconstructPlan(b)
    decreases |b|
  {
    if |b| > 0 {
      var b' := b[..|b| - 1];
      assert (a + b)[..|a + b| - 1] == a + b';
      ReconstructAppend(a, b');
    } else {
      assert a + b == a;
    }
  }

  // ---------------------------------------------------------------------
  // Verification codes
  // ---------------------------------------------------------------------

  /** The lower-case hexadecimal digit of `d`. */
  function HexDigit(d: nat): char
    requires d < 16
  {
    if d < 10 then ('0' as int + d) as char else ('a' as int + d - 10) as char
  }

  /** The upper-case hexadecimal digit of `d`. */
  function UpperHexDigit(d: nat): (c: char)
    requires d < 16
    ensures IsUpperHex(c) && HexValue(c) == d
  {
    if d < 10 then ('0' as int + d) as char else ('A' as int + d - 10) as char
  }

  predicate IsByteSeq(bytes: seq<nat>) {
    forall i :: 0 <= i < |bytes| ==> bytes[i] < 256
  }

  /** `secrets.token_hex`: the bytes as lower-case hexadecimal text, two digits each. */
  function TokenHex(bytes: seq<nat>): (r: string)
    requires IsByteSeq(bytes)
    ensures |r| == 2 * |bytes|
    decreases |bytes|
  {
    if |bytes| == 0 then ""
    else
      var b := bytes[|bytes| - 1];
      TokenHex(bytes[..|bytes| - 1]) + [HexDigit(b / 16), HexDigit(b % 16)]
  }

  /** The same text in upper case. */
  function UpperTokenHex(bytes: seq<nat>): (r: string)
    requires IsByteSeq(bytes)
    decreases |bytes|
  {
    if |bytes| == 0 then ""
    else
      var b := bytes[|bytes| - 1];
      UpperTokenHex(bytes[..|bytes| - 1]) + [UpperHexDigit(b / 16), UpperHexDigit(b % 16)]
  }

  /** `token_hex(n).upper()` is the upper-case digit text. */
  lemma {:induction false} UpperOfTokenHex(bytes: seq<nat>)
    requires IsByteSeq(bytes)
    ensures Upper(TokenHex(bytes)) == UpperTokenHex(bytes)
    decreases |bytes|
  {
    if |bytes| > 0 {
      var front := bytes[..|bytes| - 1];
      var b := bytes[|bytes| - 1];
      UpperOfTokenHex(front);
      UpperAppend(TokenHex(front), [HexDigit(b / 16), HexDigit(b % 16)]);
      assert UpperChar(HexDigit(b / 16)) == UpperHexDigit(b / 16);
      assert UpperChar(HexDigit(b % 16)) == UpperHexDigit(b % 16);
    }
  }

  lemma UpperAppend(a: string, b: string)
    ensures Upper(a + b) == Upper(a) + Upper(b)
  {
  }

  /** An upper-case hexadecimal digit. */
  predicate IsUpperHex(c: char) {
    '0' <= c <= '9' || 'A' <= c <= 'F'
  }

  predicate AllUpperHex(s: string) {
    forall i :: 0 <= i < |s| ==> IsUpperHex(s[i])
  }

  /** `_generate_verification_code`: `token_hex(4).upper()` for the four random bytes given. */
  function VerificationCode(bytes: seq<nat>): (r: string)
    requires |bytes| == 4 && IsByteSeq(bytes)
    ensures |r| == 8 && AllUpperHex(r)
  {
    UpperOfTokenHex(bytes);
    UpperHexShape(bytes);
    Upper(TokenHex(bytes))
  }

  lemma {:induction false} UpperHexShape(bytes: seq<nat>)
    requires IsByteSeq(bytes)
    ensures AllUpperHex(UpperTokenHex(bytes))
    decreases |bytes|
  {
    if |bytes| > 0 {
      var front := bytes[..|bytes| - 1];
      var b := bytes[|bytes| - 1];
      UpperHexShape(front);
      var r := UpperTokenHex(bytes);
      var t := UpperTokenHex(front);
      assert r == t + [UpperHexDigit(b / 16), UpperHexDigit(b % 16)];
      forall i | 0 <= i < |r|
        ensures IsUpperHex(r[i])
      {
        if i < |t| {
          assert r[i] == t[i];
        } else if i == |t| {
          assert r[i] == UpperHexDigit(b / 16);
        } else {
          assert r[i] == UpperHexDigit(b % 16);
        }
      }
    }
  }

  /** The value of a hexadecimal digit; 0 for any other character. */
  function HexValue(c: char): nat {
    if '0' <= c <= '9' then c as int - '0' as int
    else if 'A' <= c <= 'F' then c as int - 'A' as int + 10
    else 0
  }

  /** The bytes a hexadecimal text stands for, two digits each from the end; a leading odd digit is ignored. */
  function FromHex(s: string): (r: seq<nat>)
    decreases |s|
  {
    if |s| < 2 then []
    else FromHex(s[..|s| - 2]) + [16 * HexValue(s[|s| - 2]) + HexValue(s[|s| - 1])]
  }

  lemma FromHexAppend(t: string, c1: char, c2: char)
    ensures FromHex(t + [c1, c2]) == FromHex(t) + [16 * HexValue(c1) + HexValue(c2)]
  {
    var u := t + [c1, c2];
    assert u[..|u| - 2] == t;
  }

  /** The random bytes are recovered from the upper-case digit text. */
  lemma {:induction false} UpperTokenHexDecodes(bytes: seq<nat>)
    requires IsByteSeq(bytes)
    ensures FromHex(UpperTokenHex(bytes)) == bytes
    decreases |bytes|
  {
    if |bytes| > 0 {
      var front := bytes[..|bytes| - 1];
      var b := bytes[|bytes| - 1];
      var t := UpperTokenHex(front);
      UpperTokenHexDecodes(front);
      DecodeStep(t, front, b);
      assert bytes == front + [b];
    }
  }

  /** Two more upper-case digits of a byte decode to one more byte. */
  lemma DecodeStep(t: string, front: seq<nat>, b: nat)
    requires FromHex(t) == front && b < 256
    ensures FromHex(t + [UpperHexDigit(b / 16), UpperHexDigit(b % 16)]) == front + [b]
  {
    var c1, c2 := UpperHexDigit(b / 16), UpperHexDigit(b % 16);
    FromHexAppend(t, c1, c2);
    assert 16 * HexValue(c1) + HexValue(c2) == b;
  }

  /** The verification code reads back as the four random bytes it was made from. */
  lemma VerificationCodeDecodes(bytes: seq<nat>)
    requires |bytes| == 4 && IsByteSeq(bytes)
    ensures FromHex(VerificationCode(bytes)) == bytes
  {
    UpperOfTokenHex(bytes);
    UpperTokenHexDecodes(bytes);
  }

  /** `generate_verification_code(plan)`: a fresh code, a hyphen and the first eight hash digits upper-cased. */
  function PlanVerificationCode(bytes: seq<nat>, plan: SacredPlan): (r: string)
    requires |bytes| == 4 && IsByteSeq(bytes)
    ensures |r| == 9 + |Prefix(plan.contentHash, 8)| && r[8] == '-'
    ensures r[..8] == VerificationCode(bytes)
  {
    VerificationCode(bytes) + "-" + Upper(Prefix(plan.contentHash, 8))
  }

  // ---------------------------------------------------------------------
  // The stored form of a plan
  // ---------------------------------------------------------------------

  function OptionalStr(o: Option<string>): Json.Value {
    match o
    case None => Json.Null
    case Some(s) => Json.Str(s)
  }

  /** The fields of `SacredPlan`, the keys `asdict` gives. */
  const PlanKeys: set<string> := {"plan_id", "project_id", "title", "content", "content_hash", "status",
    "created_at", "approved_at", "approved_by", "verification_code", "chunks", "metadata"}

  /** `asdict(plan)` with the status written as its value, as `create_plan` writes it. */
  function PlanToDict(p: SacredPlan): (d: map<string, Json.Value>)
    ensures d.Keys == PlanKeys
  {
    map[
      "plan_id" := Json.Str(p.planId),
      "project_id" := Json.Str(p.projectId),
      "title" := Json.Str(p.title),
      "content" := Json.Str(p.content),
      "content_hash" := Json.Str(p.contentHash),
      "status" := Json.Str(StatusValue(p.status)),
      "created_at" := Json.Str(p.createdAt),
      "approved_at" := OptionalStr(p.approvedAt),
      "approved_by" := OptionalStr(p.approvedBy),
      "verification_code" := OptionalStr(p.verificationCode),
      "chunks" := Json.StrArray(p.chunks),
      "metadata" := Json.Object(map["chunked" := Json.Bool(p.chunked)])]
  }

  /** The first factor: the stored code is set and equals the one presented. */
  predicate CodeAccepted(fields: map<string, Json.Value>, code: string) {
    "verification_code" in fields && Json.Truthy(fields["verification_code"])
    && fields["verification_code"] == Json.Str(code)
  }

  /** Both factors hold for the stored record `file` of the presented code and key. */
  predicate Authorized(file: Option<Json.Value>, code: string, managerKey: string, key: string) {
    file.Some? && file.value.Object? && CodeAccepted(file.value.fields, code)
    && managerKey != "" && managerKey == key
  }

  /** The record after approval: status, approval time and approver set, nothing else touched. */
  function Approve(fields: map<string, Json.Value>, now: string): (r: map<string, Json.Value>)
    ensures r.Keys == fields.Keys + {"status", "approved_at", "approved_by"}
    ensures r["status"] == Json.Str(StatusValue(Approved))
    ensures r["approved_at"] == Json.Str(now) && r["approved_by"] == Json.Str("system")
    ensures forall k :: k in fields && k !in {"status", "approved_at", "approved_by"} ==> r[k] == fields[k]
  {
    fields["status" := Json.Str(StatusValue(Approved))]["approved_at" := Json.Str(now)]["approved_by" := Json.Str("system")]
  }

  /** `len(v)` raises nothing. */
  predicate HasLen(v: Json.Value) {
    v.Str? || v.Array? || v.Object?
  }

  /** `v` can be a dictionary key. */
  predicate Hashable(v: Json.Value) {
    !v.Array? && !v.Object?
  }

  /**
   * The chunk metadata update after the write raises nothing: with chunks
   * stored, `project_id` must be present and hashable and `title` and
   * `created_at` present, and the chunks must have a length.
   */
  predicate ChunkUpdateSucceeds(fields: map<string, Json.Value>) {
    !("chunks" in fields && Json.Truthy(fields["chunks"]))
    || (HasLen(fields["chunks"]) && "project_id" in fields && Hashable(fields["project_id"])
        && "title" in fields && "created_at" in fields)
  }

  /** A record written by `create_plan` passes the chunk update once approved. */
  lemma CreatedRecordUpdates(p: SacredPlan, now: string)
    ensures ChunkUpdateSucceeds(Approve(PlanToDict(p), now))
  {
    var d := PlanToDict(p);
    assert "project_id" in d && "title" in d && "created_at" in d && "chunks" in d;
    assert d["project_id"] == Json.Str(p.projectId);
    assert d["chunks"] == Json.StrArray(p.chunks);
  }

  /** A record written by `create_plan` accepts exactly its own verification code. */
  lemma CreatedRecordCode(p: SacredPlan, code: string)
    requires p.verificationCode.Some? && p.verificationCode.value != ""
    ensures CodeAccepted(PlanToDict(p), code) <==> code == p.verificationCode.value
  {
    var d := PlanToDict(p);
    assert d["verification_code"] == Json.Str(p.verificationCode.value);
  }

  /** A second approval leaves the record as a single approval at the later time would. */
  lemma ApproveTwice(fields: map<string, Json.Value>, t1: string, t2: string)
    ensures Approve(Approve(fields, t1), t2) == Approve(fields, t2)
  {
  }

  /**
   * The plan `create_plan` builds: draft, unapproved, chunked only when the
   * content is over the threshold, and flagged as chunked exactly when it has
   * chunks.
   */
  function NewPlan(projectId: string, title: string, content: string, uuidHex: string, hash: string,
                   code: string, now: string, chunks: seq<string>): (p: SacredPlan)
    ensures p.status == Draft && p.approvedAt.None? && p.approvedBy.None? && p.verificationCode == Some(code)
    ensures p.chunks == chunks && p.chunked == (|chunks| > 0)
  {
    SacredPlan("plan_" + Prefix(uuidHex, 12), projectId, title, content, hash, Draft, now, None, None,
               Some(code), chunks, |chunks| > 0)
  }

  /** A plan built by `create_plan` is a draft with chunks only above the threshold, flagged as chunked exactly when it has chunks. */
  lemma NewPlanShape(projectId: string, title: string, content: string, uuidHex: string, hash: string,
                     code: string, now: string)
    ensures var chunks := if |content| > LargePlanThreshold then PlanChunks(content, LargePlanThreshold) else [];
      var p := NewPlan(projectId, title, content, uuidHex, hash, code, now, chunks);
      && p.status == Draft && p.approvedAt.None? && p.approvedBy.None?
      && (|content| <= LargePlanThreshold ==> p.chunks == [])
      && p.chunked == (|p.chunks| > 0)
      && p.planId[..5] == "plan_" && |p.planId| <= 17
  {
  }

  class SacredLayerManager {
    /** `SACRED_APPROVAL_KEY` as read from the environment at construction, or empty. */
    const approvalKey: string
    /** The plan files: parsed content by plan id. */
    var planFiles: map<string, Option<Json.Value>>

    /** `__init__` over the plan files already stored. */
    constructor (approvalKey: string, planFiles: map<string, Option<Json.Value>>)
      ensures this.approvalKey == approvalKey && this.planFiles == planFiles
    {
      this.approvalKey := approvalKey;
      this.planFiles := planFiles;
    }

    /**
     * `create_plan`: the new draft with the verification code of the random
     * bytes, the content hash `sha256(content)`, chunks when the content is
     * over 1000 characters, written to its file.
     */
    method CreatePlan(projectId: string, title: string, content: string, uuidHex: string,
                      sha256: string -> string, bytes: seq<nat>, now: string) returns (plan: SacredPlan)
      requires |bytes| == 4 && IsByteSeq(bytes)
      modifies this
      ensures plan == NewPlan(projectId, title, content, uuidHex, sha256(content), VerificationCode(bytes), now,
                              if |content| > LargePlanThreshold then PlanChunks(content, LargePlanThreshold) else [])
      ensures planFiles == old(planFiles)[plan.planId := Some(Json.Object(PlanToDict(plan)))]
    {
      var planId := "plan_" + Prefix(uuidHex, 12);
      var contentHash := sha256(content);
      var chunks: seq<string> := [];
      if |content| > LargePlanThreshold {
        chunks := ChunkLargePlan(content, LargePlanThreshold);
      }
      var verificationCode := VerificationCode(bytes);
      plan := SacredPlan(planId, projectId, title, content, contentHash, Draft, now, None, None,
                         Some(verificationCode), chunks, |chunks| > 0);
      planFiles := planFiles[planId := Some(Json.Object(PlanToDict(plan)))];
    }

    /**
     * `approve_plan`: with both factors the record is approved and written
     * back; the call then reports success unless the chunk metadata update
     * that follows the write raises, when it reports failure with the write
     * already done. Without both factors nothing changes.
     */
    method ApprovePlan(planId: string, verificationCode: string, approvalKey: string, now: string) returns (ok: bool)
      modifies this
      ensures var file := if planId in old(planFiles) then old(planFiles)[planId] else None;
        var granted := planId in old(planFiles) && Authorized(file, verificationCode, this.approvalKey, approvalKey);
        && (granted ==> planFiles == old(planFiles)[planId := Some(Json.Object(Approve(file.value.fields, now)))])
        && (!granted ==> planFiles == old(planFiles))
        && (ok <==> granted && ChunkUpdateSucceeds(Approve(file.value.fields, now)))
    {
      if planId !in planFiles {
        return false;
      }
      var file := planFiles[planId];
      if file.None? || !file.value.Object? {
        return false;
      }
      var planData := file.value.fields;
      var stored := Json.Get(planData, "verification_code");
      if stored.None? || !Json.Truthy(stored.value) || stored.value != Json.Str(verificationCode) {
        return false;
      }
      if this.approvalKey == "" || this.approvalKey != approvalKey {
        return false;
      }
      planData := planData["status" := Json.Str(StatusValue(Approved))];
      planData := planData["approved_at" := Json.Str(now)];
      planData := planData["approved_by" := Json.Str("system")];
      planFiles := planFiles[planId := Some(Json.Object(planData))];
      if "chunks" in planData && Json.Truthy(planData["chunks"]) {
        if !HasLen(planData["chunks"]) || "project_id" !in planData || !Hashable(planData["project_id"])
           || "title" !in planData || "created_at" !in planData {
          return false;
        }
      }
      return true;
    }

    /**
     * `chunk_large_plan`: paragraphs packed into chunks, then each chunk longer
     * than `chunkSize` re-cut at sentence ends. A blank current chunk of the
     * paragraph pass is emitted as an empty chunk, so no chunk is empty only
     * when no paragraph is blank.
     */
    method ChunkLargePlan(content: string, chunkSize: nat) returns (finalChunks: seq<string>)
      ensures finalChunks == PlanChunks(content, chunkSize)
      ensures (forall j :: 0 <= j < |Split(content, ParagraphSeparator)| ==> Strip(Split(content, ParagraphSeparator)[j]) != "")
        ==> NoEmpty(finalChunks)
      ensures forall k :: 0 <= k < |finalChunks| ==>
        BoundedOrSentence(finalChunks[k], ParagraphChunks(content, chunkSize, false), chunkSize)
    {
      var chunks := SplitParagraphs(content, chunkSize);
      finalChunks := [];
      var j := 0;
      while j < |chunks|
        invariant 0 <= j <= |chunks|
        invariant finalChunks == Refine(chunks[..j], chunkSize)
      {
        var chunk := chunks[j];
        if |chunk| <= chunkSize {
          finalChunks := finalChunks + [chunk];
        } else {
          var pieces := SplitSentences(chunk, chunkSize);
          finalChunks := finalChunks + pieces;
        }
        assert chunks[..j + 1][..j] == chunks[..j];
        j := j + 1;
      }
      assert chunks[..j] == chunks;
      if forall j :: 0 <= j < |Split(content, ParagraphSeparator)| ==> Strip(Split(content, ParagraphSeparator)[j]) != "" {
        NoBlankParagraphNoEmptyChunk(content, chunkSize);
      }
      PlanChunksBound(content, chunkSize);
    }

    /** The paragraph loop of `chunk_large_plan`, which emits the current chunk stripped, even when that leaves nothing. */
    method SplitParagraphs(content: string, chunkSize: nat) returns (chunks: seq<string>)
      ensures chunks == ParagraphChunks(content, chunkSize, false)
    {
      chunks := [];
      var paragraphs := Split(content, ParagraphSeparator);
      var currentChunk := "";
      var i := 0;
      while i < |paragraphs|
        invariant 0 <= i <= |paragraphs|
        invariant Packing(chunks, currentChunk) == Pack(paragraphs[..i], ParagraphSeparator, chunkSize, "", false)
      {
        var paragraph := paragraphs[i];
        assert paragraphs[..i + 1][..i] == paragraphs[..i];
        assert Pack(paragraphs[..i + 1], ParagraphSeparator, chunkSize, "", false)
          == PackStep(Pack(paragraphs[..i], ParagraphSeparator, chunkSize, "", false), paragraph, ParagraphSeparator, chunkSize, "", false);
        if |currentChunk| + |paragraph| > chunkSize && currentChunk != "" {
          assert Strip(currentChunk) + "" == Strip(currentChunk);
          chunks := chunks + [Strip(currentChunk)];
          currentChunk := paragraph;
        } else if currentChunk != "" {
          currentChunk := currentChunk + ParagraphSeparator + paragraph;
        } else {
          currentChunk := paragraph;
        }
        i := i + 1;
      }
      assert paragraphs[..i] == paragraphs;
      if Strip(currentChunk) != "" {
        chunks := chunks + [Strip(currentChunk)];
      }
    }

    /** The sentence loop of `chunk_large_plan` on one chunk longer than `chunkSize`. */
    method SplitSentences(chunk: string, chunkSize: nat) returns (pieces: seq<string>)
      ensures pieces == SentenceChunks(chunk, chunkSize)
    {
      pieces := [];
      var sentences := Split(chunk, SentenceSeparator);
      var subChunk := "";
      var i := 0;
      while i < |sentences|
        invariant 0 <= i <= |sentences|
        invariant Packing(pieces, subChunk) == Pack(sentences[..i], SentenceSeparator, chunkSize, ".", false)
      {
        var sentence := sentences[i];
        assert sentences[..i + 1][..i] == sentences[..i];
        assert Pack(sentences[..i + 1], SentenceSeparator, chunkSize, ".", false)
          == PackStep(Pack(sentences[..i], SentenceSeparator, chunkSize, ".", false), sentence, SentenceSeparator, chunkSize, ".", false);
        if |subChunk| + |sentence| > chunkSize && subChunk != "" {
          pieces := pieces + [Strip(subChunk) + "."];
          subChunk := sentence;
        } else if subChunk != "" {
          subChunk := subChunk + SentenceSeparator + sentence;
        } else {
          subChunk := sentence;
        }
        i := i + 1;
      }
      assert sentences[..i] == sentences;
      if Strip(subChunk) != "" {
        pieces := pieces + [Strip(subChunk)];
      }
    }
  }
}
