/** The deterministic bookkeeping of the Gemini client: splitting an article
    into sentences, packing sentences into prompt-sized chunks, stripping the
    markdown fence from a model reply, numbering the reference articles,
    tallying verdicts, the misleading-risk score, and the sequence of events
    the streaming analysis yields. The Gemini API itself is not modelled: the
    reply to each chunk and to the summary request are inputs. */
module GeminiClient {
  import opened Wrappers
  import opened Json
  import opened Text

  // ===========================================================================
  // Sentence splitting: re.split(r'(?<=[.!?])\s+', text), then strip each
  // piece and drop the empty ones.

  predicate IsTerminator(c: char)
  {
    c == '.' || c == '!' || c == '?'
  }

  /** Position `i` starts a whitespace run that follows a terminator: a place
      where the splitting pattern matches. */
  predicate BreaksAt(t: string, i: nat)
  {
    0 < i < |t| && IsTerminator(t[i - 1]) && IsSpace(t[i])
  }

  /** The first split point at or after `from`, or `|t|` when there is none. */
  function FirstBreak(t: string, from: nat): (i: nat)
    ensures i == |t| || (from <= i < |t| && BreaksAt(t, i))
    ensures forall k :: from <= k < i ==> !BreaksAt(t, k)
    decreases |t| - from
  {
    if from >= |t| then |t|
    else if BreaksAt(t, from) then from
    else FirstBreak(t, from + 1)
  }

  /** The end of the whitespace run that starts at `i`. */
  function SpaceRunEnd(t: string, i: nat): (j: nat)
    requires i <= |t|
    ensures i <= j <= |t|
    ensures AllSpace(t[i..j])
    ensures j < |t| ==> !IsSpace(t[j])
    decreases |t| - i
  {
    if i < |t| && IsSpace(t[i]) then
      var j := SpaceRunEnd(t, i + 1);
      assert forall k :: 0 <= k < j - i ==> t[i..j][k] == if k == 0 then t[i] else t[i + 1..j][k - 1];
      j
    else i
  }

  /** The pieces re.split returns: the text up to the first split point, then
      the pieces of what follows the whitespace run. */
  function RawSplit(t: string): (pieces: seq<string>)
    ensures |pieces| >= 1
    decreases |t|
  {
    var i := FirstBreak(t, 1);
    if i >= |t| then [t]
    else [t[..i]] + RawSplit(t[SpaceRunEnd(t, i)..])
  }

  /** Strip every piece and keep the non-empty ones. */
  function Clean(pieces: seq<string>): seq<string>
    decreases |pieces|
  {
    if pieces == [] then []
    else (if Trim(pieces[0]) == "" then [] else [Trim(pieces[0])]) + Clean(pieces[1..])
  }

  function SplitSentences(text: string): seq<string>
  {
    Clean(RawSplit(text))
  }

  /** A sentence as the splitter produces it: non-empty, no whitespace at
      either end. */
  predicate IsSentence(s: string)
  {
    s != [] && !IsSpace(s[0]) && !IsSpace(s[|s| - 1])
  }

  predicate EndsInTerminator(s: string)
  {
    s != [] && IsTerminator(s[|s| - 1])
  }

  /** Every raw piece but the last ends in a terminator. */
  lemma {:induction false} RawSplitPieces(t: string)
    ensures forall k :: 0 <= k < |RawSplit(t)| - 1 ==> EndsInTerminator(RawSplit(t)[k])
    decreases |t|
  {
    var i := FirstBreak(t, 1);
    if i < |t| {
      var rest := t[SpaceRunEnd(t, i)..];
      RawSplitPieces(rest);
      assert RawSplit(t) == [t[..i]] + RawSplit(rest);
      assert t[..i][i - 1] == t[i - 1];
    }
  }

  /** Cleaning keeps only well-formed sentences, and keeps a terminator at the
      end of every sentence but the last when the raw pieces had one. */
  lemma {:induction false} CleanPieces(pieces: seq<string>)
    requires forall k :: 0 <= k < |pieces| - 1 ==> EndsInTerminator(pieces[k])
    ensures forall k :: 0 <= k < |Clean(pieces)| ==> IsSentence(Clean(pieces)[k])
    ensures forall k :: 0 <= k < |Clean(pieces)| - 1 ==> EndsInTerminator(Clean(pieces)[k])
    decreases |pieces|
  {
    if pieces != [] {
      var p := pieces[0];
      var rest := Clean(pieces[1..]);
      CleanPieces(pieces[1..]);
      TrimmedEnds(p);
      if Trim(p) != "" && rest != [] {
        // p is not the last piece, so it ends in a terminator, which strip() keeps
        assert pieces[1..] != [];
        TrimKeepsLast(p);
      }
    }
  }

  /** The splitter yields no empty sentence and none with surrounding
      whitespace, and every sentence but the last ends in `.`, `!` or `?`. */
  lemma SplitSentencesShape(text: string)
    ensures forall k :: 0 <= k < |SplitSentences(text)| ==> IsSentence(SplitSentences(text)[k])
    ensures forall k :: 0 <= k < |SplitSentences(text)| - 1 ==> EndsInTerminator(SplitSentences(text)[k])
  {
    RawSplitPieces(text);
    CleanPieces(RawSplit(text));
  }

  /** Cleaning loses only whitespace. */
  lemma {:induction false} CleanKeepsContent(pieces: seq<string>)
    ensures Squeeze(Concat(Clean(pieces))) == Squeeze(Concat(pieces))
    decreases |pieces|
  {
    if pieces != [] {
      var p := pieces[0];
      CleanKeepsContent(pieces[1..]);
      SqueezeTrim(p);
      SqueezeAppend(p, Concat(pieces[1..]));
      var kept: seq<string> := if Trim(p) == "" then [] else [Trim(p)];
      assert Concat(pieces) == p + Concat(pieces[1..]);
      assert Clean(pieces) == kept + Clean(pieces[1..]);
      ConcatAppend(kept, Clean(pieces[1..]));
      SqueezeAppend(Concat(kept), Concat(Clean(pieces[1..])));
      if Trim(p) != "" {
        assert kept[1..] == [];
        assert Concat(kept) == Trim(p) + Concat([]);
        assert Concat(kept) == Trim(p);
      } else {
        assert Concat(kept) == [];
      }
      assert Squeeze(Concat(kept)) == Squeeze(p);
    }
  }

  lemma {:induction false} ConcatAppend(a: seq<string>, b: seq<string>)
    ensures Concat(a + b) == Concat(a) + Concat(b)
    decreases |a|
  {
    if a == [] {
      assert a + b == b;
    } else {
      assert (a + b)[0] == a[0];
      assert (a + b)[1..] == a[1..] + b;
      ConcatAppend(a[1..], b);
    }
  }

  /** The raw pieces hold every non-whitespace character of the text. */
  lemma {:induction false} RawSplitKeepsContent(t: string)
    ensures Squeeze(Concat(RawSplit(t))) == Squeeze(t)
    decreases |t|
  {
    var i := FirstBreak(t, 1);
    if i < |t| {
      var rest := t[SpaceRunEnd(t, i)..];
      RawSplitKeepsContent(rest);
      RawSplitUnfold(t);
      SqueezeAppend(t[..i], Concat(RawSplit(rest)));
      BreakLosesOnlySpace(t, i, SpaceRunEnd(t, i));
    } else {
      var one := [t];
      assert one[1..] == [];
      assert Concat(RawSplit(t)) == t + Concat([]);
      assert t + Concat([]) == t;
    }
  }

  lemma RawSplitUnfold(t: string)
    requires FirstBreak(t, 1) < |t|
    ensures var i := FirstBreak(t, 1);
            Concat(RawSplit(t)) == t[..i] + Concat(RawSplit(t[SpaceRunEnd(t, i)..]))
  {
    var i := FirstBreak(t, 1);
    var pieces := RawSplit(t);
    assert pieces[1..] == RawSplit(t[SpaceRunEnd(t, i)..]);
  }

  lemma BreakLosesOnlySpace(t: string, i: nat, j: nat)
    requires i <= j <= |t| && AllSpace(t[i..j])
    ensures Squeeze(t) == Squeeze(t[..i]) + Squeeze(t[j..])
  {
    SplitThree(t, i, j);
    SqueezeCut(t, t[..i], t[i..j], t[j..]);
  }

  lemma SplitThree(t: string, i: nat, j: nat)
    requires i <= j <= |t|
    ensures t == t[..i] + (t[i..j] + t[j..])
  {
  }

  /** Splitting loses nothing but whitespace: the non-whitespace characters of
      the sentences, in order, are those of the text. */
  lemma SplitSentencesKeepsContent(text: string)
    ensures Squeeze(Concat(SplitSentences(text))) == Squeeze(text)
  {
    CleanKeepsContent(RawSplit(text));
    RawSplitKeepsContent(text);
  }

  /** No terminator inside `s` is followed by whitespace: `s` holds no place
      where the splitting pattern would match. */
  predicate NoBreakInside(s: string)
  {
    forall i :: 1 <= i < |s| ==> !(IsTerminator(s[i - 1]) && IsSpace(s[i]))
  }

  lemma {:induction false} RawSplitNoBreak(t: string)
    ensures forall k :: 0 <= k < |RawSplit(t)| ==> NoBreakInside(RawSplit(t)[k])
    decreases |t|
  {
    var i := FirstBreak(t, 1);
    if i >= |t| {
      forall m | 1 <= m < |t| ensures !(IsTerminator(t[m - 1]) && IsSpace(t[m])) {
        assert !BreaksAt(t, m);
      }
      assert RawSplit(t) == [t];
    } else {
      var p := t[..i];
      forall m | 1 <= m < |p| ensures !(IsTerminator(p[m - 1]) && IsSpace(p[m])) {
        assert !BreaksAt(t, m);
      }
      var rest := t[SpaceRunEnd(t, i)..];
      RawSplitNoBreak(rest);
      assert RawSplit(t) == [p] + RawSplit(rest);
    }
  }

  lemma TrimNoBreak(s: string)
    requires NoBreakInside(s)
    ensures NoBreakInside(Trim(s))
  {
    TrimIsInfix(s);
    var a, b :| 0 <= a <= b <= |s| && Trim(s) == s[a..b];
    forall m | 1 <= m < |Trim(s)| ensures !(IsTerminator(Trim(s)[m - 1]) && IsSpace(Trim(s)[m])) {
      assert Trim(s)[m] == s[a + m] && Trim(s)[m - 1] == s[a + m - 1];
    }
  }

  lemma {:induction false} CleanNoBreak(pieces: seq<string>)
    requires forall k :: 0 <= k < |pieces| ==> NoBreakInside(pieces[k])
    ensures forall k :: 0 <= k < |Clean(pieces)| ==> NoBreakInside(Clean(pieces)[k])
    decreases |pieces|
  {
    if pieces != [] {
      assert NoBreakInside(pieces[0]);
      TrimNoBreak(pieces[0]);
      CleanNoBreak(pieces[1..]);
    }
  }

  /** The splitter splits everywhere it should: no sentence it returns still
      holds a terminator followed by whitespace. */
  lemma SplitSentencesSplitsAll(text: string)
    ensures var ss := SplitSentences(text);
            forall k, i :: 0 <= k < |ss| && 1 <= i < |ss[k]| ==>
              !(IsTerminator(ss[k][i - 1]) && IsSpace(ss[k][i]))
  {
    RawSplitNoBreak(text);
    CleanNoBreak(RawSplit(text));
    var ss := SplitSentences(text);
    forall k, i | 0 <= k < |ss| && 1 <= i < |ss[k]|
      ensures !(IsTerminator(ss[k][i - 1]) && IsSpace(ss[k][i]))
    {
      assert NoBreakInside(ss[k]);
    }
  }

  // ===========================================================================
  // Smart chunks (_create_smart_chunks)

  /** A sentence with its 0-based position in the article. */
  type Indexed = (nat, string)

  type Chunk = seq<Indexed>

  const MaxChunkChars: int := 800

  /** Python's `list(enumerate(sentences))`. */
  function Enumerate(sentences: seq<string>): seq<Indexed>
  {
    seq(|sentences|, i requires 0 <= i < |sentences| => (i, sentences[i]))
  }

  function Flatten(chunks: seq<Chunk>): seq<Indexed>
    decreases |chunks|
  {
    if chunks == [] then [] else Flatten(chunks[..|chunks| - 1]) + chunks[|chunks| - 1]
  }

  /** Sum of the sentence lengths of a chunk. */
  function TotalLength(c: Chunk): nat
    decreases |c|
  {
    if c == [] then 0 else TotalLength(c[..|c| - 1]) + |c[|c| - 1].1|
  }

  /** The value `current_length` holds for chunk `c`: every sentence adds its
      length plus one, except the sentence that opened a chunk after a break,
      which adds only its length. Only the very first chunk is opened through
      the append branch. */
  function Accounted(c: Chunk, first: bool): int
  {
    if c == [] then 0 else TotalLength(c) + |c| - (if first then 0 else 1)
  }

  datatype ChunkState = ChunkState(chunks: seq<Chunk>, current: Chunk, currentLength: int)

  /** One iteration of the chunking loop. */
  function ChunkStep(st: ChunkState, idx: nat, sentence: string, maxChars: int): ChunkState
  {
    if st.currentLength + |sentence| > maxChars && st.current != [] then
      ChunkState(st.chunks + [st.current], [(idx, sentence)], |sentence|)
    else
      ChunkState(st.chunks, st.current + [(idx, sentence)], st.currentLength + |sentence| + 1)
  }

  /** The loop state after the given sentences. */
  function ChunkFold(sentences: seq<string>, maxChars: int): ChunkState
    decreases |sentences|
  {
    if sentences == [] then ChunkState([], [], 0)
    else
      var n := |sentences| - 1;
      ChunkStep(ChunkFold(sentences[..n], maxChars), n, sentences[n], maxChars)
  }

  /** What `_create_smart_chunks` returns. */
  function SmartChunks(sentences: seq<string>, maxChars: int): seq<Chunk>
  {
    var st := ChunkFold(sentences, maxChars);
    if st.current != [] then st.chunks + [st.current] else st.chunks
  }

  /** Each sentence after the first was appended because it fit: the count
      before it plus its length stayed within the budget. */
  ghost predicate FitsAsBuilt(c: Chunk, first: bool, maxChars: int)
  {
    forall k :: 1 <= k < |c| ==> Accounted(c[..k], first) + |c[k].1| <= maxChars
  }

  /** Each chunk was closed because its successor's first sentence did not fit. */
  ghost predicate ClosedWhenFull(chunks: seq<Chunk>, maxChars: int)
  {
    forall i :: 0 <= i < |chunks| - 1 && chunks[i + 1] != [] ==>
      Accounted(chunks[i], i == 0) + |chunks[i + 1][0].1| > maxChars
  }

  ghost predicate FoldInvariant(sentences: seq<string>, st: ChunkState, maxChars: int)
  {
    && Flatten(st.chunks) + st.current == Enumerate(sentences)
    && (forall i :: 0 <= i < |st.chunks| ==> st.chunks[i] != [])
    && (st.current == [] <==> sentences == [])
    && st.currentLength == Accounted(st.current, st.chunks == [])
    && (forall i :: 0 <= i < |st.chunks| ==> FitsAsBuilt(st.chunks[i], i == 0, maxChars))
    && FitsAsBuilt(st.current, st.chunks == [], maxChars)
    && ClosedWhenFull(st.chunks + [st.current], maxChars)
  }

  lemma TotalLengthAppend(c: Chunk, x: Indexed)
    ensures TotalLength(c + [x]) == TotalLength(c) + |x.1|
  {
    assert (c + [x])[..|c|] == c;
  }

  /** Non-empty chunks flatten to nothing only when there are none. */
  lemma FlattenNonEmpty(chunks: seq<Chunk>)
    requires forall i :: 0 <= i < |chunks| ==> chunks[i] != []
    ensures Flatten(chunks) == [] <==> chunks == []
  {
    if chunks != [] {
      var n := |chunks| - 1;
      assert Flatten(chunks) == Flatten(chunks[..n]) + chunks[n];
    }
  }

  /** Opening a new chunk keeps the invariant. */
  lemma BreakStep(sentences: seq<string>, st: ChunkState, s: string, maxChars: int)
    requires FoldInvariant(sentences, st, maxChars)
    requires st.current != [] && st.currentLength + |s| > maxChars
    ensures FoldInvariant(sentences + [s], ChunkStep(st, |sentences|, s, maxChars), maxChars)
  {
    var st' := ChunkStep(st, |sentences|, s, maxChars);
    var n := |sentences|;
    assert st'.chunks == st.chunks + [st.current];
    assert st'.chunks[..|st'.chunks| - 1] == st.chunks;
    assert Flatten(st'.chunks) == Flatten(st.chunks) + st.current;
    assert Enumerate(sentences + [s]) == Enumerate(sentences) + [(n, s)];
    var one: Chunk := [(n, s)];
    assert TotalLength(one) == |s| by {
      assert one[..0] == [];
    }
    var all: seq<Chunk> := st'.chunks + [st'.current];
    var old_all: seq<Chunk> := st.chunks + [st.current];
    assert all == old_all + [st'.current];
    forall i | 0 <= i < |all| - 1 && all[i + 1] != []
      ensures Accounted(all[i], i == 0) + |all[i + 1][0].1| > maxChars
    {
      if i < |old_all| - 1 {
        assert all[i] == old_all[i] && all[i + 1] == old_all[i + 1];
      } else {
        assert all[i] == st.current;
      }
    }
  }

  /** A sentence that fits keeps the grown chunk built as accounted. */
  lemma AppendFits(current: Chunk, first: bool, x: Indexed, maxChars: int)
    requires FitsAsBuilt(current, first, maxChars)
    requires current != [] ==> Accounted(current, first) + |x.1| <= maxChars
    ensures FitsAsBuilt(current + [x], first, maxChars)
  {
    var grown := current + [x];
    forall k | 1 <= k < |grown|
      ensures Accounted(grown[..k], first) + |grown[k].1| <= maxChars
    {
      if k < |current| {
        assert grown[..k] == current[..k];
      } else {
        assert grown[..k] == current;
      }
    }
  }

  /** Growing the last chunk keeps every earlier break justified. */
  lemma AppendClosed(chunks: seq<Chunk>, current: Chunk, x: Indexed, maxChars: int)
    requires ClosedWhenFull(chunks + [current], maxChars)
    requires current != [] || chunks == []
    ensures ClosedWhenFull(chunks + [current + [x]], maxChars)
  {
    var all: seq<Chunk> := chunks + [current + [x]];
    var old_all: seq<Chunk> := chunks + [current];
    forall i | 0 <= i < |all| - 1 && all[i + 1] != []
      ensures Accounted(all[i], i == 0) + |all[i + 1][0].1| > maxChars
    {
      assert all[i] == old_all[i];
      if i + 1 < |all| - 1 {
        assert all[i + 1] == old_all[i + 1];
      } else {
        assert all[i + 1] == current + [x] && old_all[i + 1] == current;
        assert (current + [x])[0] == current[0];
      }
    }
  }

  /** Appending to the current chunk keeps the invariant. */
  lemma AppendStep(sentences: seq<string>, st: ChunkState, s: string, maxChars: int)
    requires FoldInvariant(sentences, st, maxChars)
    requires !(st.current != [] && st.currentLength + |s| > maxChars)
    ensures FoldInvariant(sentences + [s], ChunkStep(st, |sentences|, s, maxChars), maxChars)
  {
    var st' := ChunkStep(st, |sentences|, s, maxChars);
    var n := |sentences|;
    var x := (n, s);
    assert st'.current == st.current + [x] && st'.chunks == st.chunks;
    assert Enumerate(sentences + [s]) == Enumerate(sentences) + [x];
    TotalLengthAppend(st.current, x);
    if st.current == [] {
      assert sentences == [];
      FlattenNonEmpty(st.chunks);
      var one: Chunk := [x];
      assert TotalLength(one) == |s| by {
        assert one[..0] == [];
      }
    }
    AppendFits(st.current, st.chunks == [], x, maxChars);
    AppendClosed(st.chunks, st.current, x, maxChars);
  }

  lemma {:induction false} ChunkFoldInvariant(sentences: seq<string>, maxChars: int)
    ensures FoldInvariant(sentences, ChunkFold(sentences, maxChars), maxChars)
    decreases |sentences|
  {
    if sentences != [] {
      var n := |sentences| - 1;
      var prefix := sentences[..n];
      ChunkFoldInvariant(prefix, maxChars);
      var st := ChunkFold(prefix, maxChars);
      assert sentences == prefix + [sentences[n]];
      if st.current != [] && st.currentLength + |sentences[n]| > maxChars {
        BreakStep(prefix, st, sentences[n], maxChars);
      } else {
        AppendStep(prefix, st, sentences[n], maxChars);
      }
    }
  }

  /** The chunks, read in order, are exactly `enumerate(sentences)`; no chunk
      is empty; there are no chunks exactly when there are no sentences; each
      sentence after the first of its chunk was added because it fit, and each
      break happened because the next sentence did not. */
  lemma SmartChunksSpec(sentences: seq<string>, maxChars: int)
    ensures Flatten(SmartChunks(sentences, maxChars)) == Enumerate(sentences)
    ensures forall i :: 0 <= i < |SmartChunks(sentences, maxChars)| ==> SmartChunks(sentences, maxChars)[i] != []
    ensures SmartChunks(sentences, maxChars) == [] <==> sentences == []
    ensures forall i :: 0 <= i < |SmartChunks(sentences, maxChars)| ==>
              FitsAsBuilt(SmartChunks(sentences, maxChars)[i], i == 0, maxChars)
    ensures ClosedWhenFull(SmartChunks(sentences, maxChars), maxChars)
  {
    ChunkFoldInvariant(sentences, maxChars);
    var st := ChunkFold(sentences, maxChars);
    var chunks := SmartChunks(sentences, maxChars);
    if st.current != [] {
      assert chunks[..|chunks| - 1] == st.chunks;
    } else {
      assert chunks == st.chunks;
    }
  }

  lemma {:induction false} TotalLengthCovers(c: Chunk, k: nat)
    requires k < |c|
    ensures TotalLength(c) >= TotalLength(c[..k]) + |c[k].1|
    decreases |c|
  {
    var n := |c| - 1;
    if k < n {
      assert c[..n][..k] == c[..k];
      TotalLengthCovers(c[..n], k);
    } else {
      assert c[..n] == c[..k];
    }
  }

  /** A chunk of two or more sentences stays within the budget; a sentence
      longer than the budget is alone in its chunk. */
  lemma SmartChunksBudget(sentences: seq<string>, maxChars: int)
    ensures forall i :: 0 <= i < |SmartChunks(sentences, maxChars)| && |SmartChunks(sentences, maxChars)[i]| >= 2 ==>
              TotalLength(SmartChunks(sentences, maxChars)[i]) <= maxChars
    ensures forall i, k ::
              (0 <= i < |SmartChunks(sentences, maxChars)| && 0 <= k < |SmartChunks(sentences, maxChars)[i]| &&
               |SmartChunks(sentences, maxChars)[i][k].1| > maxChars) ==> |SmartChunks(sentences, maxChars)[i]| == 1
  {
    SmartChunksSpec(sentences, maxChars);
    var chunks := SmartChunks(sentences, maxChars);
    forall i | 0 <= i < |chunks| && |chunks[i]| >= 2
      ensures TotalLength(chunks[i]) <= maxChars
    {
      ChunkWithinBudget(chunks[i], i == 0, maxChars);
    }
    forall i, k | 0 <= i < |chunks| && 0 <= k < |chunks[i]| && |chunks[i][k].1| > maxChars
      ensures |chunks[i]| == 1
    {
      if |chunks[i]| >= 2 {
        ChunkWithinBudget(chunks[i], i == 0, maxChars);
        TotalLengthCovers(chunks[i], k);
      }
    }
  }

  lemma ChunkWithinBudget(c: Chunk, first: bool, maxChars: int)
    requires |c| >= 2 && FitsAsBuilt(c, first, maxChars)
    ensures TotalLength(c) <= maxChars
  {
    var k := |c| - 1;
    assert Accounted(c[..k], first) + |c[k].1| <= maxChars;
    assert c == c[..k] + [c[k]];
    TotalLengthAppend(c[..k], c[k]);
  }

  lemma {:induction false} FlattenAppend(a: seq<Chunk>, b: seq<Chunk>)
    ensures Flatten(a + b) == Flatten(a) + Flatten(b)
    decreases |b|
  {
    if b != [] {
      var n := |b| - 1;
      assert (a + b)[..|a + b| - 1] == a + b[..n];
      FlattenAppend(a, b[..n]);
    } else {
      assert a + b == a;
    }
  }

  /** `_create_smart_chunks`. */
  method CreateSmartChunks(sentences: seq<string>, maxChars: int) returns (chunks: seq<Chunk>)
    ensures chunks == SmartChunks(sentences, maxChars)
  {
    chunks := [];
    var current: Chunk := [];
    var currentLength := 0;
    for idx := 0 to |sentences|
      invariant ChunkState(chunks, current, currentLength) == ChunkFold(sentences[..idx], maxChars)
    {
      var sentence := sentences[idx];
      assert sentences[..idx + 1][..idx] == sentences[..idx];
      if currentLength + |sentence| > maxChars && current != [] {
        chunks := chunks + [current];
        current := [(idx, sentence)];
        currentLength := |sentence|;
      } else {
        current := current + [(idx, sentence)];
        currentLength := currentLength + |sentence| + 1;
      }
    }
    assert sentences[..|sentences|] == sentences;
    if current != [] {
      chunks := chunks + [current];
    }
  }

  /** The k-th sentence of chunk j sits in the flattened sequence right after
      the sentences of the earlier chunks. */
  lemma FlattenIndex(chunks: seq<Chunk>, j: nat, k: nat)
    requires j < |chunks| && k < |chunks[j]|
    ensures |Flatten(chunks[..j])| + k < |Flatten(chunks)|
    ensures Flatten(chunks)[|Flatten(chunks[..j])| + k] == chunks[j][k]
  {
    var single: seq<Chunk> := [chunks[j]];
    assert chunks == chunks[..j] + single + chunks[j + 1..];
    FlattenAppend(chunks[..j] + single, chunks[j + 1..]);
    FlattenAppend(chunks[..j], single);
    assert Flatten(single) == chunks[j] by {
      assert single[..0] == [];
    }
  }

  /** The prompt line of an indexed sentence: its 1-based number, then the text. */
  function NumberedLine(x: Indexed): string
  {
    Decimal(x.0 + 1) + ". " + x.1
  }

  /** Chunk boundaries do not disturb the numbering: the k-th sentence of
      chunk j is sentence number (sentences in earlier chunks) + k + 1 of the
      article, and its prompt line carries that number and that sentence. */
  lemma PromptNumbersAreGlobal(sentences: seq<string>, maxChars: int, j: nat, k: nat)
    requires j < |SmartChunks(sentences, maxChars)| && k < |SmartChunks(sentences, maxChars)[j]|
    ensures var chunks := SmartChunks(sentences, maxChars);
            var g := |Flatten(chunks[..j])| + k;
            g < |sentences| && chunks[j][k] == (g, sentences[g]) &&
            NumberedLine(chunks[j][k]) == Decimal(g + 1) + ". " + sentences[g]
  {
    var chunks := SmartChunks(sentences, maxChars);
    SmartChunksSpec(sentences, maxChars);
    FlattenIndex(chunks, j, k);
  }

  // ===========================================================================
  // Markdown fence stripping, shared by the blocking and the streaming analysis

  const Fence := "```"

  /** Strip the reply; if it starts with a fence, keep what lies between the
      first two fences, and drop a leading `json` tag together with the
      whitespace around the rest. */
  function StripFence(raw: string): string
  {
    var text := Trim(raw);
    if StartsWith(text, Fence) then
      var body := text[3..Find(text, Fence, 3)];
      if StartsWith(body, "json") then Trim(body[4..]) else body
    else text
  }

  /** A reply that does not start with a fence is only stripped. */
  lemma StripFenceUnfenced(raw: string)
    requires !StartsWith(Trim(raw), Fence)
    ensures StripFence(raw) == Trim(raw)
  {
  }

  /** A fenced reply yields the segment between the opening fence and the
      next fence after it (or the end of the reply when no fence closes it):
      with the `json` tag removed and the rest stripped, or untouched without
      the tag. */
  lemma StripFenceFenced(raw: string, body: string, rest: string)
    requires Trim(raw) == Fence + body + rest
    requires forall k: nat :: 3 <= k < 3 + |body| ==> !OccursAt(Trim(raw), Fence, k)
    requires StartsWith(rest, Fence) || rest == ""
    ensures StripFence(raw) == if StartsWith(body, "json") then Trim(body[4..]) else body
  {
    var text := Trim(raw);
    var to := 3 + |body|;
    if rest == "" {
      assert |text| == to;
      FindNone(text, Fence, 3);
    } else {
      assert text[to..to + 3] == rest[..3];
      FindAt(text, Fence, 3, to);
    }
    assert text[3..to] == body;
  }

  /** No backtick in `body` means no fence starts inside it. */
  lemma NoFenceInside(text: string, body: string, rest: string)
    requires text == Fence + body + rest
    requires '`' !in body
    ensures forall k: nat :: 3 <= k < 3 + |body| ==> !OccursAt(text, Fence, k)
  {
    forall k: nat | 3 <= k < 3 + |body| ensures !OccursAt(text, Fence, k) {
      assert text[k] == body[k - 3];
      assert body[k - 3] in body;
    }
  }

  /** A fenced reply with a `json` tag decodes to the same text as the bare
      reply would, whether or not the closing fence is there: the fence is
      transparent to the parser. */
  lemma FencedJsonIsTransparent(j: string)
    requires '`' !in j
    ensures StripFence(Fence + "json" + j + Fence) == Trim(j)
    ensures StripFence(Fence + "json" + Trim(j)) == Trim(j)
    ensures StripFence(j) == Trim(j)
  {
    FencedJsonClosed(j);
    FencedJsonOpen(j);
    if StartsWith(Trim(j), Fence) {
      TrimKeepsOnlyOwnChars(j, Trim(j)[0]);
      assert false;
    }
  }

  lemma TaggedHasNoBacktick(j: string)
    requires '`' !in j
    ensures '`' !in "json" + j
  {
    var body := "json" + j;
    forall k | 0 <= k < |body| ensures body[k] != '`' {
      if k >= 4 {
        assert body[k] == j[k - 4];
        assert j[k - 4] in j;
      }
    }
  }

  lemma FencedJsonClosed(j: string)
    requires '`' !in j
    ensures StripFence(Fence + "json" + j + Fence) == Trim(j)
  {
    var body := "json" + j;
    TaggedHasNoBacktick(j);
    var raw := Fence + "json" + j + Fence;
    assert raw == Fence + body + Fence;
    TrimStartKeeps(raw);
    assert TrimEnd(raw) == raw;
    NoFenceInside(raw, body, Fence);
    StripFenceFenced(raw, body, Fence);
    assert body[4..] == j;
  }

  lemma FencedJsonOpen(j: string)
    requires '`' !in j
    ensures StripFence(Fence + "json" + Trim(j)) == Trim(j)
  {
    var tj := Trim(j);
    if '`' in tj {
      TrimKeepsOnlyOwnChars(j, '`');
    }
    var body := "json" + tj;
    TaggedHasNoBacktick(tj);
    var open := Fence + "json" + tj;
    assert open == Fence + body + "";
    TrimStartKeeps(open);
    TrimmedEnds(j);
    assert TrimEnd(open) == open;
    NoFenceInside(open, body, "");
    StripFenceFenced(open, body, "");
    assert body[4..] == tj;
    TrimIdempotent(j);
  }

  // ===========================================================================
  // Reference packaging

  /** How a reference's missing fields are filled: the blocking analysis and
      the streaming analysis use different defaults. */
  datatype Packaging = Blocking | Streaming

  datatype Reference = Reference(refId: string, title: Value, date: Value, url: Value, text: Value)

  /** An entry of `references_used` in the final streaming event. */
  datatype UsedReference = UsedReference(refId: string, title: Value, date: Value, url: Value)

  function RefId(ordinal: nat): string
  {
    "R" + Decimal(ordinal)
  }

  /** The packaged form of the reference with the given 1-based ordinal. */
  function PackageReference(ref: Object, ordinal: nat, mode: Packaging): Reference
  {
    var title := Get(ref, "title", Str("Untitled"));
    var text := Get(ref, "text", Str(""));
    match mode
    case Blocking =>
      // ref.get('date') or ref.get('publish_date') or None
      Reference(RefId(ordinal), title, Or(Or(Get(ref, "date", Null), Get(ref, "publish_date", Null)), Null),
                Get(ref, "url", Null), text)
    case Streaming =>
      Reference(RefId(ordinal), title, Get(ref, "date", Str("Unknown")), Get(ref, "url", Str("Unknown")), text)
  }

  /** The reference list sent with every prompt, numbered from 1. */
  function PackageReferences(refs: seq<Object>, mode: Packaging): (r: seq<Reference>)
    ensures |r| == |refs|
    ensures forall i :: 0 <= i < |r| ==> r[i].refId == RefId(i + 1)
  {
    seq(|refs|, i requires 0 <= i < |refs| => PackageReference(refs[i], i + 1, mode))
  }

  function ReferencesUsed(packaged: seq<Reference>): (r: seq<UsedReference>)
    ensures |r| == |packaged|
  {
    seq(|packaged|, i requires 0 <= i < |packaged| =>
      UsedReference(packaged[i].refId, packaged[i].title, packaged[i].date, packaged[i].url))
  }

  /** Packaging keeps the order and the number of the references and takes
      every field from the reference at the same position; the ids are
      R1, R2, ... and pairwise distinct. */
  lemma PackagedReferences(refs: seq<Object>, mode: Packaging)
    ensures |PackageReferences(refs, mode)| == |refs|
    ensures forall i :: 0 <= i < |refs| ==>
              PackageReferences(refs, mode)[i].refId == "R" + Decimal(i + 1) &&
              PackageReferences(refs, mode)[i].title == Get(refs[i], "title", Str("Untitled")) &&
              PackageReferences(refs, mode)[i].text == Get(refs[i], "text", Str(""))
    ensures forall i, j ::
              (0 <= i < |refs| && 0 <= j < |refs| &&
               PackageReferences(refs, mode)[i].refId == PackageReferences(refs, mode)[j].refId) ==> i == j
  {
    var r := PackageReferences(refs, mode);
    forall i, j | 0 <= i < |refs| && 0 <= j < |refs| && r[i].refId == r[j].refId
      ensures i == j
    {
      assert Decimal(i + 1) == r[i].refId[1..];
      assert Decimal(j + 1) == r[j].refId[1..];
      DecimalInjective(i + 1, j + 1);
    }
  }

  /** The reference a cited id designates: the first packaged reference with
      that id. */
  function Resolve(packaged: seq<Reference>, id: string): (r: Option<Reference>)
    ensures r.Some? ==> r.value in packaged && r.value.refId == id
    ensures r.None? ==> forall i :: 0 <= i < |packaged| ==> packaged[i].refId != id
  {
    if packaged == [] then None
    else if packaged[0].refId == id then Some(packaged[0])
    else Resolve(packaged[1..], id)
  }

  lemma {:induction false} ResolveDistinct(packaged: seq<Reference>, i: nat)
    requires i < |packaged|
    requires forall a, b :: 0 <= a < |packaged| && 0 <= b < |packaged| && packaged[a].refId == packaged[b].refId ==> a == b
    ensures Resolve(packaged, packaged[i].refId) == Some(packaged[i])
    decreases i
  {
    if i > 0 {
      ResolveDistinct(packaged[1..], i - 1);
    }
  }

  /** Every entry of `references_used` echoes a packaged reference field by
      field, in the same order, and its id resolves to exactly that reference. */
  lemma ReferencesUsedEcho(refs: seq<Object>, mode: Packaging)
    ensures var packaged := PackageReferences(refs, mode);
            var used := ReferencesUsed(packaged);
            |used| == |refs| &&
            forall i :: 0 <= i < |used| ==>
              used[i].refId == RefId(i + 1) && used[i].title == packaged[i].title &&
              used[i].date == packaged[i].date && used[i].url == packaged[i].url &&
              Resolve(packaged, used[i].refId) == Some(packaged[i])
  {
    var packaged := PackageReferences(refs, mode);
    PackagedReferences(refs, mode);
    forall i | 0 <= i < |packaged| ensures Resolve(packaged, packaged[i].refId) == Some(packaged[i]) {
      ResolveDistinct(packaged, i);
    }
  }

  /** The streaming defaults: a reference without title, date or url is sent
      as "Untitled", "Unknown", "Unknown". The blocking date is the first
      truthy of `date` and `publish_date`, else null. */
  lemma PackagingDefaults(ref: Object)
    ensures "title" !in ref ==> PackageReference(ref, 1, Streaming).title == Str("Untitled")
    ensures "date" !in ref ==> PackageReference(ref, 1, Streaming).date == Str("Unknown")
    ensures "url" !in ref ==> PackageReference(ref, 1, Streaming).url == Str("Unknown")
    ensures var d := PackageReference(ref, 1, Blocking).date;
            (Truthy(Get(ref, "date", Null)) ==> d == ref["date"]) &&
            (!Truthy(Get(ref, "date", Null)) && Truthy(Get(ref, "publish_date", Null)) ==> d == ref["publish_date"]) &&
            (!Truthy(Get(ref, "date", Null)) && !Truthy(Get(ref, "publish_date", Null)) ==> d == Null)
  {
  }

  // ===========================================================================
  // Verdict tally and risk score

  /** `review.get('verdict', 'Unknown')` */
  function VerdictOf(review: Object): Value
  {
    Get(review, "verdict", Str("Unknown"))
  }

  function Verdicts(reviews: seq<Object>): seq<Value>
  {
    seq(|reviews|, i requires 0 <= i < |reviews| => VerdictOf(reviews[i]))
  }

  /** `counts.get(v, 0)` */
  function CountOf(counts: map<Value, nat>, v: Value): nat
  {
    if v in counts then counts[v] else 0
  }

  /** The verdict counts after the given reviews. */
  function Tally(reviews: seq<Object>): map<Value, nat>
    decreases |reviews|
  {
    if reviews == [] then map[]
    else
      var counts := Tally(reviews[..|reviews| - 1]);
      var v := VerdictOf(reviews[|reviews| - 1]);
      counts[v := CountOf(counts, v) + 1]
  }

  ghost function SumValues(m: map<Value, nat>): nat
    decreases |m|
  {
    if m == map[] then 0
    else
      var k :| k in m;
      m[k] + SumValues(m - {k})
  }

  /** The sum does not depend on which key is taken out first. */
  lemma {:induction false} SumValuesRemove(m: map<Value, nat>, k: Value)
    requires k in m
    ensures SumValues(m) == m[k] + SumValues(m - {k})
    decreases |m|
  {
    var k' :| k' in m && SumValues(m) == m[k'] + SumValues(m - {k'});
    if k' != k {
      var m1 := m - {k'};
      var m2 := m - {k};
      assert k in m1 && k' in m2;
      SumValuesRemove(m1, k);
      SumValuesRemove(m2, k');
      assert m1 - {k} == m2 - {k'};
    }
  }

  lemma SumValuesUpdate(m: map<Value, nat>, k: Value, n: nat)
    ensures SumValues(m[k := n]) == SumValues(m) - CountOf(m, k) + n
  {
    var m' := m[k := n];
    SumValuesRemove(m', k);
    if k in m {
      SumValuesRemove(m, k);
      assert m' - {k} == m - {k};
    } else {
      assert m' - {k} == m;
    }
  }

  /** Every review is counted exactly once: the counts sum to the number of
      reviews. */
  lemma {:induction false} TallySum(reviews: seq<Object>)
    ensures SumValues(Tally(reviews)) == |reviews|
    decreases |reviews|
  {
    if reviews != [] {
      var n := |reviews| - 1;
      TallySum(reviews[..n]);
      var counts := Tally(reviews[..n]);
      var v := VerdictOf(reviews[n]);
      SumValuesUpdate(counts, v, CountOf(counts, v) + 1);
      if v in counts {
        SumValuesRemove(counts, v);
      }
    }
  }

  /** The count of a verdict is the number of reviews that carry it, with a
      review lacking a verdict carrying "Unknown"; only verdicts that occur
      are keys. */
  lemma {:induction false} TallyCounts(reviews: seq<Object>)
    ensures forall v :: CountOf(Tally(reviews), v) == multiset(Verdicts(reviews))[v]
    ensures forall v :: v in Tally(reviews) <==> v in Verdicts(reviews)
    decreases |reviews|
  {
    if reviews != [] {
      var n := |reviews| - 1;
      TallyCounts(reviews[..n]);
      assert Verdicts(reviews) == Verdicts(reviews[..n]) + [VerdictOf(reviews[n])];
    }
  }

  /** Wherever it comes in the list, a review without a verdict adds one to
      the "Unknown" count and leaves every other count as it was. */
  lemma MissingVerdictIsUnknown(before: seq<Object>, review: Object, after: seq<Object>)
    requires "verdict" !in review
    ensures CountOf(Tally(before + [review] + after), Str("Unknown"))
            == CountOf(Tally(before + after), Str("Unknown")) + 1
    ensures forall v :: v != Str("Unknown") ==>
              CountOf(Tally(before + [review] + after), v) == CountOf(Tally(before + after), v)
  {
    TallyCounts(before + [review] + after);
    TallyCounts(before + after);
    VerdictsAppend(before + [review], after);
    VerdictsAppend(before, [review]);
    VerdictsAppend(before, after);
  }

  lemma VerdictsAppend(a: seq<Object>, b: seq<Object>)
    ensures Verdicts(a + b) == Verdicts(a) + Verdicts(b)
  {
  }

  /** The verdict-counting loop of the streaming analysis. */
  method CountVerdicts(reviews: seq<Object>) returns (counts: map<Value, nat>)
    ensures counts == Tally(reviews)
    ensures SumValues(counts) == |reviews|
    ensures forall v :: CountOf(counts, v) == multiset(Verdicts(reviews))[v]
  {
    counts := map[];
    for i := 0 to |reviews|
      invariant counts == Tally(reviews[..i])
    {
      assert reviews[..i + 1][..i] == reviews[..i];
      var verdict := VerdictOf(reviews[i]);
      counts := counts[verdict := CountOf(counts, verdict) + 1];
    }
    assert reviews[..|reviews|] == reviews;
    TallySum(reviews);
    TallyCounts(reviews);
  }

  const Contradicted := Str("Contradicted")
  const MisleadingByContext := Str("Misleading by context")

  function Min(a: int, b: int): int
  {
    if a <= b then a else b
  }

  /** `min(100, int((contradicted * 2 + misleading * 1.5) / total * 100))` in
      exact integers: (2c + 1.5m) / t * 100 = 50 * (4c + 3m) / t. */
  function RiskScore(contradicted: nat, misleading: nat, total: nat): (score: nat)
    ensures score <= 100
    ensures total == 0 ==> score == 0
    ensures contradicted == 0 && misleading == 0 ==> score == 0
  {
    if total == 0 then 0 else Min(100, (4 * contradicted + 3 * misleading) * 50 / total)
  }

  lemma MulCancel(x: int, y: int, d: int)
    requires d > 0 && x * d < y * d
    ensures x < y
  {
  }

  lemma DivMonotone(a: nat, b: nat, d: nat)
    requires a <= b && d > 0
    ensures a / d <= b / d
  {
    assert (a / d) * d <= a;
    assert b < (b / d + 1) * d;
    MulCancel(a / d, b / d + 1, d);
  }

  /** More contradicted or misleading verdicts never lower the score. */
  lemma RiskScoreMonotone(c1: nat, m1: nat, c2: nat, m2: nat, total: nat)
    requires c1 <= c2 && m1 <= m2
    ensures RiskScore(c1, m1, total) <= RiskScore(c2, m2, total)
  {
    if total > 0 {
      DivMonotone((4 * c1 + 3 * m1) * 50, (4 * c2 + 3 * m2) * 50, total);
    }
  }

  /** The score saturates at 100 exactly when 4c + 3m reaches twice the
      number of reviews: all reviews contradicted, or enough of them. */
  lemma RiskScoreSaturates(contradicted: nat, misleading: nat, total: nat)
    requires total > 0
    ensures RiskScore(contradicted, misleading, total) == 100 <==> 4 * contradicted + 3 * misleading >= 2 * total
  {
    var w := (4 * contradicted + 3 * misleading) * 50;
    if 4 * contradicted + 3 * misleading >= 2 * total {
      DivMonotone(100 * total, w, total);
      assert (100 * total) / total == 100;
    } else {
      assert (w / total) * total <= w < 100 * total;
      MulCancel(w / total, 100, total);
    }
  }

  // ===========================================================================
  // The streaming analysis (analyze_claims_streaming)

  /** What generate_text gave for one chunk's prompt: a failure (an error
      result or a raised exception) or the reply text. */
  datatype Reply = CallFailed(error: string) | Replied(text: string)

  /** The events the generator yields. */
  datatype Event =
    | AnalysisStart(totalSentences: nat, targetTitle: Value, targetDate: Value)
    | SentenceReview(data: Object, current: Value, total: nat)
    | GeneratingSummary
    | AnalysisComplete(countsByVerdict: map<Value, nat>, totalReviews: nat, riskScore: nat, summary: string,
                       targetTitle: Value, targetDate: Value, referencesUsed: seq<UsedReference>)

  /** What the chunks processed so far contributed: the events yielded and the
      reviews added to `all_sentence_reviews`. */
  datatype Outcome = Outcome(events: seq<Event>, reviews: seq<Object>)

  function Then(a: Outcome, b: Outcome): Outcome
  {
    Outcome(a.events + b.events, a.reviews + b.reviews)
  }

  /** The number of leading reviews that carry an `index`: the events stop at
      the first review without one, because `review['index']` raises. */
  function IndexedPrefix(reviews: seq<Object>): (n: nat)
    ensures n <= |reviews|
    ensures forall i :: 0 <= i < n ==> "index" in reviews[i]
    ensures n < |reviews| ==> "index" !in reviews[n]
    decreases |reviews|
  {
    if reviews == [] || "index" !in reviews[0] then 0 else 1 + IndexedPrefix(reviews[1..])
  }

  function ReviewEvents(reviews: seq<Object>, total: nat): seq<Event>
  {
    var n := IndexedPrefix(reviews);
    seq(n, i requires 0 <= i < n => SentenceReview(reviews[i], reviews[i]["index"], total))
  }

  /** One chunk: a failed call or an unparseable reply contributes nothing;
      otherwise every parsed review is kept and yielded. `parse` is json.loads
      applied to a list of review objects. */
  function ChunkOutcome(reply: Reply, parse: string -> Option<seq<Object>>, total: nat): Outcome
  {
    match reply
    case CallFailed(_) => Outcome([], [])
    case Replied(text) =>
      match parse(StripFence(text))
      case None => Outcome([], [])
      case Some(reviews) => Outcome(ReviewEvents(reviews, total), reviews)
  }

  /** The outcome of every chunk, in chunk order; `respond` gives the reply
      to each chunk's prompt. */
  function Outcomes(n: nat, respond: nat -> Reply, parse: string -> Option<seq<Object>>, total: nat): (os: seq<Outcome>)
    ensures |os| == n
  {
    seq(n, k requires 0 <= k < n => ChunkOutcome(respond(k), parse, total))
  }

  /** The chunk outcomes one after the other. */
  function Combine(os: seq<Outcome>): Outcome
    decreases |os|
  {
    if os == [] then Outcome([], []) else Then(Combine(os[..|os| - 1]), os[|os| - 1])
  }

  const SummaryFallback := "Analysis complete."

  /** The summary text: the reply when the summary call succeeded with text,
      else the fallback. */
  function SummaryText(summary: Option<string>): string
  {
    match summary
    case Some(text) => text
    case None => SummaryFallback
  }

  /** The closing events, present only when some review was produced. */
  function Conclusion(reviews: seq<Object>, refs: seq<Object>, title: Value, date: Value, summary: Option<string>): seq<Event>
  {
    if reviews == [] then []
    else
      var counts := Tally(reviews);
      var score := RiskScore(CountOf(counts, Contradicted), CountOf(counts, MisleadingByContext), |reviews|);
      [GeneratingSummary,
       AnalysisComplete(counts, |reviews|, score, SummaryText(summary), title, date,
                        ReferencesUsed(PackageReferences(refs, Streaming)))]
  }

  /** What all chunks of the article contribute. */
  function RunAll(text: string, respond: nat -> Reply, parse: string -> Option<seq<Object>>): Outcome
  {
    var sentences := SplitSentences(text);
    Combine(Outcomes(|SmartChunks(sentences, MaxChunkChars)|, respond, parse, |sentences|))
  }

  /** Every event the streaming analysis yields, in order. */
  function AnalysisEvents(title: Value, text: string, refs: seq<Object>, date: Value,
                          respond: nat -> Reply, parse: string -> Option<seq<Object>>,
                          summary: Option<string>): seq<Event>
  {
    var run := RunAll(text, respond, parse);
    [AnalysisStart(|SplitSentences(text)|, title, date)] + run.events + Conclusion(run.reviews, refs, title, date, summary)
  }

  /** The inner loop over a parsed chunk: one event per review, stopping at the
      first review without an `index`. */
  method YieldReviews(reviews: seq<Object>, total: nat) returns (events: seq<Event>)
    ensures events == ReviewEvents(reviews, total)
  {
    events := [];
    var r := 0;
    while r < |reviews| && "index" in reviews[r]
      invariant 0 <= r <= |reviews|
      invariant forall i :: 0 <= i < r ==> "index" in reviews[i]
      invariant events == seq(r, i requires 0 <= i < r => SentenceReview(reviews[i], reviews[i]["index"], total))
    {
      events := events + [SentenceReview(reviews[r], reviews[r]["index"], total)];
      r := r + 1;
    }
    assert r == IndexedPrefix(reviews);
  }

  /** The loop over the chunks: call, strip, parse, yield and collect,
      skipping a chunk whose call fails or whose reply does not parse. */
  method RunChunks(n: nat, respond: nat -> Reply, parse: string -> Option<seq<Object>>, total: nat)
    returns (events: seq<Event>, allReviews: seq<Object>)
    ensures Outcome(events, allReviews) == Combine(Outcomes(n, respond, parse, total))
  {
    ghost var os := Outcomes(n, respond, parse, total);
    events, allReviews := [], [];
    for k := 0 to n
      invariant Outcome(events, allReviews) == Combine(os[..k])
    {
      assert os[..k + 1][..k] == os[..k];
      assert os[k] == ChunkOutcome(respond(k), parse, total);
      var reply := respond(k);
      if reply.Replied? {
        var parsed := parse(StripFence(reply.text));
        if parsed.Some? {
          var chunkEvents := YieldReviews(parsed.value, total);
          events := events + chunkEvents;
          allReviews := allReviews + parsed.value;
        }
      }
    }
    assert os[..n] == os;
  }

  /** `analyze_claims_streaming`: the reply to chunk k is `respond(k)`, the
      reply to the summary request is `summary`. */
  method AnalyzeClaimsStreaming(title: Value, text: string, refs: seq<Object>, date: Value,
                                respond: nat -> Reply, parse: string -> Option<seq<Object>>,
                                summary: Option<string>)
    returns (events: seq<Event>)
    ensures events == AnalysisEvents(title, text, refs, date, respond, parse, summary)
  {
    var sentences := SplitSentences(text);
    var total := |sentences|;
    events := [AnalysisStart(total, title, date)];
    var chunks := CreateSmartChunks(sentences, MaxChunkChars);
    var chunkEvents, allReviews := RunChunks(|chunks|, respond, parse, total);
    var closing := Conclude(allReviews, refs, title, date, summary);
    events := events + chunkEvents + closing;
  }

  /** The code after the chunk loop: when reviews were produced, announce the
      summary, count the verdicts, score, and report. */
  method Conclude(allReviews: seq<Object>, refs: seq<Object>, title: Value, date: Value, summary: Option<string>)
    returns (events: seq<Event>)
    ensures events == Conclusion(allReviews, refs, title, date, summary)
  {
    events := [];
    if allReviews != [] {
      events := events + [GeneratingSummary];
      var counts := CountVerdicts(allReviews);
      var totalReviews := |allReviews|;
      var score := RiskScore(CountOf(counts, Contradicted), CountOf(counts, MisleadingByContext), totalReviews);
      var summaryText := if summary.Some? then summary.value else SummaryFallback;
      var packaged := PackageReferences(refs, Streaming);
      events := events + [AnalysisComplete(counts, totalReviews, score, summaryText, title, date, ReferencesUsed(packaged))];
    }
  }

  lemma {:induction false} CombineAppend(a: seq<Outcome>, b: seq<Outcome>)
    ensures Combine(a + b) == Then(Combine(a), Combine(b))
    decreases |b|
  {
    if b == [] {
      assert a + b == a;
      var c := Combine(a);
      assert c.events + [] == c.events && c.reviews + [] == c.reviews;
    } else {
      var n := |b| - 1;
      assert (a + b)[..|a + b| - 1] == a + b[..n];
      CombineAppend(a, b[..n]);
      var x, y, z := Combine(a), Combine(b[..n]), b[n];
      assert (x.events + y.events) + z.events == x.events + (y.events + z.events);
      assert (x.reviews + y.reviews) + z.reviews == x.reviews + (y.reviews + z.reviews);
    }
  }

  /** A failed or unparseable chunk is skipped and the analysis goes on: the
      result is what the chunks before it and the chunks after it produce,
      exactly as they would have with any reply to the failed chunk. */
  lemma FailedChunkSkipped(n: nat, k: nat, r1: nat -> Reply, r2: nat -> Reply,
                           parse: string -> Option<seq<Object>>, total: nat)
    requires k < n
    requires forall i :: 0 <= i < n && i != k ==> r1(i) == r2(i)
    requires r1(k).CallFailed? || parse(StripFence(r1(k).text)).None?
    ensures var os := Outcomes(n, r2, parse, total);
            Combine(Outcomes(n, r1, parse, total)) == Then(Combine(os[..k]), Combine(os[k + 1..])) &&
            Combine(os) == Then(Then(Combine(os[..k]), os[k]), Combine(os[k + 1..]))
  {
    var os1 := Outcomes(n, r1, parse, total);
    var os := Outcomes(n, r2, parse, total);
    var skip := Outcome([], []);
    assert os1 == os[..k] + [skip] + os[k + 1..];
    assert os == os[..k] + [os[k]] + os[k + 1..];
    CombineAppend(os[..k] + [skip], os[k + 1..]);
    CombineAppend(os[..k], [skip]);
    CombineAppend(os[..k] + [os[k]], os[k + 1..]);
    CombineAppend(os[..k], [os[k]]);
    var one: seq<Outcome> := [skip];
    assert one[..0] == [];
    var pre := Combine(os[..k]);
    assert pre.events + [] == pre.events && pre.reviews + [] == pre.reviews;
    var other: seq<Outcome> := [os[k]];
    assert other[..0] == [];
    assert Combine(other) == Then(Outcome([], []), os[k]);
    assert [] + os[k].events == os[k].events && [] + os[k].reviews == os[k].reviews;
  }

  /** A parsed reply keeps all its reviews but yields events only up to the
      first review without an `index`, each carrying that review, its index
      and the number of sentences. */
  lemma ParsedChunk(text: string, parse: string -> Option<seq<Object>>, total: nat)
    requires parse(StripFence(text)).Some?
    ensures var reviews := parse(StripFence(text)).value;
            var out := ChunkOutcome(Replied(text), parse, total);
            out.reviews == reviews && |out.events| <= |reviews| &&
            (|out.events| < |reviews| ==> "index" !in reviews[|out.events|]) &&
            forall i :: 0 <= i < |out.events| ==>
              "index" in reviews[i] && out.events[i] == SentenceReview(reviews[i], reviews[i]["index"], total)
  {
  }

  /** Chunks yield only sentence reviews, all reporting the same total. */
  lemma {:induction false} CombineEvents(os: seq<Outcome>, total: nat)
    requires forall k :: 0 <= k < |os| ==> forall e :: e in os[k].events ==> e.SentenceReview? && e.total == total
    ensures forall e :: e in Combine(os).events ==> e.SentenceReview? && e.total == total
    decreases |os|
  {
    if os != [] {
      CombineEvents(os[..|os| - 1], total);
    }
  }

  lemma OutcomeEvents(n: nat, respond: nat -> Reply, parse: string -> Option<seq<Object>>, total: nat)
    ensures forall e :: e in Combine(Outcomes(n, respond, parse, total)).events ==> e.SentenceReview? && e.total == total
  {
    var os := Outcomes(n, respond, parse, total);
    forall k | 0 <= k < n ensures forall e :: e in os[k].events ==> e.SentenceReview? && e.total == total {
      assert os[k] == ChunkOutcome(respond(k), parse, total);
    }
    CombineEvents(os, total);
  }

  /** The closing events: a summary notice, then the counts (adding up to the
      number of reviews), the bounded score, the summary or its fallback and
      the echoed references. */
  lemma ConclusionShape(reviews: seq<Object>, refs: seq<Object>, title: Value, date: Value, summary: Option<string>)
    requires reviews != []
    ensures var tail := Conclusion(reviews, refs, title, date, summary);
            && |tail| == 2 && tail[0] == GeneratingSummary && tail[1].AnalysisComplete?
            && tail[1].countsByVerdict == Tally(reviews)
            && tail[1].totalReviews == |reviews|
            && SumValues(tail[1].countsByVerdict) == |reviews|
            && tail[1].riskScore <= 100
            && (summary.None? ==> tail[1].summary == SummaryFallback)
            && (summary.Some? ==> tail[1].summary == summary.value)
            && tail[1].referencesUsed == ReferencesUsed(PackageReferences(refs, Streaming))
  {
    TallySum(reviews);
  }

  /** Before the closing events the stream holds the start event and review
      events only. */
  lemma StreamHead(start: Event, reviewEvents: seq<Event>, total: nat)
    requires start.AnalysisStart?
    requires forall e :: e in reviewEvents ==> e.SentenceReview? && e.total == total
    ensures var head := [start] + reviewEvents;
            && GeneratingSummary !in head
            && (forall i :: 0 <= i < |head| ==> !head[i].AnalysisComplete?)
            && (forall i :: 0 <= i < |head| && head[i].SentenceReview? ==> head[i].total == total)
  {
    var head := [start] + reviewEvents;
    forall i | 1 <= i < |head|
      ensures head[i].SentenceReview? && head[i].total == total
    {
      assert head[i] == reviewEvents[i - 1] && reviewEvents[i - 1] in reviewEvents;
    }
  }

  /** The shape of the stream: it opens with `analysis_start` carrying the
      number of sentences; every review event reports that number as total;
      `generating_summary` then `analysis_complete` close it exactly when
      some review was produced. */
  lemma AnalysisEventsShape(title: Value, text: string, refs: seq<Object>, date: Value,
                            respond: nat -> Reply, parse: string -> Option<seq<Object>>,
                            summary: Option<string>)
    ensures var events := AnalysisEvents(title, text, refs, date, respond, parse, summary);
            var produced := RunAll(text, respond, parse).reviews;
            && events[0] == AnalysisStart(|SplitSentences(text)|, title, date)
            && (forall i :: 0 <= i < |events| && events[i].SentenceReview? ==> events[i].total == |SplitSentences(text)|)
            && (GeneratingSummary in events <==> produced != [])
            && (produced == [] ==> forall i :: 0 <= i < |events| ==> !events[i].AnalysisComplete?)
            && (produced != [] ==>
                  events[|events| - 2..] == Conclusion(produced, refs, title, date, summary))
  {
    var sentences := SplitSentences(text);
    var total := |sentences|;
    var run := RunAll(text, respond, parse);
    OutcomeEvents(|SmartChunks(sentences, MaxChunkChars)|, respond, parse, total);
    var events := AnalysisEvents(title, text, refs, date, respond, parse, summary);
    var head := [AnalysisStart(total, title, date)] + run.events;
    var tail := Conclusion(run.reviews, refs, title, date, summary);
    StreamHead(AnalysisStart(total, title, date), run.events, total);
    assert events == head + tail;
    if run.reviews == [] {
      assert events == head;
    } else {
      assert events[|head|] == GeneratingSummary;
      assert events[|events| - 2..] == tail;
      forall i | |head| <= i < |events| ensures !events[i].SentenceReview? {
        assert events[i] == tail[i - |head|];
      }
    }
  }
}
