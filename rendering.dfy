/**
 * The `complete` branch of main.js's message listener: how the engine's raw
 * output becomes what the page shows. A string is shown as text, an array of
 * chunks as markup with one timestamped entry per chunk, anything else as its
 * `.text` field.
 */
module Rendering {
  import opened Wrappers
  import opened Messages
  import opened TimeFormat

  /** What the output element holds: `textContent` text or `innerHTML` markup. */
  datatype View = TextContent(text: string) | InnerHtml(html: string)

  const SpanOpen: string := "<span class=\"text-xs text-blue-400\">["
  const Arrow: string := " -> "
  const SpanClose: string := "]</span> "
  const LineBreak: string := "<br>"

  /** One entry of the `map`: `[start -> end]` in a span, the chunk text, a line break. */
  function ChunkLine(c: Chunk): string {
    SpanOpen + FormatTime(c.start) + Arrow + FormatTime(c.end) + SpanClose + c.text + LineBreak
  }

  /** An entry opens with the span, then both times with the arrow between them, then the closing bracket. */
  lemma ChunkLineTimes(c: Chunk)
    ensures var r, times := ChunkLine(c), FormatTime(c.start) + Arrow + FormatTime(c.end);
      && |SpanOpen| + |times| + |SpanClose| <= |r|
      && r[..|SpanOpen|] == SpanOpen
      && r[|SpanOpen|..|SpanOpen| + |times|] == times
      && r[|SpanOpen| + |times|..|SpanOpen| + |times| + |SpanClose|] == SpanClose
  {
    var times := FormatTime(c.start) + Arrow + FormatTime(c.end);
    Regroup(SpanOpen, FormatTime(c.start), Arrow, FormatTime(c.end), SpanClose, c.text, LineBreak);
    FiveParts(SpanOpen, times, SpanClose, c.text, LineBreak);
  }

  lemma Regroup(a: string, b1: string, b2: string, b3: string, d: string, e: string, f: string)
    ensures a + b1 + b2 + b3 + d + e + f == a + (b1 + b2 + b3) + d + e + f
  {
  }

  /** An entry ends with the chunk text, unescaped, right after the closing bracket, then the line break. */
  lemma ChunkLineText(c: Chunk)
    ensures var r, times := ChunkLine(c), FormatTime(c.start) + Arrow + FormatTime(c.end);
      && |r| == |SpanOpen| + |times| + |SpanClose| + |c.text| + |LineBreak|
      && r[|r| - |LineBreak| - |c.text|..|r| - |LineBreak|] == c.text
      && r[|r| - |LineBreak|..] == LineBreak
  {
    var times := FormatTime(c.start) + Arrow + FormatTime(c.end);
    FiveParts(SpanOpen, times, SpanClose, c.text, LineBreak);
  }

  lemma FiveParts(a: string, b: string, d: string, e: string, f: string)
    ensures var r := a + b + d + e + f;
      && r[..|a|] == a
      && r[|a|..|a| + |b|] == b
      && r[|a| + |b|..|a| + |b| + |d|] == d
      && r[|r| - |f| - |e|..|r| - |f|] == e
      && r[|r| - |f|..] == f
  {
  }

  /** `Array.prototype.join('')`. */
  function Concat(parts: seq<string>): string {
    if parts == [] then "" else parts[0] + Concat(parts[1..])
  }

  /** `Array.prototype.map`. */
  function Map(f: Chunk -> string, cs: seq<Chunk>): seq<string> {
    seq(|cs|, i requires 0 <= i < |cs| => f(cs[i]))
  }

  /** `data.map(chunk => ...).join('')`. */
  function RenderChunks(cs: seq<Chunk>): string {
    Concat(Map(ChunkLine, cs))
  }

  /** The type-directed normalisation of the engine's output. */
  function Normalise(o: Output): (v: View)
    ensures o.Plain? ==> v == TextContent(o.text)
    ensures o.Record? ==> v == TextContent(o.text)
    ensures o.Chunks? ==> v == InnerHtml(RenderChunks(o.chunks))
  {
    match o
    case Plain(text) => TextContent(text)
    case Chunks(cs) => InnerHtml(RenderChunks(cs))
    case Record(text) => TextContent(text)
  }

  lemma {:induction false} ConcatAppend(a: seq<string>, b: seq<string>)
    ensures Concat(a + b) == Concat(a) + Concat(b)
    decreases |a|
  {
    if a == [] {
      assert a + b == b;
    } else {
      assert (a + b)[1..] == a[1..] + b;
      ConcatAppend(a[1..], b);
    }
  }

  lemma MapAppend(f: Chunk -> string, a: seq<Chunk>, b: seq<Chunk>)
    ensures Map(f, a + b) == Map(f, a) + Map(f, b)
  {
    var l, la, lb := Map(f, a + b), Map(f, a), Map(f, b);
    forall i | 0 <= i < |l|
      ensures l[i] == (la + lb)[i]
    {
      if i < |a| {
        assert (a + b)[i] == a[i];
      } else {
        assert (a + b)[i] == b[i - |a|];
      }
    }
  }

  /** Rendering keeps the order of chunks: rendering a concatenation concatenates the renderings. */
  lemma RenderChunksAppend(a: seq<Chunk>, b: seq<Chunk>)
    ensures RenderChunks(a + b) == RenderChunks(a) + RenderChunks(b)
  {
    MapAppend(ChunkLine, a, b);
    ConcatAppend(Map(ChunkLine, a), Map(ChunkLine, b));
  }

  /** A single chunk renders as its own entry. */
  lemma RenderOneChunk(c: Chunk)
    ensures RenderChunks([c]) == ChunkLine(c)
  {
    var l := Map(ChunkLine, [c]);
    assert l == [ChunkLine(c)];
    assert Concat(l) == ChunkLine(c) + Concat([]);
  }

  /**
   * No chunk is dropped or merged: the entry of chunk `k` appears whole in the
   * rendering, right after the entries of the chunks before it.
   */
  lemma RenderChunkAt(cs: seq<Chunk>, k: nat)
    requires k < |cs|
    ensures var off := |RenderChunks(cs[..k])|;
      off + |ChunkLine(cs[k])| <= |RenderChunks(cs)|
      && RenderChunks(cs)[off..off + |ChunkLine(cs[k])|] == ChunkLine(cs[k])
  {
    assert cs == cs[..k] + [cs[k]] + cs[k + 1..];
    RenderChunksAppend(cs[..k] + [cs[k]], cs[k + 1..]);
    RenderChunksAppend(cs[..k], [cs[k]]);
    RenderOneChunk(cs[k]);
  }

  lemma RenderTwoChunks(a: Chunk, b: Chunk)
    ensures RenderChunks([a, b]) == ChunkLine(a) + ChunkLine(b)
  {
    assert [a] + [b] == [a, b];
    RenderChunksAppend([a], [b]);
    RenderOneChunk(a);
    RenderOneChunk(b);
  }

  /** Two chunks, as computed by hand: note that 2 seconds renders as "0:02", not "00:02". */
  lemma RenderChunksExample()
    ensures RenderChunks([Chunk(Some(0), Some(2), "hi"), Chunk(Some(2), Some(5), "there")])
      == (SpanOpen + "00:00" + Arrow + "0:02" + SpanClose + "hi" + LineBreak)
       + (SpanOpen + "0:02" + Arrow + "0:05" + SpanClose + "there" + LineBreak)
  {
    var a, b := Chunk(Some(0), Some(2), "hi"), Chunk(Some(2), Some(5), "there");
    FormatTimeUnderTen(2);
    FormatTimeUnderTen(5);
    assert FormatTime(Some(2)) == "0:02" && FormatTime(Some(5)) == "0:05";
    assert ChunkLine(a) == SpanOpen + "00:00" + Arrow + "0:02" + SpanClose + "hi" + LineBreak;
    assert ChunkLine(b) == SpanOpen + "0:02" + Arrow + "0:05" + SpanClose + "there" + LineBreak;
    RenderTwoChunks(a, b);
  }
}
