/**
 * SampleFramework12's sprite renderer: a batch of sprites is drawn as instanced draws of at
 * most `MaxBatchSize` sprites each, with a missing texture replaced by the renderer's default
 * texture, and a text is laid out chunk by chunk into a fixed buffer of glyph sprites, skipping
 * spaces and line breaks, each chunk drawn as one batch.
 *
 * Textures are opaque handles (`None` is the null pointer). A sprite's draw data (transform,
 * colour, source rectangle) is floating point and is an opaque value here; a glyph's draw
 * data is identified by its character. The command list is the sequence of instanced draws
 * recorded into it, each with the texture it binds and the sprites copied to its instance
 * buffer.
 */
module Sprites {
  import opened Wrappers

  /** `SpriteRenderer::MaxBatchSize`. */
  const MAX_BATCH_SIZE: nat := 1024

  /** One `DrawIndexedInstanced`: the texture bound for it and the sprites in its instance buffer. */
  datatype BatchDraw = BatchDraw(texture: nat, instances: seq<nat>)

  /** A null texture pointer stands for the default texture. */
  function ResolveTexture(texture: Option<nat>, defaultTexture: nat): (r: nat)
    ensures texture.None? ==> r == defaultTexture
    ensures texture.Some? ==> r == texture.value
  {
    match texture
    case None => defaultTexture
    case Some(t) => t
  }

  /** The sprites of a sequence of draws, in order. */
  function Instances(draws: seq<BatchDraw>): seq<nat>
  {
    if |draws| == 0 then [] else draws[0].instances + Instances(draws[1..])
  }

  lemma {:induction false} InstancesAppend(a: seq<BatchDraw>, b: seq<BatchDraw>)
    ensures Instances(a + b) == Instances(a) + Instances(b)
    decreases |a|
  {
    if |a| == 0 {
      assert a + b == b;
    } else {
      assert (a + b)[1..] == a[1..] + b;
      InstancesAppend(a[1..], b);
    }
  }

  /** Every draw binds `texture` and draws between one and `MaxBatchSize` sprites. */
  predicate WellSized(draws: seq<BatchDraw>, texture: nat)
  {
    forall i :: 0 <= i < |draws| ==>
      draws[i].texture == texture && 0 < |draws[i].instances| <= MAX_BATCH_SIZE
  }

  /** The draws `RenderBatch` records: consecutive chunks of `MaxBatchSize` sprites, the last one holding the rest. */
  function BatchDraws(texture: nat, drawData: seq<nat>): seq<BatchDraw>
    decreases |drawData|
  {
    if |drawData| == 0 then []
    else if |drawData| <= MAX_BATCH_SIZE then [BatchDraw(texture, drawData)]
    else [BatchDraw(texture, drawData[..MAX_BATCH_SIZE])] + BatchDraws(texture, drawData[MAX_BATCH_SIZE..])
  }

  /** Together the draws of a batch draw every sprite once, in order, in well-sized chunks. */
  lemma {:induction false} BatchDrawsCover(texture: nat, drawData: seq<nat>)
    ensures Instances(BatchDraws(texture, drawData)) == drawData
    ensures WellSized(BatchDraws(texture, drawData), texture)
    decreases |drawData|
  {
    if |drawData| > MAX_BATCH_SIZE {
      var rest := BatchDraws(texture, drawData[MAX_BATCH_SIZE..]);
      BatchDrawsCover(texture, drawData[MAX_BATCH_SIZE..]);
      assert drawData[..MAX_BATCH_SIZE] + drawData[MAX_BATCH_SIZE..] == drawData;
      assert ([BatchDraw(texture, drawData[..MAX_BATCH_SIZE])] + rest)[1..] == rest;
    } else if |drawData| > 0 {
      assert [BatchDraw(texture, drawData)][1..] == [];
    }
  }

  /** One step of `RenderBatch`'s loop: the first chunk, then the draws of the rest. */
  lemma BatchDrawsStep(texture: nat, rest: seq<nat>, count: nat)
    requires 0 < |rest| && count == (if MAX_BATCH_SIZE <= |rest| then MAX_BATCH_SIZE else |rest|)
    ensures BatchDraws(texture, rest) ==
      [BatchDraw(texture, rest[..count])] + BatchDraws(texture, if MAX_BATCH_SIZE < |rest| then rest[MAX_BATCH_SIZE..] else [])
  {
    if |rest| <= MAX_BATCH_SIZE {
      assert rest[..count] == rest;
    }
  }

  /** The number of draws is the number of sprites divided by `MaxBatchSize`, rounded up. */
  lemma {:induction false} BatchDrawCount(texture: nat, drawData: seq<nat>)
    ensures |BatchDraws(texture, drawData)| == (|drawData| + MAX_BATCH_SIZE - 1) / MAX_BATCH_SIZE
    decreases |drawData|
  {
    if |drawData| > MAX_BATCH_SIZE {
      BatchDrawCount(texture, drawData[MAX_BATCH_SIZE..]);
    }
  }

  /** Draw `i` starts at sprite `i * MaxBatchSize`. */
  lemma {:induction false} BatchDrawStart(texture: nat, drawData: seq<nat>, i: nat)
    requires i < |BatchDraws(texture, drawData)|
    ensures i * MAX_BATCH_SIZE < |drawData|
    ensures BatchDraws(texture, drawData)[i].instances ==
      drawData[i * MAX_BATCH_SIZE..if (i + 1) * MAX_BATCH_SIZE <= |drawData| then (i + 1) * MAX_BATCH_SIZE else |drawData|]
    decreases |drawData|
  {
    if i > 0 {
      BatchDrawStart(texture, drawData[MAX_BATCH_SIZE..], i - 1);
    }
  }

  lemma PrefixOfSuffix<T>(s: seq<T>, from: nat, count: nat)
    requires from + count <= |s|
    ensures s[from..][..count] == s[from..from + count]
  {
  }

  /** Spaces and line breaks move the pen but draw nothing. */
  predicate IsDrawn(c: char)
  {
    c != ' ' && c != '\n'
  }

  /** The draw data of a glyph, identified by its character. */
  function GlyphSprite(c: char): nat
  {
    c as nat
  }

  /** The glyph sprites of a text: one per drawn character, in order. */
  function Glyphs(text: seq<char>): (r: seq<nat>)
    ensures |r| <= |text|
  {
    if |text| == 0 then []
    else Glyphs(text[..|text| - 1]) + (if IsDrawn(text[|text| - 1]) then [GlyphSprite(text[|text| - 1])] else [])
  }

  lemma {:induction false} GlyphsAppend(a: seq<char>, b: seq<char>)
    ensures Glyphs(a + b) == Glyphs(a) + Glyphs(b)
    decreases |b|
  {
    if |b| == 0 {
      assert a + b == a;
    } else {
      assert (a + b)[..|a + b| - 1] == a + b[..|b| - 1];
      GlyphsAppend(a, b[..|b| - 1]);
    }
  }

  /** Every character drawn counts: with no space or line break, every character is a glyph. */
  lemma {:induction false} GlyphsAllDrawn(text: seq<char>)
    requires forall i :: 0 <= i < |text| ==> IsDrawn(text[i])
    ensures |Glyphs(text)| == |text|
  {
    if |text| > 0 {
      GlyphsAllDrawn(text[..|text| - 1]);
    }
  }

  /**
   * The draws `RenderText` records: the text in chunks of `MaxBatchSize` characters, the
   * glyphs of each chunk drawn as one batch with the font texture.
   */
  function TextDraws(fontTexture: nat, text: seq<char>): seq<BatchDraw>
    decreases |text|
  {
    if |text| == 0 then []
    else
      var n := if |text| <= MAX_BATCH_SIZE then |text| else MAX_BATCH_SIZE;
      BatchDraws(fontTexture, Glyphs(text[..n])) + TextDraws(fontTexture, text[n..])
  }

  /**
   * Every drawn character of a text becomes one glyph sprite, in order, in draws of at most
   * `MaxBatchSize` glyphs with the font texture.
   */
  lemma {:induction false} TextDrawsCover(fontTexture: nat, text: seq<char>)
    ensures Instances(TextDraws(fontTexture, text)) == Glyphs(text)
    ensures WellSized(TextDraws(fontTexture, text), fontTexture)
    decreases |text|
  {
    if |text| > 0 {
      var n := if |text| <= MAX_BATCH_SIZE then |text| else MAX_BATCH_SIZE;
      var head := BatchDraws(fontTexture, Glyphs(text[..n]));
      var rest := TextDraws(fontTexture, text[n..]);
      assert TextDraws(fontTexture, text) == head + rest;
      BatchDrawsCover(fontTexture, Glyphs(text[..n]));
      TextDrawsCover(fontTexture, text[n..]);
      InstancesAppend(head, rest);
      WellSizedAppend(head, rest, fontTexture);
      GlyphsAppend(text[..n], text[n..]);
      assert text[..n] + text[n..] == text;
    }
  }

  lemma WellSizedAppend(a: seq<BatchDraw>, b: seq<BatchDraw>, texture: nat)
    requires WellSized(a, texture) && WellSized(b, texture)
    ensures WellSized(a + b, texture)
  {
    forall i | 0 <= i < |a + b|
      ensures (a + b)[i].texture == texture && 0 < |(a + b)[i].instances| <= MAX_BATCH_SIZE
    {
      if i >= |a| {
        assert (a + b)[i] == b[i - |a|];
      }
    }
  }

  /** One step of `RenderText`'s loop: the first chunk's draws, then the draws of the rest. */
  lemma TextDrawsStep(fontTexture: nat, rest: seq<char>, count: nat)
    requires 0 < |rest| && count == (if MAX_BATCH_SIZE <= |rest| then MAX_BATCH_SIZE else |rest|)
    ensures TextDraws(fontTexture, rest) ==
      BatchDraws(fontTexture, Glyphs(rest[..count])) + TextDraws(fontTexture, if MAX_BATCH_SIZE < |rest| then rest[MAX_BATCH_SIZE..] else [])
  {
    if |rest| <= MAX_BATCH_SIZE {
      assert rest[count..] == [];
    }
  }

  lemma AppendAssoc<T>(a: seq<T>, b: seq<T>, c: seq<T>)
    ensures (a + b) + c == a + (b + c)
  {
  }

  /** One step of `RenderText`'s loop, stated on the text and the chunk's offset. */
  lemma TextChunkStep(fontTexture: nat, text: seq<char>, offset: nat, count: nat)
    requires offset < |text| && count == CharsToDraw(|text|, offset)
    ensures offset + count <= |text|
    ensures TextDraws(fontTexture, text[offset..]) ==
      BatchDraws(fontTexture, Glyphs(text[offset..offset + count])) +
      TextDraws(fontTexture, if offset + MAX_BATCH_SIZE < |text| then text[offset + MAX_BATCH_SIZE..] else [])
  {
    var rest := text[offset..];
    TextDrawsStep(fontTexture, rest, count);
    PrefixOfSuffix(text, offset, count);
    if offset + MAX_BATCH_SIZE < |text| {
      assert rest[MAX_BATCH_SIZE..] == text[offset + MAX_BATCH_SIZE..];
    }
  }

  /** Each chunk of a text is at most one draw, since a chunk has at most `MaxBatchSize` glyphs. */
  lemma TextChunkOneDraw(fontTexture: nat, chunk: seq<char>)
    requires |chunk| <= MAX_BATCH_SIZE
    ensures |BatchDraws(fontTexture, Glyphs(chunk))| <= 1
  {
  }

  /**
   * The characters `RenderText` as written draws in each chunk: the whole text's length
   * bounded by `MaxBatchSize`, whatever the chunk's offset.
   */
  function CharsToDrawAsWritten(numChars: nat, offset: nat): (r: nat)
    ensures r <= MAX_BATCH_SIZE && r <= numChars
  {
    if numChars <= MAX_BATCH_SIZE then numChars else MAX_BATCH_SIZE
  }

  /** The corrected chunk length: the characters left, bounded by `MaxBatchSize`. */
  function CharsToDraw(numChars: nat, offset: nat): (r: nat)
    requires offset <= numChars
    ensures r <= MAX_BATCH_SIZE && offset + r <= numChars
    ensures offset < numChars ==> 0 < r
  {
    if numChars - offset <= MAX_BATCH_SIZE then numChars - offset else MAX_BATCH_SIZE
  }

  /**
   * As written, a text of 1025 characters is read up to index 2047 in its second chunk,
   * past its end; the corrected chunk stops at the text's end.
   */
  lemma RenderTextReadsPastEndAsWritten()
    ensures 1024 + CharsToDrawAsWritten(1025, 1024) > 1025 && 1024 + CharsToDrawAsWritten(1025, 1024) - 1 == 2047
    ensures 1024 + CharsToDraw(1025, 1024) == 1025
  {
  }

  /** Up to `MaxBatchSize` characters there is a single chunk, and both bounds agree on it. */
  lemma CharsToDrawAgreesOnShortText(numChars: nat)
    requires numChars <= MAX_BATCH_SIZE
    ensures CharsToDrawAsWritten(numChars, 0) == CharsToDraw(numChars, 0) == numChars
  {
  }

  class SpriteRenderer {
    var defaultTexture: nat
    /** `textDrawData`: the glyph sprites of the chunk being laid out. */
    var textDrawData: array<nat>
    /** The draws recorded into the command list so far. */
    var commands: seq<BatchDraw>

    ghost predicate Valid()
      reads this
    {
      textDrawData.Length == MAX_BATCH_SIZE
    }

    constructor(defaultTexture_: nat)
      ensures Valid() && fresh(textDrawData) && defaultTexture == defaultTexture_ && commands == []
    {
      defaultTexture := defaultTexture_;
      textDrawData := new nat[MAX_BATCH_SIZE];
      commands := [];
    }

    /**
     * `RenderBatch`: nothing for no sprites; otherwise the sprites in chunks of `MaxBatchSize`,
     * each chunk copied to an instance buffer and drawn with the texture, or the default
     * texture when the texture is null.
     */
    method RenderBatch(texture: Option<nat>, drawData: seq<nat>)
      modifies this
      ensures commands == old(commands) + BatchDraws(ResolveTexture(texture, defaultTexture), drawData)
      ensures defaultTexture == old(defaultTexture) && textDrawData == old(textDrawData)
    {
      if |drawData| == 0 {
        return;
      }
      var tex := if texture.None? then defaultTexture else texture.value;
      var numSpritesLeft: nat := |drawData|;
      var offset: nat := 0;
      ghost var rest := drawData;
      while offset < |drawData|
        invariant defaultTexture == old(defaultTexture) && textDrawData == old(textDrawData)
        invariant offset < |drawData| ==> numSpritesLeft == |drawData| - offset && rest == drawData[offset..]
        invariant offset >= |drawData| ==> rest == []
        invariant commands + BatchDraws(tex, rest) == old(commands) + BatchDraws(tex, drawData)
        decreases |drawData| - offset
      {
        var spritesToDraw := if MAX_BATCH_SIZE <= numSpritesLeft then MAX_BATCH_SIZE else numSpritesLeft;
        var instanceBuffer := drawData[offset..offset + spritesToDraw];
        BatchDrawsStep(tex, rest, spritesToDraw);
        assert rest[..spritesToDraw] == instanceBuffer;
        commands := commands + [BatchDraw(tex, instanceBuffer)];
        numSpritesLeft := numSpritesLeft - spritesToDraw;
        rest := if MAX_BATCH_SIZE < |rest| then rest[MAX_BATCH_SIZE..] else [];
        offset := offset + MAX_BATCH_SIZE;
      }
    }

    /** `Render`: one sprite, drawn as a batch of one. */
    method Render(texture: Option<nat>, drawData: nat)
      modifies this
      ensures commands == old(commands) + [BatchDraw(ResolveTexture(texture, defaultTexture), [drawData])]
      ensures defaultTexture == old(defaultTexture) && textDrawData == old(textDrawData)
    {
      RenderBatch(texture, [drawData]);
    }

    /**
     * `RenderText`, with each chunk bounded by the characters left: every drawn character of
     * the text becomes one glyph sprite, in order, in draws of at most `MaxBatchSize` with the
     * font texture; spaces and line breaks draw nothing.
     */
    method RenderText(fontTexture: nat, text: seq<char>)
      requires Valid()
      modifies this, textDrawData
      ensures Valid() && commands == old(commands) + TextDraws(fontTexture, text)
      ensures defaultTexture == old(defaultTexture) && textDrawData == old(textDrawData)
    {
      var numChars := |text|;
      var numCharsLeft: nat := numChars;
      var offset: nat := 0;
      ghost var rest := text;
      while offset < numChars
        invariant Valid() && defaultTexture == old(defaultTexture) && textDrawData == old(textDrawData)
        invariant offset < numChars ==> numCharsLeft == numChars - offset && rest == text[offset..]
        invariant offset >= numChars ==> rest == []
        invariant commands + TextDraws(fontTexture, rest) == old(commands) + TextDraws(fontTexture, text)
        decreases numChars - offset
      {
        var numCharsToDraw := CharsToDraw(numChars, offset);
        ghost var next := if offset + MAX_BATCH_SIZE < numChars then text[offset + MAX_BATCH_SIZE..] else [];
        ghost var before := commands;
        TextChunkStep(fontTexture, text, offset, numCharsToDraw);
        RenderTextChunk(fontTexture, text, offset, numCharsToDraw);
        AppendAssoc(before, BatchDraws(fontTexture, Glyphs(text[offset..offset + numCharsToDraw])), TextDraws(fontTexture, next));
        numCharsLeft := numCharsLeft - numCharsToDraw;
        rest := next;
        offset := offset + MAX_BATCH_SIZE;
      }
    }

    /** One chunk of `RenderText`: its glyphs laid out in `textDrawData` and drawn as a batch. */
    method RenderTextChunk(fontTexture: nat, text: seq<char>, offset: nat, numCharsToDraw: nat)
      requires Valid() && numCharsToDraw <= MAX_BATCH_SIZE && offset + numCharsToDraw <= |text|
      modifies this, textDrawData
      ensures Valid() && commands == old(commands) + BatchDraws(fontTexture, Glyphs(text[offset..offset + numCharsToDraw]))
      ensures defaultTexture == old(defaultTexture) && textDrawData == old(textDrawData)
    {
      var currentDraw := LayOutChunk(text, offset, numCharsToDraw);
      RenderBatch(Some(fontTexture), textDrawData[..currentDraw]);
    }

    /** The inner loop of `RenderText`: the glyph sprites of one chunk written to `textDrawData`. */
    method LayOutChunk(text: seq<char>, offset: nat, numCharsToDraw: nat) returns (currentDraw: nat)
      requires Valid() && numCharsToDraw <= MAX_BATCH_SIZE && offset + numCharsToDraw <= |text|
      modifies textDrawData
      ensures currentDraw <= numCharsToDraw
      ensures textDrawData[..currentDraw] == Glyphs(text[offset..offset + numCharsToDraw])
    {
      currentDraw := 0;
      for i := 0 to numCharsToDraw
        invariant currentDraw <= i
        invariant textDrawData[..currentDraw] == Glyphs(text[offset..offset + i])
      {
        var character := text[i + offset];
        assert text[offset..offset + i + 1] == text[offset..offset + i] + [character];
        if character == ' ' {
        } else if character == '\n' {
        } else {
          textDrawData[currentDraw] := GlyphSprite(character);
          currentDraw := currentDraw + 1;
        }
      }
    }
  }
}
