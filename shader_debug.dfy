/**
 * The CPU side of SampleFramework12's shader debug printing: the bounds-checked reader over the
 * print buffer read back from the GPU, the record-parsing loop of `BeginRender`, the placeholder
 * substitution, and the choice of readback buffer. Text is bytes; the formatting of one
 * argument (`MakeArgString`) is a parameter.
 */
module ShaderDebug {
  import opened Ints
  import opened Wrappers
  import SF12Math
  import DX12

  /** `MaxDebugPrintArgs`. */
  const MAX_DEBUG_PRINT_ARGS: nat := 16

  /** `NumDebugPrintArgCodes`: Uint, Uint2..4, Int, Int2..4, Float, Float2..4. */
  const NUM_DEBUG_PRINT_ARG_CODES: nat := 12

  /** `sizeof(DebugPrintHeader)`: NumBytes, StringSize and NumArgs, 32 bits each. */
  const HEADER_SIZE: nat := 12

  /** `sizeof(uint32)`: the leading byte count of the print buffer. */
  const COUNT_SIZE: nat := 4

  /** The byte that ends a C string. */
  const NUL: u8 := 0

  /**
   * `ArgCodeSizes`: every argument type is one to four 32-bit components, in the order
   * scalar, 2-, 3-, 4-vector for uint, int and float.
   */
  function ArgCodeSize(code: nat): (r: nat)
    requires code < NUM_DEBUG_PRINT_ARG_CODES
    ensures r == 4 * (code % 4 + 1)
  {
    [4, 8, 12, 16, 4, 8, 12, 16, 4, 8, 12, 16][code]
  }

  /** A little-endian 32-bit word of the buffer. */
  function U32At(data: seq<u8>, i: nat): (r: u32)
    requires i + 4 <= |data|
  {
    (data[i] as int) + 0x100 * (data[i + 1] as int) + 0x1_0000 * (data[i + 2] as int) +
    0x100_0000 * (data[i + 3] as int)
  }

  /** The C string at the start of `bytes`: everything before the first NUL. */
  function CString(bytes: seq<u8>): (r: seq<u8>)
    ensures |r| <= |bytes| && r == bytes[..|r|] && (forall i :: 0 <= i < |r| ==> r[i] != NUL)
    ensures |r| < |bytes| ==> bytes[|r|] == NUL
  {
    if |bytes| == 0 || bytes[0] == NUL then [] else [bytes[0]] + CString(bytes[1..])
  }

  // ---------------------------------------------------------------------------------------
  // The reader

  /** `DebugPrintHeader`. */
  datatype DebugPrintHeader = DebugPrintHeader(numBytes: u32, stringSize: u32, numArgs: u32)

  /**
   * `DebugPrintReader`: the mapped readback data, its size, the number of bytes the GPU wrote
   * (capped to the size) and the read position.
   */
  class DebugPrintReader {
    const printBufferData: seq<u8>
    const bufferSize: nat
    const totalNumBytes: nat
    var currOffset: nat

    /**
     * Every read stays below `totalNumBytes`, itself inside the buffer; the position starts
     * after the leading count and moves past it only into bytes that were read.
     */
    ghost predicate Valid()
      reads this
    {
      |printBufferData| == bufferSize && bufferSize < TWO_32 && totalNumBytes <= bufferSize &&
      COUNT_SIZE <= currOffset && (currOffset == COUNT_SIZE || currOffset <= totalNumBytes)
    }

    /**
     * The constructor: the first word, plus its own 4 bytes in 32-bit arithmetic, capped to the
     * buffer size, is the number of bytes to parse; reading starts after that word.
     */
    constructor (printBufferData': seq<u8>, bufferSize': nat)
      requires COUNT_SIZE <= |printBufferData'| == bufferSize' < TWO_32
      ensures Valid() && printBufferData == printBufferData' && bufferSize == bufferSize'
      ensures totalNumBytes == SF12Math.Min((U32At(printBufferData', 0) + COUNT_SIZE) % TWO_32, bufferSize')
      ensures currOffset == COUNT_SIZE
    {
      printBufferData := printBufferData';
      bufferSize := bufferSize';
      totalNumBytes := SF12Math.Min((U32At(printBufferData', 0) + COUNT_SIZE) % TWO_32, bufferSize');
      currOffset := COUNT_SIZE;
    }

    /** `HasMoreData(numBytes)`: that many bytes are left before the end of the data. */
    predicate HasMoreData(numBytes: nat)
      reads this
    {
      currOffset + numBytes <= totalNumBytes
    }

    /**
     * `Consume<T>` for a `T` of `size` bytes: the bytes at the read position, and the position
     * moves past them; `None` (the caller's default value) without moving when they are not
     * all there.
     */
    method Consume(size: nat) returns (x: Option<seq<u8>>)
      requires Valid()
      modifies this
      ensures Valid()
      ensures x.Some? <==> old(HasMoreData(size))
      ensures x.Some? ==> x.value == printBufferData[old(currOffset)..old(currOffset) + size] &&
                          currOffset == old(currOffset) + size
      ensures x.None? ==> currOffset == old(currOffset)
    {
      if currOffset + size > totalNumBytes {
        return None;
      }
      x := Some(printBufferData[currOffset..currOffset + size]);
      currOffset := currOffset + size;
    }

    /**
     * `ConsumeString(expectedStringSize)`, as the text the caller makes of it: empty without
     * moving when the size is 0 or the string is not all there; otherwise the position moves
     * past the string, and the text is empty unless its last byte is NUL.
     */
    method ConsumeString(expectedStringSize: nat) returns (s: seq<u8>)
      requires Valid()
      modifies this
      ensures Valid()
      ensures expectedStringSize == 0 || !old(HasMoreData(expectedStringSize)) ==>
        s == [] && currOffset == old(currOffset)
      ensures expectedStringSize > 0 && old(HasMoreData(expectedStringSize)) ==>
        currOffset == old(currOffset) + expectedStringSize &&
        s == (if printBufferData[currOffset - 1] != NUL then []
              else CString(printBufferData[old(currOffset)..currOffset]))
      ensures 0 !in s
    {
      if expectedStringSize == 0 {
        return [];
      }
      if currOffset + expectedStringSize > totalNumBytes {
        return [];
      }
      var stringData := printBufferData[currOffset..currOffset + expectedStringSize];
      currOffset := currOffset + expectedStringSize;
      if stringData[expectedStringSize - 1] != NUL {
        return [];
      }
      s := CString(stringData);
    }
  }

  /**
   * `HasMoreData` and the bounds check of `ConsumeString` as written: the offset and the size
   * are both `uint32`, so their sum wraps.
   */
  predicate InBoundsAsWritten(currOffset: u32, numBytes: u32, totalNumBytes: u32)
  {
    (currOffset + numBytes) % TWO_32 <= totalNumBytes
  }

  /**
   * A header whose string size is close to 2^32 passes the wrapped check: `ConsumeString` then
   * reads the byte at `currOffset + expectedStringSize - 1`, far past the buffer, and the read
   * position wraps back to before where it was.
   */
  lemma WrappedBoundsCheck()
    ensures var currOffset, stringSize, total := 16, TWO_32 - 8, 64;
      InBoundsAsWritten(currOffset, stringSize, total) &&
      currOffset + stringSize - 1 >= total && (currOffset + stringSize) % TWO_32 < currOffset
  {
  }

  // ---------------------------------------------------------------------------------------
  // Placeholder substitution

  /** The first place at or after `from` where `search` occurs in `s`. */
  function Find<T(==)>(s: seq<T>, search: seq<T>, from: nat): (r: Option<nat>)
    decreases |s| - from
    ensures r.Some? ==> from <= r.value && r.value + |search| <= |s| &&
                        s[r.value..r.value + |search|] == search
  {
    if from + |search| > |s| then None
    else if s[from..from + |search|] == search then Some(from)
    else Find(s, search, from + 1)
  }

  /**
   * Every occurrence of `search` replaced, scanning left to right and resuming after each
   * replaced occurrence: what is inserted is never scanned again.
   */
  function ReplaceAll<T(==)>(s: seq<T>, search: seq<T>, replace: seq<T>): seq<T>
    requires |search| > 0
    decreases |s|
  {
    if |s| < |search| then s
    else if s[..|search|] == search then replace + ReplaceAll(s[|search|..], search, replace)
    else [s[0]] + ReplaceAll(s[1..], search, replace)
  }

  /** When `search` does not occur from `from` on, that part is left as it is. */
  lemma {:induction false} ReplaceAllNoMatch<T>(s: seq<T>, search: seq<T>, replace: seq<T>, from: nat)
    requires |search| > 0 && from <= |s| && Find(s, search, from).None?
    decreases |s| - from
    ensures ReplaceAll(s[from..], search, replace) == s[from..]
  {
    if from + |search| <= |s| {
      assert s[from..][..|search|] == s[from..from + |search|];
      assert s[from..][1..] == s[from + 1..];
      ReplaceAllNoMatch(s, search, replace, from + 1);
    }
  }

  /** At a match, `ReplaceAll` replaces it and carries on after it. */
  lemma ReplaceAllAtMatch<T>(s: seq<T>, search: seq<T>, replace: seq<T>, from: nat)
    requires |search| > 0 && from + |search| <= |s| && s[from..from + |search|] == search
    ensures ReplaceAll(s[from..], search, replace) == replace + ReplaceAll(s[from + |search|..], search, replace)
  {
    var t := s[from..];
    assert t[..|search|] == s[from..from + |search|];
    assert t[|search|..] == s[from + |search|..];
  }

  /** Elsewhere, `ReplaceAll` keeps the byte and carries on after it. */
  lemma ReplaceAllNoMatchHere<T>(s: seq<T>, search: seq<T>, replace: seq<T>, from: nat)
    requires |search| > 0 && from + |search| <= |s| && s[from..from + |search|] != search
    ensures ReplaceAll(s[from..], search, replace) == [s[from]] + ReplaceAll(s[from + 1..], search, replace)
  {
    var t := s[from..];
    assert t[..|search|] == s[from..from + |search|];
    assert t[1..] == s[from + 1..];
  }

  /** Up to the first occurrence from `from` on, nothing is replaced; that occurrence is. */
  lemma {:induction false} ReplaceAllFirstMatch<T>(s: seq<T>, search: seq<T>, replace: seq<T>, from: nat, p: nat)
    requires |search| > 0 && from <= |s| && Find(s, search, from) == Some(p)
    decreases |s| - from
    ensures ReplaceAll(s[from..], search, replace) ==
            s[from..p] + replace + ReplaceAll(s[p + |search|..], search, replace)
  {
    var rest := ReplaceAll(s[p + |search|..], search, replace);
    if s[from..from + |search|] == search {
      ReplaceAllAtMatch(s, search, replace, from);
      assert s[from..p] == [];
    } else {
      ReplaceAllNoMatchHere(s, search, replace, from);
      ReplaceAllFirstMatch(s, search, replace, from + 1, p);
      SplitFirst(s, from, p, replace, rest);
    }
  }

  lemma SplitFirst<T>(s: seq<T>, from: nat, p: nat, b: seq<T>, c: seq<T>)
    requires from < p <= |s|
    ensures [s[from]] + (s[from + 1..p] + b + c) == s[from..p] + b + c
  {
    assert s[from..p] == [s[from]] + s[from + 1..p];
  }

  /** Replacing a text by itself changes nothing. */
  lemma {:induction false} ReplaceAllBySelf<T>(s: seq<T>, search: seq<T>)
    requires |search| > 0
    decreases |s|
    ensures ReplaceAll(s, search, search) == s
  {
    if |s| >= |search| {
      if s[..|search|] == search {
        ReplaceAllBySelf(s[|search|..], search);
        assert s == s[..|search|] + s[|search|..];
      } else {
        ReplaceAllBySelf(s[1..], search);
        assert s == [s[0]] + s[1..];
      }
    }
  }

  /**
   * `ReplaceStringInPlace`: find from the position, replace, resume after the inserted text.
   * The result is `ReplaceAll`; the search text must not be empty (the source's placeholders
   * never are), or the loop would not end.
   */
  method ReplaceStringInPlace<T(==)>(subject: seq<T>, search: seq<T>, replace: seq<T>) returns (r: seq<T>)
    requires |search| > 0
    ensures r == ReplaceAll(subject, search, replace)
  {
    r := subject;
    var pos: nat := 0;
    assert r[pos..] == subject;
    while true
      invariant pos <= |r| && r[..pos] + ReplaceAll(r[pos..], search, replace) == ReplaceAll(subject, search, replace)
      decreases |r| - pos
    {
      var found := Find(r, search, pos);
      if found.None? {
        ReplaceAllNoMatch(r, search, replace, pos);
        assert r == r[..pos] + r[pos..];
        return;
      }
      var p := found.value;
      ReplaceOnce(r, search, replace, pos, p);
      r, pos := r[..p] + replace + r[p + |search|..], p + |replace|;
    }
  }

  /** One turn of `ReplaceStringInPlace`'s loop keeps what the whole text will become. */
  lemma ReplaceOnce<T>(r: seq<T>, search: seq<T>, replace: seq<T>, pos: nat, p: nat)
    requires |search| > 0 && pos <= |r| && Find(r, search, pos) == Some(p)
    ensures var next := r[..p] + replace + r[p + |search|..];
      p + |replace| <= |next| &&
      next[..p + |replace|] + ReplaceAll(next[p + |replace|..], search, replace) ==
      r[..pos] + ReplaceAll(r[pos..], search, replace)
  {
    ReplaceAllFirstMatch(r, search, replace, pos, p);
    SplitAround(r, replace, pos, p, p + |search|);
    Assoc(r[..pos], r[pos..p], replace, ReplaceAll(r[p + |search|..], search, replace));
  }

  /** The text after one replacement, cut after the inserted part. */
  lemma SplitAround<T>(r: seq<T>, replace: seq<T>, pos: nat, p: nat, q: nat)
    requires pos <= p <= q <= |r|
    ensures var next := r[..p] + replace + r[q..];
      p + |replace| <= |next| &&
      next[..p + |replace|] == r[..pos] + r[pos..p] + replace && next[p + |replace|..] == r[q..]
  {
    var next := r[..p] + replace + r[q..];
    assert r[..p] == r[..pos] + r[pos..p];
  }

  lemma Assoc<T>(a: seq<T>, b: seq<T>, c: seq<T>, d: seq<T>)
    ensures a + (b + c + d) == a + b + c + d
  {
  }

  /** `ArgPlaceHolders[i]`: "{i}" for i below 16. */
  function Placeholder(i: nat): (r: seq<u8>)
    requires i < MAX_DEBUG_PRINT_ARGS
    ensures |r| > 0 && r[0] == '{' as u8 && r[|r| - 1] == '}' as u8
  {
    if i < 10 then ['{' as u8, ('0' as u8) + i, '}' as u8]
    else ['{' as u8, '1' as u8, ('0' as u8) + i - 10, '}' as u8]
  }

  // ---------------------------------------------------------------------------------------
  // Record parsing

  /**
   * The argument loop of one record: each argument is a one-byte code (0xFF when missing) and
   * `ArgCodeSizes[code]` bytes; an unknown code or too few bytes ends the loop. Each argument,
   * as `render` formats it, replaces `{argIdx}` in the text.
   */
  method ApplyArgs(reader: DebugPrintReader, formatStr: seq<u8>, numArgs: nat,
                   render: (nat, seq<u8>) -> seq<u8>) returns (text: seq<u8>, applied: nat)
    requires reader.Valid() && numArgs <= MAX_DEBUG_PRINT_ARGS
    modifies reader
    ensures reader.Valid() && applied <= numArgs
    ensures old(reader.currOffset) <= reader.currOffset <= old(reader.currOffset) + numArgs * (1 + 16)
  {
    text := formatStr;
    applied := 0;
    while applied < numArgs
      invariant reader.Valid() && applied <= numArgs
      invariant old(reader.currOffset) <= reader.currOffset <= old(reader.currOffset) + applied * (1 + 16)
    {
      var code := reader.Consume(1);
      var argCode := if code.Some? then code.value[0] else 0xFF;
      if argCode >= NUM_DEBUG_PRINT_ARG_CODES {
        break;
      }
      var argSize := ArgCodeSize(argCode);
      if !reader.HasMoreData(argSize) {
        break;
      }
      var arg := reader.Consume(argSize);
      text := ReplaceStringInPlace(text, Placeholder(applied), render(argCode, arg.value));
      applied := applied + 1;
    }
  }

  /**
   * The record loop of `BeginRender`: while a header fits, it is read; a zero byte count, a
   * byte count that does not fit, an empty or unterminated format string, or more than 16
   * arguments ends all parsing; otherwise the arguments are substituted and the text is logged.
   * Each logged record took at least its header and one string byte, so the loop ends.
   */
  method ParseRecords(reader: DebugPrintReader, render: (nat, seq<u8>) -> seq<u8>) returns (log: seq<seq<u8>>)
    requires reader.Valid() && reader.currOffset == COUNT_SIZE
    modifies reader
    ensures reader.Valid() && COUNT_SIZE + |log| * (HEADER_SIZE + 1) <= reader.currOffset
    ensures COUNT_SIZE + |log| * (HEADER_SIZE + 1) <= SF12Math.Max(reader.totalNumBytes, COUNT_SIZE)
  {
    log := [];
    while reader.HasMoreData(HEADER_SIZE)
      invariant reader.Valid() && COUNT_SIZE + |log| * (HEADER_SIZE + 1) <= reader.currOffset
      decreases reader.totalNumBytes - reader.currOffset
    {
      var h := reader.Consume(HEADER_SIZE);
      var header := DebugPrintHeader(U32At(h.value, 0), U32At(h.value, 4), U32At(h.value, 8));
      if header.numBytes == 0 || !reader.HasMoreData(header.numBytes) {
        break;
      }
      var formatStr := reader.ConsumeString(header.stringSize);
      if |formatStr| == 0 {
        break;
      }
      if header.numArgs > MAX_DEBUG_PRINT_ARGS {
        break;
      }
      var text, _ := ApplyArgs(reader, formatStr, header.numArgs, render);
      log := log + [text];
    }
  }

  // ---------------------------------------------------------------------------------------
  // Readback slot

  /** The frame that last wrote readback slot `slot` (in `EndRender`) before frame `cpuFrame`. */
  function LastWriter(slot: nat, cpuFrame: nat): (r: nat)
    requires slot < DX12.RENDER_LATENCY && cpuFrame >= DX12.RENDER_LATENCY
  {
    cpuFrame - DX12.RENDER_LATENCY + DX12.Ahead(slot, cpuFrame)
  }

  lemma LastWriterIsLatest(slot: nat, cpuFrame: nat)
    requires slot < DX12.RENDER_LATENCY && cpuFrame >= DX12.RENDER_LATENCY
    ensures LastWriter(slot, cpuFrame) % DX12.RENDER_LATENCY == slot
    ensures cpuFrame - DX12.RENDER_LATENCY <= LastWriter(slot, cpuFrame) < cpuFrame
  {
  }

  /** `EndRender` copies the print buffer into the readback slot of the current CPU frame. */
  function WriteSlot(cpuFrame: nat): (r: nat)
    ensures r < DX12.RENDER_LATENCY
  {
    cpuFrame % DX12.RENDER_LATENCY
  }

  /**
   * The slot `BeginRender` parses as written: none before `RenderLatency` frames, then
   * `(CurrentCPUFrame + 1) % RenderLatency`.
   */
  function ReadSlotAsWritten(cpuFrame: nat): (r: Option<nat>)
    ensures r.Some? <==> cpuFrame >= DX12.RENDER_LATENCY
    ensures r.Some? ==> r.value < DX12.RENDER_LATENCY
  {
    if cpuFrame >= DX12.RENDER_LATENCY then Some((cpuFrame + 1) % DX12.RENDER_LATENCY) else None
  }

  /**
   * With the frame counters where `EndFrame` may leave them (CPU frame 2, GPU frame 1: frames
   * before 1 finished), the slot parsed as written was last written by frame 1, which the GPU
   * may not have finished: its copy into the readback buffer can still be under way.
   */
  lemma ReadSlotAsWrittenIsInFlight()
    ensures var cpuFrame, gpuFrame := 2, 1;
      gpuFrame <= cpuFrame < gpuFrame + DX12.RENDER_LATENCY &&
      ReadSlotAsWritten(cpuFrame) == Some(1) && LastWriter(1, cpuFrame) >= gpuFrame
  {
  }

  /**
   * The slot to parse: the current frame's, last written `RenderLatency` frames ago (and
   * overwritten only by this frame's `EndRender`, after the parse).
   */
  function ReadSlot(cpuFrame: nat): (r: Option<nat>)
    ensures r.Some? <==> cpuFrame >= DX12.RENDER_LATENCY
    ensures r.Some? ==> r.value == WriteSlot(cpuFrame)
  {
    if cpuFrame >= DX12.RENDER_LATENCY then Some(cpuFrame % DX12.RENDER_LATENCY) else None
  }

  /** Under the frame-counter invariant, the slot parsed holds a copy the GPU has finished. */
  lemma ReadSlotIsFinished(cpuFrame: nat, gpuFrame: nat)
    requires gpuFrame <= cpuFrame < gpuFrame + DX12.RENDER_LATENCY && cpuFrame >= DX12.RENDER_LATENCY
    ensures ReadSlot(cpuFrame).Some? && LastWriter(ReadSlot(cpuFrame).value, cpuFrame) < gpuFrame
  {
    assert DX12.Ahead(cpuFrame % DX12.RENDER_LATENCY, cpuFrame) == 0;
  }

  /**
   * The parsing part of `BeginRender`: from the readback slot chosen above, once there is one;
   * the readback buffers are the print buffer's size, so at least the leading count.
   */
  method BeginRender(cpuFrame: nat, readbacks: seq<seq<u8>>, render: (nat, seq<u8>) -> seq<u8>)
    returns (log: seq<seq<u8>>)
    requires |readbacks| == DX12.RENDER_LATENCY
    requires forall s :: 0 <= s < |readbacks| ==> COUNT_SIZE <= |readbacks[s]| < TWO_32
    ensures cpuFrame < DX12.RENDER_LATENCY ==> log == []
    ensures cpuFrame >= DX12.RENDER_LATENCY ==>
      COUNT_SIZE + |log| * (HEADER_SIZE + 1) <= |readbacks[WriteSlot(cpuFrame)]|
  {
    log := [];
    var slot := ReadSlot(cpuFrame);
    if slot.Some? {
      var data := readbacks[slot.value];
      var reader := new DebugPrintReader(data, |data|);
      log := ParseRecords(reader, render);
    }
  }
}
