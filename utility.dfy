/**
 * Helpers of SampleFramework12's utility header: AlignTo (32- and 64-bit), the delimiter
 * Split (both out-parameter overloads and both returning overloads) and GetIndex.
 */
module Utility {
  import opened Ints
  import opened Arith

  // ---------------------------------------------------------------------------------------
  // AlignTo

  /** `((num + alignment - 1) / alignment) * alignment` without any width limit. */
  function AlignUp(num: nat, alignment: nat): (r: nat)
    requires alignment > 0
    ensures r % alignment == 0
    ensures num <= r < num + alignment
  {
    var q := (num + alignment - 1) / alignment;
    MultipleOf(q, alignment);
    q * alignment
  }

  /** The 32-bit overload; num + alignment - 1 must not wrap. */
  function AlignTo32(num: u32, alignment: u32): (r: u32)
    requires alignment > 0
    requires num + alignment - 1 < TWO_32
    ensures r % alignment == 0
    ensures num <= r < num + alignment
  {
    AlignUp(num, alignment)
  }

  /** The 64-bit overload; num + alignment - 1 must not wrap. */
  function AlignTo64(num: u64, alignment: u64): (r: u64)
    requires alignment > 0
    requires num + alignment - 1 < TWO_64
    ensures r % alignment == 0
    ensures num <= r < num + alignment
  {
    AlignUp(num, alignment)
  }

  /** AlignTo returns the least multiple of the alignment that is at least num. */
  lemma AlignUpIsLeast(num: nat, alignment: nat, m: nat)
    requires alignment > 0
    requires m % alignment == 0 && m >= num
    ensures m >= AlignUp(num, alignment)
  {
    var r := AlignUp(num, alignment);
    if m < r {
      var qm, qr := m / alignment, r / alignment;
      assert m == qm * alignment;
      assert r == qr * alignment;
      assert qm < qr by {
        if qm >= qr {
          MulMonotone(qr, qm, alignment);
        }
      }
      MulMonotone(qm + 1, qr, alignment);
      assert false;
    }
  }

  /** Aligning an aligned value changes nothing; aligning to 1 is the identity. */
  lemma AlignUpIdempotent(num: nat, alignment: nat)
    requires alignment > 0
    ensures AlignUp(AlignUp(num, alignment), alignment) == AlignUp(num, alignment)
    ensures AlignUp(num, 1) == num
  {
    var r := AlignUp(num, alignment);
    var rr := AlignUp(r, alignment);
    AlignUpIsLeast(r, alignment, r);
  }

  // ---------------------------------------------------------------------------------------
  // Split

  /**
   * std::basic_string::find_first_of(delimiters, from): the first position at or after `from`
   * holding a delimiter. `npos` is represented by |s|, which no real position can equal.
   */
  function FindFirstOf<C(==)>(s: seq<C>, delimiters: seq<C>, from: nat): (r: nat)
    requires from <= |s|
    ensures from <= r <= |s|
    ensures forall k :: from <= k < r ==> s[k] !in delimiters
    ensures r < |s| ==> s[r] in delimiters
    decreases |s| - from
  {
    if from == |s| then |s|
    else if s[from] in delimiters then from
    else FindFirstOf(s, delimiters, from + 1)
  }

  /** find_first_not_of(delimiters, from), with npos represented by |s|. */
  function FindFirstNotOf<C(==)>(s: seq<C>, delimiters: seq<C>, from: nat): (r: nat)
    requires from <= |s|
    ensures from <= r <= |s|
    ensures forall k :: from <= k < r ==> s[k] in delimiters
    ensures r < |s| ==> s[r] !in delimiters
    decreases |s| - from
  {
    if from == |s| then |s|
    else if s[from] !in delimiters then from
    else FindFirstNotOf(s, delimiters, from + 1)
  }

  /**
   * The tokens of s[i..]: the maximal runs of non-delimiter characters, in order. A delimiter
   * is skipped; a non-delimiter starts a token that runs to the next delimiter or the end.
   */
  function Tokens<C(==)>(s: seq<C>, delimiters: seq<C>, i: nat): seq<seq<C>>
    requires i <= |s|
    decreases |s| - i
  {
    if i == |s| then []
    else if s[i] in delimiters then Tokens(s, delimiters, i + 1)
    else
      var e := FindFirstOf(s, delimiters, i);
      [s[i..e]] + Tokens(s, delimiters, e)
  }

  /** The characters of s that are not delimiters, in order. */
  function RemoveDelimiters<C(==)>(s: seq<C>, delimiters: seq<C>): (r: seq<C>)
    ensures forall c :: c in r ==> c !in delimiters
  {
    if s == [] then []
    else (if s[0] in delimiters then [] else [s[0]]) + RemoveDelimiters(s[1..], delimiters)
  }

  function Concat<C>(parts: seq<seq<C>>): seq<C>
  {
    if parts == [] then [] else parts[0] + Concat(parts[1..])
  }

  /** A run of delimiters contributes no token. */
  lemma {:induction false} SkipDelimiters<C>(s: seq<C>, delimiters: seq<C>, i: nat, j: nat)
    requires i <= j <= |s|
    requires forall k :: i <= k < j ==> s[k] in delimiters
    ensures Tokens(s, delimiters, i) == Tokens(s, delimiters, j)
    decreases j - i
  {
    if i < j {
      SkipDelimiters(s, delimiters, i + 1, j);
    }
  }

  /** Every token is non-empty and holds no delimiter. */
  lemma {:induction false} TokensWellFormed<C>(s: seq<C>, delimiters: seq<C>, i: nat)
    requires i <= |s|
    ensures forall t :: t in Tokens(s, delimiters, i) ==> |t| > 0 && forall c :: c in t ==> c !in delimiters
    decreases |s| - i
  {
    if i < |s| {
      if s[i] in delimiters {
        TokensWellFormed(s, delimiters, i + 1);
      } else {
        var e := FindFirstOf(s, delimiters, i);
        TokensWellFormed(s, delimiters, e);
        var t := s[i..e];
        forall c | c in t ensures c !in delimiters {
          var k :| 0 <= k < |t| && t[k] == c;
          assert s[i + k] == c;
        }
      }
    }
  }

  lemma {:induction false} RemoveDelimitersAppend<C>(a: seq<C>, b: seq<C>, delimiters: seq<C>)
    ensures RemoveDelimiters(a + b, delimiters) == RemoveDelimiters(a, delimiters) + RemoveDelimiters(b, delimiters)
  {
    if a == [] {
      assert a + b == b;
    } else {
      var head := if a[0] in delimiters then [] else [a[0]];
      assert (a + b)[0] == a[0];
      assert (a + b)[1..] == a[1..] + b;
      RemoveDelimitersAppend(a[1..], b, delimiters);
      calc {
        RemoveDelimiters(a + b, delimiters);
        head + RemoveDelimiters(a[1..] + b, delimiters);
        head + (RemoveDelimiters(a[1..], delimiters) + RemoveDelimiters(b, delimiters));
        (head + RemoveDelimiters(a[1..], delimiters)) + RemoveDelimiters(b, delimiters);
      }
    }
  }

  lemma {:induction false} RemoveDelimitersNone<C>(a: seq<C>, delimiters: seq<C>)
    requires forall k :: 0 <= k < |a| ==> a[k] !in delimiters
    ensures RemoveDelimiters(a, delimiters) == a
  {
    if a != [] {
      RemoveDelimitersNone(a[1..], delimiters);
    }
  }

  lemma {:induction false} RemoveDelimitersAll<C>(a: seq<C>, delimiters: seq<C>)
    requires forall k :: 0 <= k < |a| ==> a[k] in delimiters
    ensures RemoveDelimiters(a, delimiters) == []
  {
    if a != [] {
      RemoveDelimitersAll(a[1..], delimiters);
    }
  }

  /** Concatenating the tokens gives the input with every delimiter character removed. */
  lemma {:induction false} TokensConcat<C>(s: seq<C>, delimiters: seq<C>, i: nat)
    requires i <= |s|
    ensures Concat(Tokens(s, delimiters, i)) == RemoveDelimiters(s[i..], delimiters)
    decreases |s| - i
  {
    if i < |s| {
      var e := if s[i] in delimiters then i + 1 else FindFirstOf(s, delimiters, i);
      TokensConcat(s, delimiters, e);
      assert s[i..] == s[i..e] + s[e..];
      RemoveDelimitersAppend(s[i..e], s[e..], delimiters);
      if s[i] in delimiters {
        RemoveDelimitersAll(s[i..e], delimiters);
      } else {
        RemoveDelimitersNone(s[i..e], delimiters);
        var ts := Tokens(s, delimiters, i);
        assert ts[1..] == Tokens(s, delimiters, e);
      }
    }
  }

  /** The out-parameter Split: appends the tokens of str to parts, which it does not clear. */
  method Split<C(==)>(str: seq<C>, parts: seq<seq<C>>, delimiters: seq<C>) returns (out: seq<seq<C>>)
    ensures out == parts + Tokens(str, delimiters, 0)
  {
    out := parts;
    var lastPos := FindFirstNotOf(str, delimiters, 0);
    var pos := FindFirstOf(str, delimiters, lastPos);
    SkipDelimiters(str, delimiters, 0, lastPos);
    while pos != |str| || lastPos != |str|
      invariant lastPos <= pos <= |str|
      invariant pos == FindFirstOf(str, delimiters, lastPos)
      invariant lastPos < |str| ==> str[lastPos] !in delimiters
      invariant out + Tokens(str, delimiters, lastPos) == parts + Tokens(str, delimiters, 0)
      decreases |str| - lastPos
    {
      out := out + [str[lastPos..pos]];
      lastPos := FindFirstNotOf(str, delimiters, pos);
      SkipDelimiters(str, delimiters, pos, lastPos);
      pos := FindFirstOf(str, delimiters, lastPos);
    }
  }

  /** The returning Split: the tokens of str, starting from an empty list. */
  method SplitNew<C(==)>(str: seq<C>, delimiters: seq<C>) returns (parts: seq<seq<C>>)
    ensures parts == Tokens(str, delimiters, 0)
    ensures Concat(parts) == RemoveDelimiters(str, delimiters)
    ensures forall t :: t in parts ==> |t| > 0 && forall c :: c in t ==> c !in delimiters
    ensures str == [] ==> parts == []
  {
    parts := Split(str, [], delimiters);
    TokensConcat(str, delimiters, 0);
    TokensWellFormed(str, delimiters, 0);
  }

  // ---------------------------------------------------------------------------------------
  // GetIndex

  /** Byte offset one past entry idx of an index buffer whose entries are indexSize wide. */
  function IndexEnd(idx: nat, indexSize: nat): nat
  {
    if indexSize == 2 then 2 * idx + 2 else 4 * idx + 4
  }

  /** A 16-bit read when indexSize == 2, otherwise a 32-bit read (little-endian). */
  function GetIndex(indices: seq<u8>, idx: nat, indexSize: nat): (r: u32)
    requires IndexEnd(idx, indexSize) <= |indices|
    ensures indexSize == 2 ==> r < TWO_16
  {
    if indexSize == 2 then
      var b0: int, b1: int := indices[2 * idx], indices[2 * idx + 1];
      b0 + 256 * b1
    else
      var b0: int, b1: int := indices[4 * idx], indices[4 * idx + 1];
      var b2: int, b3: int := indices[4 * idx + 2], indices[4 * idx + 3];
      b0 + 256 * b1 + 65536 * b2 + 16777216 * b3
  }

  /** The little-endian byte image of a 16-bit index buffer. */
  function Bytes16(xs: seq<u16>): (r: seq<u8>)
    ensures |r| == 2 * |xs|
  {
    if xs == [] then [] else [xs[0] % 256, xs[0] / 256] + Bytes16(xs[1..])
  }

  /** The little-endian byte image of a 32-bit index buffer. */
  function Bytes32(xs: seq<u32>): (r: seq<u8>)
    ensures |r| == 4 * |xs|
  {
    if xs == [] then []
    else [xs[0] % 256, (xs[0] / 256) % 256, (xs[0] / 65536) % 256, xs[0] / 16777216] + Bytes32(xs[1..])
  }

  lemma {:induction false} Bytes16At(xs: seq<u16>, i: nat)
    requires i < |xs|
    ensures Bytes16(xs)[2 * i] == xs[i] % 256 && Bytes16(xs)[2 * i + 1] == xs[i] / 256
  {
    if i > 0 {
      Bytes16At(xs[1..], i - 1);
    }
  }

  lemma {:induction false} Bytes32At(xs: seq<u32>, i: nat)
    requires i < |xs|
    ensures Bytes32(xs)[4 * i] == xs[i] % 256
    ensures Bytes32(xs)[4 * i + 1] == (xs[i] / 256) % 256
    ensures Bytes32(xs)[4 * i + 2] == (xs[i] / 65536) % 256
    ensures Bytes32(xs)[4 * i + 3] == xs[i] / 16777216
  {
    if i > 0 {
      Bytes32At(xs[1..], i - 1);
    }
  }

  /** GetIndex reads back entry i of a 16-bit index buffer. */
  lemma GetIndexRoundTrip16(xs: seq<u16>, i: nat)
    requires i < |xs|
    ensures GetIndex(Bytes16(xs), i, 2) == xs[i]
  {
    Bytes16At(xs, i);
  }

  /** GetIndex reads back entry i of a 32-bit index buffer (any indexSize other than 2). */
  lemma GetIndexRoundTrip32(xs: seq<u32>, i: nat, indexSize: nat)
    requires i < |xs| && indexSize != 2
    ensures GetIndex(Bytes32(xs), i, indexSize) == xs[i]
  {
    Bytes32At(xs, i);
    LittleEndian32(xs[i]);
  }

  lemma LittleEndian32(x: u32)
    ensures x == x % 256 + 256 * ((x / 256) % 256) + 65536 * ((x / 65536) % 256) + 16777216 * (x / 16777216)
  {
    var b0, r0 := x % 256, x / 256;
    var b1, r1 := r0 % 256, r0 / 256;
    var b2, b3 := r1 % 256, r1 / 256;
    assert x == b0 + 256 * r0;
    assert r0 == b1 + 256 * r1;
    assert r1 == b2 + 256 * b3;
    assert r1 == x / 65536;
    assert b3 == x / 16777216;
  }
}
