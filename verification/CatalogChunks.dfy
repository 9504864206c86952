/**
 * A serialized catalog is stored in chunks of bounded size. Cutting never splits a
 * character, so every chunk decodes on its own and together they are the value again.
 */
module CatalogChunks {
  const MaxCatalogBytes: nat := 32 * 1024 * 1024
  const MaxChunkBytes: nat := 1024 * 1024

  /** What the reader's manifest check accepts: one more than the value needs when cut exactly. */
  const MaxChunkCount: nat := (MaxCatalogBytes + MaxChunkBytes - 1) / MaxChunkBytes + 1

  newtype Byte = x: int | 0 <= x < 256

  /** `(b & 192) === 128` */
  predicate Continuation(b: Byte) { 0x80 <= b < 0xC0 }

  /** Bytes of the well-formed character at the front, by the table in section 4 of RFC 3629; 0 if there is none. */
  function CharBytes(b: seq<Byte>): (n: nat)
    ensures n <= |b| && n <= 4
    ensures n > 0 ==> !Continuation(b[0]) && forall i :: 0 < i < n ==> Continuation(b[i])
  {
    if b == [] then 0
    else if b[0] < 0x80 then 1
    else if 0xC2 <= b[0] <= 0xDF && |b| >= 2 && Continuation(b[1]) then 2
    else if |b| >= 3 && Second3(b[0], b[1]) && Continuation(b[2]) then 3
    else if |b| >= 4 && Second4(b[0], b[1]) && Continuation(b[2]) && Continuation(b[3]) then 4
    else 0
  }

  predicate Second3(lead: Byte, b: Byte) {
    || (lead == 0xE0 && 0xA0 <= b <= 0xBF)
    || ((0xE1 <= lead <= 0xEC || 0xEE <= lead <= 0xEF) && Continuation(b))
    || (lead == 0xED && 0x80 <= b <= 0x9F)
  }

  predicate Second4(lead: Byte, b: Byte) {
    || (lead == 0xF0 && 0x90 <= b <= 0xBF)
    || (0xF1 <= lead <= 0xF3 && Continuation(b))
    || (lead == 0xF4 && 0x80 <= b <= 0x8F)
  }

  /** The bytes are a sequence of well-formed characters. */
  predicate Utf8(b: seq<Byte>) {
    b == [] || (CharBytes(b) > 0 && Utf8(b[CharBytes(b)..]))
  }

  function Concat(chunks: seq<seq<Byte>>): seq<Byte> {
    if chunks == [] then [] else Concat(chunks[..|chunks| - 1]) + chunks[|chunks| - 1]
  }

  /** Looking at more bytes does not change the character at the front. */
  lemma CharBytesPrefix(b: seq<Byte>, k: nat)
    requires CharBytes(b) <= k <= |b| && CharBytes(b) > 0
    ensures CharBytes(b[..k]) == CharBytes(b)
  {
  }

  lemma Slices(b: seq<Byte>, n: nat, k: nat)
    requires n <= k <= |b|
    ensures b[..k][n..] == b[n..][..k - n] && b[n..][k - n..] == b[k..]
  {
  }

  /** Valid text may be cut before any byte that starts a character. */
  lemma {:induction false} CutAtBoundary(b: seq<Byte>, k: nat)
    requires Utf8(b) && k <= |b| && (k < |b| ==> !Continuation(b[k]))
    ensures Utf8(b[..k]) && Utf8(b[k..])
    decreases |b|
  {
    if k == 0 {
      assert b[0..] == b;
    } else {
      var n := CharBytes(b);
      CutAtBoundary(b[n..], k - n);
      CharBytesPrefix(b, k);
      Slices(b, n, k);
    }
  }

  /** At most three bytes in a row continue a character. */
  lemma {:induction false} BoundaryNear(b: seq<Byte>, k: nat) returns (j: nat)
    requires Utf8(b) && 0 < k < |b|
    ensures j <= k <= j + 3 && !Continuation(b[j])
    decreases |b|
  {
    var n := CharBytes(b);
    if k < n {
      j := 0;
    } else if k == n {
      assert b[n..] != [] && !Continuation(b[n..][0]);
      j := n;
    } else {
      j := BoundaryNear(b[n..], k - n);
      j := j + n;
    }
  }

  /** The last character boundary at or before `end`. */
  method Boundary(bytes: seq<Byte>, offset: nat, limit: nat) returns (end: nat)
    requires offset + 4 <= limit <= |bytes| && Utf8(bytes[offset..])
    ensures limit - 3 <= end <= limit && (end < |bytes| ==> !Continuation(bytes[end]))
  {
    end := limit;
    ghost var j := limit - offset;
    if limit < |bytes| { j := BoundaryNear(bytes[offset..], limit - offset); }
    while end < |bytes| && Continuation(bytes[end])
      invariant offset + j <= end <= limit
      invariant j <= limit - offset <= j + 3
      invariant limit < |bytes| ==> !Continuation(bytes[offset + j])
      invariant limit == |bytes| ==> end == limit
      decreases end
    {
      end := end - 1;
    }
  }

  /** Every chunk but the last is within three bytes of the limit. */
  predicate Paced(count: nat, offset: nat, total: nat) {
    && offset <= total && (count == 0 <==> offset == 0)
    && (if offset < total then count * 1048573 <= offset else count == 0 || (count - 1) * 1048573 < total)
  }

  lemma PacedOn(count: nat, offset: nat, end: nat, total: nat)
    requires Paced(count, offset, total) && offset < end <= total && (end < total ==> offset + 1048573 <= end)
    ensures Paced(count + 1, end, total)
  {
  }

  lemma PacedBound(count: nat, total: nat)
    requires Paced(count, total, total) && total <= MaxCatalogBytes
    ensures count <= MaxChunkCount
  {
  }

  lemma ConcatMore(chunks: seq<seq<Byte>>, chunk: seq<Byte>)
    ensures Concat(chunks + [chunk]) == Concat(chunks) + chunk
  {
    assert (chunks + [chunk])[..|chunks|] == chunks;
  }

  lemma Adjacent(bytes: seq<Byte>, offset: nat, end: nat)
    requires offset <= end <= |bytes|
    ensures bytes[..offset] + bytes[offset..end] == bytes[..end]
  {
  }

  /** Where the chunk that starts at `offset` ends. */
  method NextCut(bytes: seq<Byte>, offset: nat) returns (end: nat)
    requires offset < |bytes| && Utf8(bytes[offset..])
    ensures offset < end <= |bytes| && end - offset <= MaxChunkBytes
    ensures end < |bytes| ==> offset + 1048573 <= end
    ensures Utf8(bytes[offset..end]) && Utf8(bytes[end..])
  {
    end := if offset + MaxChunkBytes < |bytes| then offset + MaxChunkBytes else |bytes|;
    if end < |bytes| { end := Boundary(bytes, offset, end); }
    ghost var rest := bytes[offset..];
    CutAtBoundary(rest, end - offset);
    assert rest[..end - offset] == bytes[offset..end] && rest[end - offset..] == bytes[end..];
  }

  /** Each chunk is valid text of at most the chunk limit and not empty. */
  predicate Sound(chunks: seq<seq<Byte>>) {
    forall i :: 0 <= i < |chunks| ==> 0 < |chunks[i]| <= MaxChunkBytes && Utf8(chunks[i])
  }

  /** The chunks are the value up to `offset`, and what is left is valid text too. */
  predicate CutTo(bytes: seq<Byte>, chunks: seq<seq<Byte>>, offset: nat) {
    && offset <= |bytes| && Paced(|chunks|, offset, |bytes|) && Sound(chunks)
    && Concat(chunks) == bytes[..offset] && Utf8(bytes[offset..])
  }

  lemma SoundMore(chunks: seq<seq<Byte>>, chunk: seq<Byte>)
    requires Sound(chunks) && 0 < |chunk| <= MaxChunkBytes && Utf8(chunk)
    ensures Sound(chunks + [chunk])
  {
  }

  lemma CutMore(bytes: seq<Byte>, chunks: seq<seq<Byte>>, offset: nat, end: nat)
    requires CutTo(bytes, chunks, offset) && offset < end <= |bytes| && end - offset <= MaxChunkBytes
    requires end < |bytes| ==> offset + 1048573 <= end
    requires Utf8(bytes[offset..end]) && Utf8(bytes[end..])
    ensures CutTo(bytes, chunks + [bytes[offset..end]], end)
  {
    SoundMore(chunks, bytes[offset..end]);
    ConcatMore(chunks, bytes[offset..end]);
    PacedOn(|chunks|, offset, end, |bytes|);
    Adjacent(bytes, offset, end);
  }

  /**
   * Cut a value into chunks: each is valid text of at most the chunk limit and not empty, together they
   * are the value, and there are never more than the reader accepts.
   */
  method Split(bytes: seq<Byte>) returns (chunks: seq<seq<Byte>>)
    requires Utf8(bytes) && |bytes| <= MaxCatalogBytes
    ensures Concat(chunks) == bytes
    ensures forall i :: 0 <= i < |chunks| ==> 0 < |chunks[i]| <= MaxChunkBytes && Utf8(chunks[i])
    ensures |chunks| <= MaxChunkCount && (|chunks| == 0 <==> bytes == [])
  {
    chunks := [];
    var offset := 0;
    assert bytes[0..] == bytes;
    while offset < |bytes|
      invariant CutTo(bytes, chunks, offset)
      decreases |bytes| - offset
    {
      var end := NextCut(bytes, offset);
      CutMore(bytes, chunks, offset, end);
      chunks, offset := chunks + [bytes[offset..end]], end;
    }
    PacedBound(|chunks|, |bytes|);
    assert bytes[..offset] == bytes;
  }
}
