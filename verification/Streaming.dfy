/** Chunked decoding of one leaf part, and its digest under a hard byte cap. */
module Streaming {
  import opened Models
  import opened Whitespace
  import opened Base64

  /** A leaf part's payload by its transfer encoding; the decodings of quoted-printable and
      of identity encodings are given.  `NotText` and `NotBytes` are what the mail parser
      may hand over instead of a text payload or of decoded bytes. */
  datatype Payload =
    | Base64Text(raw: string)
    | QuotedPrintable(decoded: Bytes)
    | Plain(bytes: Bytes)
    | NotText
    | NotBytes

  /** What the base64 decoder makes of a slice that is not well-formed. */
  type Lenient = string -> Answer<Bytes>

  /** The chunks yielded, and whether the stream then failed. */
  datatype Chunks = Chunks(chunks: seq<Bytes>, failed: bool)

  type positive = n: int | 0 < n witness 1

  /** A whole number of quanta whose decoding is just over the chunk size. */
  function Step(chunkSize: positive): (step: positive)
    ensures step % 4 == 0 && chunkSize < step / 4 * 3 <= chunkSize + 3
  {
    (chunkSize / 3 + 1) * 4
  }

  function Head<T>(s: seq<T>, n: positive): seq<T> {
    if n < |s| then s[..n] else s
  }

  function Tail<T>(s: seq<T>, n: positive): (rest: seq<T>)
    ensures s == Head(s, n) + rest
    ensures s != [] ==> |rest| < |s|
  {
    if n < |s| then s[n..] else []
  }

  function DecodeSlice(slice: string, lenient: Lenient): Answer<Bytes> {
    if WellFormed(slice) then Ok(Decode(slice)) else lenient(slice)
  }

  function DecodedSlices(text: string, step: positive, lenient: Lenient): Chunks
    decreases |text|
  {
    if text == "" then Chunks([], false)
    else
      var slice := DecodeSlice(Head(text, step), lenient);
      if slice.Raise? then Chunks([], true)
      else
        var rest := DecodedSlices(Tail(text, step), step, lenient);
        rest.(chunks := [slice.value] + rest.chunks)
  }

  function Slices(bytes: Bytes, chunkSize: positive): seq<Bytes>
    decreases |bytes|
  {
    if bytes == [] then [] else [Head(bytes, chunkSize)] + Slices(Tail(bytes, chunkSize), chunkSize)
  }

  function Decoded(part: Payload, chunkSize: positive, lenient: Lenient): Chunks {
    match part
    case Base64Text(raw) => DecodedSlices(Squeeze(raw), Step(chunkSize), lenient)
    case QuotedPrintable(decoded) => Chunks([decoded], false)
    case Plain(bytes) => Chunks(Slices(bytes, chunkSize), false)
    case NotText => Chunks([], true)
    case NotBytes => Chunks([], true)
  }

  function Flatten(chunks: seq<Bytes>): Bytes {
    if chunks == [] then [] else chunks[0] + Flatten(chunks[1..])
  }

  /** The whole stream is these chunks, then what is left. */
  predicate Yields(whole: Chunks, chunks: seq<Bytes>, left: Chunks) {
    whole.failed == left.failed && whole.chunks == chunks + left.chunks
  }

  lemma SliceStep(data: string, step: positive, lenient: Lenient, i: nat, end: nat, chunks: seq<Bytes>, whole: Chunks)
    requires i < |data| && end == (if i + step < |data| then i + step else |data|)
    requires Yields(whole, chunks, DecodedSlices(data[i..], step, lenient))
    ensures var slice := DecodeSlice(data[i..end], lenient);
            if slice.Raise? then whole == Chunks(chunks, true)
            else Yields(whole, chunks + [slice.value], DecodedSlices(data[end..], step, lenient))
  {
    assert Head(data[i..], step) == data[i..end] && Tail(data[i..], step) == data[end..];
    var slice := DecodeSlice(data[i..end], lenient);
    if slice.Ok? {
      var rest := DecodedSlices(data[end..], step, lenient).chunks;
      assert chunks + ([slice.value] + rest) == chunks + [slice.value] + rest;
    } else {
      assert chunks + [] == chunks;
    }
  }

  method IterBase64(data: string, step: positive, lenient: Lenient) returns (out: Chunks)
    ensures out == DecodedSlices(data, step, lenient)
  {
    ghost var whole := DecodedSlices(data, step, lenient);
    var chunks, i := [], 0;
    assert data[0..] == data && [] + whole.chunks == whole.chunks;
    while i < |data|
      invariant 0 <= i
      invariant var left := DecodedSlices(if i < |data| then data[i..] else "", step, lenient);
                Yields(whole, chunks, left)
      decreases |data| - i
    {
      var end := if i + step < |data| then i + step else |data|;
      SliceStep(data, step, lenient, i, end, chunks, whole);
      var slice := DecodeSlice(data[i..end], lenient);
      if slice.Raise? {
        return Chunks(chunks, true);
      }
      chunks := chunks + [slice.value];
      i := i + step;
      assert data[end..] == if i < |data| then data[i..] else "";
    }
    out := Chunks(chunks, false);
    assert chunks + [] == chunks;
  }

  method IterPlain(bytes: Bytes, chunkSize: positive) returns (chunks: seq<Bytes>)
    ensures chunks == Slices(bytes, chunkSize)
  {
    var i := 0;
    chunks := [];
    assert bytes[0..] == bytes;
    while i < |bytes|
      invariant 0 <= i
      invariant Slices(bytes, chunkSize) == chunks + Slices(if i < |bytes| then bytes[i..] else [], chunkSize)
      decreases |bytes| - i
    {
      var end := if i + chunkSize < |bytes| then i + chunkSize else |bytes|;
      assert Head(bytes[i..], chunkSize) == bytes[i..end] && Tail(bytes[i..], chunkSize) == bytes[end..];
      chunks := chunks + [bytes[i..end]];
      i := i + chunkSize;
    }
  }

  method IterDecoded(part: Payload, chunkSize: positive, lenient: Lenient) returns (out: Chunks)
    ensures out == Decoded(part, chunkSize, lenient)
  {
    match part {
      case NotText => out := Chunks([], true);
      case NotBytes => out := Chunks([], true);
      case QuotedPrintable(decoded) => out := Chunks([decoded], false);
      case Base64Text(raw) => out := IterBase64(Squeeze(raw), Step(chunkSize), lenient);
      case Plain(bytes) =>
        var slices := IterPlain(bytes, chunkSize);
        out := Chunks(slices, false);
    }
  }

  // ---- Chunks against the whole ----

  /** Every chunk is non-empty and at most `limit` bytes. */
  predicate Bounded(chunks: seq<Bytes>, limit: nat) {
    forall i | 0 <= i < |chunks| :: 0 < |chunks[i]| <= limit
  }

  lemma {:induction false} SlicesAreTheWhole(text: string, step: positive, lenient: Lenient)
    requires WellFormed(text) && step % 4 == 0
    ensures var out := DecodedSlices(text, step, lenient);
            !out.failed && Flatten(out.chunks) == Decode(text) && Bounded(out.chunks, step / 4 * 3)
    decreases |text|
  {
    if text != "" {
      var head, tail := Head(text, step), Tail(text, step);
      DecodedLength(text);
      DecodeSplits(text, if step < |text| then step else |text|);
      DecodedLength(head);
      SlicesAreTheWhole(tail, step, lenient);
      var rest := DecodedSlices(tail, step, lenient);
      var chunks := [Decode(head)] + rest.chunks;
      assert chunks[1..] == rest.chunks;
      assert |head| / 4 <= step / 4;
      assert forall i | 1 <= i < |chunks| :: chunks[i] == rest.chunks[i - 1];
    }
  }

  lemma {:induction false} PlainSlicesAreTheWhole(bytes: Bytes, chunkSize: positive)
    ensures Flatten(Slices(bytes, chunkSize)) == bytes && Bounded(Slices(bytes, chunkSize), chunkSize)
    decreases |bytes|
  {
    if bytes != [] {
      PlainSlicesAreTheWhole(Tail(bytes, chunkSize), chunkSize);
      assert Slices(bytes, chunkSize)[1..] == Slices(Tail(bytes, chunkSize), chunkSize);
    }
  }

  /** Chunked base64 is whole base64: for every well-formed payload, however whitespace is
      folded into it and whatever the chunk size, the chunks in a row are the decoding of
      the whole, and none is longer than the chunk size plus three. */
  lemma ChunkedIsWhole(payload: string, raw: string, chunkSize: positive, lenient: Lenient)
    requires WellFormed(payload) && Folding(raw, payload)
    ensures var out := Decoded(Base64Text(raw), chunkSize, lenient);
            !out.failed && Flatten(out.chunks) == Decode(payload) && Bounded(out.chunks, chunkSize + 3)
  {
    SqueezeUndoesFolding(raw, payload);
    SlicesAreTheWhole(payload, Step(chunkSize), lenient);
  }

  function Drop(text: string, n: nat): string {
    if n < |text| then text[n..] else ""
  }

  /** The k-th slice of a text. */
  function Slice(text: string, step: positive, k: nat): string {
    Head(Drop(text, k * step), step)
  }

  /** A slice is decoded if it is well-formed, and else given to the lenient decoder. */
  predicate IsDecoded(slice: string, lenient: Lenient, answer: Answer<Bytes>) {
    if WellFormed(slice) then answer == Ok(Decode(slice)) else answer == lenient(slice)
  }

  lemma SliceOfTail(text: string, step: positive, k: nat)
    requires text != "" && k > 0
    ensures Slice(Tail(text, step), step, k - 1) == Slice(text, step, k)
    ensures (k - 1) * step < |Tail(text, step)| <==> k * step < |text|
  {
    assert k * step == (k - 1) * step + step;
    assert Drop(Tail(text, step), (k - 1) * step) == Drop(text, k * step);
  }

  /** The chunks are the slices decoded, to the end or to the first slice that is refused. */
  ghost predicate SlicesSay(text: string, step: positive, lenient: Lenient, out: Chunks) {
    var n := |out.chunks|;
    && (forall k | 0 <= k < n :: IsDecoded(Slice(text, step, k), lenient, Ok(out.chunks[k])))
    && (if out.failed
        then Slice(text, step, n) != "" && exists failure :: IsDecoded(Slice(text, step, n), lenient, Raise(failure))
        else Slice(text, step, n) == "")
  }

  lemma SlicesGrow(text: string, step: positive, lenient: Lenient, first: Bytes, rest: Chunks)
    requires text != "" && IsDecoded(Head(text, step), lenient, Ok(first))
    requires SlicesSay(Tail(text, step), step, lenient, rest)
    ensures SlicesSay(text, step, lenient, Chunks([first] + rest.chunks, rest.failed))
  {
    var chunks := [first] + rest.chunks;
    assert Slice(text, step, 0) == Head(text, step);
    SliceOfTail(text, step, |chunks|);
    forall k | 0 <= k < |chunks| ensures IsDecoded(Slice(text, step, k), lenient, Ok(chunks[k])) {
      if k > 0 {
        SliceOfTail(text, step, k);
        assert IsDecoded(Slice(Tail(text, step), step, k - 1), lenient, Ok(rest.chunks[k - 1]));
      }
    }
  }

  lemma NoSlice(text: string, step: positive, lenient: Lenient)
    requires text == "" || DecodeSlice(Head(text, step), lenient).Raise?
    ensures SlicesSay(text, step, lenient, Chunks([], text != ""))
  {
    assert Slice(text, step, 0) == Head(text, step);
    var answer := DecodeSlice(Head(text, step), lenient);
    if text != "" {
      assert IsDecoded(Slice(text, step, 0), lenient, Raise(answer.failure));
    }
  }

  /** Any text, well-formed or not, is decoded slice by slice, to the end or to the first slice
      that the lenient decoder refuses. */
  lemma {:induction false} DecodedSliceBySlice(text: string, step: positive, lenient: Lenient)
    ensures SlicesSay(text, step, lenient, DecodedSlices(text, step, lenient))
    decreases |text|
  {
    if text == "" || DecodeSlice(Head(text, step), lenient).Raise? {
      NoSlice(text, step, lenient);
    } else {
      var rest := DecodedSlices(Tail(text, step), step, lenient);
      DecodedSliceBySlice(Tail(text, step), step, lenient);
      SlicesGrow(text, step, lenient, DecodeSlice(Head(text, step), lenient).value, rest);
    }
  }

  // ---- The digest ----

  datatype Digest = Digest(hash: string, size: nat) | TooLarge(seen: nat) | Unreadable

  /** A digest of `total` bytes so far, given the chunks that follow. */
  function Digested(chunks: seq<Bytes>, failed: bool, cap: nat, hash: Bytes -> string, seen: Bytes): Digest
    decreases |chunks|
  {
    if chunks == [] then
      if failed then Unreadable else if seen == [] then Digest("", 0) else Digest(hash(seen), |seen|)
    else if cap < |seen| + |chunks[0]| then TooLarge(|seen| + |chunks[0]|)
    else Digested(chunks[1..], failed, cap, hash, seen + chunks[0])
  }

  function DigestOf(part: Payload, cap: nat, chunkSize: positive, hash: Bytes -> string, lenient: Lenient): Digest {
    var out := Decoded(part, chunkSize, lenient);
    Digested(out.chunks, out.failed, cap, hash, [])
  }

  lemma DigestStep(chunks: seq<Bytes>, i: nat, failed: bool, cap: nat, hash: Bytes -> string, hashed: Bytes)
    requires i < |chunks|
    ensures hashed + Flatten(chunks[i..]) == hashed + chunks[i] + Flatten(chunks[i + 1..])
    ensures Digested(chunks[i..], failed, cap, hash, hashed)
         == if cap < |hashed| + |chunks[i]| then TooLarge(|hashed| + |chunks[i]|)
            else Digested(chunks[i + 1..], failed, cap, hash, hashed + chunks[i])
  {
    assert chunks[i..][0] == chunks[i] && chunks[i..][1..] == chunks[i + 1..];
  }

  /** `hashed` is everything the hasher was fed: never more than the cap. */
  method DigestAndSize(part: Payload, cap: nat, chunkSize: positive, hash: Bytes -> string, lenient: Lenient)
    returns (digest: Digest, hashed: Bytes)
    ensures digest == DigestOf(part, cap, chunkSize, hash, lenient)
    ensures |hashed| <= cap
    ensures hashed <= Flatten(Decoded(part, chunkSize, lenient).chunks)
    ensures digest.Digest? ==> hashed == Flatten(Decoded(part, chunkSize, lenient).chunks)
  {
    var out := IterDecoded(part, chunkSize, lenient);
    var total, i := 0, 0;
    hashed := [];
    assert out.chunks[0..] == out.chunks;
    while i < |out.chunks|
      invariant 0 <= i <= |out.chunks|
      invariant total == |hashed| <= cap
      invariant Flatten(out.chunks) == hashed + Flatten(out.chunks[i..])
      invariant DigestOf(part, cap, chunkSize, hash, lenient)
          == Digested(out.chunks[i..], out.failed, cap, hash, hashed)
    {
      DigestStep(out.chunks, i, out.failed, cap, hash, hashed);
      total := total + |out.chunks[i]|;
      if cap < total {
        return TooLarge(total), hashed;
      }
      hashed := hashed + out.chunks[i];
      i := i + 1;
    }
    digest := if out.failed then Unreadable else if total == 0 then Digest("", 0) else Digest(hash(hashed), total);
  }

  /** The decoded content of a part that decodes. */
  function Content(part: Payload): Option<Bytes> {
    match part
    case Base64Text(raw) => if WellFormed(Squeeze(raw)) then Some(Decode(Squeeze(raw))) else None
    case QuotedPrintable(decoded) => Some(decoded)
    case Plain(bytes) => Some(bytes)
    case NotText => None
    case NotBytes => None
  }

  lemma {:induction false} DecodableIsDecoded(part: Payload, chunkSize: positive, lenient: Lenient)
    requires Content(part).Some?
    ensures var out := Decoded(part, chunkSize, lenient);
            !out.failed && Flatten(out.chunks) == Content(part).value
            && (!part.QuotedPrintable? ==> Bounded(out.chunks, chunkSize + 3))
  {
    match part {
      case Base64Text(raw) => SlicesAreTheWhole(Squeeze(raw), Step(chunkSize), lenient);
      case QuotedPrintable(decoded) =>
        assert [decoded][1..] == [];
        assert Flatten([decoded]) == decoded + [];
      case Plain(bytes) => PlainSlicesAreTheWhole(bytes, chunkSize);
    }
  }

  lemma {:induction false} DigestIsOfTheWhole(chunks: seq<Bytes>, cap: nat, hash: Bytes -> string, seen: Bytes)
    requires |seen| <= cap
    ensures var whole, digest := seen + Flatten(chunks), Digested(chunks, false, cap, hash, seen);
            && (digest.TooLarge? <==> cap < |whole|)
            && (!digest.TooLarge? ==> digest == if whole == [] then Digest("", 0) else Digest(hash(whole), |whole|))
    decreases |chunks|
  {
    if chunks == [] {
      assert seen + [] == seen;
    } else if |seen| + |chunks[0]| <= cap {
      DigestIsOfTheWhole(chunks[1..], cap, hash, seen + chunks[0]);
      assert seen + Flatten(chunks) == seen + chunks[0] + Flatten(chunks[1..]);
    }
  }

  lemma {:induction false} SeenIsBarelyOver(chunks: seq<Bytes>, failed: bool, cap: nat, hash: Bytes -> string,
                                            seen: Bytes, limit: nat)
    requires |seen| <= cap && Bounded(chunks, limit)
    ensures var digest := Digested(chunks, failed, cap, hash, seen);
            digest.TooLarge? ==> cap < digest.seen <= cap + limit
    decreases |chunks|
  {
    if chunks != [] && |seen| + |chunks[0]| <= cap {
      SeenIsBarelyOver(chunks[1..], failed, cap, hash, seen + chunks[0], limit);
    }
  }

  /** The cap is exact: for every part that decodes and every chunk size, the digest is
      refused if and only if the content is longer than the cap; otherwise it is the hash and
      length of the whole content, or nothing and zero for none.  A refusal comes within one
      chunk of the cap, unless the encoding is decoded in one piece. */
  lemma CapIsExact(part: Payload, cap: nat, chunkSize: positive, hash: Bytes -> string, lenient: Lenient)
    requires Content(part).Some?
    ensures var content, digest := Content(part).value, DigestOf(part, cap, chunkSize, hash, lenient);
            && (digest.TooLarge? <==> cap < |content|)
            && (!digest.TooLarge? ==> digest == if content == [] then Digest("", 0)
                else Digest(hash(content), |content|))
            && (digest.TooLarge? && !part.QuotedPrintable? ==> digest.seen <= cap + chunkSize + 3)
  {
    var out := Decoded(part, chunkSize, lenient);
    DecodableIsDecoded(part, chunkSize, lenient);
    DigestIsOfTheWhole(out.chunks, cap, hash, []);
    assert [] + Flatten(out.chunks) == Content(part).value;
    if !part.QuotedPrintable? {
      SeenIsBarelyOver(out.chunks, out.failed, cap, hash, [], chunkSize + 3);
    }
  }
}
