/**
 * The JSON frames exchanged over the socket, already decoded, and the
 * recorded audio that the client sends.
 */
module Wire {

  /** One element of a `Uint8Array`. */
  newtype Byte = b: int | 0 <= b < 256

  /** One recorded `Blob` handed over by `ondataavailable`, as its bytes. */
  type Chunk = seq<Byte>

  /**
   * An inbound message after `JSON.parse`. `AudioUnreadable` is an
   * `audio_response` whose `audio` field makes `new Uint8Array(...)` throw
   * (a negative length, say). `Other` is any frame whose `type` is neither
   * `audio_response` nor `transcript`. `Malformed` is a message on which
   * parsing or the `data.type` read throws.
   */
  datatype Inbound =
    | Transcript(speaker: string, text: string)
    | AudioResponse(audio: seq<Byte>)
    | AudioUnreadable
    | Other
    | Malformed

  /** The only frame the client sends: `{type: "audio_input", audio: [...]}`. */
  datatype Outbound = AudioInput(audio: seq<Byte>)

  /**
   * The bytes of `new Blob(chunks)`: the chunks joined in order.
   */
  function Concat(chunks: seq<Chunk>): (r: seq<Byte>)
    ensures chunks == [] ==> r == []
    ensures |chunks| == 1 ==> r == chunks[0]
  {
    if chunks == [] then [] else chunks[0] + Concat(chunks[1..])
  }

  /** Total number of bytes in a list of chunks. */
  function TotalSize(chunks: seq<Chunk>): nat
  {
    if chunks == [] then 0 else |chunks[0]| + TotalSize(chunks[1..])
  }

  /** Joining loses and adds no byte. */
  lemma {:induction false} ConcatSize(chunks: seq<Chunk>)
    ensures |Concat(chunks)| == TotalSize(chunks)
  {
    if chunks != [] {
      ConcatSize(chunks[1..]);
    }
  }

  /** Appending a chunk to the buffer appends its bytes to the payload. */
  lemma {:induction false} ConcatAppend(chunks: seq<Chunk>, c: Chunk)
    ensures Concat(chunks + [c]) == Concat(chunks) + c
  {
    if chunks == [] {
      assert chunks + [c] == [c];
    } else {
      assert (chunks + [c])[1..] == chunks[1..] + [c];
      ConcatAppend(chunks[1..], c);
    }
  }

  /** Every chunk in the list has at least one byte. */
  predicate AllNonEmpty(chunks: seq<Chunk>)
  {
    forall i :: 0 <= i < |chunks| ==> |chunks[i]| > 0
  }

  /**
   * With only non-empty chunks buffered, the payload is empty exactly when
   * nothing was captured.
   */
  lemma {:induction false} ConcatEmptyIff(chunks: seq<Chunk>)
    requires AllNonEmpty(chunks)
    ensures Concat(chunks) == [] <==> chunks == []
  {
    if chunks != [] {
      assert |chunks[0]| > 0;
      assert |Concat(chunks)| >= |chunks[0]|;
    }
  }
}
