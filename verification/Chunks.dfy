// Splitting payloads into sealed chunks and joining them again, over a cipher whose nonce is a counter
// kept by each side (sections 3 and 5.1 of the Noise Protocol Framework, revision 34).
module Chunks {
  import opened Basics
  import opened Wire
  import opened WireTheorems

  const TAGLEN := 16
  const MAX_MESSAGE := 65535
  const CHUNK_SIZE := MAX_MESSAGE - TAGLEN

  /** The last value of the 64-bit nonce is reserved: a state that reached it refuses to work. */
  const MAX_NONCE := 0xFFFF_FFFF_FFFF_FFFF

  type Nonce = n: nat | n <= MAX_NONCE

  type Secret = seq<Byte>

  /** An authenticated cipher: seal and open under a key and a nonce. */
  datatype Aead = Aead(seal: (Secret, nat, Bytes) -> Bytes, open: (Secret, nat, Bytes) -> Option<Bytes>)
  {
    ghost predicate Lawful() {
      && (forall key, nonce, p :: Opens(key, nonce, p))
      && (forall key, nonce, c :: Expands(key, nonce, c))
    }

    ghost predicate Opens(key: Secret, nonce: nat, p: Bytes) {
      open(key, nonce, seal(key, nonce, p)) == Some(p)
    }

    /** What opens is a plain text behind a tag. */
    ghost predicate Expands(key: Secret, nonce: nat, c: Bytes) {
      open(key, nonce, c).Some? ==> |c| == |open(key, nonce, c).value| + TAGLEN
    }
  }

  lemma SealAdds(aead: Aead, key: Secret, nonce: nat, p: Bytes)
    requires aead.Lawful()
    ensures aead.open(key, nonce, aead.seal(key, nonce, p)) == Some(p)
    ensures |aead.seal(key, nonce, p)| == |p| + TAGLEN
  {
    assert aead.Opens(key, nonce, p);
    assert aead.Expands(key, nonce, aead.seal(key, nonce, p));
  }

  // ---------------------------------------------------------------------------
  // Splitting.

  function PieceSize(n: nat): nat {
    if n < CHUNK_SIZE then n else CHUNK_SIZE
  }

  function Pieces(n: nat): nat {
    if n == 0 then 0 else 1 + Pieces(n - PieceSize(n))
  }

  lemma {:induction false} PiecesIsCeiling(n: nat)
    ensures Pieces(n) == (n + CHUNK_SIZE - 1) / CHUNK_SIZE
    ensures Pieces(n) * CHUNK_SIZE >= n
    ensures n > 0 ==> (Pieces(n) - 1) * CHUNK_SIZE < n
  {
    if n > 0 {
      PiecesIsCeiling(n - PieceSize(n));
    }
  }

  function SealPiece(aead: Aead, key: Secret, nonce: nat, piece: Bytes): Chunk {
    var c := aead.seal(key, nonce, piece);
    Chunk(|c|, c)
  }

  /** The chunks of a payload sealed from a nonce on, or None when the nonces run out. */
  function Split(aead: Aead, key: Secret, nonce: nat, payload: Bytes): Option<seq<Chunk>>
    decreases |payload|
  {
    if payload == [] then Some([])
    else if nonce >= MAX_NONCE then None
    else
      var n := PieceSize(|payload|);
      Prepend([SealPiece(aead, key, nonce, payload[..n])], Split(aead, key, nonce + 1, payload[n..]))
  }

  function Prepend<T>(done: seq<T>, more: Option<seq<T>>): Option<seq<T>> {
    match more
    case None => None
    case Some(s) => Some(done + s)
  }

  /** The nonce that splitting leaves behind, even when it runs out half way. */
  function SplitNonce(nonce: Nonce, payload: Bytes): Nonce {
    var n := nonce + Pieces(|payload|);
    if n <= MAX_NONCE then n else MAX_NONCE
  }

  lemma {:induction false} SplitSucceeds(aead: Aead, key: Secret, nonce: nat, payload: Bytes)
    requires nonce <= MAX_NONCE
    ensures Split(aead, key, nonce, payload).Some? <==> nonce + Pieces(|payload|) <= MAX_NONCE
    ensures Split(aead, key, nonce, payload).Some? ==> |Split(aead, key, nonce, payload).value| == Pieces(|payload|)
    decreases |payload|
  {
    if payload != [] && nonce < MAX_NONCE {
      SplitSucceeds(aead, key, nonce + 1, payload[PieceSize(|payload|)..]);
    }
  }

  /**
   * Splitting succeeds exactly when the nonces suffice; it makes one chunk per 65519 bytes or part of
   * them, and every chunk passes the encoder's checks.
   */
  lemma {:induction false} SplitMakesFittingChunks(aead: Aead, key: Secret, nonce: Nonce, payload: Bytes)
    requires aead.Lawful()
    ensures var r := Split(aead, key, nonce, payload);
            && (r.Some? <==> nonce + (|payload| + 65518) / 65519 <= MAX_NONCE)
            && (r.Some? ==>
                  && |r.value| == (|payload| + 65518) / 65519
                  && forall c <- r.value :: ChunkFits(c) && c.length == |c.contents|)
  {
    PiecesIsCeiling(|payload|);
    SplitSucceeds(aead, key, nonce, payload);
    SplitChunksFit(aead, key, nonce, payload);
  }

  lemma {:induction false} SplitChunksFit(aead: Aead, key: Secret, nonce: nat, payload: Bytes)
    requires aead.Lawful()
    ensures var r := Split(aead, key, nonce, payload);
            r.Some? ==> forall c <- r.value :: ChunkFits(c) && c.length == |c.contents|
    decreases |payload|
  {
    if payload != [] && nonce < MAX_NONCE {
      var n := PieceSize(|payload|);
      SealAdds(aead, key, nonce, payload[..n]);
      SplitChunksFit(aead, key, nonce + 1, payload[n..]);
    }
  }

  /** The k-th chunk is the k-th piece of 65519 bytes, sealed under the k-th nonce from the first on. */
  lemma {:induction false} SplitAt(aead: Aead, key: Secret, nonce: Nonce, payload: Bytes, k: nat)
    requires Split(aead, key, nonce, payload).Some? && k < |Split(aead, key, nonce, payload).value|
    ensures var lo, hi := k * 65519, if (k + 1) * 65519 < |payload| then (k + 1) * 65519 else |payload|;
            && lo < hi
            && var sealed := aead.seal(key, nonce + k, payload[lo..hi]);
            Split(aead, key, nonce, payload).value[k] == Chunk(|sealed|, sealed)
    decreases k
  {
    if k > 0 {
      var n := PieceSize(|payload|);
      var rest := payload[n..];
      assert Split(aead, key, nonce, payload).value[k] == Split(aead, key, nonce + 1, rest).value[k - 1];
      assert rest != [] && n == 65519;
      hide Split;
      SplitAt(aead, key, nonce + 1, rest, k - 1);
      var lo, hi := (k - 1) * 65519, if k * 65519 < |rest| then k * 65519 else |rest|;
      assert rest[lo..hi] == payload[n + lo..n + hi];
    }
  }

  // ---------------------------------------------------------------------------
  // Joining.

  /** A chunk whose length exceeds its contents is a panic; one that does not decrypt, an error. */
  datatype JoinError = OutOfBounds | Refused

  datatype Joined = Joined(payload: Bytes, nonce: Nonce) | JoinFailed(error: JoinError, nonce: Nonce)

  function OpenChunk(aead: Aead, key: Secret, nonce: Nonce, chunk: Chunk): Result<Bytes, JoinError> {
    if chunk.length > |chunk.contents| then Err(OutOfBounds)
    else if chunk.length > MAX_MESSAGE || nonce == MAX_NONCE then Err(Refused)
    else
      match aead.open(key, nonce, chunk.contents[..chunk.length])
      case None => Err(Refused)
      case Some(p) => Ok(p)
  }

  /** The nonce advances with every chunk that opened; the first that does not ends the joining. */
  function Join(aead: Aead, key: Secret, nonce: Nonce, chunks: seq<Chunk>): Joined
    decreases |chunks|
  {
    if chunks == [] then Joined([], nonce)
    else
      match OpenChunk(aead, key, nonce, chunks[0])
      case Err(e) => JoinFailed(e, nonce)
      case Ok(p) => Behind(p, Join(aead, key, nonce + 1, chunks[1..]))
  }

  function Behind(done: Bytes, more: Joined): Joined {
    match more
    case JoinFailed(_, _) => more
    case Joined(p, nonce) => Joined(done + p, nonce)
  }

  /** Joining what was split, from the same nonce, gives the payload back and the sender's nonce. */
  lemma {:induction false} JoinUndoesSplit(aead: Aead, key: Secret, nonce: Nonce, payload: Bytes)
    requires aead.Lawful() && Split(aead, key, nonce, payload).Some?
    ensures Join(aead, key, nonce, Split(aead, key, nonce, payload).value)
            == Joined(payload, SplitNonce(nonce, payload))
    decreases |payload|
  {
    SplitSucceeds(aead, key, nonce, payload);
    if payload != [] {
      var n := PieceSize(|payload|);
      var piece := payload[..n];
      var chunks := Split(aead, key, nonce, payload).value;
      SealAdds(aead, key, nonce, piece);
      JoinUndoesSplit(aead, key, nonce + 1, payload[n..]);
      assert chunks[0].contents[..chunks[0].length] == chunks[0].contents;
      assert chunks[1..] == Split(aead, key, nonce + 1, payload[n..]).value;
      assert piece + payload[n..] == payload;
    }
  }

  /** Each chunk yields at most CHUNK_SIZE bytes, so a payload cannot survive the loss of a chunk. */
  lemma {:induction false} JoinedLength(aead: Aead, key: Secret, nonce: Nonce, chunks: seq<Chunk>)
    requires aead.Lawful()
    ensures var j := Join(aead, key, nonce, chunks);
            j.Joined? ==> |j.payload| <= |chunks| * CHUNK_SIZE && j.nonce == nonce + |chunks|
    decreases |chunks|
  {
    if chunks != [] && OpenChunk(aead, key, nonce, chunks[0]).Ok? {
      assert aead.Expands(key, nonce, chunks[0].contents[..chunks[0].length]);
      JoinedLength(aead, key, nonce + 1, chunks[1..]);
    }
  }

  function Flat(pieces: seq<Bytes>): Bytes {
    if pieces == [] then [] else pieces[0] + Flat(pieces[1..])
  }

  /** The chunk is whole, not too long, and opens under this nonce. */
  predicate OpensAt(aead: Aead, key: Secret, nonce: nat, c: Chunk) {
    && c.length <= |c.contents| && c.length <= 65535 && nonce < 0xFFFF_FFFF_FFFF_FFFF
    && aead.open(key, nonce, c.contents[..c.length]).Some?
  }

  /**
   * Joining opens the chunks in order under successive nonces and puts the pieces together. It stops at
   * the first that does not open, with the nonce that one failed under; nothing of the payload is kept.
   */
  lemma {:induction false} JoinOpensInOrder(aead: Aead, key: Secret, nonce: Nonce, chunks: seq<Chunk>)
    returns (pieces: seq<Bytes>)
    ensures |pieces| <= |chunks| && nonce + |pieces| <= MAX_NONCE
    ensures forall i :: 0 <= i < |pieces| ==>
              && OpensAt(aead, key, nonce + i, chunks[i])
              && pieces[i] == aead.open(key, nonce + i, chunks[i].contents[..chunks[i].length]).value
    ensures var j, k := Join(aead, key, nonce, chunks), |pieces|;
            if k == |chunks| then j == Joined(Flat(pieces), nonce + k)
            else
              && !OpensAt(aead, key, nonce + k, chunks[k])
              && j == JoinFailed(if chunks[k].length > |chunks[k].contents| then OutOfBounds else Refused, nonce + k)
    decreases |chunks|
  {
    if chunks == [] || OpenChunk(aead, key, nonce, chunks[0]).Err? {
      pieces := [];
    } else {
      var piece := OpenChunk(aead, key, nonce, chunks[0]).value;
      var rest := JoinOpensInOrder(aead, key, nonce + 1, chunks[1..]);
      pieces := [piece] + rest;
      assert pieces[1..] == rest;
      assert forall i :: 1 <= i < |chunks| ==> chunks[i] == chunks[1..][i - 1];
    }
  }

  lemma BehindNothing(j: Joined)
    ensures Behind([], j) == j
  {
    if j.Joined? {
      assert [] + j.payload == j.payload;
    }
  }

  lemma BehindTwice(done: Bytes, p: Bytes, j: Joined)
    ensures Behind(done, Behind(p, j)) == Behind(done + p, j)
  {
    if j.Joined? {
      assert done + (p + j.payload) == (done + p) + j.payload;
    }
  }

  lemma PrependTwice<T>(done: seq<T>, more: seq<T>, last: Option<seq<T>>)
    ensures Prepend(done, Prepend(more, last)) == Prepend(done + more, last)
  {
    if last.Some? {
      assert done + (more + last.value) == (done + more) + last.value;
    }
  }

  // ---------------------------------------------------------------------------
  // The transport state, updated in place.

  class TransportState {
    const aead: Aead
    const sendKey: Secret
    const recvKey: Secret
    var sendNonce: Nonce
    var recvNonce: Nonce

    constructor (aead: Aead, sendKey: Secret, recvKey: Secret)
      ensures this.aead == aead && this.sendKey == sendKey && this.recvKey == recvKey
      ensures sendNonce == 0 && recvNonce == 0
    {
      this.aead, this.sendKey, this.recvKey := aead, sendKey, recvKey;
      sendNonce, recvNonce := 0, 0;
    }

    method WriteMessage(p: Bytes) returns (c: Option<Bytes>)
      modifies this`sendNonce
      ensures c.Some? <==> |p| + TAGLEN <= MAX_MESSAGE && old(sendNonce) < MAX_NONCE
      ensures c.Some? ==> c.value == aead.seal(sendKey, old(sendNonce), p) && sendNonce == old(sendNonce) + 1
      ensures c.None? ==> sendNonce == old(sendNonce)
    {
      if |p| + TAGLEN > MAX_MESSAGE || sendNonce == MAX_NONCE {
        return None;
      }
      c := Some(aead.seal(sendKey, sendNonce, p));
      sendNonce := sendNonce + 1;
    }

    method ReadMessage(c: Bytes) returns (p: Option<Bytes>)
      modifies this`recvNonce
      ensures p == if |c| > MAX_MESSAGE || old(recvNonce) == MAX_NONCE then None
              else aead.open(recvKey, old(recvNonce), c)
      ensures recvNonce == if p.Some? then old(recvNonce) + 1 else old(recvNonce)
    {
      if |c| > MAX_MESSAGE || recvNonce == MAX_NONCE {
        return None;
      }
      p := aead.open(recvKey, recvNonce, c);
      if p.Some? {
        recvNonce := recvNonce + 1;
      }
    }

    method SplitPayload(payload: Bytes) returns (r: Option<seq<Chunk>>)
      modifies this`sendNonce
      ensures r == Split(aead, sendKey, old(sendNonce), payload)
      ensures sendNonce == SplitNonce(old(sendNonce), payload)
    {
      var chunks := [];
      var i := 0;
      assert payload[0..] == payload;
      if Split(aead, sendKey, sendNonce, payload).Some? {
        assert [] + Split(aead, sendKey, sendNonce, payload).value == Split(aead, sendKey, sendNonce, payload).value;
      }
      while i < |payload|
        invariant i <= |payload|
        invariant sendNonce + Pieces(|payload| - i) == old(sendNonce) + Pieces(|payload|)
        invariant Split(aead, sendKey, old(sendNonce), payload)
                  == Prepend(chunks, Split(aead, sendKey, sendNonce, payload[i..]))
      {
        ghost var rest := payload[i..];
        var n := PieceSize(|payload| - i);
        assert rest[..n] == payload[i..i + n] && rest[n..] == payload[i + n..];
        var c := WriteMessage(payload[i..i + n]);
        if c.None? {
          return None;
        }
        var chunk := Chunk(|c.value|, c.value);
        PrependTwice(chunks, [chunk], Split(aead, sendKey, sendNonce, rest[n..]));
        chunks := chunks + [chunk];
        i := i + n;
      }
      assert chunks + [] == chunks;
      r := Some(chunks);
    }

    method JoinChunks(chunks: seq<Chunk>) returns (r: Result<Bytes, JoinError>)
      modifies this`recvNonce
      ensures match Join(aead, recvKey, old(recvNonce), chunks)
              case Joined(payload, nonce) => r == Ok(payload) && recvNonce == nonce
              case JoinFailed(e, nonce) => r == Err(e) && recvNonce == nonce
    {
      var payload := [];
      var i := 0;
      BehindNothing(Join(aead, recvKey, recvNonce, chunks));
      assert chunks[0..] == chunks;
      while i < |chunks|
        invariant i <= |chunks|
        invariant Join(aead, recvKey, old(recvNonce), chunks)
                  == Behind(payload, Join(aead, recvKey, recvNonce, chunks[i..]))
      {
        var chunk := chunks[i];
        assert chunks[i..][1..] == chunks[i + 1..];
        if chunk.length > |chunk.contents| {
          return Err(OutOfBounds);
        }
        var p := ReadMessage(chunk.contents[..chunk.length]);
        if p.None? {
          return Err(Refused);
        }
        BehindTwice(payload, p.value, Join(aead, recvKey, recvNonce, chunks[i + 1..]));
        payload := payload + p.value;
        i := i + 1;
      }
      assert payload + [] == payload;
      r := Ok(payload);
    }
  }
}
