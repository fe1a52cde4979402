// The messages on one direction of a channel, each sealed from the nonce that its predecessors left behind.
module Sealing {
  import opened Basics
  import opened Wire
  import opened Chunks

  /** How many nonces a list of messages takes. */
  function Volume(ms: seq<Bytes>): nat {
    if ms == [] then 0 else Pieces(|ms[0]|) + Volume(ms[1..])
  }

  function SealOne(aead: Aead, key: Secret, nonce: nat, m: Bytes): seq<Chunk> {
    match Split(aead, key, nonce, m)
    case None => []
    case Some(chunks) => chunks
  }

  function SealAll(aead: Aead, key: Secret, nonce: nat, ms: seq<Bytes>): (r: seq<seq<Chunk>>)
    ensures |r| == |ms|
    decreases |ms|
  {
    if ms == [] then []
    else [SealOne(aead, key, nonce, ms[0])] + SealAll(aead, key, nonce + Pieces(|ms[0]|), ms[1..])
  }

  /**
   * A channel in step: the link carries these messages, sealed from the receiver's nonce on, and the
   * sender's nonce is the one behind the last of them.
   */
  ghost predicate InStep(aead: Aead, key: Secret, receiving: Nonce, sending: Nonce, ms: seq<Bytes>,
                         link: seq<seq<Chunk>>) {
    sending == receiving + Volume(ms) && link == SealAll(aead, key, receiving, ms)
  }

  lemma {:induction false} VolumeConcat(a: seq<Bytes>, b: seq<Bytes>)
    ensures Volume(a + b) == Volume(a) + Volume(b)
  {
    if a == [] {
      assert a + b == b;
    } else {
      assert (a + b)[0] == a[0] && (a + b)[1..] == a[1..] + b;
      VolumeConcat(a[1..], b);
    }
  }

  lemma {:induction false} SealAllConcat(aead: Aead, key: Secret, nonce: nat, a: seq<Bytes>, b: seq<Bytes>)
    ensures SealAll(aead, key, nonce, a + b)
            == SealAll(aead, key, nonce, a) + SealAll(aead, key, nonce + Volume(a), b)
    decreases |a|
  {
    if a == [] {
      assert a + b == b;
    } else {
      var next := nonce + Pieces(|a[0]|);
      assert (a + b)[0] == a[0] && (a + b)[1..] == a[1..] + b;
      SealAllConcat(aead, key, next, a[1..], b);
      Regroup([SealOne(aead, key, nonce, a[0])], SealAll(aead, key, next, a[1..]),
              SealAll(aead, key, next + Volume(a[1..]), b));
    }
  }

  lemma OneSealed(aead: Aead, key: Secret, nonce: nat, m: Bytes)
    ensures Volume([m]) == Pieces(|m|) && SealAll(aead, key, nonce, [m]) == [SealOne(aead, key, nonce, m)]
  {
    assert [m][1..] == [];
  }

  /** Sealing more from the sender's nonce keeps the channel in step. */
  lemma InStepGrows(aead: Aead, key: Secret, receiving: Nonce, sending: Nonce, ms: seq<Bytes>, link: seq<seq<Chunk>>,
                    more: seq<Bytes>)
    requires InStep(aead, key, receiving, sending, ms, link) && sending + Volume(more) <= MAX_NONCE
    ensures InStep(aead, key, receiving, sending + Volume(more), ms + more, link + SealAll(aead, key, sending, more))
  {
    VolumeConcat(ms, more);
    SealAllConcat(aead, key, receiving, ms, more);
  }

  /** The oldest message of a channel in step opens, and leaves it in step. */
  lemma OldestOpens(aead: Aead, key: Secret, receiving: Nonce, sending: Nonce, ms: seq<Bytes>, link: seq<seq<Chunk>>)
    requires aead.Lawful() && InStep(aead, key, receiving, sending, ms, link) && link != []
    ensures ms != [] && receiving + Pieces(|ms[0]|) <= sending
    ensures Join(aead, key, receiving, link[0]) == Joined(ms[0], receiving + Pieces(|ms[0]|))
    ensures InStep(aead, key, receiving + Pieces(|ms[0]|), sending, ms[1..], link[1..])
  {
    SplitSucceeds(aead, key, receiving, ms[0]);
    JoinUndoesSplit(aead, key, receiving, ms[0]);
  }
}
