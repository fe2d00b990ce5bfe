/**
 * Subscription batching shared by the two order-book WebSocket clients
 * (tightness_tracker.py and the arbitrage websocket_feed.py): the token
 * list is sent in consecutive slices of at most fifty.
 */
module Batching {

  const BatchSize: nat := 50

  /** `[tokens[i:i + size] for i in range(0, len(tokens), size)]`. */
  function Batches<T>(tokens: seq<T>, size: nat): (bs: seq<seq<T>>)
    requires 0 < size
    ensures forall k :: 0 <= k < |bs| ==> 0 < |bs[k]| <= size
    decreases |tokens|
  {
    if tokens == [] then []
    else if |tokens| <= size then [tokens]
    else [tokens[..size]] + Batches(tokens[size..], size)
  }

  function Flatten<T>(bs: seq<seq<T>>): seq<T>
  {
    if bs == [] then [] else bs[0] + Flatten(bs[1..])
  }

  /** Every token is sent once, in order: the batches concatenate back to the list. */
  lemma {:induction false} BatchesCover<T>(tokens: seq<T>, size: nat)
    requires 0 < size
    ensures Flatten(Batches(tokens, size)) == tokens
    decreases |tokens|
  {
    if tokens != [] && |tokens| > size {
      BatchesCover(tokens[size..], size);
      var bs := Batches(tokens, size);
      assert bs[1..] == Batches(tokens[size..], size);
      assert tokens[..size] + tokens[size..] == tokens;
    }
  }

  /** All batches but the last are full. */
  lemma {:induction false} BatchesFull<T>(tokens: seq<T>, size: nat)
    requires 0 < size
    ensures forall k :: 0 <= k < |Batches(tokens, size)| - 1 ==> |Batches(tokens, size)[k]| == size
    decreases |tokens|
  {
    if tokens != [] && |tokens| > size {
      BatchesFull(tokens[size..], size);
      var bs := Batches(tokens, size);
      assert bs[1..] == Batches(tokens[size..], size);
    }
  }

  /** `_on_open`: the subscribe messages, in the order they are sent. */
  method SubscribeBatches<T>(tokens: seq<T>) returns (sent: seq<seq<T>>)
    ensures sent == Batches(tokens, BatchSize)
  {
    sent := [];
    var i := 0;
    while i < |tokens|
      invariant 0 <= i <= |tokens|
      invariant sent + Batches(tokens[i..], BatchSize) == Batches(tokens, BatchSize)
      decreases |tokens| - i
    {
      var end := if i + BatchSize < |tokens| then i + BatchSize else |tokens|;
      var batch := tokens[i..end];
      if |tokens| - i > BatchSize {
        assert tokens[i..][..BatchSize] == batch;
        assert tokens[i..][BatchSize..] == tokens[end..];
      } else {
        assert tokens[i..] == batch;
        assert tokens[end..] == [];
      }
      sent := sent + [batch];
      i := end;
    }
    assert tokens[i..] == [];
  }
}
