/**
 * The wallet client as an object: it holds the transport it posts through
 * and, as its observable state, the requests it has posted so far.
 */
module WalletClient {
  import opened JsonValues
  import opened Envelope
  import opened ArgFilter
  import opened TransferFlow
  import B = Builders

  class Client {
    /** The HTTP post of a request and the decoding of its reply, as an oracle. */
    const transport: Transport
    /** Every request posted so far, oldest first. */
    var posted: seq<Posted>

    constructor (transport: Transport)
      ensures this.transport == transport
      ensures posted == []
    {
      this.transport := transport;
      posted := [];
    }

    /**
     * `_send`: wraps the call's dictionary in the envelope, posts it with the
     * call's decoder, and gives back the decoded reply.
     */
    method Send(call: B.Call) returns (r: Response)
      modifies this
      ensures posted == old(posted) + [Post(call)]
      ensures r == transport(|old(posted)|, Post(call))
    {
      var data := AttachDefaultParams(call.args);
      var request := Posted(data, call.decoder);
      r := transport(|posted|, request);
      posted := posted + [request];
    }

    /**
     * The first half of `transfer_sign_submit`: looks up the eleven keywords
     * (None where absent) and keeps the truthy values, in order.
     */
    static method TransferArguments(kwargs: Dict) returns (args: seq<Json>)
      ensures args == TransferArgs(kwargs)
    {
      var destinations := Get(kwargs, "destinations");
      var accountIndex := Get(kwargs, "account_index");
      var subaddressIndices := Get(kwargs, "subaddress_indices");
      var priority := Get(kwargs, "priority");
      var mixin := Get(kwargs, "mixin");
      var ringSize := Get(kwargs, "ring_size");
      var unlockTime := Get(kwargs, "unlock_time");
      var getTxKey := Get(kwargs, "get_tx_key");
      var doNotRelay := Get(kwargs, "do_not_relay");
      var getTxHex := Get(kwargs, "get_tx_hex");
      var getTxMetadata := Get(kwargs, "get_tx_metadata");

      var values := [destinations, accountIndex, subaddressIndices, priority, mixin, ringSize,
                     unlockTime, getTxKey, doNotRelay, getTxHex, getTxMetadata];
      args := Filter(values);
    }

    /**
     * `transfer_sign_submit`: filters the keyword values into `transfer`'s
     * positional arguments, then sends `transfer`, `sign_transfer` and
     * `submit_transfer`, returning the first error reply or the last reply.
     */
    method TransferSignSubmit(kwargs: Dict) returns (o: Outcome)
      modifies this
      ensures var spec := TransferFlow.TransferSignSubmit(transport, kwargs, |old(posted)|);
        o == spec.0 && posted == old(posted) + spec.1
    {
      ghost var n := |posted|;
      ghost var spec := TransferFlow.TransferSignSubmit(transport, kwargs, n);
      var args := TransferArguments(kwargs);
      var bound := TransferPositional(args);
      if bound.Failure? {
        return Raised(bound.error);
      }
      var result := Send(bound.value);
      if result.Err? {
        CompositeTransferFails(transport, kwargs, n);
        return Returned(result);
      }

      var unsignedTxset := Get(kwargs, "unsigned_txset");
      var exportRaw := Get(kwargs, "export_raw");
      result := Send(B.SignTransfer(unsignedTxset, exportRaw));
      if result.Err? {
        CompositeSignFails(transport, kwargs, n);
        AppendedTwo(old(posted), Post(bound.value), Post(SignCall(kwargs)));
        return Returned(result);
      }

      var txDataHex := Get(kwargs, "tx_data_hex");
      result := Send(B.SubmitTransfer(txDataHex));
      CompositeAllSent(transport, kwargs, n);
      AppendedThree(old(posted), Post(bound.value), Post(SignCall(kwargs)), Post(SubmitCall(kwargs)));
      return Returned(result);
    }
  }

  /** Posting two requests one after the other logs them in that order. */
  lemma AppendedTwo<T>(s: seq<T>, a: T, b: T)
    ensures s + [a] + [b] == s + [a, b]
  {
  }

  /** Posting three requests one after the other logs them in that order. */
  lemma AppendedThree<T>(s: seq<T>, a: T, b: T, c: T)
    ensures s + [a] + [b] + [c] == s + [a, b, c]
  {
  }
}
