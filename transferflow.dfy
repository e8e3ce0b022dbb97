/**
 * `transfer_sign_submit`: the keyword values are filtered into `transfer`'s
 * positional arguments, then `transfer`, `sign_transfer` and
 * `submit_transfer` are sent in turn, stopping at the first error reply.
 * The transport (HTTP post and reply decoding) is an oracle that answers the
 * n-th request of the client.
 */
module TransferFlow {
  import opened Wrappers
  import opened JsonValues
  import opened Envelope
  import opened ArgFilter
  import B = Builders

  /** The error object of a reply, as the service reports it. */
  datatype RpcError = RpcError(code: int, message: string)

  /** A decoded reply: a success payload or an error. */
  datatype Response = Ok(result: Json) | Err(error: RpcError)

  /** One request as posted: the envelope and the name of the decoder for its reply. */
  datatype Posted = Posted(envelope: Dict, decoder: string)

  /** The transport oracle: the reply to the n-th request the client posts. */
  type Transport = (nat, Posted) -> Response

  /** What `_send` posts for a builder's call. */
  function Post(c: B.Call): Posted
  {
    Posted(WithDefaults(c.args), c.decoder)
  }

  // Positional binding of `transfer(*args)`

  /** Python's TypeError when `transfer` is called with too few or too many positional arguments. */
  datatype TypeError = MissingDestinations | TooManyArguments

  /** `transfer`'s parameters as the request names them, in declaration order. */
  const TransferParams: seq<string> :=
    ["destinations", "account_index", "subaddr_indices", "priority", "mixin", "ring_size",
     "unlock_time", "get_tx_key", "do_not_relay", "get_tx_hex", "get_tx_metadata"]

  /** The defaults of `transfer`'s parameters after `destinations`, which has none. */
  const TransferDefaults: seq<Json> :=
    [JInt(0), JNull, JInt(0), JInt(0), JInt(7), JInt(0), JBool(true), JBool(false), JBool(false), JBool(false)]

  /** `transfer(*args)`: the first |args| parameters take the arguments, the rest their defaults. */
  function TransferPositional(args: seq<Json>): Result<B.Call, TypeError>
  {
    if |args| == 0 then Failure(MissingDestinations)
    else if |args| > |TransferParams| then Failure(TooManyArguments)
    else
      var a := args + TransferDefaults[|args| - 1..];
      Success(B.Transfer(a[0], a[1], a[2], a[3], a[4], a[5], a[6], a[7], a[8], a[9], a[10]))
  }

  /** The keys of `transfer`'s parameters, as a set. */
  const TransferParamKeys: set<string> :=
    {"destinations", "account_index", "subaddr_indices", "priority", "mixin", "ring_size",
     "unlock_time", "get_tx_key", "do_not_relay", "get_tx_hex", "get_tx_metadata"}

  /** The parameters of a request read back in `transfer`'s declaration order (None where absent). */
  function TransferValues(c: B.Call): seq<Json>
  {
    var fields := if "params" in c.args && c.args["params"].JObject? then c.args["params"].fields else map[];
    seq(|TransferParams|, j requires 0 <= j < |TransferParams| => Get(fields, TransferParams[j]))
  }

  /**
   * `transfer` puts each argument under its own parameter's key and adds no
   * other key: reading the request back in declaration order gives the
   * arguments back.
   */
  lemma TransferReadBack(a: seq<Json>)
    requires |a| == |TransferParams|
    ensures var c := B.Transfer(a[0], a[1], a[2], a[3], a[4], a[5], a[6], a[7], a[8], a[9], a[10]);
      && c.args["params"].JObject?
      && c.args["params"].fields.Keys == TransferParamKeys
      && TransferValues(c) == a
  {
    var c := B.Transfer(a[0], a[1], a[2], a[3], a[4], a[5], a[6], a[7], a[8], a[9], a[10]);
    var f := c.args["params"].fields;
    assert f["destinations"] == a[0] && f["account_index"] == a[1] && f["subaddr_indices"] == a[2];
    assert f["priority"] == a[3] && f["mixin"] == a[4] && f["ring_size"] == a[5];
    assert f["unlock_time"] == a[6] && f["get_tx_key"] == a[7] && f["do_not_relay"] == a[8];
    assert f["get_tx_hex"] == a[9] && f["get_tx_metadata"] == a[10];
  }

  /**
   * Positional binding: between one and eleven arguments give a transfer
   * request whose parameters, in declaration order, are the arguments
   * followed by the defaults of the parameters left over; no argument, or
   * more than eleven, is a TypeError.
   */
  lemma TransferPositionalBinds(args: seq<Json>)
    ensures TransferPositional(args).Success? <==> 1 <= |args| <= |TransferParams|
    ensures TransferPositional(args).Failure? ==>
      TransferPositional(args).error == if args == [] then MissingDestinations else TooManyArguments
    ensures TransferPositional(args).Success? ==>
      TransferValues(TransferPositional(args).value) == args + TransferDefaults[|args| - 1..]
  {
    if 1 <= |args| <= |TransferParams| {
      TransferReadBack(args + TransferDefaults[|args| - 1..]);
    }
  }

  // Sequencing the three calls

  /**
   * Posts the requests of `plan` in turn, the first as the client's n-th
   * request, and stops after the first error reply or after the last one.
   * Gives the reply returned and the requests posted.
   */
  function RunChain(t: Transport, plan: seq<Posted>, n: nat): (out: (Response, seq<Posted>))
    requires |plan| > 0
    ensures 1 <= |out.1| <= |plan|
    decreases |plan|
  {
    var r := t(n, plan[0]);
    if r.Err? || |plan| == 1 then (r, [plan[0]])
    else
      var rest := RunChain(t, plan[1..], n + 1);
      (rest.0, [plan[0]] + rest.1)
  }

  /** The transport's reply to step i of `plan`, posted as the client's (n+i)-th request. */
  function Reply(t: Transport, plan: seq<Posted>, n: nat, i: nat): Response
    requires i < |plan|
  {
    t(n + i, plan[i])
  }

  /** The requests posted are the first steps of the plan, in order. */
  lemma {:induction false} ChainPostsPlanPrefix(t: Transport, plan: seq<Posted>, n: nat)
    requires |plan| > 0
    ensures RunChain(t, plan, n).1 == plan[..|RunChain(t, plan, n).1|]
    decreases |plan|
  {
    if !(t(n, plan[0]).Err? || |plan| == 1) {
      ChainPostsPlanPrefix(t, plan[1..], n + 1);
      var rest := RunChain(t, plan[1..], n + 1);
      assert plan[..1 + |rest.1|] == [plan[0]] + plan[1..][..|rest.1|];
    }
  }

  /** Step i of the rest of a plan, posted one request later, is step i+1 of the plan. */
  lemma ReplyShift(t: Transport, plan: seq<Posted>, n: nat, i: nat)
    requires i + 1 < |plan|
    ensures Reply(t, plan[1..], n + 1, i) == Reply(t, plan, n, i + 1)
  {
    assert plan[1..][i] == plan[i + 1];
  }

  /** Every step before the last one posted got a success reply. */
  lemma {:induction false} ChainOkBeforeLast(t: Transport, plan: seq<Posted>, n: nat)
    requires |plan| > 0
    ensures forall i :: 0 <= i < |RunChain(t, plan, n).1| - 1 ==> Reply(t, plan, n, i).Ok?
    decreases |plan|
  {
    if !(t(n, plan[0]).Err? || |plan| == 1) {
      ChainOkBeforeLast(t, plan[1..], n + 1);
      var rest := RunChain(t, plan[1..], n + 1);
      forall i | 0 <= i < |rest.1| ensures Reply(t, plan, n, i).Ok? {
        if i > 0 { ReplyShift(t, plan, n, i - 1); }
      }
    }
  }

  /** The reply returned is the last posted step's, and the chain stops short of the plan only on an error. */
  lemma {:induction false} ChainReturnsLastReply(t: Transport, plan: seq<Posted>, n: nat)
    requires |plan| > 0
    ensures RunChain(t, plan, n).0 == Reply(t, plan, n, |RunChain(t, plan, n).1| - 1)
    ensures |RunChain(t, plan, n).1| < |plan| ==> RunChain(t, plan, n).0.Err?
    decreases |plan|
  {
    if !(t(n, plan[0]).Err? || |plan| == 1) {
      ChainReturnsLastReply(t, plan[1..], n + 1);
      ReplyShift(t, plan, n, |RunChain(t, plan[1..], n + 1).1| - 1);
    }
  }

  /** Conversely: the first step whose reply is an error is the last one posted, and its reply is returned. */
  lemma ChainFirstError(t: Transport, plan: seq<Posted>, n: nat, i: nat)
    requires i < |plan|
    requires Reply(t, plan, n, i).Err?
    requires forall j :: 0 <= j < i ==> Reply(t, plan, n, j).Ok?
    ensures |RunChain(t, plan, n).1| == i + 1
    ensures RunChain(t, plan, n).0 == Reply(t, plan, n, i)
  {
    ChainOkBeforeLast(t, plan, n);
    ChainReturnsLastReply(t, plan, n);
  }

  /** A chain of three: the first error reply ends it, otherwise all three are posted. */
  lemma ChainOfThree(t: Transport, p0: Posted, p1: Posted, p2: Posted, n: nat)
    ensures t(n, p0).Err? ==> RunChain(t, [p0, p1, p2], n) == (t(n, p0), [p0])
    ensures t(n, p0).Ok? && t(n + 1, p1).Err? ==> RunChain(t, [p0, p1, p2], n) == (t(n + 1, p1), [p0, p1])
    ensures t(n, p0).Ok? && t(n + 1, p1).Ok? ==> RunChain(t, [p0, p1, p2], n) == (t(n + 2, p2), [p0, p1, p2])
  {
    var plan := [p0, p1, p2];
    ChainPostsPlanPrefix(t, plan, n);
    ChainOkBeforeLast(t, plan, n);
    ChainReturnsLastReply(t, plan, n);
    assert plan[..1] == [p0] && plan[..2] == [p0, p1] && plan[..3] == plan;
  }

  /** When every reply is a success, the whole plan is posted and the last reply is returned. */
  lemma ChainAllOk(t: Transport, plan: seq<Posted>, n: nat)
    requires |plan| > 0
    requires forall j :: 0 <= j < |plan| ==> Reply(t, plan, n, j).Ok?
    ensures |RunChain(t, plan, n).1| == |plan|
    ensures RunChain(t, plan, n).0 == Reply(t, plan, n, |plan| - 1)
  {
    ChainReturnsLastReply(t, plan, n);
  }

  // transfer_sign_submit

  /** The keyword names read for `transfer`'s arguments, in the order they are filtered. */
  const TransferKwargs: seq<string> :=
    ["destinations", "account_index", "subaddress_indices", "priority", "mixin", "ring_size",
     "unlock_time", "get_tx_key", "do_not_relay", "get_tx_hex", "get_tx_metadata"]

  /** The eleven keyword values, None where the keyword is absent, in the order they are filtered. */
  function KwargValues(kwargs: Dict): seq<Json>
  {
    [Get(kwargs, "destinations"), Get(kwargs, "account_index"), Get(kwargs, "subaddress_indices"),
     Get(kwargs, "priority"), Get(kwargs, "mixin"), Get(kwargs, "ring_size"), Get(kwargs, "unlock_time"),
     Get(kwargs, "get_tx_key"), Get(kwargs, "do_not_relay"), Get(kwargs, "get_tx_hex"), Get(kwargs, "get_tx_metadata")]
  }

  /** Value j is the one under keyword j. */
  lemma KwargValuesNamed(kwargs: Dict)
    ensures |KwargValues(kwargs)| == |TransferKwargs|
    ensures forall j :: 0 <= j < |TransferKwargs| ==> KwargValues(kwargs)[j] == Get(kwargs, TransferKwargs[j])
  {
  }

  /** The positional arguments `transfer` is called with: the truthy keyword values. */
  function TransferArgs(kwargs: Dict): seq<Json>
  {
    Filter(KwargValues(kwargs))
  }

  /** The request for `sign_transfer`, its arguments taken from the keywords. */
  function SignCall(kwargs: Dict): B.Call
  {
    B.SignTransfer(Get(kwargs, "unsigned_txset"), Get(kwargs, "export_raw"))
  }

  /** The request for `submit_transfer`, its argument taken from the keywords. */
  function SubmitCall(kwargs: Dict): B.Call
  {
    B.SubmitTransfer(Get(kwargs, "tx_data_hex"))
  }

  /** The three requests in the order they are posted: `transfer`, then signing, then submitting. */
  function Plan(c: B.Call, kwargs: Dict): seq<Posted>
  {
    [Post(c), Post(SignCall(kwargs)), Post(SubmitCall(kwargs))]
  }

  /** How a call of `transfer_sign_submit` ends: with a reply, or by raising before any request. */
  datatype Outcome = Returned(response: Response) | Raised(error: TypeError)

  /**
   * `transfer_sign_submit` sent as the client's n-th request onwards: its
   * outcome and the requests it posts.
   */
  function TransferSignSubmit(t: Transport, kwargs: Dict, n: nat): (Outcome, seq<Posted>)
  {
    match TransferPositional(TransferArgs(kwargs))
    case Failure(e) => (Raised(e), [])
    case Success(c) =>
      var out := RunChain(t, Plan(c, kwargs), n);
      (Returned(out.0), out.1)
  }

  /** It raises, before posting anything, exactly when no keyword value for `transfer` is truthy. */
  lemma CompositeRaisesIff(t: Transport, kwargs: Dict, n: nat)
    ensures TransferSignSubmit(t, kwargs, n).0.Raised? <==>
      forall j :: 0 <= j < |TransferKwargs| ==> !Truthy(KwargValues(kwargs)[j])
    ensures TransferSignSubmit(t, kwargs, n).0.Raised? ==>
      TransferSignSubmit(t, kwargs, n).0.error == MissingDestinations && TransferSignSubmit(t, kwargs, n).1 == []
  {
    FilterNoneIff(KwargValues(kwargs));
    TransferPositionalBinds(TransferArgs(kwargs));
  }

  /** An error reply to `transfer` is returned at once; nothing else is posted. */
  lemma CompositeTransferFails(t: Transport, kwargs: Dict, n: nat)
    requires TransferPositional(TransferArgs(kwargs)).Success?
    requires t(n, Post(TransferPositional(TransferArgs(kwargs)).value)).Err?
    ensures var c := TransferPositional(TransferArgs(kwargs)).value;
      TransferSignSubmit(t, kwargs, n) == (Returned(t(n, Post(c))), [Post(c)])
  {
    var plan := Plan(TransferPositional(TransferArgs(kwargs)).value, kwargs);
    ChainOfThree(t, plan[0], plan[1], plan[2], n);
    assert plan == [plan[0], plan[1], plan[2]];
  }

  /** After a success reply to `transfer`, an error reply to `sign_transfer` is returned; submitting is skipped. */
  lemma CompositeSignFails(t: Transport, kwargs: Dict, n: nat)
    requires TransferPositional(TransferArgs(kwargs)).Success?
    requires t(n, Post(TransferPositional(TransferArgs(kwargs)).value)).Ok?
    requires t(n + 1, Post(SignCall(kwargs))).Err?
    ensures var c := TransferPositional(TransferArgs(kwargs)).value;
      TransferSignSubmit(t, kwargs, n) == (Returned(t(n + 1, Post(SignCall(kwargs)))), [Post(c), Post(SignCall(kwargs))])
  {
    var plan := Plan(TransferPositional(TransferArgs(kwargs)).value, kwargs);
    ChainOfThree(t, plan[0], plan[1], plan[2], n);
    assert plan == [plan[0], plan[1], plan[2]];
  }

  /** After success replies to `transfer` and `sign_transfer`, the reply to `submit_transfer` is returned, whatever it is. */
  lemma CompositeAllSent(t: Transport, kwargs: Dict, n: nat)
    requires TransferPositional(TransferArgs(kwargs)).Success?
    requires t(n, Post(TransferPositional(TransferArgs(kwargs)).value)).Ok?
    requires t(n + 1, Post(SignCall(kwargs))).Ok?
    ensures var c := TransferPositional(TransferArgs(kwargs)).value;
      TransferSignSubmit(t, kwargs, n) ==
        (Returned(t(n + 2, Post(SubmitCall(kwargs)))), [Post(c), Post(SignCall(kwargs)), Post(SubmitCall(kwargs))])
  {
    var plan := Plan(TransferPositional(TransferArgs(kwargs)).value, kwargs);
    ChainOfThree(t, plan[0], plan[1], plan[2], n);
    assert plan == [plan[0], plan[1], plan[2]];
  }

  /**
   * The signing and submitting requests take their arguments straight from
   * the keywords, whatever `transfer` replied; a missing "export_raw" is
   * sent as None, not as `sign_transfer`'s default False.
   */
  lemma FollowUpsFromKwargs(kwargs: Dict)
    ensures var sign := Post(SignCall(kwargs)).envelope;
      && sign["method"] == JStr("sign_transfer")
      && sign["params"] == JObject(map["unsigned_tx_set" := Get(kwargs, "unsigned_txset"), "export_raw" := Get(kwargs, "export_raw")])
      && ("export_raw" !in kwargs ==> sign["params"].fields["export_raw"] == JNull)
    ensures var submit := Post(SubmitCall(kwargs)).envelope;
      && submit["method"] == JStr("submit_transfer")
      && submit["params"] == JObject(map["tx_data_hex" := Get(kwargs, "tx_data_hex")])
  {
  }

  /** When every keyword value is truthy, each parameter of `transfer` gets the keyword of its own position. */
  lemma AllTruthyLineUp(kwargs: Dict)
    requires forall j :: 0 <= j < |TransferKwargs| ==> Truthy(KwargValues(kwargs)[j])
    ensures TransferPositional(TransferArgs(kwargs)).Success?
    ensures TransferValues(TransferPositional(TransferArgs(kwargs)).value) == KwargValues(kwargs)
  {
    var vs := KwargValues(kwargs);
    FilterIdentityIff(vs);
    TransferPositionalBinds(vs);
    assert vs + TransferDefaults[|vs| - 1..] == vs;
  }

  /**
   * A falsy keyword value is dropped and the later ones move up: parameter k
   * of `transfer` gets the keyword at position k plus the number of falsy
   * values before it.
   */
  lemma ParameterTakesShiftedKwarg(kwargs: Dict, k: nat)
    requires k < |TransferArgs(kwargs)|
    ensures TransferPositional(TransferArgs(kwargs)).Success?
    ensures |Kept(KwargValues(kwargs))| == |TransferArgs(kwargs)|
    ensures var vs := KwargValues(kwargs);
      && Kept(vs)[k] < |TransferKwargs|
      && Kept(vs)[k] == k + CountFalsy(vs[..Kept(vs)[k]])
      && TransferValues(TransferPositional(TransferArgs(kwargs)).value)[k] == Get(kwargs, TransferKwargs[Kept(vs)[k]])
  {
    var vs := KwargValues(kwargs);
    KwargValuesNamed(kwargs);
    ShiftedBy(vs, k);
    TransferPositionalBinds(Filter(vs));
  }

  /** The keyword values of the example below, in filtering order. */
  lemma ExampleKwargValues(d: Json)
    ensures KwargValues(map["destinations" := d, "account_index" := JInt(0), "ring_size" := JInt(16), "get_tx_key" := JBool(true)])
      == [d, JInt(0), JNull, JNull, JNull, JInt(16), JNull, JBool(true), JNull, JNull, JNull]
  {
  }

  /** A truthy value followed by falsy ones filters to that value alone. */
  lemma FilterLeadingTruthy(x: Json, zs: seq<Json>)
    requires Truthy(x)
    requires forall i :: 0 <= i < |zs| ==> !Truthy(zs[i])
    ensures Filter([x] + zs) == [x]
  {
    FilterAppend([x], zs);
    FilterNoneIff(zs);
    assert [x][..0] == [];
  }

  /** The keyword values of the example below, filtered. */
  lemma ExampleFilter(d: Json)
    requires Truthy(d)
    ensures Filter([d, JInt(0), JNull, JNull, JNull, JInt(16), JNull, JBool(true), JNull, JNull, JNull]) ==
      [d, JInt(16), JBool(true)]
  {
    var a, b, c := [d, JInt(0), JNull, JNull, JNull], [JInt(16), JNull], [JBool(true), JNull, JNull, JNull];
    FilterLeadingTruthy(d, [JInt(0), JNull, JNull, JNull]);
    FilterLeadingTruthy(JInt(16), [JNull]);
    FilterLeadingTruthy(JBool(true), [JNull, JNull, JNull]);
    assert [d] + [JInt(0), JNull, JNull, JNull] == a;
    assert [JInt(16)] + [JNull] == b;
    assert [JBool(true)] + [JNull, JNull, JNull] == c;
    FilterAppend(a, b);
    FilterAppend(a + b, c);
    assert a + b + c == [d, JInt(0), JNull, JNull, JNull, JInt(16), JNull, JBool(true), JNull, JNull, JNull];
  }

  /**
   * An account index of 0 is falsy and is dropped, so the ring size lands in
   * `account_index`, `get_tx_key` in `subaddr_indices`, and the ring size
   * sent is the default 7.
   */
  lemma ZeroAccountIndexShifts(d: Json)
    requires Truthy(d)
    ensures var kwargs := map["destinations" := d, "account_index" := JInt(0), "ring_size" := JInt(16), "get_tx_key" := JBool(true)];
      && TransferPositional(TransferArgs(kwargs)).Success?
      && TransferValues(TransferPositional(TransferArgs(kwargs)).value) ==
         [d, JInt(16), JBool(true), JInt(0), JInt(0), JInt(7), JInt(0), JBool(true), JBool(false), JBool(false), JBool(false)]
  {
    ExampleKwargValues(d);
    ExampleFilter(d);
    TransferPositionalBinds([d, JInt(16), JBool(true)]);
  }

  /**
   * An explicit `get_tx_key=False` is falsy, so it is dropped before the call:
   * `transfer` then sends its own default, True, under "get_tx_key".
   */
  lemma ExplicitFalseGetTxKeyDropped(d: Json)
    requires Truthy(d)
    ensures var kwargs := map["destinations" := d, "get_tx_key" := JBool(false)];
      && TransferArgs(kwargs) == [d]
      && TransferPositional(TransferArgs(kwargs)).Success?
      && TransferValues(TransferPositional(TransferArgs(kwargs)).value)[7] == JBool(true)
  {
    var kwargs := map["destinations" := d, "get_tx_key" := JBool(false)];
    var rest := [JNull, JNull, JNull, JNull, JNull, JNull, JBool(false), JNull, JNull, JNull];
    assert KwargValues(kwargs) == [d] + rest;
    FilterLeadingTruthy(d, rest);
    TransferPositionalBinds([d]);
  }
}
