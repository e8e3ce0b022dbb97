/**
 * The JSON-RPC envelope that `Client._attach_default_params` wraps around
 * every request dictionary before it is posted.
 */
module Envelope {
  import opened JsonValues

  /** The fixed fields the client starts from: a constant correlation id and the protocol tag. */
  const Defaults: Dict := map["id" := JStr("0"), "jsonrpc" := JStr("2.0")]

  /**
   * The envelope of `data`: the defaults overlaid with `data`, so a key the
   * caller supplies wins over the default of the same name.
   */
  function WithDefaults(data: Dict): (env: Dict)
    ensures env.Keys == data.Keys + {"id", "jsonrpc"}
    ensures forall k :: k in data ==> env[k] == data[k]
    ensures "id" !in data ==> env["id"] == JStr("0")
    ensures "jsonrpc" !in data ==> env["jsonrpc"] == JStr("2.0")
  {
    Defaults + data
  }

  /**
   * `_attach_default_params`: build the defaults dictionary, then update it
   * in place with `data`.
   */
  method AttachDefaultParams(data: Dict) returns (payload: Dict)
    ensures payload == WithDefaults(data)
    ensures "id" in payload && "jsonrpc" in payload
  {
    payload := map["id" := JStr("0"), "jsonrpc" := JStr("2.0")];
    payload := payload + data;
  }

  /** The members section 4 of the JSON-RPC 2.0 specification defines for a request object. */
  const RequestMembers: set<string> := {"jsonrpc", "method", "params", "id"}

  /** A structured `params` value: an object or an array (section 4.2 of JSON-RPC 2.0). */
  predicate IsStructured(v: Json)
  {
    v.JObject? || v.JList?
  }

  /** An `id` is a string, a number or null (section 4 of JSON-RPC 2.0). */
  predicate IsId(v: Json)
  {
    v.JStr? || v.JInt? || v.JNull?
  }

  /**
   * A JSON-RPC 2.0 request object, read strictly: only the four defined
   * members, "jsonrpc" exactly "2.0", a string "method", structured "params"
   * when present, and a valid "id" when present.
   */
  predicate IsJsonRpcRequest(env: Dict)
  {
    && env.Keys <= RequestMembers
    && "jsonrpc" in env && env["jsonrpc"] == JStr("2.0")
    && "method" in env && env["method"].JStr?
    && ("params" in env ==> IsStructured(env["params"]))
    && ("id" in env ==> IsId(env["id"]))
  }

  /**
   * Exactly which dictionaries the client turns into JSON-RPC 2.0 requests:
   * those that name a string method, add no member beyond the four defined
   * ones, carry structured params if any, and do not override the protocol
   * tag or the id with something invalid.
   */
  lemma EnvelopeConformsIff(data: Dict)
    ensures IsJsonRpcRequest(WithDefaults(data)) <==>
      && data.Keys <= RequestMembers
      && "method" in data && data["method"].JStr?
      && ("params" in data ==> IsStructured(data["params"]))
      && ("jsonrpc" in data ==> data["jsonrpc"] == JStr("2.0"))
      && ("id" in data ==> IsId(data["id"]))
  {
  }
}
