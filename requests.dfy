/**
 * What the request builders put on the wire once `_send` has attached the
 * envelope: the two standard shapes always give JSON-RPC 2.0 request
 * objects, and the builders that depart from those shapes are stated one by
 * one.
 */
module Requests {
  import opened Wrappers
  import opened JsonValues
  import opened Envelope
  import B = Builders

  /**
   * A builder of the usual shape posts exactly id, jsonrpc, method and
   * params: a JSON-RPC 2.0 request whatever the name and parameters.
   */
  lemma WithParamsEnvelope(name: string, params: Dict, decoder: string)
    ensures var env := WithDefaults(B.WithParams(name, params, decoder).args);
      && env.Keys == {"id", "jsonrpc", "method", "params"}
      && env["id"] == JStr("0") && env["jsonrpc"] == JStr("2.0")
      && env["method"] == JStr(name) && env["params"] == JObject(params)
      && IsJsonRpcRequest(env)
  {
  }

  /** A builder without arguments posts exactly id, jsonrpc and method, and no params. */
  lemma NoParamsEnvelope(name: string, decoder: string)
    ensures var env := WithDefaults(B.NoParams(name, decoder).args);
      && env.Keys == {"id", "jsonrpc", "method"}
      && env["id"] == JStr("0") && env["jsonrpc"] == JStr("2.0")
      && env["method"] == JStr(name)
      && IsJsonRpcRequest(env)
  {
  }

  /**
   * The methods declared without arguments (all but get_account_tags, and
   * describe_transfer, which is left out) post exactly id, jsonrpc and their
   * own method name, with no params, and decode with their own Result member:
   * here `get_height`, `store`, `stop_wallet` and `rescan_blockchain`.
   */
  lemma ArgumentlessEnvelopes1()
    ensures var env := WithDefaults(B.GetHeight().args);
      && env.Keys == {"id", "jsonrpc", "method"} && env["method"] == JStr("get_height")
      && B.GetHeight().decoder == "GetHeight" && IsJsonRpcRequest(env)
    ensures var env := WithDefaults(B.Store().args);
      && env.Keys == {"id", "jsonrpc", "method"} && env["method"] == JStr("store")
      && B.Store().decoder == "Store" && IsJsonRpcRequest(env)
    ensures var env := WithDefaults(B.StopWallet().args);
      && env.Keys == {"id", "jsonrpc", "method"} && env["method"] == JStr("stop_wallet")
      && B.StopWallet().decoder == "StopWallet" && IsJsonRpcRequest(env)
    ensures var env := WithDefaults(B.RescanBlockchain().args);
      && env.Keys == {"id", "jsonrpc", "method"} && env["method"] == JStr("rescan_blockchain")
      && B.RescanBlockchain().decoder == "RescanBlockchain" && IsJsonRpcRequest(env)
  {
    NoParamsEnvelope("get_height", "GetHeight");
    NoParamsEnvelope("store", "Store");
    NoParamsEnvelope("stop_wallet", "StopWallet");
    NoParamsEnvelope("rescan_blockchain", "RescanBlockchain");
  }

  /** As above, for `get_transfers`, `rescan_spent`, `stop_mining` and `get_languages`. */
  lemma ArgumentlessEnvelopes2()
    ensures var env := WithDefaults(B.GetTransfers().args);
      && env.Keys == {"id", "jsonrpc", "method"} && env["method"] == JStr("get_transfers")
      && B.GetTransfers().decoder == "GetTransfers" && IsJsonRpcRequest(env)
    ensures var env := WithDefaults(B.RescanSpent().args);
      && env.Keys == {"id", "jsonrpc", "method"} && env["method"] == JStr("rescan_spent")
      && B.RescanSpent().decoder == "RescanSpent" && IsJsonRpcRequest(env)
    ensures var env := WithDefaults(B.StopMining().args);
      && env.Keys == {"id", "jsonrpc", "method"} && env["method"] == JStr("stop_mining")
      && B.StopMining().decoder == "StopMining" && IsJsonRpcRequest(env)
    ensures var env := WithDefaults(B.GetLanguages().args);
      && env.Keys == {"id", "jsonrpc", "method"} && env["method"] == JStr("get_languages")
      && B.GetLanguages().decoder == "GetLanguages" && IsJsonRpcRequest(env)
  {
    NoParamsEnvelope("get_transfers", "GetTransfers");
    NoParamsEnvelope("rescan_spent", "RescanSpent");
    NoParamsEnvelope("stop_mining", "StopMining");
    NoParamsEnvelope("get_languages", "GetLanguages");
  }

  /** As above, for `close_wallet`, `is_multisig`, `prepare_multisig` and `get_version`. */
  lemma ArgumentlessEnvelopes3()
    ensures var env := WithDefaults(B.CloseWallet().args);
      && env.Keys == {"id", "jsonrpc", "method"} && env["method"] == JStr("close_wallet")
      && B.CloseWallet().decoder == "CloseWallet" && IsJsonRpcRequest(env)
    ensures var env := WithDefaults(B.IsMultisig().args);
      && env.Keys == {"id", "jsonrpc", "method"} && env["method"] == JStr("is_multisig")
      && B.IsMultisig().decoder == "IsMultisig" && IsJsonRpcRequest(env)
    ensures var env := WithDefaults(B.PrepareMultisig().args);
      && env.Keys == {"id", "jsonrpc", "method"} && env["method"] == JStr("prepare_multisig")
      && B.PrepareMultisig().decoder == "PrepareMultisig" && IsJsonRpcRequest(env)
    ensures var env := WithDefaults(B.GetVersion().args);
      && env.Keys == {"id", "jsonrpc", "method"} && env["method"] == JStr("get_version")
      && B.GetVersion().decoder == "GetVersion" && IsJsonRpcRequest(env)
  {
    NoParamsEnvelope("close_wallet", "CloseWallet");
    NoParamsEnvelope("is_multisig", "IsMultisig");
    NoParamsEnvelope("prepare_multisig", "PrepareMultisig");
    NoParamsEnvelope("get_version", "GetVersion");
  }

  /** `get_account_tags` sends the empty string as "params", which JSON-RPC 2.0 does not allow. */
  lemma GetAccountTagsStringParams()
    ensures var env := WithDefaults(B.GetAccountTags().args);
      && env.Keys == {"id", "jsonrpc", "method", "params"}
      && env["params"] == JStr("")
      && !IsJsonRpcRequest(env)
  {
  }

  /**
   * Both sweeps name "sweep_all" under "methods" and have no "method" member,
   * so neither envelope is a JSON-RPC 2.0 request; `sweep_single` also
   * decodes its reply as a `sweep_all` result.
   */
  lemma SweepsUseMethodsKey(
    address: string, accountIndex: int, keyImage: string, subaddrIndices: seq<int>,
    priority: int, mixin: int, ringSize: int, unlockTime: int, getTxKeys: Option<bool>,
    belowAmount: Option<int>, doNotRelay: bool, getTxHex: bool, getTxMetadata: bool)
    ensures var c := B.SweepAll(address, accountIndex, subaddrIndices, priority, mixin, ringSize,
                                unlockTime, getTxKeys, belowAmount, doNotRelay, getTxHex, getTxMetadata);
      && c.args.Keys == {"methods", "params"} && c.args["methods"] == JStr("sweep_all")
      && c.decoder == "SweepAll" && !IsJsonRpcRequest(WithDefaults(c.args))
    ensures var c := B.SweepSingle(address, accountIndex, keyImage, subaddrIndices, priority, mixin, ringSize,
                                   unlockTime, getTxKeys, belowAmount, doNotRelay, getTxHex, getTxMetadata);
      && c.args.Keys == {"methods", "params"} && c.args["methods"] == JStr("sweep_all")
      && c.decoder == "SweepAll" && !IsJsonRpcRequest(WithDefaults(c.args))
  {
  }

  /** `get_balance()` with its default arguments. */
  lemma GetBalanceDefaults()
    ensures B.GetBalance().args ==
      map["method" := JStr("get_balance"),
          "params" := JObject(map["account_index" := JInt(0), "address_indices" := JList([JInt(0)])])]
  {
    assert Ints([0]).items == [JInt(0)];
  }

  /** `label_address` nests the two indices under "index". */
  lemma LabelAddressParams(major: int, minor: int, labelText: string)
    ensures B.LabelAddress(major, minor, labelText).args["params"] ==
      JObject(map["index" := JObject(map["major" := JInt(major), "minor" := JInt(minor)]), "label" := JStr(labelText)])
  {
  }

  /** `tag_accounts` sends its tag under "tags", and sends no "tag". */
  lemma TagAccountsKeys(tag: string, accounts: seq<int>)
    ensures B.TagAccounts(tag, accounts).args["params"].JObject?
    ensures B.TagAccounts(tag, accounts).args["params"].fields.Keys == {"tags", "accounts"}
    ensures B.TagAccounts(tag, accounts).args["params"].fields["tags"] == JStr(tag)
  {
  }

  /** `transfer_split` sends its `get_tx_keys` argument as "get_tx_key", and sends no "get_tx_keys". */
  lemma TransferSplitTxKeyName(
    destinations: Json, accountIndex: int, subaddressIndices: seq<int>, mixin: int, ringSize: int,
    unlockTime: int, getTxKeys: bool, priority: int, doNotRelay: bool, getTxHex: bool,
    newAlgorithm: bool, getTxMetadata: bool)
    ensures var p := B.TransferSplit(destinations, accountIndex, subaddressIndices, mixin, ringSize,
                       unlockTime, getTxKeys, priority, doNotRelay, getTxHex, newAlgorithm, getTxMetadata).args["params"];
      && p.JObject?
      && "get_tx_keys" !in p.fields
      && p.fields["get_tx_key"] == JBool(getTxKeys)
  {
  }

  /**
   * `get_transfer_by_txid` puts both arguments beside "method", with no
   * "params", so its envelope is not a JSON-RPC 2.0 request.
   */
  lemma GetTransferByTxidTopLevel(txid: string, accountIndex: int)
    ensures var env := WithDefaults(B.GetTransferByTxid(txid, accountIndex).args);
      && env.Keys == {"id", "jsonrpc", "method", "txid", "account_index"}
      && env["method"] == JStr("get_transfer_by_txid")
      && env["txid"] == JStr(txid)
      && env["account_index"] == JInt(accountIndex)
      && !IsJsonRpcRequest(env)
  {
  }

  /** A call of the usual shape, read off the call itself. */
  lemma UsualShapeConforms(c: B.Call)
    requires c.args.Keys == {"method", "params"}
    requires c.args["method"].JStr? && c.args["params"].JObject?
    ensures IsJsonRpcRequest(WithDefaults(c.args))
  {
  }

  /** The "Accounts and addresses" builders that take arguments post JSON-RPC 2.0 requests, whatever the arguments. */
  lemma AccountsAddressesConform()
    ensures forall accountIndex: int, addressIndices: seq<int> ::
      IsJsonRpcRequest(WithDefaults(B.GetBalance(accountIndex, addressIndices).args))
    ensures forall address: string :: IsJsonRpcRequest(WithDefaults(B.GetAddressIndex(address).args))
    ensures forall accountIndex: int, labelText: Option<string> ::
      IsJsonRpcRequest(WithDefaults(B.CreateAddress(accountIndex, labelText).args))
    ensures forall majorIndex: int, minorIndex: int, labelText: string ::
      IsJsonRpcRequest(WithDefaults(B.LabelAddress(majorIndex, minorIndex, labelText).args))
    ensures forall address: string, anyNetType: bool, allowOpenalias: bool ::
      IsJsonRpcRequest(WithDefaults(B.ValidateAddress(address, anyNetType, allowOpenalias).args))
    ensures forall tag: Option<string> :: IsJsonRpcRequest(WithDefaults(B.GetAccounts(tag).args))
    ensures forall labelText: Option<string> ::
      IsJsonRpcRequest(WithDefaults(B.CreateAccount(labelText).args))
    ensures forall accountIndex: int, labelText: string ::
      IsJsonRpcRequest(WithDefaults(B.LabelAccount(accountIndex, labelText).args))
    ensures forall tag: string, accounts: seq<int> ::
      IsJsonRpcRequest(WithDefaults(B.TagAccounts(tag, accounts).args))
    ensures forall accounts: seq<int> :: IsJsonRpcRequest(WithDefaults(B.UntagAccounts(accounts).args))
    ensures forall tag: string, description: string ::
      IsJsonRpcRequest(WithDefaults(B.SetAccountTagDescription(tag, description).args))
  {
    forall accountIndex: int, addressIndices: seq<int>
      ensures IsJsonRpcRequest(WithDefaults(B.GetBalance(accountIndex, addressIndices).args)) {
      UsualShapeConforms(B.GetBalance(accountIndex, addressIndices));
    }
    forall address: string ensures IsJsonRpcRequest(WithDefaults(B.GetAddressIndex(address).args)) {
      UsualShapeConforms(B.GetAddressIndex(address));
    }
    forall accountIndex: int, labelText: Option<string>
      ensures IsJsonRpcRequest(WithDefaults(B.CreateAddress(accountIndex, labelText).args)) {
      UsualShapeConforms(B.CreateAddress(accountIndex, labelText));
    }
    forall majorIndex: int, minorIndex: int, labelText: string
      ensures IsJsonRpcRequest(WithDefaults(B.LabelAddress(majorIndex, minorIndex, labelText).args)) {
      UsualShapeConforms(B.LabelAddress(majorIndex, minorIndex, labelText));
    }
    forall address: string, anyNetType: bool, allowOpenalias: bool
      ensures IsJsonRpcRequest(WithDefaults(B.ValidateAddress(address, anyNetType, allowOpenalias).args)) {
      UsualShapeConforms(B.ValidateAddress(address, anyNetType, allowOpenalias));
    }
    forall tag: Option<string> ensures IsJsonRpcRequest(WithDefaults(B.GetAccounts(tag).args)) {
      UsualShapeConforms(B.GetAccounts(tag));
    }
    forall labelText: Option<string> ensures IsJsonRpcRequest(WithDefaults(B.CreateAccount(labelText).args)) {
      UsualShapeConforms(B.CreateAccount(labelText));
    }
    forall accountIndex: int, labelText: string
      ensures IsJsonRpcRequest(WithDefaults(B.LabelAccount(accountIndex, labelText).args)) {
      UsualShapeConforms(B.LabelAccount(accountIndex, labelText));
    }
    forall tag: string, accounts: seq<int>
      ensures IsJsonRpcRequest(WithDefaults(B.TagAccounts(tag, accounts).args)) {
      UsualShapeConforms(B.TagAccounts(tag, accounts));
    }
    forall accounts: seq<int> ensures IsJsonRpcRequest(WithDefaults(B.UntagAccounts(accounts).args)) {
      UsualShapeConforms(B.UntagAccounts(accounts));
    }
    forall tag: string, description: string
      ensures IsJsonRpcRequest(WithDefaults(B.SetAccountTagDescription(tag, description).args)) {
      UsualShapeConforms(B.SetAccountTagDescription(tag, description));
    }
  }

  /** The "Transfers" builders other than the two sweeps post JSON-RPC 2.0 requests, whatever the arguments. */
  lemma TransfersConform()
    ensures forall destinations: Json, accountIndex: Json, subaddrIndices: Json, priority: Json, mixin: Json, ringSize: Json, unlockTime: Json, getTxKey: Json, doNotRelay: Json, getTxHex: Json, getTxMetadata: Json ::
      IsJsonRpcRequest(WithDefaults(B.Transfer(destinations, accountIndex, subaddrIndices, priority, mixin, ringSize, unlockTime, getTxKey, doNotRelay, getTxHex, getTxMetadata).args))
    ensures forall destinations: Json, accountIndex: int, subaddressIndices: seq<int>, mixin: int, ringSize: int, unlockTime: int, getTxKeys: bool, priority: int, doNotRelay: bool, getTxHex: bool, newAlgorithm: bool, getTxMetadata: bool ::
      IsJsonRpcRequest(WithDefaults(B.TransferSplit(destinations, accountIndex, subaddressIndices, mixin, ringSize, unlockTime, getTxKeys, priority, doNotRelay, getTxHex, newAlgorithm, getTxMetadata).args))
    ensures forall unsignedTxset: Json, exportRaw: Json ::
      IsJsonRpcRequest(WithDefaults(B.SignTransfer(unsignedTxset, exportRaw).args))
    ensures forall txDataHex: Json :: IsJsonRpcRequest(WithDefaults(B.SubmitTransfer(txDataHex).args))
    ensures forall getTxKeys: bool, doNotRelay: bool, getTxHex: bool, getTxMetadata: bool ::
      IsJsonRpcRequest(WithDefaults(B.SweepDust(getTxKeys, doNotRelay, getTxHex, getTxMetadata).args))
    ensures forall txHex: string :: IsJsonRpcRequest(WithDefaults(B.RelayTx(txHex).args))
    ensures forall paymentId: string :: IsJsonRpcRequest(WithDefaults(B.GetPayments(paymentId).args))
    ensures forall paymentIds: seq<string>, minBlockHeight: int ::
      IsJsonRpcRequest(WithDefaults(B.GetBulkPayments(paymentIds, minBlockHeight).args))
    ensures forall transferType: string, accountIndex: int, subaddrIndices: Option<seq<int>> ::
      IsJsonRpcRequest(WithDefaults(B.IncomingTransfers(transferType, accountIndex, subaddrIndices).args))
    ensures forall keyType: string :: IsJsonRpcRequest(WithDefaults(B.QueryKey(keyType).args))
    ensures forall standardAddress: Option<string>, paymentId: Option<string> ::
      IsJsonRpcRequest(WithDefaults(B.MakeIntegratedAddress(standardAddress, paymentId).args))
    ensures forall integratedAddress: string ::
      IsJsonRpcRequest(WithDefaults(B.SplitIntegratedAddress(integratedAddress).args))
  {
    forall destinations: Json, accountIndex: Json, subaddrIndices: Json, priority: Json, mixin: Json, ringSize: Json, unlockTime: Json, getTxKey: Json, doNotRelay: Json, getTxHex: Json, getTxMetadata: Json
      ensures IsJsonRpcRequest(WithDefaults(B.Transfer(destinations, accountIndex, subaddrIndices, priority, mixin, ringSize, unlockTime, getTxKey, doNotRelay, getTxHex, getTxMetadata).args)) {
      UsualShapeConforms(B.Transfer(destinations, accountIndex, subaddrIndices, priority, mixin, ringSize, unlockTime, getTxKey, doNotRelay, getTxHex, getTxMetadata));
    }
    forall destinations: Json, accountIndex: int, subaddressIndices: seq<int>, mixin: int, ringSize: int, unlockTime: int, getTxKeys: bool, priority: int, doNotRelay: bool, getTxHex: bool, newAlgorithm: bool, getTxMetadata: bool
      ensures IsJsonRpcRequest(WithDefaults(B.TransferSplit(destinations, accountIndex, subaddressIndices, mixin, ringSize, unlockTime, getTxKeys, priority, doNotRelay, getTxHex, newAlgorithm, getTxMetadata).args)) {
      UsualShapeConforms(B.TransferSplit(destinations, accountIndex, subaddressIndices, mixin, ringSize, unlockTime, getTxKeys, priority, doNotRelay, getTxHex, newAlgorithm, getTxMetadata));
    }
    forall unsignedTxset: Json, exportRaw: Json
      ensures IsJsonRpcRequest(WithDefaults(B.SignTransfer(unsignedTxset, exportRaw).args)) {
      UsualShapeConforms(B.SignTransfer(unsignedTxset, exportRaw));
    }
    forall txDataHex: Json ensures IsJsonRpcRequest(WithDefaults(B.SubmitTransfer(txDataHex).args)) {
      UsualShapeConforms(B.SubmitTransfer(txDataHex));
    }
    forall getTxKeys: bool, doNotRelay: bool, getTxHex: bool, getTxMetadata: bool
      ensures IsJsonRpcRequest(WithDefaults(B.SweepDust(getTxKeys, doNotRelay, getTxHex, getTxMetadata).args)) {
      UsualShapeConforms(B.SweepDust(getTxKeys, doNotRelay, getTxHex, getTxMetadata));
    }
    forall txHex: string ensures IsJsonRpcRequest(WithDefaults(B.RelayTx(txHex).args)) {
      UsualShapeConforms(B.RelayTx(txHex));
    }
    forall paymentId: string ensures IsJsonRpcRequest(WithDefaults(B.GetPayments(paymentId).args)) {
      UsualShapeConforms(B.GetPayments(paymentId));
    }
    forall paymentIds: seq<string>, minBlockHeight: int
      ensures IsJsonRpcRequest(WithDefaults(B.GetBulkPayments(paymentIds, minBlockHeight).args)) {
      UsualShapeConforms(B.GetBulkPayments(paymentIds, minBlockHeight));
    }
    forall transferType: string, accountIndex: int, subaddrIndices: Option<seq<int>>
      ensures IsJsonRpcRequest(WithDefaults(B.IncomingTransfers(transferType, accountIndex, subaddrIndices).args)) {
      UsualShapeConforms(B.IncomingTransfers(transferType, accountIndex, subaddrIndices));
    }
    forall keyType: string ensures IsJsonRpcRequest(WithDefaults(B.QueryKey(keyType).args)) {
      UsualShapeConforms(B.QueryKey(keyType));
    }
    forall standardAddress: Option<string>, paymentId: Option<string>
      ensures IsJsonRpcRequest(WithDefaults(B.MakeIntegratedAddress(standardAddress, paymentId).args)) {
      UsualShapeConforms(B.MakeIntegratedAddress(standardAddress, paymentId));
    }
    forall integratedAddress: string
      ensures IsJsonRpcRequest(WithDefaults(B.SplitIntegratedAddress(integratedAddress).args)) {
      UsualShapeConforms(B.SplitIntegratedAddress(integratedAddress));
    }
  }

  /** The "Notes, attributes and proofs" builders that take arguments post JSON-RPC 2.0 requests, whatever the arguments. */
  lemma NotesAttributesProofsConform()
    ensures forall txids: seq<string>, notes: seq<string> ::
      IsJsonRpcRequest(WithDefaults(B.SetTxNotes(txids, notes).args))
    ensures forall txids: seq<string> :: IsJsonRpcRequest(WithDefaults(B.GetTxNotes(txids).args))
    ensures forall key: string, value: string ::
      IsJsonRpcRequest(WithDefaults(B.SetAttribute(key, value).args))
    ensures forall key: string :: IsJsonRpcRequest(WithDefaults(B.GetAttribute(key).args))
    ensures forall txid: string :: IsJsonRpcRequest(WithDefaults(B.GetTxKey(txid).args))
    ensures forall txid: string, txKey: string, address: string ::
      IsJsonRpcRequest(WithDefaults(B.CheckTxKey(txid, txKey, address).args))
    ensures forall txid: string, address: string, message: Option<string> ::
      IsJsonRpcRequest(WithDefaults(B.GetTxProof(txid, address, message).args))
    ensures forall txid: string, address: string, signature: string, message: Option<string> ::
      IsJsonRpcRequest(WithDefaults(B.CheckTxProof(txid, address, signature, message).args))
    ensures forall txid: string, message: Option<string> ::
      IsJsonRpcRequest(WithDefaults(B.GetSpendProof(txid, message).args))
    ensures forall txid: string, signature: string, message: Option<string> ::
      IsJsonRpcRequest(WithDefaults(B.CheckSpendProof(txid, signature, message).args))
    ensures forall all: bool, accountIndex: int, amount: int, message: Option<string> ::
      IsJsonRpcRequest(WithDefaults(B.GetReserveProof(all, accountIndex, amount, message).args))
    ensures forall address: string, signature: string, message: Option<string> ::
      IsJsonRpcRequest(WithDefaults(B.CheckReserveProof(address, signature, message).args))
    ensures forall data: string :: IsJsonRpcRequest(WithDefaults(B.Sign(data).args))
    ensures forall data: string, address: string, signature: string ::
      IsJsonRpcRequest(WithDefaults(B.Verify(data, address, signature).args))
  {
    forall txids: seq<string>, notes: seq<string>
      ensures IsJsonRpcRequest(WithDefaults(B.SetTxNotes(txids, notes).args)) {
      UsualShapeConforms(B.SetTxNotes(txids, notes));
    }
    forall txids: seq<string> ensures IsJsonRpcRequest(WithDefaults(B.GetTxNotes(txids).args)) {
      UsualShapeConforms(B.GetTxNotes(txids));
    }
    forall key: string, value: string
      ensures IsJsonRpcRequest(WithDefaults(B.SetAttribute(key, value).args)) {
      UsualShapeConforms(B.SetAttribute(key, value));
    }
    forall key: string ensures IsJsonRpcRequest(WithDefaults(B.GetAttribute(key).args)) {
      UsualShapeConforms(B.GetAttribute(key));
    }
    forall txid: string ensures IsJsonRpcRequest(WithDefaults(B.GetTxKey(txid).args)) {
      UsualShapeConforms(B.GetTxKey(txid));
    }
    forall txid: string, txKey: string, address: string
      ensures IsJsonRpcRequest(WithDefaults(B.CheckTxKey(txid, txKey, address).args)) {
      UsualShapeConforms(B.CheckTxKey(txid, txKey, address));
    }
    forall txid: string, address: string, message: Option<string>
      ensures IsJsonRpcRequest(WithDefaults(B.GetTxProof(txid, address, message).args)) {
      UsualShapeConforms(B.GetTxProof(txid, address, message));
    }
    forall txid: string, address: string, signature: string, message: Option<string>
      ensures IsJsonRpcRequest(WithDefaults(B.CheckTxProof(txid, address, signature, message).args)) {
      UsualShapeConforms(B.CheckTxProof(txid, address, signature, message));
    }
    forall txid: string, message: Option<string>
      ensures IsJsonRpcRequest(WithDefaults(B.GetSpendProof(txid, message).args)) {
      UsualShapeConforms(B.GetSpendProof(txid, message));
    }
    forall txid: string, signature: string, message: Option<string>
      ensures IsJsonRpcRequest(WithDefaults(B.CheckSpendProof(txid, signature, message).args)) {
      UsualShapeConforms(B.CheckSpendProof(txid, signature, message));
    }
    forall all: bool, accountIndex: int, amount: int, message: Option<string>
      ensures IsJsonRpcRequest(WithDefaults(B.GetReserveProof(all, accountIndex, amount, message).args)) {
      UsualShapeConforms(B.GetReserveProof(all, accountIndex, amount, message));
    }
    forall address: string, signature: string, message: Option<string>
      ensures IsJsonRpcRequest(WithDefaults(B.CheckReserveProof(address, signature, message).args)) {
      UsualShapeConforms(B.CheckReserveProof(address, signature, message));
    }
    forall data: string ensures IsJsonRpcRequest(WithDefaults(B.Sign(data).args)) {
      UsualShapeConforms(B.Sign(data));
    }
    forall data: string, address: string, signature: string
      ensures IsJsonRpcRequest(WithDefaults(B.Verify(data, address, signature).args)) {
      UsualShapeConforms(B.Verify(data, address, signature));
    }
  }

  /** The "Outputs, key images and URIs" builders that take arguments post JSON-RPC 2.0 requests, whatever the arguments. */
  lemma OutputsKeyImagesUrisConform()
    ensures forall all: bool :: IsJsonRpcRequest(WithDefaults(B.ExportOutputs(all).args))
    ensures forall outputsDataHex: string ::
      IsJsonRpcRequest(WithDefaults(B.ImportOutputs(outputsDataHex).args))
    ensures forall all: bool :: IsJsonRpcRequest(WithDefaults(B.ExportKeyImages(all).args))
    ensures forall signedKeyImages: Json ::
      IsJsonRpcRequest(WithDefaults(B.ImportKeyImages(signedKeyImages).args))
    ensures forall address: string, amount: Option<int>, paymentId: Option<string>, recipientName: Option<string>, txDescription: Option<string> ::
      IsJsonRpcRequest(WithDefaults(B.MakeUri(address, amount, paymentId, recipientName, txDescription).args))
    ensures forall uri: string :: IsJsonRpcRequest(WithDefaults(B.ParseUri(uri).args))
  {
    forall all: bool ensures IsJsonRpcRequest(WithDefaults(B.ExportOutputs(all).args)) {
      UsualShapeConforms(B.ExportOutputs(all));
    }
    forall outputsDataHex: string
      ensures IsJsonRpcRequest(WithDefaults(B.ImportOutputs(outputsDataHex).args)) {
      UsualShapeConforms(B.ImportOutputs(outputsDataHex));
    }
    forall all: bool ensures IsJsonRpcRequest(WithDefaults(B.ExportKeyImages(all).args)) {
      UsualShapeConforms(B.ExportKeyImages(all));
    }
    forall signedKeyImages: Json
      ensures IsJsonRpcRequest(WithDefaults(B.ImportKeyImages(signedKeyImages).args)) {
      UsualShapeConforms(B.ImportKeyImages(signedKeyImages));
    }
    forall address: string, amount: Option<int>, paymentId: Option<string>, recipientName: Option<string>, txDescription: Option<string>
      ensures IsJsonRpcRequest(WithDefaults(B.MakeUri(address, amount, paymentId, recipientName, txDescription).args)) {
      UsualShapeConforms(B.MakeUri(address, amount, paymentId, recipientName, txDescription));
    }
    forall uri: string ensures IsJsonRpcRequest(WithDefaults(B.ParseUri(uri).args)) {
      UsualShapeConforms(B.ParseUri(uri));
    }
  }

  /** The "Address book" builders that take arguments post JSON-RPC 2.0 requests, whatever the arguments. */
  lemma AddressBookConform()
    ensures forall entries: seq<int> :: IsJsonRpcRequest(WithDefaults(B.GetAddressBook(entries).args))
    ensures forall address: string, paymentId: Option<string>, description: Option<string> ::
      IsJsonRpcRequest(WithDefaults(B.AddAddressBook(address, paymentId, description).args))
    ensures forall index: int, setAddress: bool, setDescription: bool, setPaymentId: bool, address: Option<string>, description: Option<string>, paymentId: Option<string> ::
      IsJsonRpcRequest(WithDefaults(B.EditAddressBook(index, setAddress, setDescription, setPaymentId, address, description, paymentId).args))
    ensures forall index: int :: IsJsonRpcRequest(WithDefaults(B.DeleteAddressBook(index).args))
  {
    forall entries: seq<int> ensures IsJsonRpcRequest(WithDefaults(B.GetAddressBook(entries).args)) {
      UsualShapeConforms(B.GetAddressBook(entries));
    }
    forall address: string, paymentId: Option<string>, description: Option<string>
      ensures IsJsonRpcRequest(WithDefaults(B.AddAddressBook(address, paymentId, description).args)) {
      UsualShapeConforms(B.AddAddressBook(address, paymentId, description));
    }
    forall index: int, setAddress: bool, setDescription: bool, setPaymentId: bool, address: Option<string>, description: Option<string>, paymentId: Option<string>
      ensures IsJsonRpcRequest(WithDefaults(B.EditAddressBook(index, setAddress, setDescription, setPaymentId, address, description, paymentId).args)) {
      UsualShapeConforms(B.EditAddressBook(index, setAddress, setDescription, setPaymentId, address, description, paymentId));
    }
    forall index: int ensures IsJsonRpcRequest(WithDefaults(B.DeleteAddressBook(index).args)) {
      UsualShapeConforms(B.DeleteAddressBook(index));
    }
  }

  /** The "Refreshing and mining" builders that take arguments post JSON-RPC 2.0 requests, whatever the arguments. */
  lemma RefreshingMiningConform()
    ensures forall startHeight: int :: IsJsonRpcRequest(WithDefaults(B.Refresh(startHeight).args))
    ensures forall enable: bool :: IsJsonRpcRequest(WithDefaults(B.AutoRefresh(enable).args))
    ensures forall threadsCount: int, doBackgroundMining: bool, ignoreBattery: bool ::
      IsJsonRpcRequest(WithDefaults(B.StartMining(threadsCount, doBackgroundMining, ignoreBattery).args))
  {
    forall startHeight: int ensures IsJsonRpcRequest(WithDefaults(B.Refresh(startHeight).args)) {
      UsualShapeConforms(B.Refresh(startHeight));
    }
    forall enable: bool ensures IsJsonRpcRequest(WithDefaults(B.AutoRefresh(enable).args)) {
      UsualShapeConforms(B.AutoRefresh(enable));
    }
    forall threadsCount: int, doBackgroundMining: bool, ignoreBattery: bool
      ensures IsJsonRpcRequest(WithDefaults(B.StartMining(threadsCount, doBackgroundMining, ignoreBattery).args)) {
      UsualShapeConforms(B.StartMining(threadsCount, doBackgroundMining, ignoreBattery));
    }
  }

  /** The "Wallet files" builders that take arguments post JSON-RPC 2.0 requests, whatever the arguments. */
  lemma WalletFilesConform()
    ensures forall filename: string, password: string, language: string ::
      IsJsonRpcRequest(WithDefaults(B.CreateWallet(filename, password, language).args))
    ensures forall filename: string, address: string, viewkey: string, password: string, autosaveCurrent: bool, spendkey: Option<string>, restoreHeight: int ::
      IsJsonRpcRequest(WithDefaults(B.GenerateFromKeys(filename, address, viewkey, password, autosaveCurrent, spendkey, restoreHeight).args))
    ensures forall filename: string, password: string ::
      IsJsonRpcRequest(WithDefaults(B.OpenWallet(filename, password).args))
    ensures forall name: string, password: string, seed: string, restoreHeight: int, language: Option<string>, seedOffset: Option<string>, autosaveCurrent: bool ::
      IsJsonRpcRequest(WithDefaults(B.RestoreDeterministicWallet(name, password, seed, restoreHeight, language, seedOffset, autosaveCurrent).args))
    ensures forall oldPassword: string, newPassword: string ::
      IsJsonRpcRequest(WithDefaults(B.ChangeWalletPassword(oldPassword, newPassword).args))
  {
    forall filename: string, password: string, language: string
      ensures IsJsonRpcRequest(WithDefaults(B.CreateWallet(filename, password, language).args)) {
      UsualShapeConforms(B.CreateWallet(filename, password, language));
    }
    forall filename: string, address: string, viewkey: string, password: string, autosaveCurrent: bool, spendkey: Option<string>, restoreHeight: int
      ensures IsJsonRpcRequest(WithDefaults(B.GenerateFromKeys(filename, address, viewkey, password, autosaveCurrent, spendkey, restoreHeight).args)) {
      UsualShapeConforms(B.GenerateFromKeys(filename, address, viewkey, password, autosaveCurrent, spendkey, restoreHeight));
    }
    forall filename: string, password: string
      ensures IsJsonRpcRequest(WithDefaults(B.OpenWallet(filename, password).args)) {
      UsualShapeConforms(B.OpenWallet(filename, password));
    }
    forall name: string, password: string, seed: string, restoreHeight: int, language: Option<string>, seedOffset: Option<string>, autosaveCurrent: bool
      ensures IsJsonRpcRequest(WithDefaults(B.RestoreDeterministicWallet(name, password, seed, restoreHeight, language, seedOffset, autosaveCurrent).args)) {
      UsualShapeConforms(B.RestoreDeterministicWallet(name, password, seed, restoreHeight, language, seedOffset, autosaveCurrent));
    }
    forall oldPassword: string, newPassword: string
      ensures IsJsonRpcRequest(WithDefaults(B.ChangeWalletPassword(oldPassword, newPassword).args)) {
      UsualShapeConforms(B.ChangeWalletPassword(oldPassword, newPassword));
    }
  }

  /** The "Multisig" builders that take arguments post JSON-RPC 2.0 requests, whatever the arguments. */
  lemma MultisigConform()
    ensures forall multisigInfo: seq<string>, threshold: int, password: string ::
      IsJsonRpcRequest(WithDefaults(B.MakeMultisig(multisigInfo, threshold, password).args))
    ensures forall info: string :: IsJsonRpcRequest(WithDefaults(B.ExportMultisigInfo(info).args))
    ensures forall info: seq<string> :: IsJsonRpcRequest(WithDefaults(B.ImportMultisigInfo(info).args))
    ensures forall multisigInfo: seq<string>, password: string ::
      IsJsonRpcRequest(WithDefaults(B.FinalizeMultisig(multisigInfo, password).args))
    ensures forall txDataHex: string :: IsJsonRpcRequest(WithDefaults(B.SignMultisig(txDataHex).args))
    ensures forall txDataHex: string :: IsJsonRpcRequest(WithDefaults(B.SubmitMultisig(txDataHex).args))
  {
    forall multisigInfo: seq<string>, threshold: int, password: string
      ensures IsJsonRpcRequest(WithDefaults(B.MakeMultisig(multisigInfo, threshold, password).args)) {
      UsualShapeConforms(B.MakeMultisig(multisigInfo, threshold, password));
    }
    forall info: string ensures IsJsonRpcRequest(WithDefaults(B.ExportMultisigInfo(info).args)) {
      UsualShapeConforms(B.ExportMultisigInfo(info));
    }
    forall info: seq<string> ensures IsJsonRpcRequest(WithDefaults(B.ImportMultisigInfo(info).args)) {
      UsualShapeConforms(B.ImportMultisigInfo(info));
    }
    forall multisigInfo: seq<string>, password: string
      ensures IsJsonRpcRequest(WithDefaults(B.FinalizeMultisig(multisigInfo, password).args)) {
      UsualShapeConforms(B.FinalizeMultisig(multisigInfo, password));
    }
    forall txDataHex: string ensures IsJsonRpcRequest(WithDefaults(B.SignMultisig(txDataHex).args)) {
      UsualShapeConforms(B.SignMultisig(txDataHex));
    }
    forall txDataHex: string ensures IsJsonRpcRequest(WithDefaults(B.SubmitMultisig(txDataHex).args)) {
      UsualShapeConforms(B.SubmitMultisig(txDataHex));
    }
  }
}
