/**
 * The request dictionaries the wallet client's methods hand to `_send`, one
 * function per method, with the method's own default arguments. Each result
 * also names the `Result` member `_send` is asked to decode the reply with.
 *
 * `transfer`, `sign_transfer` and `submit_transfer` take arbitrary JSON
 * values because `transfer_sign_submit` calls them with whatever the caller
 * put in its keyword arguments (possibly None); the other builders take the
 * types their signatures declare.
 */
module Builders {
  import opened Wrappers
  import opened JsonValues

  /** What a client method passes to `_send`: the request dictionary and the decoder's name. */
  datatype Call = Call(args: Dict, decoder: string)

  /** The usual shape: a "method" name and a "params" object. */
  function WithParams(name: string, params: Dict, decoder: string): (c: Call)
    ensures c.args.Keys == {"method", "params"}
    ensures c.args["method"] == JStr(name) && c.args["params"] == JObject(params)
    ensures c.decoder == decoder
  {
    Call(map["method" := JStr(name), "params" := JObject(params)], decoder)
  }

  /** The shape of a method without arguments: no "params" key at all. */
  function NoParams(name: string, decoder: string): (c: Call)
    ensures c.args.Keys == {"method"}
    ensures c.args["method"] == JStr(name)
    ensures c.decoder == decoder
  {
    Call(map["method" := JStr(name)], decoder)
  }

  // Accounts and addresses

  function GetBalance(accountIndex: int := 0, addressIndices: seq<int> := [0]): Call
  {
    WithParams("get_balance", map["account_index" := Int(accountIndex), "address_indices" := Ints(addressIndices)], "GetBalance")
  }

  function GetAddressIndex(address: string): Call
  {
    WithParams("get_address_index", map["address" := Str(address)], "GetAddressIndex")
  }

  function CreateAddress(accountIndex: int, labelText: Option<string> := None): Call
  {
    WithParams("create_address", map["account_index" := Int(accountIndex), "label" := OptStr(labelText)], "CreateAddress")
  }

  function LabelAddress(majorIndex: int, minorIndex: int, labelText: string): Call
  {
    WithParams("label_address",
      map["index" := JObject(map["major" := Int(majorIndex), "minor" := Int(minorIndex)]), "label" := Str(labelText)],
      "LabelAddress")
  }

  function ValidateAddress(address: string, anyNetType: bool := false, allowOpenalias: bool := false): Call
  {
    WithParams("validate_address",
      map["address" := Str(address), "any_net_type" := Bool(anyNetType), "allow_openalias" := Bool(allowOpenalias)],
      "ValidateAddress")
  }

  function GetAccounts(tag: Option<string> := None): Call
  {
    WithParams("get_accounts", map["tag" := OptStr(tag)], "GetAccounts")
  }

  function CreateAccount(labelText: Option<string> := None): Call
  {
    WithParams("create_account", map["label" := OptStr(labelText)], "CreateAccount")
  }

  function LabelAccount(accountIndex: int, labelText: string): Call
  {
    WithParams("label_account", map["account_index" := Int(accountIndex), "label" := Str(labelText)], "LabelAccount")
  }

  /** The tag goes out under the key "tags". */
  function TagAccounts(tag: string, accounts: seq<int>): Call
  {
    WithParams("tag_accounts", map["tags" := Str(tag), "accounts" := Ints(accounts)], "TagAccounts")
  }

  /** The only method whose "params" is a string, the empty one. */
  function GetAccountTags(): Call
  {
    Call(map["method" := JStr("get_account_tags"), "params" := JStr("")], "GetAccountTags")
  }

  function UntagAccounts(accounts: seq<int>): Call
  {
    WithParams("untag_accounts", map["accounts" := Ints(accounts)], "UntagAccounts")
  }

  function SetAccountTagDescription(tag: string, description: string): Call
  {
    WithParams("set_account_tag_description", map["tag" := Str(tag), "description" := Str(description)], "SetAccountTagDescription")
  }

  function GetHeight(): Call
  {
    NoParams("get_height", "GetHeight")
  }

  // Transfers

  function Transfer(
    destinations: Json,
    accountIndex: Json := JInt(0),
    subaddrIndices: Json := JNull,
    priority: Json := JInt(0),
    mixin: Json := JInt(0),
    ringSize: Json := JInt(7),
    unlockTime: Json := JInt(0),
    getTxKey: Json := JBool(true),
    doNotRelay: Json := JBool(false),
    getTxHex: Json := JBool(false),
    getTxMetadata: Json := JBool(false)): Call
  {
    WithParams("transfer",
      map[
        "destinations" := destinations,
        "account_index" := accountIndex,
        "subaddr_indices" := subaddrIndices,
        "priority" := priority,
        "mixin" := mixin,
        "ring_size" := ringSize,
        "unlock_time" := unlockTime,
        "get_tx_key" := getTxKey,
        "do_not_relay" := doNotRelay,
        "get_tx_hex" := getTxHex,
        "get_tx_metadata" := getTxMetadata],
      "Transfer")
  }

  /** The `get_tx_keys` argument goes out under the key "get_tx_key". */
  function TransferSplit(
    destinations: Json,
    accountIndex: int := 0,
    subaddressIndices: seq<int> := [],
    mixin: int := 0,
    ringSize: int := 7,
    unlockTime: int := 0,
    getTxKeys: bool := true,
    priority: int := 0,
    doNotRelay: bool := false,
    getTxHex: bool := false,
    newAlgorithm: bool := false,
    getTxMetadata: bool := false): Call
  {
    WithParams("transfer_split",
      map[
        "destinations" := destinations,
        "account_index" := Int(accountIndex),
        "subaddress_indices" := Ints(subaddressIndices),
        "priority" := Int(priority),
        "mixin" := Int(mixin),
        "ring_size" := Int(ringSize),
        "unlock_time" := Int(unlockTime),
        "get_tx_key" := Bool(getTxKeys),
        "do_not_relay" := Bool(doNotRelay),
        "get_tx_hex" := Bool(getTxHex),
        "new_algorithm" := Bool(newAlgorithm),
        "get_tx_metadata" := Bool(getTxMetadata)],
      "TransferSplit")
  }

  /** The `unsigned_txset` argument goes out under the key "unsigned_tx_set". */
  function SignTransfer(unsignedTxset: Json, exportRaw: Json := JBool(false)): Call
  {
    WithParams("sign_transfer", map["unsigned_tx_set" := unsignedTxset, "export_raw" := exportRaw], "SignTransfer")
  }

  function SubmitTransfer(txDataHex: Json): Call
  {
    WithParams("submit_transfer", map["tx_data_hex" := txDataHex], "SubmitTransfer")
  }

  function SweepDust(getTxKeys: bool := true, doNotRelay: bool := false, getTxHex: bool := false, getTxMetadata: bool := false): Call
  {
    WithParams("sweep_dust",
      map[
        "get_tx_keys" := Bool(getTxKeys),
        "do_not_relay" := Bool(doNotRelay),
        "get_tx_hex" := Bool(getTxHex),
        "get_tx_metadata" := Bool(getTxMetadata)],
      "SweepDust")
  }

  /** Names its method under the key "methods", not "method". */
  function SweepAll(
    address: string,
    accountIndex: int,
    subaddrIndices: seq<int> := [0],
    priority: int := 0,
    mixin: int := 0,
    ringSize: int := 7,
    unlockTime: int := 0,
    getTxKeys: Option<bool> := Some(true),
    belowAmount: Option<int> := None,
    doNotRelay: bool := false,
    getTxHex: bool := false,
    getTxMetadata: bool := false): Call
  {
    Call(
      map[
        "methods" := JStr("sweep_all"),
        "params" := JObject(map[
          "address" := Str(address),
          "account_index" := Int(accountIndex),
          "subaddr_indices" := Ints(subaddrIndices),
          "priority" := Int(priority),
          "mixin" := Int(mixin),
          "ring_size" := Int(ringSize),
          "unlock_time" := Int(unlockTime),
          "get_tx_keys" := OptBool(getTxKeys),
          "below_amount" := OptInt(belowAmount),
          "do_not_relay" := Bool(doNotRelay),
          "get_tx_hex" := Bool(getTxHex),
          "get_tx_metadata" := Bool(getTxMetadata)])],
      "SweepAll")
  }

  /** Like `SweepAll`, it names "sweep_all" under "methods" and decodes with `SweepAll`. */
  function SweepSingle(
    address: string,
    accountIndex: int,
    keyImage: string,
    subaddrIndices: seq<int> := [0],
    priority: int := 0,
    mixin: int := 0,
    ringSize: int := 7,
    unlockTime: int := 0,
    getTxKeys: Option<bool> := Some(true),
    belowAmount: Option<int> := None,
    doNotRelay: bool := false,
    getTxHex: bool := false,
    getTxMetadata: bool := false): Call
  {
    Call(
      map[
        "methods" := JStr("sweep_all"),
        "params" := JObject(map[
          "address" := Str(address),
          "account_index" := Int(accountIndex),
          "subaddr_indices" := Ints(subaddrIndices),
          "priority" := Int(priority),
          "mixin" := Int(mixin),
          "ring_size" := Int(ringSize),
          "key_image" := Str(keyImage),
          "unlock_time" := Int(unlockTime),
          "get_tx_keys" := OptBool(getTxKeys),
          "below_amount" := OptInt(belowAmount),
          "do_not_relay" := Bool(doNotRelay),
          "get_tx_hex" := Bool(getTxHex),
          "get_tx_metadata" := Bool(getTxMetadata)])],
      "SweepAll")
  }

  /** The transaction hex goes out under the key "hex". */
  function RelayTx(txHex: string): Call
  {
    WithParams("relay_tx", map["hex" := Str(txHex)], "RelayTx")
  }

  function Store(): Call
  {
    NoParams("store", "Store")
  }

  function GetPayments(paymentId: string): Call
  {
    WithParams("get_payments", map["payment_id" := Str(paymentId)], "GetPayments")
  }

  function GetBulkPayments(paymentIds: seq<string>, minBlockHeight: int): Call
  {
    WithParams("get_bulk_payments", map["payment_ids" := Strs(paymentIds), "min_block_height" := Int(minBlockHeight)], "GetBulkPayments")
  }

  /** `transferType` is the string value of the caller's transfer-type enumeration member. */
  function IncomingTransfers(transferType: string, accountIndex: int := 0, subaddrIndices: Option<seq<int>> := None): Call
  {
    WithParams("incoming_transfers",
      map["transfer_type" := Str(transferType), "account_index" := Int(accountIndex), "subaddr_indices" := OptInts(subaddrIndices)],
      "IncomingTransfers")
  }

  function QueryKey(keyType: string): Call
  {
    WithParams("query_key", map["key_type" := Str(keyType)], "QueryKey")
  }

  function MakeIntegratedAddress(standardAddress: Option<string> := None, paymentId: Option<string> := None): Call
  {
    WithParams("make_integrated_address",
      map["standard_address" := OptStr(standardAddress), "payment_id" := OptStr(paymentId)],
      "MakeIntegratedAddress")
  }

  function SplitIntegratedAddress(integratedAddress: string): Call
  {
    WithParams("split_integrated_address", map["integrated_address" := Str(integratedAddress)], "SplitIntegratedAddress")
  }

  function StopWallet(): Call
  {
    NoParams("stop_wallet", "StopWallet")
  }

  function RescanBlockchain(): Call
  {
    NoParams("rescan_blockchain", "RescanBlockchain")
  }

  // Notes, attributes and proofs

  function SetTxNotes(txids: seq<string>, notes: seq<string>): Call
  {
    WithParams("set_tx_notes", map["txids" := Strs(txids), "notes" := Strs(notes)], "SetTxNotes")
  }

  function GetTxNotes(txids: seq<string>): Call
  {
    WithParams("get_tx_notes", map["txids" := Strs(txids)], "GetTxNotes")
  }

  function SetAttribute(key: string, value: string): Call
  {
    WithParams("set_attribute", map["key" := Str(key), "value" := Str(value)], "SetAttribute")
  }

  function GetAttribute(key: string): Call
  {
    WithParams("get_attribute", map["key" := Str(key)], "GetAttribute")
  }

  function GetTxKey(txid: string): Call
  {
    WithParams("get_tx_key", map["txid" := Str(txid)], "GetTxKey")
  }

  function CheckTxKey(txid: string, txKey: string, address: string): Call
  {
    WithParams("check_tx_key", map["txid" := Str(txid), "tx_key" := Str(txKey), "address" := Str(address)], "CheckTxKey")
  }

  function GetTxProof(txid: string, address: string, message: Option<string> := None): Call
  {
    WithParams("get_tx_proof", map["txid" := Str(txid), "address" := Str(address), "message" := OptStr(message)], "GetTxProof")
  }

  function CheckTxProof(txid: string, address: string, signature: string, message: Option<string> := None): Call
  {
    WithParams("check_tx_proof",
      map["txid" := Str(txid), "address" := Str(address), "message" := OptStr(message), "signature" := Str(signature)],
      "CheckTxProof")
  }

  function GetSpendProof(txid: string, message: Option<string> := None): Call
  {
    WithParams("get_spend_proof", map["txid" := Str(txid), "message" := OptStr(message)], "GetSpendProof")
  }

  /** Unlike its neighbours, `message` has no default here. */
  function CheckSpendProof(txid: string, signature: string, message: Option<string>): Call
  {
    WithParams("check_spend_proof", map["txid" := Str(txid), "signature" := Str(signature), "message" := OptStr(message)], "CheckSpendProof")
  }

  function GetReserveProof(all: bool, accountIndex: int, amount: int, message: Option<string> := None): Call
  {
    WithParams("get_reserve_proof",
      map["all" := Bool(all), "account_index" := Int(accountIndex), "amount" := Int(amount), "message" := OptStr(message)],
      "GetReserveProof")
  }

  function CheckReserveProof(address: string, signature: string, message: Option<string> := None): Call
  {
    WithParams("check_reserve_proof",
      map["address" := Str(address), "signature" := Str(signature), "message" := OptStr(message)],
      "CheckReserveProof")
  }

  function GetTransfers(): Call
  {
    NoParams("get_transfers", "GetTransfers")
  }

  /** The only method whose arguments sit beside "method" rather than under "params". */
  function GetTransferByTxid(txid: string, accountIndex: int): Call
  {
    Call(map["method" := JStr("get_transfer_by_txid"), "txid" := Str(txid), "account_index" := Int(accountIndex)], "GetTransferByTxId")
  }

  function Sign(data: string): Call
  {
    WithParams("sign", map["data" := Str(data)], "Sign")
  }

  function Verify(data: string, address: string, signature: string): Call
  {
    WithParams("verify", map["data" := Str(data), "address" := Str(address), "signature" := Str(signature)], "Verify")
  }

  // Outputs, key images and URIs

  function ExportOutputs(all: bool := false): Call
  {
    WithParams("export_outputs", map["all" := Bool(all)], "ExportOutputs")
  }

  function ImportOutputs(outputsDataHex: string): Call
  {
    WithParams("import_outputs", map["outputs_data_hex" := Str(outputsDataHex)], "ImportOutputs")
  }

  function ExportKeyImages(all: bool := false): Call
  {
    WithParams("export_key_images", map["all" := Bool(all)], "ExportKeyImages")
  }

  /** The signed key images are passed through as the caller built them. */
  function ImportKeyImages(signedKeyImages: Json): Call
  {
    WithParams("import_key_images", map["signed_key_images" := signedKeyImages], "ImportKeyImages")
  }

  function MakeUri(
    address: string,
    amount: Option<int> := None,
    paymentId: Option<string> := None,
    recipientName: Option<string> := None,
    txDescription: Option<string> := None): Call
  {
    WithParams("make_uri",
      map[
        "address" := Str(address),
        "amount" := OptInt(amount),
        "payment_id" := OptStr(paymentId),
        "recipient_name" := OptStr(recipientName),
        "tx_description" := OptStr(txDescription)],
      "MakeUri")
  }

  function ParseUri(uri: string): Call
  {
    WithParams("parse_uri", map["uri" := Str(uri)], "ParseUri")
  }

  // Address book

  function GetAddressBook(entries: seq<int>): Call
  {
    WithParams("get_address_book", map["entries" := Ints(entries)], "GetAddressBook")
  }

  function AddAddressBook(address: string, paymentId: Option<string> := None, description: Option<string> := None): Call
  {
    WithParams("add_address_book",
      map["address" := Str(address), "payment_id" := OptStr(paymentId), "description" := OptStr(description)],
      "AddAddressBook")
  }

  function EditAddressBook(
    index: int,
    setAddress: bool,
    setDescription: bool,
    setPaymentId: bool,
    address: Option<string> := None,
    description: Option<string> := None,
    paymentId: Option<string> := None): Call
  {
    WithParams("edit_address_book",
      map[
        "index" := Int(index),
        "set_address" := Bool(setAddress),
        "set_description" := Bool(setDescription),
        "set_payment_id" := Bool(setPaymentId),
        "address" := OptStr(address),
        "description" := OptStr(description),
        "payment_id" := OptStr(paymentId)],
      "EditAddressBook")
  }

  function DeleteAddressBook(index: int): Call
  {
    WithParams("delete_address_book", map["index" := Int(index)], "DeleteAddressBook")
  }

  // Refreshing and mining

  function Refresh(startHeight: int): Call
  {
    WithParams("refresh", map["start_height" := Int(startHeight)], "Refresh")
  }

  function AutoRefresh(enable: bool := true): Call
  {
    WithParams("auto_refresh", map["enable" := Bool(enable)], "AutoRefresh")
  }

  function RescanSpent(): Call
  {
    NoParams("rescan_spent", "RescanSpent")
  }

  function StartMining(threadsCount: int, doBackgroundMining: bool, ignoreBattery: bool): Call
  {
    WithParams("start_mining",
      map["threads_count" := Int(threadsCount), "do_background_mining" := Bool(doBackgroundMining), "ignore_battery" := Bool(ignoreBattery)],
      "StartMining")
  }

  function StopMining(): Call
  {
    NoParams("stop_mining", "StopMining")
  }

  // Wallet files

  function GetLanguages(): Call
  {
    NoParams("get_languages", "GetLanguages")
  }

  function CreateWallet(filename: string, password: string, language: string): Call
  {
    WithParams("create_wallet", map["filename" := Str(filename), "password" := Str(password), "language" := Str(language)], "CreateWallet")
  }

  function GenerateFromKeys(
    filename: string,
    address: string,
    viewkey: string,
    password: string,
    autosaveCurrent: bool := true,
    spendkey: Option<string> := None,
    restoreHeight: int := 0): Call
  {
    WithParams("generate_from_keys",
      map[
        "filename" := Str(filename),
        "address" := Str(address),
        "viewkey" := Str(viewkey),
        "password" := Str(password),
        "autosave_current" := Bool(autosaveCurrent),
        "spendkey" := OptStr(spendkey),
        "restore_height" := Int(restoreHeight)],
      "GenerateFromKeys")
  }

  function OpenWallet(filename: string, password: string): Call
  {
    WithParams("open_wallet", map["filename" := Str(filename), "password" := Str(password)], "OpenWallet")
  }

  function RestoreDeterministicWallet(
    name: string,
    password: string,
    seed: string,
    restoreHeight: int := 0,
    language: Option<string> := None,
    seedOffset: Option<string> := None,
    autosaveCurrent: bool := true): Call
  {
    WithParams("restore_deterministic_wallet",
      map[
        "name" := Str(name),
        "password" := Str(password),
        "seed" := Str(seed),
        "restore_height" := Int(restoreHeight),
        "language" := OptStr(language),
        "seed_offset" := OptStr(seedOffset),
        "autosave_current" := Bool(autosaveCurrent)],
      "RestoreDeterministicWallet")
  }

  function CloseWallet(): Call
  {
    NoParams("close_wallet", "CloseWallet")
  }

  function ChangeWalletPassword(oldPassword: string, newPassword: string): Call
  {
    WithParams("change_wallet_password", map["old_password" := Str(oldPassword), "new_password" := Str(newPassword)], "ChangeWalletPassword")
  }

  // Multisig

  function IsMultisig(): Call
  {
    NoParams("is_multisig", "IsMultisig")
  }

  function PrepareMultisig(): Call
  {
    NoParams("prepare_multisig", "PrepareMultisig")
  }

  function MakeMultisig(multisigInfo: seq<string>, threshold: int, password: string): Call
  {
    WithParams("make_multisig",
      map["multisig_info" := Strs(multisigInfo), "threshold" := Int(threshold), "password" := Str(password)],
      "MakeMultisig")
  }

  function ExportMultisigInfo(info: string): Call
  {
    WithParams("export_multisig_info", map["info" := Str(info)], "ExportMultisigInfo")
  }

  function ImportMultisigInfo(info: seq<string>): Call
  {
    WithParams("import_multisig_info", map["info" := Strs(info)], "ImportMultisigInfo")
  }

  function FinalizeMultisig(multisigInfo: seq<string>, password: string): Call
  {
    WithParams("finalize_multisig", map["multisig_info" := Strs(multisigInfo), "password" := Str(password)], "FinalizeMultisig")
  }

  function SignMultisig(txDataHex: string): Call
  {
    WithParams("sign_multisig", map["tx_data_hex" := Str(txDataHex)], "SignMultisig")
  }

  function SubmitMultisig(txDataHex: string): Call
  {
    WithParams("submit_multisig", map["tx_data_hex" := Str(txDataHex)], "SubmitMultisig")
  }

  function GetVersion(): Call
  {
    NoParams("get_version", "GetVersion")
  }
}
