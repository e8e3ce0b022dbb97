# xmrpy wallet client: request construction and the transfer flow

This project models the request side of `xmrpy`'s Monero wallet RPC client, `xmrpy/_wallet.py`. It covers three parts:

- **The envelope.** `Client._attach_default_params` starts from `{"id": "0", "jsonrpc": "2.0"}` and overlays the caller's dictionary, so the caller's keys win. It is modelled both as a map union (`Envelope.WithDefaults`) and as the in-place update the source performs (`Envelope.AttachDefaultParams`). A strict reading of section 4 of the JSON-RPC 2.0 specification is stated as `Envelope.IsJsonRpcRequest`.
- **The request builders.** Every `async def` method from `get_balance` to `get_version` is a function in module `Builders`. Each function gives back the dictionary the method hands to `_send`, together with the name of the `Result` member that decodes the reply. The methods' defaults are kept. The source's quirks are kept as written:
  - `tag_accounts` sends the tag under `"tags"`.
  - `transfer_split` sends `get_tx_keys` as `"get_tx_key"`.
  - Both sweeps use `"methods": "sweep_all"`, and `sweep_single` decodes its reply as `SweepAll`.
  - `get_transfer_by_txid` places its arguments at the top level.
  - `get_account_tags` sends `"params": ""`.
  - The other methods without arguments carry no `"params"` at all.

  Module `Requests` states what each shape puts on the wire.
- **`transfer_sign_submit`.** It proceeds in steps:
  1. It looks up eleven keyword values and keeps the truthy ones, in order, as `filter(None, …)` does (module `ArgFilter`).
  2. It binds those values positionally to `transfer`'s parameters. This raises a TypeError when none is left.
  3. It sends `transfer`, `sign_transfer` and `submit_transfer` in turn, stopping at the first error reply.

  Module `TransferFlow` holds the specification functions and their lemmas. Module `WalletClient` holds class `Client`. The class's `Send` (`_send`) and `TransferSignSubmit` methods are proved against those functions.

The HTTP post together with reply decoding is one oracle, `Transport`. It gives the decoded reply to the client's n-th posted request. `Client` records every request it posts in its `posted` field.

JSON values are the datatype `JsonValues.Json`. Python truthiness is `JsonValues.Truthy`: None, False, 0, "", and empty lists and objects are falsy. A dictionary lookup with `.get` is `JsonValues.Get`, which gives None for a missing key.

## Model

| member | source | states |
|---|---|---|
| Envelope.WithDefaults | xmrpy/_wallet.py:962-966 | the envelope's keys are exactly the input's keys plus "id" and "jsonrpc"; every input key keeps its value; "id" is "0" and "jsonrpc" is "2.0" unless the input supplies them |
| Envelope.AttachDefaultParams | xmrpy/_wallet.py:962-966 | building the defaults and then updating them in place with the input gives exactly the right-biased union `WithDefaults(data)`, which always holds "id" and "jsonrpc" |
| Envelope.EnvelopeConformsIff | xmrpy/_wallet.py:962-966 | the envelope is a JSON-RPC 2.0 request exactly when the input adds no member beyond jsonrpc/method/params/id, names a string method, has structured params if any, and overrides jsonrpc only with "2.0" and id only with a string, number or null |
| Requests.WithParamsEnvelope | xmrpy/_wallet.py:45-49 | a request of the usual shape posts exactly id, jsonrpc, method and params, with those values, and is a JSON-RPC 2.0 request |
| Requests.NoParamsEnvelope | xmrpy/_wallet.py:161-162 | a request without arguments posts exactly id, jsonrpc and method, and is a JSON-RPC 2.0 request |
| Requests.ArgumentlessEnvelopes1 | xmrpy/_wallet.py:161-426 | get_height, store, stop_wallet and rescan_blockchain post exactly id, jsonrpc and method, with no params; each method member is the method's own name and each decoder its own Result member |
| Requests.ArgumentlessEnvelopes2 | xmrpy/_wallet.py:557-746 | get_transfers, rescan_spent, stop_mining and get_languages post exactly id, jsonrpc and method, with no params; each method member is the method's own name and each decoder its own Result member |
| Requests.ArgumentlessEnvelopes3 | xmrpy/_wallet.py:822-896 | close_wallet, is_multisig, prepare_multisig and get_version post exactly id, jsonrpc and method, with no params; each method member is the method's own name and each decoder its own Result member |
| Requests.GetAccountTagsStringParams | xmrpy/_wallet.py:133-144 | get_account_tags posts params "", so its envelope is not a JSON-RPC 2.0 request |
| Requests.SweepsUseMethodsKey | xmrpy/_wallet.py:275-347 | for all arguments, optional ones included, sweep_all and sweep_single both build exactly the keys "methods" and "params", with "methods" = "sweep_all" and decoder SweepAll, and neither envelope is a JSON-RPC 2.0 request |
| Requests.GetBalanceDefaults | xmrpy/_wallet.py:36-43 | get_balance() with its defaults builds method "get_balance" with params {account_index: 0, address_indices: [0]} |
| Requests.LabelAddressParams | xmrpy/_wallet.py:60-70 | label_address(a, b, l) builds params {index: {major: a, minor: b}, label: l} |
| Requests.TagAccountsKeys | xmrpy/_wallet.py:124-131 | tag_accounts' params have exactly the keys "tags" and "accounts", with the tag under "tags" |
| Requests.TransferSplitTxKeyName | xmrpy/_wallet.py:198-232 | transfer_split sends its get_tx_keys argument under "get_tx_key" and sends no "get_tx_keys" |
| Requests.GetTransferByTxidTopLevel | xmrpy/_wallet.py:560-568 | get_transfer_by_txid posts exactly id, jsonrpc, method, txid and account_index, with no params, so its envelope is not a JSON-RPC 2.0 request |
| Requests.UsualShapeConforms | xmrpy/_wallet.py:45-49 | any request dictionary with exactly a string "method" and an object "params" gives a JSON-RPC 2.0 request |
| Requests.AccountsAddressesConform | xmrpy/_wallet.py:36-159 | every account and address builder that takes arguments, get_account_tags aside, posts a JSON-RPC 2.0 request for all arguments |
| Requests.TransfersConform | xmrpy/_wallet.py:164-420 | every transfer, payment and integrated-address builder with arguments, the two sweeps aside, posts a JSON-RPC 2.0 request for all arguments |
| Requests.NotesAttributesProofsConform | xmrpy/_wallet.py:428-590 | every note, attribute, proof and message-signing builder with arguments, get_transfer_by_txid aside, posts a JSON-RPC 2.0 request for all arguments |
| Requests.OutputsKeyImagesUrisConform | xmrpy/_wallet.py:592-645 | the output, key-image and URI builders post JSON-RPC 2.0 requests for all arguments |
| Requests.AddressBookConform | xmrpy/_wallet.py:647-704 | the address-book builders post JSON-RPC 2.0 requests for all arguments |
| Requests.RefreshingMiningConform | xmrpy/_wallet.py:706-740 | refresh, auto_refresh and start_mining post JSON-RPC 2.0 requests for all arguments |
| Requests.WalletFilesConform | xmrpy/_wallet.py:748-835 | the wallet-file builders with arguments post JSON-RPC 2.0 requests for all arguments |
| Requests.MultisigConform | xmrpy/_wallet.py:843-893 | the multisig builders with arguments post JSON-RPC 2.0 requests for all arguments |
| ArgFilter.Filter | xmrpy/_wallet.py:914-931 | the result is no longer than the input and holds only truthy values |
| ArgFilter.KeptValues | xmrpy/_wallet.py:914-931 | the k-th filtered value is the input value at the k-th kept position |
| ArgFilter.KeptIncreasing | xmrpy/_wallet.py:914-931 | kept positions are in range and strictly increasing, so the original relative order is kept |
| ArgFilter.KeptIffTruthy | xmrpy/_wallet.py:914-931 | a position is kept exactly when its value is truthy |
| ArgFilter.FilterSelectsKept | xmrpy/_wallet.py:914-931 | the filter keeps exactly the truthy values, in their original order: the three facts above together |
| ArgFilter.FilterLength | xmrpy/_wallet.py:914-931 | the number kept plus the number of falsy values is the input's length |
| ArgFilter.FilterIdentityIff | xmrpy/_wallet.py:914-931 | the filter changes nothing exactly when every value is truthy |
| ArgFilter.FilterNoneIff | xmrpy/_wallet.py:914-931 | the filter keeps nothing exactly when every value is falsy |
| ArgFilter.FilterAppend | xmrpy/_wallet.py:914-931 | filtering a concatenation is the concatenation of the filtered parts |
| ArgFilter.KeptBefore | xmrpy/_wallet.py:914-931 | exactly k values are kept before the k-th kept position |
| ArgFilter.ShiftedBy | xmrpy/_wallet.py:914-931 | the k-th kept value came from position k plus the number of falsy values before it |
| TransferFlow.TransferReadBack | xmrpy/_wallet.py:164-196 | transfer's params have exactly its eleven keys, and reading them back in declaration order gives the arguments back |
| TransferFlow.TransferPositionalBinds | xmrpy/_wallet.py:164-177 | a positional call of transfer succeeds exactly with 1 to 11 arguments; it gives the parameters the arguments followed by the remaining defaults; with none it fails on the missing destinations, with more than eleven on too many arguments |
| TransferFlow.RunChain | xmrpy/_wallet.py:933-955 | a chain of calls posts at least one and at most all of its requests |
| TransferFlow.ChainPostsPlanPrefix | xmrpy/_wallet.py:933-955 | the requests posted are the first steps of the plan, in order |
| TransferFlow.ChainOkBeforeLast | xmrpy/_wallet.py:933-955 | every step before the last one posted received a success reply |
| TransferFlow.ChainReturnsLastReply | xmrpy/_wallet.py:933-955 | the reply returned is the last posted step's, and the chain stops early only on an error reply |
| TransferFlow.ChainFirstError | xmrpy/_wallet.py:933-955 | when step i is the first error reply, exactly i+1 requests are posted and that error is returned |
| TransferFlow.ChainAllOk | xmrpy/_wallet.py:933-955 | when every reply is a success, the whole plan is posted and the last reply is returned |
| TransferFlow.ChainOfThree | xmrpy/_wallet.py:933-955 | for three steps: an error from the first ends the chain after one request; an error from the second ends it after two; otherwise all three are posted and the third reply is returned |
| TransferFlow.KwargValuesNamed | xmrpy/_wallet.py:902-912 | the j-th value filtered is the caller's value under the j-th keyword name, or None when that keyword is absent |
| TransferFlow.CompositeRaisesIff | xmrpy/_wallet.py:914-933 | transfer_sign_submit raises exactly when none of the eleven keyword values is truthy; it then raises the missing-destinations TypeError and posts nothing |
| TransferFlow.CompositeTransferFails | xmrpy/_wallet.py:933-937 | an error reply to transfer is returned as is, and neither sign_transfer nor submit_transfer is posted |
| TransferFlow.CompositeSignFails | xmrpy/_wallet.py:939-946 | after a successful transfer, an error reply to sign_transfer is returned and submit_transfer is not posted |
| TransferFlow.CompositeAllSent | xmrpy/_wallet.py:948-955 | after successful transfer and sign_transfer replies, all three requests are posted in order and submit_transfer's reply is returned, error or not |
| TransferFlow.FollowUpsFromKwargs | xmrpy/_wallet.py:939-949 | sign_transfer's params are the caller's unsigned_txset and export_raw, and submit_transfer's params are the caller's tx_data_hex; nothing comes from an earlier reply, and a missing export_raw is sent as None rather than False |
| TransferFlow.AllTruthyLineUp | xmrpy/_wallet.py:914-933 | when all eleven keyword values are truthy, each of transfer's parameters gets the keyword at its own position |
| TransferFlow.ParameterTakesShiftedKwarg | xmrpy/_wallet.py:914-933 | once values are dropped, parameter k gets the keyword at position k plus the number of falsy values before it |
| TransferFlow.ExampleKwargValues | xmrpy/_wallet.py:902-912 | the keyword lookups for the example below, with None for every absent keyword |
| TransferFlow.ZeroAccountIndexShifts | xmrpy/_wallet.py:914-933 | account_index=0, ring_size=16, get_tx_key=True sends account_index 16, subaddr_indices True and ring_size 7 |
| TransferFlow.ExplicitFalseGetTxKeyDropped | xmrpy/_wallet.py:914-933 | an explicit get_tx_key=False is dropped by the filter, so transfer receives only the destinations and sends its default True under "get_tx_key" |
| WalletClient.Client.constructor | xmrpy/_wallet.py:26-29 | a new client has the given transport and has posted nothing |
| WalletClient.Client.Send | xmrpy/_wallet.py:957-960 | posts exactly one request, the call's envelope with its decoder, appends it to the log, and returns the transport's reply to it |
| WalletClient.Client.TransferArguments | xmrpy/_wallet.py:902-931 | the eleven lookups followed by the filter give exactly the specification's positional arguments |
| WalletClient.Client.TransferSignSubmit | xmrpy/_wallet.py:898-955 | the outcome and the requests appended to the log are exactly those of the specification `TransferFlow.TransferSignSubmit`, which the lemmas above are about |

## Left out

- HTTP posting, digest authentication and URL parsing (`HttpClient`, `auth`, `urlparse`) are network I/O and foreign calls. Posting and reply decoding are the `Transport` oracle.
- The `Transport` oracle always gives back a reply, `Ok` or `Err`. An exception raised by the HTTP layer, which would end `transfer_sign_submit` between its requests, is not modelled.
- Reply decoding into `RpcResponse`/`Result` lives in `xmrpy/_http.py` and `xmrpy/_result.py`, which are not part of this model. A reply is `Ok(result)` or `Err(code, message)`, and each request carries only the name of its decoder.
- `async`/`await` scheduling is not modelled. Calls are sequential.
- `logger.error` calls are not modelled. They are logging side effects with no effect on results.
- `describe_transfer` is not modelled. It only raises `NotImplementedError`.
- `xmrpy/_config.py` (configuration loading) is not part of this model. The configuration's values only feed the URL, the timeout and authentication.
- Dictionary key order is not modelled, since maps are unordered. Floats do not occur in the builders.
- `xmrpy/t.py` is not part of this model. `TransferType`, imported from it, is passed as its string value.
- `SignedKeyImage`, which reaches `xmrpy/_wallet.py` only through the wildcard import of `xmrpy/_result.py`, is an unseen type. Lists of it are passed as JSON values.
- The builders in `Builders` have no contracts of their own. What they put on the wire is stated by the `Requests` lemmas. Those lemmas give the shape lemmas, the per-quirk lemmas, and conformance for every builder of the usual shape.
- WalletClient.Client.TransferSignSubmit: when there are no truthy values, the TypeError is an `Outcome` value, not a Python exception, and its message text is not modelled.
- TransferFlow.TransferPositionalBinds: a positional call of `transfer` with more than eleven arguments cannot arise from `transfer_sign_submit`, which passes at most eleven. The case is still modelled and stated.
