# Osmosis query simulator and credit-manager configuration, in Dafny

This project models two small parts of the Mars "rover" contracts repository.

1. **The Osmosis query simulator** (`OsmosisQuerier`). Tests use it in place of the Osmosis chain. It holds four read-only fixture maps:
   - pools by pool id;
   - spot prices by `PriceKey {pool_id, denom_in, denom_out}`;
   - arithmetic TWAPs by the same key shape;
   - swap estimates by a string key built from the hop list.

   `HandleStargateQuery` dispatches on the exact query path. It decodes the payload for that route, builds the lookup key and answers from that route's map. A hit returns the serialised stored response. A miss returns a request-level `InvalidRequest` error that carries the key. An unknown path, or a known path whose payload does not decode, returns the outer `Err(())`.
   The simulator only reads its fixtures (`&self`). The model therefore makes it a datatype, and makes the handlers functions of it.
2. **The credit manager's `UpdateConfig`**, as the tests in `contracts/credit-manager/tests/update_config.rs` pin it down. The stored configuration is `{owner, account_nft: Option, red_bank}`. Each `Some` field of an update replaces the stored value and each `None` keeps it. The all-`None` update is a successful no-op. A new owner is the one who may send later updates.
   The configuration is contract state that successive executions change. It is therefore a class (`CreditManager.Contract`) with three fields. The class has a constructor for instantiation, a `QueryConfig()` query and an `UpdateConfig` method. The `Config` datatype is the value of that state. The three tests are replayed as methods whose postconditions are the tests' assertions.

Files:
- `wrappers.dfy`: `Option`.
- `strings.dfy`: decimal rendering of a `u64`, as `format!("{}", n)` gives it, and its inverse. Also joining and splitting on a one-character separator.
- `osmosis_querier.dfy`: module `Osmosis`.
- `update_config.dfy`: module `CreditManager`.

Foreign calls become parameters. Protobuf decoding (`Message::decode`) of each request type is a parameter, and so is `to_binary` of each response type. Both are fields of a `Codec` value. The response messages are opaque types.

Three facts about the dispatch are worth stating outright:
- An unknown path and a known path whose payload does not decode both return the same `Err(())`.
- A decode failure falls through to the remaining path tests. None of them can match, because paths are compared for equality, so the result is `Err(())` (`HandleStargateQuery`).
- A miss is a `SystemError::InvalidRequest` rendered into the error of a `ContractResult`, inside a successful `SystemResult`.

## Model

| member | source | states |
|---|---|---|
| `Strings.NatToString` | packages/testing/src/osmosis_querier.rs:143 | the decimal text of a pool id is non-empty and made of digits only, and it starts with `0` exactly when the number is zero, which then renders as `"0"` (no leading zeros) |
| `Strings.ParseNatToString` | packages/testing/src/osmosis_querier.rs:143 | reading the decimal text back gives the original number |
| `Strings.NatToStringInjective` | packages/testing/src/osmosis_querier.rs:143 | distinct pool ids render as distinct text |
| `Strings.SplitJoin` | packages/testing/src/osmosis_querier.rs:144 | for a non-empty list in which no part contains the separator, splitting the joined text gives back exactly the parts |
| `Strings.Join` | packages/testing/src/osmosis_querier.rs:144 | joining no parts gives `""`; otherwise the joined text begins with the first part and ends with the last, so no separator is added before the first part or after the last |
| `Osmosis.HandleQueryPoolRequest` | packages/testing/src/osmosis_querier.rs:69-80 | always a system-level success; a contract-level success exactly when the pool id is a key of `pools`, carrying the serialised stored response; otherwise `InvalidRequest` naming the pool id |
| `Osmosis.PoolNotFoundMessage` | packages/testing/src/osmosis_querier.rs:74 | the pool miss text is the fixed prefix followed by the pool id's digits, which read back as the pool id and start with `0` only for pool 0, whose digits are exactly `"0"` (no leading zeros) |
| `Osmosis.PoolNotFoundMessageNamesPool` | packages/testing/src/osmosis_querier.rs:73-76 | two pool not-found messages are equal exactly when their pool ids are equal |
| `Osmosis.HandleQuerySpotRequest` | packages/testing/src/osmosis_querier.rs:82-100 | the key is `PriceKey(pool_id, base_asset_denom, quote_asset_denom)`; the answer depends on `spot_prices` only; a hit returns the serialised stored response, a miss returns `InvalidRequest` carrying the key |
| `Osmosis.HandleQueryTwapRequest` | packages/testing/src/osmosis_querier.rs:102-120 | the key is `PriceKey(pool_id, base_asset, quote_asset)`, in the same field order; the answer depends on `twap_prices` only; a hit returns the serialised response, a miss returns `InvalidRequest` carrying the key |
| `Osmosis.HopKey` | packages/testing/src/osmosis_querier.rs:143 | one hop's part `"{pool_id}.{token_out_denom}"` is non-empty and contains `","` exactly when the output denom does |
| `Osmosis.PrepareEstimateSwapKey` | packages/testing/src/osmosis_querier.rs:141-145 | the empty route gives `""`; one hop gives that hop's part; a longer route gives the first hop's part, one `","`, then the key of the remaining hops; a non-empty route's key starts with the first hop's part and ends with the last hop's part (no separator is added after the last hop's part) |
| `Osmosis.HopKeyInjective` | packages/testing/src/osmosis_querier.rs:143 | one hop's part determines the hop: equal parts exactly when the pool id and the output denom are equal |
| `Osmosis.SplitEstimateSwapKey` | packages/testing/src/osmosis_querier.rs:141-145 | for a non-empty route in which no denom contains `","`, splitting the key on `","` gives the hops' parts in route order, one per hop |
| `Osmosis.EmptyKeyOnlyForEmptyRoute` | packages/testing/src/osmosis_querier.rs:141-145 | the swap-estimate key is `""` exactly when the route is empty |
| `Osmosis.SameSwapKeyIffSameHops` | packages/testing/src/osmosis_querier.rs:122-145 | when no denom contains `","`, two hop lists build the same swap-estimate key exactly when they are the same list |
| `Osmosis.SwapKeyCollidesOnCommaDenom` | packages/testing/src/osmosis_querier.rs:141-145 | without that condition two different hop lists can build the same key: `[(1, "a,2.b")]` and `[(1, "a"), (2, "b")]` |
| `Osmosis.HandleQueryEstimateRequest` | packages/testing/src/osmosis_querier.rs:122-139 | the key is `PrepareEstimateSwapKey(routes)`; the sender, pool id and input token play no part; the answer depends on `estimate_swaps` only; a hit returns the serialised response, a miss returns `InvalidRequest` carrying the key |
| `Osmosis.HandleStargateQuery` | packages/testing/src/osmosis_querier.rs:33-67 | any path other than the four route strings gives `Err(())`; each route string uses only its own decoder, and a decode failure gives `Err(())` while a decoded request goes to that route's handler; a handled query is never a system-level error, so a miss sits inside the outer `Ok` |
| `Osmosis.PriceLookupIgnoresEncoding` | packages/testing/src/osmosis_querier.rs:102-119 | two TWAP payloads that decode to the same pool id and denoms get the same answer, whatever their time window |
| `Osmosis.EstimateLookupIgnoresOtherFields` | packages/testing/src/osmosis_querier.rs:122-138 | two swap-estimate payloads whose requests have the same hop list get the same answer |
| `Osmosis.SpotAndTwapAnsweredSeparately` | packages/testing/src/osmosis_querier.rs:82-119 | spot-price and TWAP requests for pool 7, `uosmo`, `uusd` are each answered from their own map; a spot request for pool 8 that has no fixture is a miss carrying key `(8, uosmo, uusd)` |
| `CreditManager.Updated` | contracts/credit-manager/tests/update_config.rs:31-118 | each supplied field replaces the stored one (the red bank by its `contract_addr`), and each absent field is kept |
| `CreditManager.Contract.Instantiate` | contracts/credit-manager/tests/update_config.rs:146-163 | after instantiation the owner is the instantiating owner, there is no account NFT, and the red bank is the given address |
| `CreditManager.Contract.QueryConfig` | contracts/credit-manager/tests/update_config.rs:20-23 | the config query reports the stored owner, account NFT and red bank; it is the value over which the `Instantiate` and `UpdateConfig` contracts are stated |
| `CreditManager.Contract.UpdateConfig` | contracts/credit-manager/tests/update_config.rs:31-41 | when the current owner sends an update, the new configuration is `Updated(old configuration, msg)` |
| `CreditManager.NoChangeKeepsConfig` | contracts/credit-manager/tests/update_config.rs:128-143 | the all-`None` update leaves the configuration unchanged |
| `CreditManager.UpdatedIdempotent` | contracts/credit-manager/tests/update_config.rs:31-47 | applying the same update twice gives the same configuration as applying it once |
| `CreditManager.ApplyAll` | contracts/credit-manager/tests/update_config.rs:64-113 | a run of updates: the empty run keeps the configuration, and a longer run is the run without its last update, then that update |
| `CreditManager.LastSupplied` | contracts/credit-manager/tests/update_config.rs:63-118 | the last supplied value in a run of optional values, or the default when none was supplied |
| `CreditManager.ApplyAllFieldwise` | contracts/credit-manager/tests/update_config.rs:63-118 | after a run of updates each field holds the value last supplied for it, or its starting value |
| `CreditManager.UpdateWithFullConfig` | contracts/credit-manager/tests/update_config.rs:13-48 | after instantiation the config is `(original_owner, None, "initial_red_bank")`; an update with all three fields supplied replaces all three |
| `CreditManager.UpdateWithSomeConfig` | contracts/credit-manager/tests/update_config.rs:50-119 | in turn: supplying only the account NFT, then only the owner, changes only that field; the new owner may then send an update that changes only the red bank |
| `CreditManager.UpdateWithNothing` | contracts/credit-manager/tests/update_config.rs:121-144 | the all-`None` update from the owner succeeds and leaves the instantiated config unchanged |

## Left out

- Protobuf decoding and `to_binary`: these are foreign library calls, so they are the parameters of a `Codec`. Byte layouts are not modelled.
- The `to_binary` failure path: `to_binary` is modelled as total. A serialisation error, which would be turned into a contract-level error string, is not modelled.
- The text of the not-found errors: the three `{:?}`-formatted messages are not modelled. The model's `InvalidRequest` carries the key, not the text. In the code the `InvalidRequest` is rendered to a `String` when it becomes the `ContractResult` error. The pool message uses `{}`. Its text is modelled beside the handler, by `PoolNotFoundMessage`, and not by the handler: `HandleQueryPoolRequest` returns the structured `PoolNotFound(pool_id)`.
- The response messages' contents: they are only stored and serialised, so they are opaque types.
- Ownership guard: the owner-only check is a precondition of `Contract.UpdateConfig`. An update from a non-owner, and its rejection, are not modelled, because no test here sends one.
- `CreditManager.Contract.UpdateConfig`: states nothing about address validation of `owner`, `account_nft` or `red_bank`. That logic is not part of this model, and the tests' addresses are all accepted.
- The account-NFT hand-off (`setup_nft_and_propose_owner`: instantiating the NFT contract and proposing the manager as its owner): that logic lives in the NFT contract, which is not part of this model. The NFT address is a parameter of the test replays.
- `allowed_vaults` and `allowed_assets` of the instantiation message: they are empty in every test and play no part in the configuration shown.
- The test harness (`App`, `store_code`, `instantiate_contract`, the mock contract factories) and the generated TypeScript message composer: these are plumbing with no logic of their own.
