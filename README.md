# Market-event publisher and token mapper, modelled in Dafny

This project models two parts of a Go ledger node.

The first is the per-block market-event publisher in `app/pub/msgs.go`. After each block it
turns trades, order lifecycle events, order-book deltas and account balance changes into
goavro's "native" form: string-keyed maps of integers, strings, lists and nested maps. It
then encodes that form with the codec of the message's kind. The model covers:

- the three message kinds and their names;
- the signed quantity an order event takes off or puts on the order book;
- the rendering of every record and envelope;
- the registry of compiled codecs and its start-up initialisation;
- the dispatch from a kind to its codec.

The second is the token mapper in `plugins/tokens/store/mapper.go`. It is a key-value table
of tokens keyed by symbol, with create, read, existence, listing and a field-merging update.

Files:

- `wrappers.dfy` (module `Wrappers`): `Option` and `Result`.
- `native.dfy` (module `GoNative`): Go's `int64`/`int8` as subset types, two's-complement
  wrap-around (`Wrap64`), and the native `Value` datatype.
- `msgs.dfy` (module `Pub`): `app/pub/msgs.go`.
- `mapper.dfy` (module `TokenStore`): `plugins/tokens/store/mapper.go`.

How the Go code is represented:

- Each Go struct is a Dafny datatype with the same fields.
- Each `ToNativeMap` that fills a slice in a loop is a method. It builds a map key by key, and
  its loop (`RenderSlice`) fills a preallocated array. Each method is proved equal to a
  specification function (`TradesNative`, `BooksNative`, ...). The lemmas about those functions
  state which keys are present, what each holds, and that each list renders its source element
  by element.
- The leaf renderings (`Trade`, `order`, `PriceLevel`, `AssetBalance`) have no loop. They are
  functions.
- The three process-wide codec variables are fields of one `Registry` object. `initAvroCodecs`
  and `marshal` are its methods.
- The mapper is a class whose field `store: map<string, Token>` stands for the KV store.
  `NewToken` and `UpdateToken` reassign that field.

Behaviours a reader might expect from the publisher but that the code does not have. The
model follows the code in each case:

- The comment on `tradesAndOrders.numOfMsgs` (app/pub/msgs.go:67) describes the counter as what
  consumers check the messages they received against. The code copies each counter field and
  never counts the list. Key presence is gated on the counter, so a counter that disagrees with
  its list decides presence (`PresenceFollowsCounterNotList`).
- The book delta of `effectQtyToOrderBook` is not a field of the rendered order event:
  `order.toNativeMap` does not emit it (`OrderNative` has exactly the 18 keys of `OrderKeys`).
- For the order enumerations the code calls helpers that are not part of this model, so the
  model assumes nothing about what they return. Only `msgType.String` has an "Unknown" case.
- `initAvroCodecs` only returns the first compile error; what its caller does with it is not
  part of this model.

## Model

| member | source | states |
|---|---|---|
| `Pub.MsgTypeString` | app/pub/msgs.go:19-37 | 0, 1, 2 are named "Accounts", "Books", "TradesAndOrders" (each iff), every other `int8` "Unknown" |
| `GoNative.Wrap64` | app/pub/msgs.go:187-190 | the result is the int64 congruent to the exact value modulo 2^64, and equals it when it is in range |
| `Pub.EffectQtyToOrderBook` | app/pub/msgs.go:183-195 | the table, with Go's int64 wrap-around on negation and subtraction: Ack gives `qty`; FullyFill/PartialFill give `-lastExecutedQty`; Expired/IocNoFill/Canceled give `cumQty - qty` (each exact whenever int64 does not overflow); any other status gives 0 |
| `Pub.EffectExactForNonNegativeQuantities` | app/pub/msgs.go:183-195 | with non-negative quantities the delta is exactly the policy table, with no wrap-around |
| `Pub.LeavingOrderNeverAddsToBook` | app/pub/msgs.go:189-190 | for Expired/IocNoFill/Canceled with `0 <= cumQty <= qty` the delta lies in `[-qty, 0]` |
| `Pub.EachAt` | app/pub/msgs.go:102-105 | a list rendering has the source list's length and entry i renders element i |
| `Pub.RenderSlice` | app/pub/msgs.go:102-105 | the preallocated slice filled by the `for idx := range` loop is the element-wise rendering of the source list |
| `Pub.TradeNative` | app/pub/msgs.go:125-136 | a trade renders to a map with exactly the eight keys id, symbol, price, qty, sid, bid, sfee, bfee |
| `Pub.TradeNativeRoundTrip` | app/pub/msgs.go:125-136 | the trade can be read back from its rendering: every field is copied verbatim |
| `Pub.OrderNative` | app/pub/msgs.go:197-218 | an order event renders to a map with exactly its 18 field keys; no book-effect key |
| `Pub.OrderNativeKeepsVerbatimFields` | app/pub/msgs.go:197-218 | two order events with equal renderings agree on all 13 verbatim fields and on the status name |
| `Pub.OrderNativeFieldValues` | app/pub/msgs.go:197-218 | each of the 18 keys holds its own field: the 13 verbatim fields copied, status, side, order type, time in force and execution type rendered by their names |
| `Pub.PriceLevelNative` | app/pub/msgs.go:229-234 | a price level renders to a map with exactly the keys price and lastQty |
| `Pub.PriceLevelNativeRoundTrip` | app/pub/msgs.go:229-234 | the price level can be read back from its rendering |
| `Pub.AssetBalanceNative` | app/pub/msgs.go:299-306 | an asset balance renders to a map with exactly the keys asset, free, frozen, locked |
| `Pub.AssetBalanceNativeRoundTrip` | app/pub/msgs.go:299-306 | the asset balance can be read back from its rendering |
| `Pub.TradesNativeShape` | app/pub/msgs.go:99-108 | keys are exactly numOfMsgs (copied) and trades; trades is always a list, even when empty, rendering each trade in order |
| `Pub.TradesToNativeMap` | app/pub/msgs.go:99-108 | the map built key by key, with the slice loop, equals the specification `TradesNative` |
| `Pub.OrdersNativeShape` | app/pub/msgs.go:147-156 | keys are exactly numOfMsgs (copied) and orders; orders is always a list rendering each event in order |
| `Pub.OrdersToNativeMap` | app/pub/msgs.go:147-156 | the map built key by key, with the slice loop, equals the specification `OrdersNative` |
| `Pub.TradesAndOrdersNativeShape` | app/pub/msgs.go:76-88 | height, timestamp and numOfMsgs are always present and verbatim; trades present iff `trades.numOfMsgs > 0`, as a one-entry map under org.binance.dex.model.avro.Trades; likewise orders under org.binance.dex.model.avro.Orders; no other key |
| `Pub.TradesAndOrdersToNativeMap` | app/pub/msgs.go:76-88 | the map built key by key, with both counter gates, equals the specification `TradesAndOrdersNative` |
| `Pub.OrderBookDeltaNativeShape` | app/pub/msgs.go:246-260 | keys are exactly symbol, buys, sells; buys and sells are always lists rendering each price level in order |
| `Pub.OrderBookDeltaToNativeMap` | app/pub/msgs.go:246-260 | the map built with its two slice loops equals the specification `OrderBookDeltaNative` |
| `Pub.BooksNativeShape` | app/pub/msgs.go:273-286 | keys are height, timestamp, numOfMsgs (verbatim), plus books iff `NumOfMsgs > 0`; books renders every delta in order |
| `Pub.BooksToNativeMap` | app/pub/msgs.go:273-286 | the map built with the counter-gated slice loop equals the specification `BooksNative` |
| `Pub.AccountNativeShape` | app/pub/msgs.go:317-326 | keys are exactly owner and balances; balances is always a list rendering each balance in order |
| `Pub.AccountToNativeMap` | app/pub/msgs.go:317-326 | the map built with the slice loop equals the specification `AccountNative` |
| `Pub.AccountsNativeShape` | app/pub/msgs.go:338-350 | keys are height, numOfMsgs (verbatim), plus accounts iff `numOfMsgs > 0`; never a timestamp; accounts renders every account in order |
| `Pub.AccountsToNativeMap` | app/pub/msgs.go:338-350 | the map built with the counter-gated slice loop equals the specification `AccountsNative` |
| `Pub.PresenceFollowsCounterNotList` | app/pub/msgs.go:76-88 | for every envelope: a counter that is not positive drops its sub-payload (trades, orders, books, accounts) whatever the list holds, and a positive counter emits it even for an empty list |
| `Pub.PresenceWhenCountersMatch` | app/pub/msgs.go:76-88 | when every counter equals its list's length, each sub-payload key is present iff its list is non-empty |
| `Pub.ToNativeMap` | app/pub/msgs.go:39-42 | dispatching `ToNativeMap` on any of the nine records yields that record's specified rendering `NativeOf` |
| `Pub.CompiledCodec` | app/pub/msgs.go:353-357 | the codec variable is set exactly when compilation succeeds, to the compiled codec |
| `Pub.CompileAttempts` | app/pub/msgs.go:352-361 | the schemas compiled are a prefix of tradesAndOrders, books, accounts; every one but the last succeeded; a short prefix ends in a failure |
| `Pub.InitError` | app/pub/msgs.go:352-361 | the result is nil iff all three schemas compile, and otherwise the error of the last schema attempted |
| `Pub.InitSucceedsIffAllCompiled` | app/pub/msgs.go:352-361 | initialisation succeeds iff all three kinds were attempted and the last one compiled |
| `Pub.Registry.constructor` | app/pub/msgs.go:11-15 | the three codec variables start out nil |
| `Pub.Registry.InitAvroCodecs` | app/pub/msgs.go:352-361 | returns the first compile error; logs exactly the kinds attempted; sets each attempted codec (nil on failure) and leaves unattempted ones unchanged; success iff all three codecs are set |
| `Pub.Registry.Marshal` | app/pub/msgs.go:44-62 | an unknown kind gives nil bytes and the "doesn't support marshal kafka msg tpe: Unknown" error; a known kind returns exactly what its own codec returns for the message's rendering, error included |
| `TokenStore.Merge` | plugins/tokens/store/mapper.go:89-97 | name replaced only by a non-empty name, supply only by a supply with non-empty value; symbol and all other fields kept |
| `TokenStore.MergeIdempotent` | plugins/tokens/store/mapper.go:89-97 | merging the same update twice equals merging it once |
| `TokenStore.ApplyUpdate` | plugins/tokens/store/mapper.go:76-101 | fails iff the symbol is empty or absent, with that error and an unchanged table; otherwise only that entry changes, to the merge; the key set never changes |
| `TokenStore.UpdateTwiceIsUpdateOnce` | plugins/tokens/store/mapper.go:89-99 | applying the same update twice gives the same table and error as applying it once |
| `TokenStore.ApplyNew` | plugins/tokens/store/mapper.go:63-74 | fails iff the symbol is empty, leaving the table unchanged; otherwise the token is stored under its symbol, overwriting, and no other key changes |
| `TokenStore.NewThenUpdateIsNewOfMerged` | plugins/tokens/store/mapper.go:63-101 | creating a token and then updating it equals creating the merged token |
| `TokenStore.OperationsKeepKeying` | plugins/tokens/store/mapper.go:63-101 | creating and updating keep every entry stored under its own symbol |
| `TokenStore.Mapper.constructor` | plugins/tokens/store/mapper.go:25-30 | a mapper over a store already holding tokens, each under its own symbol, sees exactly those tokens |
| `TokenStore.Mapper.GetToken` | plugins/tokens/store/mapper.go:32-42 | a present symbol yields its token and no error; an absent one yields the zero token and a "token(...) not found" error; in a store keyed by symbol the token found carries the symbol asked for |
| `TokenStore.Mapper.GetTokenList` | plugins/tokens/store/mapper.go:44-55 | one token per stored entry: as many tokens as keys, each stored token listed, each listed token stored, visiting distinct keys; in a store keyed by symbol each listed token's symbol is the key it was found under |
| `TokenStore.Mapper.Exists` | plugins/tokens/store/mapper.go:57-61 | true iff the symbol is a key; reads the store only |
| `TokenStore.Mapper.NewToken` | plugins/tokens/store/mapper.go:63-74 | an empty symbol is an error with the store unchanged; otherwise the store is the old store with the token put under its symbol |
| `TokenStore.Mapper.UpdateToken` | plugins/tokens/store/mapper.go:76-101 | the error and the new store are those of `ApplyUpdate` on the old store; stores keyed by symbol stay so |

## Left out

- goavro itself: `goavro.NewCodec` and `Codec.BinaryFromNative` are function-typed parameters
  (`Compiler`, `Encoder`) that may fail. The schema texts are parameters. No encode/decode
  round trip is claimed.
- The `orderPkg` helpers (`ChangeType.String`, `IToSide`, `IToOrderType`, `IToTimeInForce`,
  `ExecutionType.String`) are given functions in `EnumNames`, with no assumption about them.
  The numeric values of `ChangeType` and `ExecutionType` are not modelled. `ChangeType` is the
  six named statuses plus `OtherChange` for any other value.
- The `Logger.Error` calls in `marshal` and `effectQtyToOrderBook`, and the `fmt.Sprintf`-based
  `String()` methods of the records: these are logging and formatting only.
- Nil pointers: the model's slices hold values, so a nil `*Trade` or `*AssetBalance` in a
  slice, or a nil message, is not represented. Calling `marshal` for a known kind before its
  codec is compiled is excluded by `Marshal`'s precondition, because Go would dereference a
  nil codec.
- Concurrency: the codec variables are fields of one object, not shared process-wide state.
- Go's `int` counters are taken to be 64 bits wide, like `int64`. The integer widths of the
  individual native values (Go `int` vs `int64`) are not distinguished.
- `Pub.Registry.InitAvroCodecs`: assumes that `goavro.NewCodec` returns a nil codec whenever
  it returns an error.
- The mapper's amino `MarshalBinaryBare`/`UnmarshalBinaryBare` and their panics: encoding is
  taken to be invertible, so the store holds tokens directly. `types.Token` is not part of this
  model: only `Symbol`, `Name` and `Supply.Value` are inspected, and the other fields are
  carried in `other`.
- `TokenStore.Mapper.GetTokenList`: does not model the KV store's iteration order. The keys are
  visited in an unspecified order, recorded in the ghost result `order`.
- `sdk.Context`, the store key and `NewMapper`'s codec field: the mapper object stands for its
  store.
- `app/fee_distribution_test.go` and `common/tx/wire.go`: the fee distribution code is not part
  of this model, and the wire file only registers a type with an external codec.
