# Firebase analytics client: custom-event parameter pipeline

This project is a Dafny model of the analytics client's core, with proofs about that model. The core takes a user's typed event payload and produces the event name and the untyped parameter dictionary that the analytics SDK receives. It has three parts:

- **`ParametersEncoder`** (`Coding.swift`). A hand-written Swift `Encoder` walks a keyed record and builds a `[String: Event.Custom.Value]` map.
  - `Coding.Encodable` models the closed set of shapes the encoder can meet:
    - string, double, int and bool;
    - a sequence;
    - a string-keyed dictionary;
    - a record, as an ordered list of keyed writes that may also hand the `superEncoder` to a parent;
    - a value that encodes through `singleValueContainer`, such as `Date`.
  - The pure functions `Box`, `EncodeInto` and `ApplyWrites` specify what the encoder computes.
  - The classes `CustomValueEncoder` and `KeyedContainer` model the encoder itself. It has a mutable `result` map and a `codingPath` that stays empty. Each method is proved to compute those functions.
  - The `unkeyedContainer` `fatalError` (`Coding.swift:26-28`) is a precondition of the encoder's methods, stated by `Supported` and `BoxSupported`: among the modelled shapes, only an array encoding itself asks for that container. The nested-container calls (`Coding.swift:51-60`) cannot be expressed as a `KeyedWrite`, so no modelled value reaches them and no precondition mentions them.
- **`Event.Custom`** (`Events/Custom.swift`, copied at `Event.swift:11-41`). It has three parts:
  - `Value`, a closed type with six variants;
  - a parameter map whose values are optional;
  - a throwing initializer guarded by an event-name check.
- **The live client** (`FirebaseAnalyticsDependencyLive/Live.swift`):
  - the three `transform` overloads;
  - the `Event.name` and `Event.parameters` dispatch over the `Event` enum's 36 cases;
  - the per-event and `Item` `parameters` builders;
  - the `log` closure that forwards one SDK call.

Modules, one per file:

| module | holds |
|---|---|
| `Foundation` | `Option`, `Result`, the 64-bit `Int`, and opaque `Double` and `Date` |
| `CustomEvent` | the `Value` type, the name check and `Custom` |
| `Coding` | the encoder |
| `CodingLemmas` | properties of the encoder |
| `EventPayloads` | the payload records, `Money` and `Item` |
| `Events` | the `Event` enum |
| `AnalyticsNames` | the SDK's `AnalyticsEvent*` and `AnalyticsParameter*` constants, with their published values |
| `Live` | the live client |
| `LiveLemmas` | properties of the live client |
| `EventNames` | the predefined events' names, in order, and why no two cases share one |

Two places where this model differs from a plain reading of the encoder's documentation follow the code:
- The code defines no `EncodingError`. A bare top-level scalar, or a single value, writes into a `codingPath` that is always empty, so `encode` returns an empty map. It does not fail.
- The dispatch layer does not flatten values recursively. An array or dictionary `Value` reaches the SDK as the `Value`s it holds.

A top-level string-keyed dictionary is encoded through a keyed container, one key per entry. That is what Swift's standard library does for `[String: T]`. Swift also encodes `[Int: T]` and dictionaries with `CodingKeyRepresentable` keys through a keyed container, under each key's string value; the model has no such dictionaries. Arrays, sets and dictionaries with any other key type ask for `unkeyedContainer` and hit the `fatalError`; of these the model has arrays only.

## Model

| member | source | states |
|---|---|---|
| CustomEvent.NumericVariantsDiffer | Sources/FirebaseAnalyticsDependency/Events/Custom.swift:12-19 | equality is variant-aware: an int value never equals a double value, also inside arrays |
| CustomEvent.PatternMatchesAt | Sources/FirebaseAnalyticsDependency/Events/Custom.swift:21-27 | a match of the compiled pattern at an offset: a literal slash there (`SlashAt`), then the start anchor right after it (`AnchorAt`, offset 0 only); no contract of its own |
| CustomEvent.IsEventNameValidAsWritten | Sources/FirebaseAnalyticsDependency/Events/Custom.swift:24-27 | `isEventNameValid` as written: a match starts somewhere in the name; `AsWrittenRejectsEveryName` shows there is none |
| CustomEvent.CustomInitAsWritten | Sources/FirebaseAnalyticsDependency/Events/Custom.swift:21-33 | models the initializer guarded by the compiled pattern: it succeeds exactly when the pattern matches somewhere in the name |
| CustomEvent.AsWrittenRejectsEveryName | Sources/FirebaseAnalyticsDependency/Events/Custom.swift:21-27 | the compiled pattern, a literal slash followed by the start anchor, matches no name at all |
| CustomEvent.AsWrittenRefusesValidName | Sources/FirebaseAnalyticsDependency/Events/Custom.swift:21-33 | "PostPublished" satisfies the documented rule, yet the as-written initializer throws `InvalidName` for it |
| CustomEvent.IsEventNameValid | Sources/FirebaseAnalyticsDependency/Event.swift:3-9 | the documented rule: 1 to 40 characters, an ASCII letter first, then letters, digits and underscores, and no `firebase_`, `google_` or `ga_` prefix; no contract of its own |
| CustomEvent.ReservedPrefixRejected | Sources/FirebaseAnalyticsDependency/Event.swift:7-9 | any name starting with `firebase_`, `google_` or `ga_` is refused, whatever follows |
| CustomEvent.NamePatternAgrees | Sources/FirebaseAnalyticsDependency/Event.swift:3-9 | the documented rule and the anchored pattern `[A-Za-z][A-Za-z0-9_]{0,39}` behind a lookahead that refuses the three reserved prefixes, matched character by character, accept exactly the same names, so `CustomInit` succeeds exactly on the names matching that pattern |
| CustomEvent.CustomInit | Sources/FirebaseAnalyticsDependency/Events/Custom.swift:29-40 | throws `InvalidName` exactly when the name check fails; on success, stores name and parameters unchanged; parameters default to the empty map |
| CustomEvent.CustomInitInjective | Sources/FirebaseAnalyticsDependency/Event.swift:29-40 | two successfully built custom events are equal exactly when their names and parameter maps are equal |
| EventPayloads.MakeItemAsWritten | Sources/FirebaseAnalyticsDependency/Item.swift:4-22 | models the initializer as written: `id`, `name`, `category`, `variant`, `brand`, `price` and `listID` store their arguments, and the stored `listName` is the `listID` argument |
| EventPayloads.ItemInitDropsListName | Sources/FirebaseAnalyticsDependency/Item.swift:12-21 | a `listName` argument that differs from `listID` is lost |
| EventPayloads.MakeItem | Sources/FirebaseAnalyticsDependency/Item.swift:4-31 | the corrected initializer stores every argument in its own field |
| Coding.Supported | Sources/FirebaseAnalyticsDependency/Coding.swift:21-28 | a value whose `encode(to:)` reaches no `fatalError`: not an array, and every boxed part supported; the precondition of the encoder's methods; no contract of its own |
| Coding.BoxSupported | Sources/FirebaseAnalyticsDependency/Coding.swift:107-129 | a value whose `box` reaches no `fatalError`: arrays and dictionaries element by element, records and single values as `Supported`; no contract of its own |
| Coding.Box | Sources/FirebaseAnalyticsDependency/Coding.swift:107-129 | `box`: the type cascade, an array element by element, a string-keyed dictionary key by key, anything else as the result of a fresh encoder; pinned by `BoxVariantExact`, `BoxArray`, `BoxDictionary` and `NestedRecordIsolated` |
| Coding.EncodeInto | Sources/FirebaseAnalyticsDependency/Coding.swift:21-101 | the result after `v.encode(to:)`: a dictionary adds its boxed entries, a record applies its writes, anything else leaves the result; pinned by `EncodeIntoFrame` and `EncodedKeys` |
| Coding.ApplyWrites | Sources/FirebaseAnalyticsDependency/Coding.swift:43-68 | the result after a record's keyed writes, in order; pinned by `ApplyWritesAppend`, `ApplyWritesFrame` and `LastWriteWins` |
| Coding.ApplyWrite | Sources/FirebaseAnalyticsDependency/Coding.swift:43-68 | one keyed write: nil skips, a value stores its box, a super encoder writes into the same result; pinned by `ApplyWriteFrame` |
| Coding.Encoded | Sources/FirebaseAnalyticsDependency/Coding.swift:6-10 | `encode` on a fresh encoder; computed by `EncodeParameters`, its keys given by `EncodedKeys` |
| Coding.CustomValueEncoder.constructor | Sources/FirebaseAnalyticsDependency/Coding.swift:15-18 | a new encoder starts with an empty result and an empty coding path |
| Coding.CustomValueEncoder.Container | Sources/FirebaseAnalyticsDependency/Coding.swift:21-24 | the keyed container is new and writes into this encoder |
| Coding.CustomValueEncoder.SetValue | Sources/FirebaseAnalyticsDependency/Coding.swift:74-79 | with an empty coding path the result is unchanged; otherwise the value is stored under the path's last key |
| Coding.CustomValueEncoder.EncodeSingle | Sources/FirebaseAnalyticsDependency/Coding.swift:81-101 | a single-value write, boxed or not, leaves the result unchanged, because the coding path stays empty |
| Coding.CustomValueEncoder.BoxValue | Sources/FirebaseAnalyticsDependency/Coding.swift:107-129 | `box` computes `Box`: the type cascade, the element-wise array, the dictionary filled key by key in a loop, and a fresh encoder's result for any other value |
| Coding.CustomValueEncoder.EncodeValue | Sources/FirebaseAnalyticsDependency/Coding.swift:21-79 | encoding a value into this encoder turns its result into `EncodeInto(v, old result)`; a record's writes are applied in order, and the coding path stays empty |
| Coding.CustomValueEncoder.EncodeDictionary | Sources/FirebaseAnalyticsDependency/Coding.swift:21-24 | a top-level string-keyed dictionary is written entry by entry through one keyed container; the result gains every key, with its boxed value |
| Coding.CustomValueEncoder.EncodeRecord | Sources/FirebaseAnalyticsDependency/Coding.swift:21-24 | a record's keyed writes are applied in order through one keyed container, turning the result into `ApplyWrites(ws, old result)` |
| Coding.CustomValueEncoder.EncodeWrite | Sources/FirebaseAnalyticsDependency/Coding.swift:43-68 | a single keyed write stores, skips a nil value, or encodes a parent through the shared encoder, as `ApplyWrite` says |
| Coding.KeyedContainer.constructor | Sources/FirebaseAnalyticsDependency/Coding.swift:37-41 | the container holds the encoder it writes into |
| Coding.KeyedContainer.Encode | Sources/FirebaseAnalyticsDependency/Coding.swift:47-49 | a keyed write stores `Box(value)` under the key and changes nothing else in the result |
| Coding.KeyedContainer.EncodeNil | Sources/FirebaseAnalyticsDependency/Coding.swift:43-45 | a nil write leaves the result unchanged; the method modifies nothing, so its frame already says so, and `NilFieldLeavesResult` states it of `ApplyWrite` |
| Coding.KeyedContainer.SuperEncoder | Sources/FirebaseAnalyticsDependency/Coding.swift:62-64 | the super encoder is the container's own encoder, so the two share one result |
| Coding.KeyedContainer.SuperEncoderForKey | Sources/FirebaseAnalyticsDependency/Coding.swift:66-68 | the keyed super encoder is the same shared encoder; the key is ignored |
| Coding.EncodeParameters | Sources/FirebaseAnalyticsDependency/Coding.swift:6-10 | `encode` starts from an empty result and returns exactly what the value's writes put there (`Encoded(v)`) |
| CodingLemmas.ApplyWritesAppend | Sources/FirebaseAnalyticsDependency/Coding.swift:47-49 | applying two write lists in a row is the same as applying their concatenation |
| CodingLemmas.KeyedWriteStores | Sources/FirebaseAnalyticsDependency/Coding.swift:47-49 | a present field stores `Box(x)` under its key; whether any other key is present does not change |
| CodingLemmas.NilFieldLeavesResult | Sources/FirebaseAnalyticsDependency/Coding.swift:43-45 | an absent field leaves the result exactly as it was |
| CodingLemmas.LaterWriteOverwrites | Sources/FirebaseAnalyticsDependency/Coding.swift:47-49 | of two writes to one key, the later one wins |
| CodingLemmas.EncodeIntoFrame | Sources/FirebaseAnalyticsDependency/Coding.swift:47-68 | encoding adds exactly the written keys to the result and keeps every other entry's value |
| CodingLemmas.ApplyWritesFrame | Sources/FirebaseAnalyticsDependency/Coding.swift:47-68 | a write list adds exactly its written keys and keeps every other entry's value |
| CodingLemmas.ApplyWriteFrame | Sources/FirebaseAnalyticsDependency/Coding.swift:43-68 | a single write adds exactly its keys and keeps every other entry's value |
| CodingLemmas.EncodedKeys | Sources/FirebaseAnalyticsDependency/Coding.swift:6-16 | the keys of `encode`'s result are exactly the keys the value writes |
| CodingLemmas.LastWriteWins | Sources/FirebaseAnalyticsDependency/Coding.swift:47-49 | a key holds the box of the last write to it, whatever came before |
| CodingLemmas.FieldKeys | Sources/FirebaseAnalyticsDependency/Coding.swift:43-49 | for a record of plain fields, a key is written exactly when some field of that name is present |
| CodingLemmas.RecordKeys | Sources/FirebaseAnalyticsDependency/Coding.swift:43-49 | a key is in a record's encoding exactly when some field of that name is non-nil; nil fields never appear |
| CodingLemmas.BoxVariantExact | Sources/FirebaseAnalyticsDependency/Coding.swift:108-115 | strings, doubles, ints and bools box to their own variant with the same payload, with no coercion; only collections give arrays, and only dictionaries, records and single values give dictionaries |
| CodingLemmas.BoxArray | Sources/FirebaseAnalyticsDependency/Coding.swift:116-117 | an array boxes element by element, keeping length and order |
| CodingLemmas.BoxDictionary | Sources/FirebaseAnalyticsDependency/Coding.swift:118-123 | a dictionary boxes each value under the same key set |
| CodingLemmas.NestedRecordIsolated | Sources/FirebaseAnalyticsDependency/Coding.swift:124-128 | a nested record is stored as the dictionary of its own fresh encoding; its fields do not leak into the parent |
| CodingLemmas.SuperSharesResult | Sources/FirebaseAnalyticsDependency/Coding.swift:62-68 | a parent encoded through `superEncoder` writes into the same result, in order with the other writes |
| CodingLemmas.TopLevelSingleValueEncodesEmpty | Sources/FirebaseAnalyticsDependency/Coding.swift:74-101 | a bare top-level scalar or single value is accepted and encodes to the empty map |
| CodingLemmas.SingleValueBoxesToEmptyDictionary | Sources/FirebaseAnalyticsDependency/Coding.swift:74-79 | a nested single value boxes to an empty dictionary |
| CodingLemmas.TopLevelArrayUnsupported | Sources/FirebaseAnalyticsDependency/Coding.swift:26-28 | a top-level array is outside the encoder's precondition, because it would need the unkeyed container; as a field value it is supported exactly when its elements are |
| CodingLemmas.PostPublishedEncoding | Tests/FirebaseAnalyticsDependencyTests/CustomEventTests.swift:28-49 | the test record encodes to title "Hello", likes int 3, tags array of "foo" and "bar", and rating as a double |
| CodingLemmas.NestedEncoding | Sources/FirebaseAnalyticsDependency/Coding.swift:124-128 | records nested three deep become dictionaries of their own fields, and a nil field inside them is omitted |
| Live.Untransform | Sources/FirebaseAnalyticsDependencyLive/Live.swift:102-117 | which custom value an SDK value came from; the inverse of `Transform` (`UntransformRoundTrip`) |
| Live.Transform | Sources/FirebaseAnalyticsDependencyLive/Live.swift:102-117 | total; returns the same variant's payload, so the value can be recovered exactly |
| Live.TransformValues | Sources/FirebaseAnalyticsDependencyLive/Live.swift:119-121 | keeps length and order; each element is the transform of the element at the same index |
| Live.TransformParameters | Sources/FirebaseAnalyticsDependencyLive/Live.swift:123-131 | keeps exactly the keys whose value is present; each kept value transforms back to the original |
| Live.Name | Sources/FirebaseAnalyticsDependencyLive/Live.swift:23-99 | a custom event's own name, or the SDK constant of the case; `CustomDispatch`, `NameAtRank` and `NameIdentifiesCase` state what it gives |
| Live.ItemParameters | Sources/FirebaseAnalyticsDependencyLive/Live.swift:545-558 | `Item.parameters`: the eight item keys, the price reduced to its amount; stated by `ItemsElementwise` |
| Live.ItemsParameter | Sources/FirebaseAnalyticsDependencyLive/Live.swift:225-543 | `items.map(\.parameters)`: one dictionary per item, in order; stated by `ItemsElementwise` |
| Live.AdImpressionParameters | Sources/FirebaseAnalyticsDependencyLive/Live.swift:212-223 | the `adImpression` dictionary as listed at the cited lines; its keys are stated by `ParameterKeys`, its money by `MoneyParameters` |
| Live.AddPaymentInfoParameters | Sources/FirebaseAnalyticsDependencyLive/Live.swift:225-235 | the `addPaymentInfo` dictionary as listed at the cited lines; its keys are stated by `ParameterKeys`, its money by `MoneyParameters` |
| Live.AddShippingInfoParameters | Sources/FirebaseAnalyticsDependencyLive/Live.swift:237-247 | the `addShippingInfo` dictionary as listed at the cited lines; its keys are stated by `ParameterKeys`, its money by `MoneyParameters` |
| Live.AddToCartParameters | Sources/FirebaseAnalyticsDependencyLive/Live.swift:249-257 | the `addToCart` dictionary as listed at the cited lines; its keys are stated by `ParameterKeys`, its money by `MoneyParameters` |
| Live.AddToWishListParameters | Sources/FirebaseAnalyticsDependencyLive/Live.swift:259-267 | the `addToWishList` dictionary as listed at the cited lines; its keys are stated by `ParameterKeys`, its money by `MoneyParameters` |
| Live.BeginCheckoutParameters | Sources/FirebaseAnalyticsDependencyLive/Live.swift:269-278 | the `beginCheckout` dictionary as listed at the cited lines; its keys are stated by `ParameterKeys`, its money by `MoneyParameters` |
| Live.ViewSearchResultsParameters | Sources/FirebaseAnalyticsDependencyLive/Live.swift:280-286 | the `viewSearchResults` dictionary as listed at the cited lines; its keys are stated by `ParameterKeys` |
| Live.CampaignDetailsParameters | Sources/FirebaseAnalyticsDependencyLive/Live.swift:288-304 | the `campaignDetails` dictionary as listed at the cited lines; its keys are stated by `ParameterKeys` |
| Live.EarnVirtualCurrencyParameters | Sources/FirebaseAnalyticsDependencyLive/Live.swift:306-313 | the `earnVirtualCurrency` dictionary as listed at the cited lines; its keys are stated by `ParameterKeys`, its money by `MoneyParameters` |
| Live.GenerateLeadParameters | Sources/FirebaseAnalyticsDependencyLive/Live.swift:315-322 | the `generateLead` dictionary as listed at the cited lines; its keys are stated by `ParameterKeys`, its money by `MoneyParameters` |
| Live.JoinGroupParameters | Sources/FirebaseAnalyticsDependencyLive/Live.swift:324-330 | the `joinGroup` dictionary as listed at the cited lines; its keys are stated by `ParameterKeys` |
| Live.LevelEndParameters | Sources/FirebaseAnalyticsDependencyLive/Live.swift:332-339 | the `levelEnd` dictionary as listed at the cited lines; its keys are stated by `ParameterKeys` |
| Live.LevelStartParameters | Sources/FirebaseAnalyticsDependencyLive/Live.swift:341-347 | the `levelStart` dictionary as listed at the cited lines; its keys are stated by `ParameterKeys` |
| Live.PostScoreParameters | Sources/FirebaseAnalyticsDependencyLive/Live.swift:358-366 | the `postScore` dictionary as listed at the cited lines; its keys are stated by `ParameterKeys` |
| Live.ScreenViewParameters | Sources/FirebaseAnalyticsDependencyLive/Live.swift:368-375 | the `screenView` dictionary as listed at the cited lines; its keys are stated by `ParameterKeys` |
| Live.RefundParameters | Sources/FirebaseAnalyticsDependencyLive/Live.swift:377-390 | the `refund` dictionary as listed at the cited lines; its keys are stated by `ParameterKeys`, its money by `MoneyParameters` |
| Live.PurchaseParameters | Sources/FirebaseAnalyticsDependencyLive/Live.swift:392-408 | the `purchase` dictionary as listed at the cited lines; its keys are stated by `ParameterKeys`, its money by `MoneyParameters` |
| Live.RemoveFromCartParameters | Sources/FirebaseAnalyticsDependencyLive/Live.swift:410-417 | the `removeFromCart` dictionary as listed at the cited lines; its keys are stated by `ParameterKeys`, its money by `MoneyParameters` |
| Live.SearchParameters | Sources/FirebaseAnalyticsDependencyLive/Live.swift:419-433 | the `search` dictionary as listed at the cited lines; its keys are stated by `ParameterKeys` |
| Live.SelectItemParameters | Sources/FirebaseAnalyticsDependencyLive/Live.swift:435-443 | the `selectItem` dictionary as listed at the cited lines; its keys are stated by `ParameterKeys` |
| Live.SelectPromotionParameters | Sources/FirebaseAnalyticsDependencyLive/Live.swift:445-456 | the `selectPromotion` dictionary as listed at the cited lines; its keys are stated by `ParameterKeys` |
| Live.SelectContentParameters | Sources/FirebaseAnalyticsDependencyLive/Live.swift:458-465 | the `selectContent` dictionary as listed at the cited lines; its keys are stated by `ParameterKeys` |
| Live.ShareParameters | Sources/FirebaseAnalyticsDependencyLive/Live.swift:467-474 | the `share` dictionary as listed at the cited lines; its keys are stated by `ParameterKeys` |
| Live.SignUpParameters | Sources/FirebaseAnalyticsDependencyLive/Live.swift:476-482 | the `signUp` dictionary as listed at the cited lines; its keys are stated by `ParameterKeys` |
| Live.SpendVirtualCurrencyParameters | Sources/FirebaseAnalyticsDependencyLive/Live.swift:484-492 | the `spendVirtualCurrency` dictionary as listed at the cited lines; its keys are stated by `ParameterKeys`, its money by `MoneyParameters` |
| Live.UnlockAchievementParameters | Sources/FirebaseAnalyticsDependencyLive/Live.swift:494-500 | the `unlockAchievement` dictionary as listed at the cited lines; its keys are stated by `ParameterKeys` |
| Live.ViewCartParameters | Sources/FirebaseAnalyticsDependencyLive/Live.swift:502-510 | the `viewCart` dictionary as listed at the cited lines; its keys are stated by `ParameterKeys`, its money by `MoneyParameters` |
| Live.ViewItemParameters | Sources/FirebaseAnalyticsDependencyLive/Live.swift:512-520 | the `viewItem` dictionary as listed at the cited lines; its keys are stated by `ParameterKeys`, its money by `MoneyParameters` |
| Live.ViewItemListParameters | Sources/FirebaseAnalyticsDependencyLive/Live.swift:522-530 | the `viewItemList` dictionary as listed at the cited lines; its keys are stated by `ParameterKeys` |
| Live.ViewPromotionParameters | Sources/FirebaseAnalyticsDependencyLive/Live.swift:532-543 | the `viewPromotion` dictionary as listed at the cited lines; its keys are stated by `ParameterKeys` |
| Live.LevelUpParametersAsWritten | Sources/FirebaseAnalyticsDependencyLive/Live.swift:349-356 | models the builder as written: exactly the keys `level_up`, holding the level, and `character`; the level parameter key is absent |
| Live.LevelUpParameters | Sources/FirebaseAnalyticsDependencyLive/Live.swift:349-356 | the corrected builder sends exactly `level`, with the level, and `character` |
| Live.Parameters | Sources/FirebaseAnalyticsDependencyLive/Live.swift:133-210 | `Event.parameters` as written: a custom event's transformed parameters, nil for the four payload-free cases, otherwise the case's builder (for `LevelUp`, the one as written); stated by `ParametersNilExactly`, `ParameterKeys` and `CustomDispatch` |
| Live.CorrectedParameters | Sources/FirebaseAnalyticsDependencyLive/Live.swift:133-210 | the dispatch with the corrected `LevelUp` builder: it differs from `Parameters` on `LevelUp` only |
| Live.Analytics.constructor | Sources/FirebaseAnalyticsDependencyLive/AnalyticsProtocol.swift:5-9 | an SDK that has received no calls |
| Live.Analytics.LogEvent | Sources/FirebaseAnalyticsDependencyLive/AnalyticsProtocol.swift:6 | records one event-logging call |
| Live.Analytics.SetAnalyticsCollectionEnabled | Sources/FirebaseAnalyticsDependencyLive/AnalyticsProtocol.swift:7 | records one collection-switch call |
| Live.Client.constructor | Sources/FirebaseAnalyticsDependencyLive/Live.swift:6-7 | the client forwards to the given SDK |
| Live.Client.Log | Sources/FirebaseAnalyticsDependencyLive/Live.swift:8-10 | `log` makes exactly one SDK call, `logEvent(event.name, event.parameters)`, with the parameters as written (a `LevelUp` sends `level_up`, not `level`) |
| Live.Client.SetAnalyticsCollectionEnabled | Sources/FirebaseAnalyticsDependencyLive/Live.swift:12-14 | forwards exactly one collection-switch call |
| LiveLemmas.TransformNotRecursive | Sources/FirebaseAnalyticsDependencyLive/Live.swift:112-115 | arrays and dictionaries pass through as the `Value`s they hold, nested containers included |
| LiveLemmas.TransformInjective | Sources/FirebaseAnalyticsDependencyLive/Live.swift:102-117 | distinct values never transform to the same SDK value |
| LiveLemmas.TransformParametersEntry | Sources/FirebaseAnalyticsDependencyLive/Live.swift:123-131 | a key mapped to nil is dropped; a present value is sent transformed |
| LiveLemmas.UntransformRoundTrip | Sources/FirebaseAnalyticsDependencyLive/Live.swift:102-117 | an SDK value that comes from a custom value is what `Transform` makes of it; only dates, item lists and boxed optionals come from none |
| LiveLemmas.TransformInjectiveOnAny | Sources/FirebaseAnalyticsDependencyLive/Live.swift:102-117 | two SDK values that recover to the same custom value are equal |
| LiveLemmas.CustomDispatch | Sources/FirebaseAnalyticsDependencyLive/Live.swift:23-137 | a custom event is logged under its own name, with its parameters transformed |
| LiveLemmas.ParametersNilExactly | Sources/FirebaseAnalyticsDependencyLive/Live.swift:133-209 | the parameters are nil exactly for `appOpen`, `login`, `tutorialBegin` and `tutorialComplete` |
| LiveLemmas.ParameterKeys | Sources/FirebaseAnalyticsDependencyLive/Live.swift:133-543 | each event's dictionary has exactly the keys of its list, whatever the payload holds (for `LevelUp`, `level_up` and `character`); for a custom event these are the present parameters |
| LiveLemmas.AbsentFieldsKeepTheirKeys | Sources/FirebaseAnalyticsDependencyLive/Live.swift:212-223 | an ad impression without any data still sends all six keys, each as a boxed nil |
| LiveLemmas.MoneySplit | Sources/FirebaseAnalyticsDependencyLive/Live.swift:219-220 | the amount is sent under `value` and the currency under `currency`, both boxed nil without money; an if-and-only-if with the money given |
| LiveLemmas.MoneyParameters | Sources/FirebaseAnalyticsDependencyLive/Live.swift:212-543 | every event that carries money sends its amount under `value` and its currency under `currency` |
| LiveLemmas.ItemsElementwise | Sources/FirebaseAnalyticsDependencyLive/Live.swift:545-558 | an item list becomes one dictionary per item, in order; each has all eight item keys, the id under `item_id`, the price's amount under `price`, and the list name under `item_list_name` |
| LiveLemmas.ItemsInParameters | Sources/FirebaseAnalyticsDependencyLive/Live.swift:225-543 | every event that carries items sends them under `items`, mapped item by item; an optional list is boxed as an optional |
| LiveLemmas.ItemListNameSentAsWritten | Sources/FirebaseAnalyticsDependency/Item.swift:21 | through the initializer as written, the list id is sent as the list name; through the corrected one, the list name is |
| LiveLemmas.LevelUpKey | Sources/FirebaseAnalyticsDependencyLive/Live.swift:349-366 | the dispatch as written sends `LevelUp`'s level under `level_up` and no `level`, while `PostScore` does send `level`; the corrected dispatch puts the level under `level` and drops `level_up` |
| LiveLemmas.ScreenViewScenario | Tests/FirebaseAnalyticsDependencyTests/FirebaseAnalyticsTests.swift:7-23 | a screen view is logged as `screen_view` with `screen_class` and `screen_name` |
| LiveLemmas.SignUpScenario | Tests/FirebaseAnalyticsDependencyTests/FirebaseAnalyticsTests.swift:25-38 | a sign-up is logged as `sign_up` with `method` |
| LiveLemmas.PromotionScenarios | Tests/FirebaseAnalyticsDependencyTests/FirebaseAnalyticsTests.swift:40-84 | promotion views and selections are logged as `view_promotion` and `select_promotion`, with the creative name and slot |
| LiveLemmas.CommerceScenarios | Tests/FirebaseAnalyticsDependencyTests/FirebaseAnalyticsTests.swift:86-202 | the four commerce events are logged under their SDK names; each sends the amount, "EUR" and the item list, and the first item has `item_id` "123" |
| LiveLemmas.PostPublishedScenario | Tests/FirebaseAnalyticsDependencyTests/CustomEventTests.swift:28-49 | the encoded test record, wrapped as a custom event through the corrected `CustomInit`, is logged as "PostPublished" with title, likes as an int, tags as an array of `Value`s, and rating as a double; through the initializer as written the test cannot pass (`AsWrittenRefusesValidName`) |
| LiveLemmas.CustomNilParameterDropped | Sources/FirebaseAnalyticsDependencyLive/Live.swift:123-131 | a custom parameter present with no value is not sent, and the others are |
| EventNames.FixedNamesOrdered | Sources/FirebaseAnalyticsDependencyLive/Live.swift:23-99 | the SDK's names of the 35 predefined cases, taken in the order the cases are declared, are strictly increasing in lexicographic order |
| EventNames.FixedNamesDistinct | Sources/FirebaseAnalyticsDependencyLive/Live.swift:23-99 | no predefined name occurs twice: two positions hold the same name exactly when they are the same position |
| EventNames.NameAtRank | Sources/FirebaseAnalyticsDependencyLive/Live.swift:23-99 | a predefined event is logged under the name listed at its case's position |
| EventNames.NameIdentifiesCase | Sources/FirebaseAnalyticsDependency/Event.swift:341-524 | two predefined events share a name exactly when they are of the same case of the enum; a payload-free event is identified by its name alone |

## Left out

- `NSRegularExpression` is foreign code. Its matching is not modelled in general. `CustomEvent.PatternMatchesAt` states only the two steps any match of this pattern must begin with. The corrected check is the rule documented at `Event.swift:3-9`, not the pattern.
- Swift's `Codable` machinery is not modelled: protocol dispatch, synthesized `encode(to:)`, and the dynamic casts `as? [Encodable]` and `as? [String: Encodable]`. The closed `Encodable` shape datatype replaces them. A record's synthesized `encodeIfPresent` becomes a `Field` write whose value may be absent.
- Optional elements inside arrays and dictionaries are not modelled.
- Dictionaries whose keys are not strings are not modelled: `EDictionary` holds a `map<string, _>`. Swift encodes `[Int: T]` and `CodingKeyRepresentable`-keyed dictionaries through the keyed container under each key's string value, and sets and dictionaries with other keys through the unkeyed container.
- A `Double` is carried as its bit pattern, and equality is bitwise. Swift compares doubles with IEEE equality, so `0.0`/`-0.0` and NaN compare differently in the source. No arithmetic on doubles or dates happens in the modelled code.
- `Int` is Swift's 64-bit integer. Nothing in the core computes with it.
- `Event.Custom.build(from:)` and `Eventable` are not part of this model. `PostPublishedScenario` composes encoding and the corrected `CustomInit` without assuming their body. The initializer as written throws for "PostPublished" (`AsWrittenRefusesValidName`), so the test it mirrors cannot pass against the source.
- The `async throws` signature of `log` in `Interface.swift:7` and `Interface.swift:19` is not modelled. Neither is its declared `Event` return value, which the live closure's `Void` body does not supply.
- `AnalyticsProtocol`, `AnalyticsWrapper` and `TestAnalytics` are modelled only as the sequence of calls the SDK receives. `setUserProperty` is not part of this model.
- Dependency-injection wiring is not part of this model: `DependencyKey`, `liveValue`, `testValue` and `DependencyValues`.
- The remote-configuration packages are not part of this model.
- The earlier `SwiftFirebaseAnalytics` and `SwiftFirebaseAnalyticsLive` revision is not part of this model.
- The SDK constants carry the SDK's published string values. The `AnalyticsNames` module holds them, and nothing else about the SDK is modelled.
- A Swift cast such as `as? String` sees through a boxed optional. The model keeps the box (`AnyOptional`) and states test expectations against it.

## Findings

| source | as written | input that shows it | evidently intended | confidence | as-written member | corrected member |
|---|---|---|---|---|---|---|
| Sources/FirebaseAnalyticsDependency/Events/Custom.swift:21-27 | the pattern text keeps the JavaScript-style `/.../gm` delimiters, so a literal `/` precedes the `^` anchor and no name ever matches; `init` always throws | name "PostPublished" | accept exactly the names the rule at Event.swift:7-9 allows | not executed | CustomEvent.AsWrittenRefusesValidName | CustomEvent.CustomInit |
| Sources/FirebaseAnalyticsDependencyLive/Live.swift:349-356 | `LevelUp` stores its level under the event-name constant `AnalyticsEventLevelUp` ("level_up") | any `LevelUp` payload: the dictionary has no `level` key | the level under `AnalyticsParameterLevel`, as `PostScore` does | not executed | Live.LevelUpParametersAsWritten | Live.CorrectedParameters |
| Sources/FirebaseAnalyticsDependency/Item.swift:12-21 | the `listName` argument is ignored and `listName` is set to `listID` | listID "summer_sale", listName "Summer Sale" | store the `listName` argument | not executed | EventPayloads.ItemInitDropsListName | EventPayloads.MakeItem |
