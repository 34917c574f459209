/**
  The live client: how an `Event` becomes the event name and the untyped
  parameter dictionary handed to the analytics SDK, and the `log` call that
  forwards them.
 */
module Live {
  import opened Foundation
  import CE = CustomEvent
  import P = EventPayloads
  import opened Events
  import opened AnalyticsNames

  /**
    The values that reach the SDK's `[String: Any]` dictionary. `AnyOptional`
    is an optional boxed as `Any` (`x as Any` with `x` optional); a cast such
    as `as? String` sees through it. Arrays and dictionaries coming from a
    custom event stay `Event.Custom.Value`s (`AnyValues`, `AnyValueMap`).
   */
  datatype AnyValue =
    | AnyString(s: string)
    | AnyDouble(d: Double)
    | AnyInt(i: Int64)
    | AnyBool(b: bool)
    | AnyValues(values: seq<CE.Value>)
    | AnyValueMap(entries: map<string, CE.Value>)
    | AnyDate(date: Date)
    | AnyMaps(maps: seq<map<string, AnyValue>>)
    | AnyOptional(wrapped: Option<AnyValue>)

  // ---------------------------------------------------------------------
  // `transform`: custom-event values to SDK values.
  // ---------------------------------------------------------------------

  /** The inverse of `Transform`: which custom value, if any, an SDK value came from. */
  function Untransform(a: AnyValue): Option<CE.Value>
  {
    match a
    case AnyString(s) => Some(CE.StringValue(s))
    case AnyDouble(d) => Some(CE.DoubleValue(d))
    case AnyInt(i) => Some(CE.IntValue(i))
    case AnyBool(b) => Some(CE.BoolValue(b))
    case AnyValues(es) => Some(CE.ArrayValue(es))
    case AnyValueMap(m) => Some(CE.DictionaryValue(m))
    case _ => None
  }

  /**
    `transform(_: Value)`: total, and it returns the payload of the same
    variant, so `Untransform` recovers the value exactly.
   */
  function Transform(element: CE.Value): (r: Option<AnyValue>)
    ensures r.Some? && Untransform(r.value) == Some(element)
  {
    match element
    case StringValue(s) => Some(AnyString(s))
    case DoubleValue(d) => Some(AnyDouble(d))
    case IntValue(i) => Some(AnyInt(i))
    case BoolValue(b) => Some(AnyBool(b))
    case ArrayValue(es) => Some(AnyValues(es))
    case DictionaryValue(m) => Some(AnyValueMap(m))
  }

  /**
    `transform(_: [Value])`, a `compactMap` over `Transform`: since no element
    is dropped, the result keeps length and order.
   */
  function TransformValues(elements: seq<CE.Value>): (r: seq<AnyValue>)
    ensures |r| == |elements|
    ensures forall i | 0 <= i < |elements| :: Transform(elements[i]) == Some(r[i])
  {
    if elements == [] then []
    else
      var rest := TransformValues(elements[1..]);
      match Transform(elements[0])
      case Some(a) => [a] + rest
      case None => rest
  }

  /**
    `transform(_: [String: Value?])`, a `compactMapValues`: exactly the keys
    whose value is present survive, each carrying its transformed value.
   */
  function TransformParameters(dict: map<string, Option<CE.Value>>): (r: map<string, AnyValue>)
    ensures forall k :: k in r <==> k in dict && dict[k].Some?
    ensures forall k | k in r :: Untransform(r[k]) == dict[k]
  {
    map k | k in dict && dict[k].Some? && Transform(dict[k].value).Some? :: Transform(dict[k].value).value
  }

  // ---------------------------------------------------------------------
  // `Event.name`.
  // ---------------------------------------------------------------------

  function Name(e: Event): string
  {
    match e
    case Custom(c) => c.name
    case AdImpression(_) => EventAdImpression
    case AddPaymentInfo(_) => EventAddPaymentInfo
    case AddShippingInfo(_) => EventAddShippingInfo
    case AddToCart(_) => EventAddToCart
    case AddToWishList(_) => EventAddToWishlist
    case AppOpen => EventAppOpen
    case BeginCheckout(_) => EventBeginCheckout
    case CampaignDetails(_) => EventCampaignDetails
    case EarnVirtualCurrency(_) => EventEarnVirtualCurrency
    case GenerateLead(_) => EventGenerateLead
    case JoinGroup(_) => EventJoinGroup
    case LevelEnd(_) => EventLevelEnd
    case LevelStart(_) => EventLevelStart
    case LevelUp(_) => EventLevelUp
    case Login => EventLogin
    case PostScore(_) => EventPostScore
    case Purchase(_) => EventPurchase
    case Refund(_) => EventRefund
    case RemoveFromCart(_) => EventRemoveFromCart
    case ScreenView(_) => EventScreenView
    case Search(_) => EventSearch
    case SelectContent(_) => EventSelectContent
    case SelectItem(_) => EventSelectItem
    case SelectPromotion(_) => EventSelectPromotion
    case Share(_) => EventShare
    case SignUp(_) => EventSignUp
    case SpendVirtualCurrency(_) => EventSpendVirtualCurrency
    case TutorialBegin => EventTutorialBegin
    case TutorialComplete => EventTutorialComplete
    case UnlockAchievement(_) => EventUnlockAchievement
    case ViewCart(_) => EventViewCart
    case ViewItem(_) => EventViewItem
    case ViewItemList(_) => EventViewItemList
    case ViewPromotion(_) => EventViewPromotion
    case ViewSearchResults(_) => EventViewSearchResults
  }

  // ---------------------------------------------------------------------
  // Boxing payload fields as `Any`.
  // ---------------------------------------------------------------------

  function OptString(o: Option<string>): AnyValue
  {
    AnyOptional(if o.Some? then Some(AnyString(o.value)) else None)
  }

  function OptInt(o: Option<Int64>): AnyValue
  {
    AnyOptional(if o.Some? then Some(AnyInt(o.value)) else None)
  }

  function OptDouble(o: Option<Double>): AnyValue
  {
    AnyOptional(if o.Some? then Some(AnyDouble(o.value)) else None)
  }

  function OptDate(o: Option<Date>): AnyValue
  {
    AnyOptional(if o.Some? then Some(AnyDate(o.value)) else None)
  }

  /** `value?.amount as Any`. */
  function AmountOf(value: Option<P.Money>): AnyValue
  {
    AnyOptional(if value.Some? then Some(AnyDouble(value.value.amount)) else None)
  }

  /** `value?.currency as Any`. */
  function CurrencyOf(value: Option<P.Money>): AnyValue
  {
    AnyOptional(if value.Some? then Some(AnyString(value.value.currency)) else None)
  }

  /** `Item.parameters`: the price contributes its amount only. */
  function ItemParameters(item: P.Item): map<string, AnyValue>
  {
    map[
      ParameterItemID := OptString(item.id),
      ParameterItemName := OptString(item.name),
      ParameterItemCategory := OptString(item.category),
      ParameterItemVariant := OptString(item.variant),
      ParameterItemBrand := OptString(item.brand),
      ParameterPrice := AmountOf(item.price),
      ParameterItemListID := OptString(item.listID),
      ParameterItemListName := OptString(item.listName)]
  }

  /** `items.map(\.parameters)`. */
  function ItemsParameter(items: seq<P.Item>): AnyValue
  {
    AnyMaps(seq(|items|, i requires 0 <= i < |items| => ItemParameters(items[i])))
  }

  /** `items?.map(\.parameters) as Any`. */
  function OptItemsParameter(items: Option<seq<P.Item>>): AnyValue
  {
    AnyOptional(if items.Some? then Some(ItemsParameter(items.value)) else None)
  }

  // ---------------------------------------------------------------------
  // The per-event `parameters` builders.
  // ---------------------------------------------------------------------

  function AdImpressionParameters(p: P.AdImpression): map<string, AnyValue>
  {
    map[
      ParameterAdPlatform := OptString(p.adPlatform),
      ParameterAdFormat := OptString(p.adFormat),
      ParameterAdSource := OptString(p.adSource),
      ParameterAdUnitName := OptString(p.adUnitName),
      ParameterValue := AmountOf(p.value),
      ParameterCurrency := CurrencyOf(p.value)]
  }

  function AddPaymentInfoParameters(p: P.AddPaymentInfo): map<string, AnyValue>
  {
    map[
      ParameterCoupon := AnyString(p.coupon),
      ParameterItems := ItemsParameter(p.items),
      ParameterPaymentType := AnyString(p.paymentType),
      ParameterValue := AmountOf(p.value),
      ParameterCurrency := CurrencyOf(p.value)]
  }

  function AddShippingInfoParameters(p: P.AddShippingInfo): map<string, AnyValue>
  {
    map[
      ParameterCoupon := AnyString(p.coupon),
      ParameterItems := ItemsParameter(p.items),
      ParameterShippingTier := AnyString(p.shippingTier),
      ParameterValue := AmountOf(p.value),
      ParameterCurrency := CurrencyOf(p.value)]
  }

  function AddToCartParameters(p: P.AddToCart): map<string, AnyValue>
  {
    map[
      ParameterItems := ItemsParameter(p.items),
      ParameterValue := AmountOf(p.value),
      ParameterCurrency := CurrencyOf(p.value)]
  }

  function AddToWishListParameters(p: P.AddToWishList): map<string, AnyValue>
  {
    map[
      ParameterItems := ItemsParameter(p.items),
      ParameterValue := AmountOf(p.value),
      ParameterCurrency := CurrencyOf(p.value)]
  }

  function BeginCheckoutParameters(p: P.BeginCheckout): map<string, AnyValue>
  {
    map[
      ParameterCoupon := AnyString(p.coupon),
      ParameterItems := ItemsParameter(p.items),
      ParameterValue := AmountOf(p.value),
      ParameterCurrency := CurrencyOf(p.value)]
  }

  function ViewSearchResultsParameters(p: P.ViewSearchResults): map<string, AnyValue>
  {
    map[ParameterSearchTerm := AnyString(p.searchTerm)]
  }

  function CampaignDetailsParameters(p: P.CampaignDetails): map<string, AnyValue>
  {
    map[
      ParameterSource := AnyString(p.source),
      ParameterMedium := AnyString(p.medium),
      ParameterCampaign := AnyString(p.campaign),
      ParameterTerm := OptString(p.term),
      ParameterContent := OptString(p.content),
      ParameterAdNetworkClickID := OptString(p.adNetworkClickID),
      ParameterCP1 := OptString(p.cp1),
      ParameterCampaignID := OptString(p.campaignID),
      ParameterCreativeFormat := OptString(p.creativeFormat),
      ParameterMarketingTactic := OptString(p.marketingTactic),
      ParameterSourcePlatform := OptString(p.sourcePlatform)]
  }

  function EarnVirtualCurrencyParameters(p: P.EarnVirtualCurrency): map<string, AnyValue>
  {
    map[
      ParameterValue := AmountOf(p.value),
      ParameterCurrency := CurrencyOf(p.value)]
  }

  function GenerateLeadParameters(p: P.GenerateLead): map<string, AnyValue>
  {
    map[
      ParameterValue := AmountOf(p.value),
      ParameterCurrency := CurrencyOf(p.value)]
  }

  function JoinGroupParameters(p: P.JoinGroup): map<string, AnyValue>
  {
    map[ParameterGroupID := AnyString(p.groupID)]
  }

  function LevelEndParameters(p: P.LevelEnd): map<string, AnyValue>
  {
    map[
      ParameterLevelName := AnyString(p.levelName),
      ParameterSuccess := AnyString(p.success)]
  }

  function LevelStartParameters(p: P.LevelStart): map<string, AnyValue>
  {
    map[ParameterLevelName := OptString(p.levelName)]
  }

  /**
    The `LevelUp` builder as written: the level is stored under the EVENT
    name constant `AnalyticsEventLevelUp` instead of the level parameter.
   */
  function LevelUpParametersAsWritten(p: P.LevelUp): (r: map<string, AnyValue>)
    ensures r.Keys == {EventLevelUp, ParameterCharacter} && ParameterLevel !in r
    ensures r[EventLevelUp] == AnyInt(p.level) && r[ParameterCharacter] == OptString(p.character)
  {
    map[
      EventLevelUp := AnyInt(p.level),
      ParameterCharacter := OptString(p.character)]
  }

  /** The `LevelUp` builder with the level under the level parameter, as `PostScore` does. */
  function LevelUpParameters(p: P.LevelUp): (r: map<string, AnyValue>)
    ensures r.Keys == {ParameterLevel, ParameterCharacter}
    ensures r[ParameterLevel] == AnyInt(p.level) && r[ParameterCharacter] == OptString(p.character)
  {
    map[
      ParameterLevel := AnyInt(p.level),
      ParameterCharacter := OptString(p.character)]
  }

  function PostScoreParameters(p: P.PostScore): map<string, AnyValue>
  {
    map[
      ParameterScore := AnyInt(p.score),
      ParameterLevel := OptInt(p.level),
      ParameterCharacter := OptString(p.character)]
  }

  function ScreenViewParameters(p: P.ScreenView): map<string, AnyValue>
  {
    map[
      ParameterScreenClass := AnyString(p.screenClass),
      ParameterScreenName := AnyString(p.screenName)]
  }

  function RefundParameters(p: P.Refund): map<string, AnyValue>
  {
    map[
      ParameterAffiliation := OptString(p.affiliation),
      ParameterCoupon := OptString(p.coupon),
      ParameterValue := AmountOf(p.value),
      ParameterCurrency := CurrencyOf(p.value),
      ParameterItems := OptItemsParameter(p.items),
      ParameterShipping := OptDouble(p.shipping),
      ParameterTax := OptDouble(p.tax),
      ParameterTransactionID := OptString(p.transactionID)]
  }

  function PurchaseParameters(p: P.Purchase): map<string, AnyValue>
  {
    map[
      ParameterAffiliation := OptString(p.affiliation),
      ParameterCoupon := OptString(p.coupon),
      ParameterValue := AmountOf(p.value),
      ParameterCurrency := CurrencyOf(p.value),
      ParameterEndDate := OptDate(p.endDate),
      ParameterItemID := OptString(p.itemID),
      ParameterItems := ItemsParameter(p.items),
      ParameterShipping := AnyDouble(p.shipping),
      ParameterStartDate := OptDate(p.startDate),
      ParameterTax := OptDouble(p.tax),
      ParameterTransactionID := OptString(p.transactionID)]
  }

  function RemoveFromCartParameters(p: P.RemoveFromCart): map<string, AnyValue>
  {
    map[
      ParameterValue := AmountOf(p.value),
      ParameterCurrency := CurrencyOf(p.value)]
  }

  function SearchParameters(p: P.Search): map<string, AnyValue>
  {
    map[
      ParameterTerm := AnyString(p.term),
      ParameterStartDate := OptString(p.startDate),
      ParameterEndDate := OptString(p.endDate),
      ParameterNumberOfNights := OptInt(p.numberOfNights),
      ParameterNumberOfRooms := OptInt(p.numberOfRooms),
      ParameterNumberOfPassengers := OptInt(p.numberOfPassengers),
      ParameterOrigin := OptString(p.origin),
      ParameterDestination := OptString(p.destination),
      ParameterTravelClass := OptString(p.travelClass)]
  }

  function SelectItemParameters(p: P.SelectItem): map<string, AnyValue>
  {
    map[
      ParameterItems := ItemsParameter(p.items),
      ParameterItemListID := OptString(p.itemListID),
      ParameterItemListName := OptString(p.itemListName)]
  }

  function SelectPromotionParameters(p: P.SelectPromotion): map<string, AnyValue>
  {
    map[
      ParameterCreativeName := OptString(p.creativeName),
      ParameterCreativeSlot := OptString(p.creativeSlot),
      ParameterItems := OptItemsParameter(p.items),
      ParameterLocationID := OptString(p.locationID),
      ParameterPromotionID := OptString(p.promotionID),
      ParameterPromotionName := OptString(p.promotionName)]
  }

  function SelectContentParameters(p: P.SelectContent): map<string, AnyValue>
  {
    map[
      ParameterContentType := AnyString(p.contentType),
      ParameterItemID := AnyString(p.itemID)]
  }

  function ShareParameters(p: P.Share): map<string, AnyValue>
  {
    map[
      ParameterContentType := AnyString(p.contentType),
      ParameterItemID := AnyString(p.itemID)]
  }

  function SignUpParameters(p: P.SignUp): map<string, AnyValue>
  {
    map[ParameterMethod := AnyString(p.signUpMethod)]
  }

  function SpendVirtualCurrencyParameters(p: P.SpendVirtualCurrency): map<string, AnyValue>
  {
    map[
      ParameterItemName := AnyString(p.itemName),
      ParameterValue := AmountOf(p.value),
      ParameterCurrency := CurrencyOf(p.value)]
  }

  function UnlockAchievementParameters(p: P.UnlockAchievement): map<string, AnyValue>
  {
    map[ParameterAchievementID := AnyString(p.achievementID)]
  }

  function ViewCartParameters(p: P.ViewCart): map<string, AnyValue>
  {
    map[
      ParameterItems := OptItemsParameter(p.items),
      ParameterValue := AmountOf(p.value),
      ParameterCurrency := CurrencyOf(p.value)]
  }

  function ViewItemParameters(p: P.ViewItem): map<string, AnyValue>
  {
    map[
      ParameterItems := OptItemsParameter(p.items),
      ParameterValue := AmountOf(p.value),
      ParameterCurrency := CurrencyOf(p.value)]
  }

  function ViewItemListParameters(p: P.ViewItemList): map<string, AnyValue>
  {
    map[
      ParameterItems := OptItemsParameter(p.items),
      ParameterItemListID := OptString(p.itemListID),
      ParameterItemListName := OptString(p.itemListName)]
  }

  function ViewPromotionParameters(p: P.ViewPromotion): map<string, AnyValue>
  {
    map[
      ParameterCreativeName := AnyString(p.creativeName),
      ParameterCreativeSlot := AnyString(p.creativeSlot),
      ParameterItems := OptItemsParameter(p.items),
      ParameterLocationID := OptString(p.locationID),
      ParameterPromotionID := OptString(p.promotionID),
      ParameterPromotionName := OptString(p.promotionName)]
  }

  // ---------------------------------------------------------------------
  // `Event.parameters`.
  // ---------------------------------------------------------------------

  function Parameters(e: Event): Option<map<string, AnyValue>>
  {
    match e
    case Custom(c) => Some(TransformParameters(c.parameters))
    case AdImpression(p) => Some(AdImpressionParameters(p))
    case AddPaymentInfo(p) => Some(AddPaymentInfoParameters(p))
    case AddShippingInfo(p) => Some(AddShippingInfoParameters(p))
    case AddToCart(p) => Some(AddToCartParameters(p))
    case AddToWishList(p) => Some(AddToWishListParameters(p))
    case AppOpen => None
    case BeginCheckout(p) => Some(BeginCheckoutParameters(p))
    case CampaignDetails(p) => Some(CampaignDetailsParameters(p))
    case EarnVirtualCurrency(p) => Some(EarnVirtualCurrencyParameters(p))
    case GenerateLead(p) => Some(GenerateLeadParameters(p))
    case JoinGroup(p) => Some(JoinGroupParameters(p))
    case LevelEnd(p) => Some(LevelEndParameters(p))
    case LevelStart(p) => Some(LevelStartParameters(p))
    case LevelUp(p) => Some(LevelUpParametersAsWritten(p))
    case Login => None
    case PostScore(p) => Some(PostScoreParameters(p))
    case Purchase(p) => Some(PurchaseParameters(p))
    case Refund(p) => Some(RefundParameters(p))
    case RemoveFromCart(p) => Some(RemoveFromCartParameters(p))
    case ScreenView(p) => Some(ScreenViewParameters(p))
    case Search(p) => Some(SearchParameters(p))
    case SelectContent(p) => Some(SelectContentParameters(p))
    case SelectItem(p) => Some(SelectItemParameters(p))
    case SelectPromotion(p) => Some(SelectPromotionParameters(p))
    case Share(p) => Some(ShareParameters(p))
    case SignUp(p) => Some(SignUpParameters(p))
    case SpendVirtualCurrency(p) => Some(SpendVirtualCurrencyParameters(p))
    case TutorialBegin => None
    case TutorialComplete => None
    case UnlockAchievement(p) => Some(UnlockAchievementParameters(p))
    case ViewCart(p) => Some(ViewCartParameters(p))
    case ViewItem(p) => Some(ViewItemParameters(p))
    case ViewItemList(p) => Some(ViewItemListParameters(p))
    case ViewPromotion(p) => Some(ViewPromotionParameters(p))
    case ViewSearchResults(p) => Some(ViewSearchResultsParameters(p))
  }

  /** `Event.parameters` with the corrected `LevelUp` builder; every other case as written. */
  function CorrectedParameters(e: Event): (r: Option<map<string, AnyValue>>)
    ensures !e.LevelUp? ==> r == Parameters(e)
    ensures e.LevelUp? ==> r == Some(LevelUpParameters(e.levelUp)) && r != Parameters(e)
  {
    match e
    case LevelUp(p) =>
      assert ParameterLevel in LevelUpParameters(p) && ParameterLevel !in LevelUpParametersAsWritten(p);
      Some(LevelUpParameters(p))
    case _ => Parameters(e)
  }

  // ---------------------------------------------------------------------
  // `live(analytics:)`.
  // ---------------------------------------------------------------------

  /** One call received by the SDK. */
  datatype SdkCall =
    | LogEvent(name: string, parameters: Option<map<string, AnyValue>>)
    | SetAnalyticsCollectionEnabled(enabled: bool)

  /** The SDK behind `AnalyticsProtocol`, seen as the sequence of calls it has received. */
  class Analytics {
    var calls: seq<SdkCall>

    constructor ()
      ensures calls == []
    {
      calls := [];
    }

    method LogEvent(name: string, parameters: Option<map<string, AnyValue>>)
      modifies this
      ensures calls == old(calls) + [SdkCall.LogEvent(name, parameters)]
    {
      calls := calls + [SdkCall.LogEvent(name, parameters)];
    }

    method SetAnalyticsCollectionEnabled(enabled: bool)
      modifies this
      ensures calls == old(calls) + [SdkCall.SetAnalyticsCollectionEnabled(enabled)]
    {
      calls := calls + [SdkCall.SetAnalyticsCollectionEnabled(enabled)];
    }
  }

  /** `FirebaseAnalyticsClient.live(analytics:)`: each closure forwards exactly one SDK call. */
  class Client {
    const analytics: Analytics

    constructor (analytics: Analytics)
      ensures this.analytics == analytics
    {
      this.analytics := analytics;
    }

    /** `log`: one `logEvent` call with the event's name and parameters, nothing else. */
    method Log(e: Event)
      modifies analytics
      ensures analytics.calls == old(analytics.calls) + [SdkCall.LogEvent(Name(e), Parameters(e))]
    {
      analytics.LogEvent(Name(e), Parameters(e));
    }

    method SetAnalyticsCollectionEnabled(enabled: bool)
      modifies analytics
      ensures analytics.calls == old(analytics.calls) + [SdkCall.SetAnalyticsCollectionEnabled(enabled)]
    {
      analytics.SetAnalyticsCollectionEnabled(enabled);
    }
  }
}
