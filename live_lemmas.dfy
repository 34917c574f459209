/**
  Properties of the live client: the custom-value transform, the name and
  parameter dispatch, the fixed key lists, the money and item flattening,
  and the scenarios the client's tests check.
 */
module LiveLemmas {
  import opened Foundation
  import CE = CustomEvent
  import P = EventPayloads
  import opened Events
  import opened AnalyticsNames
  import opened Live
  import Coding
  import CodingLemmas

  // ---------------------------------------------------------------------
  // `transform`
  // ---------------------------------------------------------------------

  /**
    The transform is not recursive: an array or dictionary reaches the SDK
    as the very `Value`s it holds, nested containers included.
   */
  lemma TransformNotRecursive(es: seq<CE.Value>, m: map<string, CE.Value>)
    ensures Transform(CE.ArrayValue(es)) == Some(AnyValues(es))
    ensures Transform(CE.DictionaryValue(m)) == Some(AnyValueMap(m))
    ensures Transform(CE.ArrayValue([CE.ArrayValue(es)])) == Some(AnyValues([CE.ArrayValue(es)]))
  {
  }

  /** Distinct custom values never reach the SDK as the same value. */
  lemma TransformInjective(a: CE.Value, b: CE.Value)
    requires Transform(a) == Transform(b)
    ensures a == b
  {
  }

  /**
    A present parameter reaches the SDK transformed; a key mapped to no value
    is dropped. Everything else in the dictionary is irrelevant to that key.
   */
  lemma TransformParametersEntry(dict: map<string, Option<CE.Value>>, k: string)
    requires k in dict
    ensures dict[k].None? ==> k !in TransformParameters(dict)
    ensures dict[k].Some? ==> k in TransformParameters(dict) && TransformParameters(dict)[k] == Transform(dict[k].value).value
  {
  }

  /**
    The other half of the round trip: an SDK value that comes from a custom
    value is exactly what `Transform` makes of it, and only the values the
    builders make (dates, item lists, boxed optionals) come from no custom value.
   */
  lemma UntransformRoundTrip(a: AnyValue)
    ensures Untransform(a).Some? ==> Transform(Untransform(a).value) == Some(a)
    ensures Untransform(a).None? <==> a.AnyDate? || a.AnyMaps? || a.AnyOptional?
  {
  }

  /** `Untransform` is injective on the values it accepts. */
  lemma TransformInjectiveOnAny(a: AnyValue, b: AnyValue)
    requires Untransform(a).Some? && Untransform(a) == Untransform(b)
    ensures a == b
  {
  }

  // ---------------------------------------------------------------------
  // `Event.name` and `Event.parameters`
  // ---------------------------------------------------------------------

  /** A custom event is logged under its own name with its transformed parameters. */
  lemma CustomDispatch(c: CE.Custom)
    ensures Name(Custom(c)) == c.name
    ensures Parameters(Custom(c)) == Some(TransformParameters(c.parameters))
  {
  }

  /** The parameter dictionary is missing exactly for the four payload-free events. */
  lemma ParametersNilExactly(e: Event)
    ensures Parameters(e).None? <==> e.IsPayloadFree()
    ensures Parameters(e).None? <==> (e == AppOpen || e == Login || e == TutorialBegin || e == TutorialComplete)
  {
  }

  /** The keys each event's dictionary lists, read off the builders' key lists. */
  function ExpectedKeys(e: Event): set<string>
  {
    match e
    case Custom(c) => set k | k in c.parameters && c.parameters[k].Some?
    case AdImpression(_) =>
      {ParameterAdPlatform, ParameterAdFormat, ParameterAdSource, ParameterAdUnitName, ParameterValue, ParameterCurrency}
    case AddPaymentInfo(_) => {ParameterCoupon, ParameterItems, ParameterPaymentType, ParameterValue, ParameterCurrency}
    case AddShippingInfo(_) => {ParameterCoupon, ParameterItems, ParameterShippingTier, ParameterValue, ParameterCurrency}
    case AddToCart(_) => {ParameterItems, ParameterValue, ParameterCurrency}
    case AddToWishList(_) => {ParameterItems, ParameterValue, ParameterCurrency}
    case AppOpen => {}
    case BeginCheckout(_) => {ParameterCoupon, ParameterItems, ParameterValue, ParameterCurrency}
    case CampaignDetails(_) =>
      {ParameterSource, ParameterMedium, ParameterCampaign, ParameterTerm, ParameterContent, ParameterAdNetworkClickID,
       ParameterCP1, ParameterCampaignID, ParameterCreativeFormat, ParameterMarketingTactic, ParameterSourcePlatform}
    case EarnVirtualCurrency(_) => {ParameterValue, ParameterCurrency}
    case GenerateLead(_) => {ParameterValue, ParameterCurrency}
    case JoinGroup(_) => {ParameterGroupID}
    case LevelEnd(_) => {ParameterLevelName, ParameterSuccess}
    case LevelStart(_) => {ParameterLevelName}
    case LevelUp(_) => {EventLevelUp, ParameterCharacter}
    case Login => {}
    case PostScore(_) => {ParameterScore, ParameterLevel, ParameterCharacter}
    case Purchase(_) =>
      {ParameterAffiliation, ParameterCoupon, ParameterValue, ParameterCurrency, ParameterEndDate, ParameterItemID,
       ParameterItems, ParameterShipping, ParameterStartDate, ParameterTax, ParameterTransactionID}
    case Refund(_) =>
      {ParameterAffiliation, ParameterCoupon, ParameterValue, ParameterCurrency, ParameterItems, ParameterShipping,
       ParameterTax, ParameterTransactionID}
    case RemoveFromCart(_) => {ParameterValue, ParameterCurrency}
    case ScreenView(_) => {ParameterScreenClass, ParameterScreenName}
    case Search(_) =>
      {ParameterTerm, ParameterStartDate, ParameterEndDate, ParameterNumberOfNights, ParameterNumberOfRooms,
       ParameterNumberOfPassengers, ParameterOrigin, ParameterDestination, ParameterTravelClass}
    case SelectContent(_) => {ParameterContentType, ParameterItemID}
    case SelectItem(_) => {ParameterItems, ParameterItemListID, ParameterItemListName}
    case SelectPromotion(_) =>
      {ParameterCreativeName, ParameterCreativeSlot, ParameterItems, ParameterLocationID, ParameterPromotionID, ParameterPromotionName}
    case Share(_) => {ParameterContentType, ParameterItemID}
    case SignUp(_) => {ParameterMethod}
    case SpendVirtualCurrency(_) => {ParameterItemName, ParameterValue, ParameterCurrency}
    case TutorialBegin => {}
    case TutorialComplete => {}
    case UnlockAchievement(_) => {ParameterAchievementID}
    case ViewCart(_) => {ParameterItems, ParameterValue, ParameterCurrency}
    case ViewItem(_) => {ParameterItems, ParameterValue, ParameterCurrency}
    case ViewItemList(_) => {ParameterItems, ParameterItemListID, ParameterItemListName}
    case ViewPromotion(_) =>
      {ParameterCreativeName, ParameterCreativeSlot, ParameterItems, ParameterLocationID, ParameterPromotionID, ParameterPromotionName}
    case ViewSearchResults(_) => {ParameterSearchTerm}
  }

  /**
    Every listed key is present, whatever the payload holds: an absent
    optional field is still sent, as a boxed `nil`. For a predefined event
    the key set depends on the case alone.
   */
  lemma ParameterKeys(e: Event)
    requires Parameters(e).Some?
    ensures Parameters(e).value.Keys == ExpectedKeys(e)
  {
  }

  /** An absent optional field keeps its key and is sent as a boxed `nil`. */
  lemma AbsentFieldsKeepTheirKeys()
    ensures Parameters(AdImpression(P.AdImpression(None, None, None, None, None))) == Some(map[
      ParameterAdPlatform := AnyOptional(None), ParameterAdFormat := AnyOptional(None),
      ParameterAdSource := AnyOptional(None), ParameterAdUnitName := AnyOptional(None),
      ParameterValue := AnyOptional(None), ParameterCurrency := AnyOptional(None)])
  {
  }

  // ---------------------------------------------------------------------
  // Money and items
  // ---------------------------------------------------------------------

  /** The amount goes under `value` and the currency under `currency`; both are nil without money. */
  lemma MoneySplit(m: Option<P.Money>, amount: Double, currency: string)
    ensures m == Some(P.Money(amount, currency))
        <==> AmountOf(m) == AnyOptional(Some(AnyDouble(amount))) && CurrencyOf(m) == AnyOptional(Some(AnyString(currency)))
    ensures m.None? <==> AmountOf(m) == AnyOptional(None)
    ensures m.None? <==> CurrencyOf(m) == AnyOptional(None)
  {
  }

  /** The money an event carries, for the events whose payload has a `value`. */
  function MoneyOf(e: Event): Option<Option<P.Money>>
  {
    match e
    case AdImpression(p) => Some(p.value)
    case AddPaymentInfo(p) => Some(p.value)
    case AddShippingInfo(p) => Some(p.value)
    case AddToCart(p) => Some(p.value)
    case AddToWishList(p) => Some(p.value)
    case BeginCheckout(p) => Some(p.value)
    case EarnVirtualCurrency(p) => Some(p.value)
    case GenerateLead(p) => Some(p.value)
    case Purchase(p) => Some(p.value)
    case Refund(p) => Some(p.value)
    case RemoveFromCart(p) => Some(p.value)
    case SpendVirtualCurrency(p) => Some(p.value)
    case ViewCart(p) => Some(p.value)
    case ViewItem(p) => Some(p.value)
    case _ => None
  }

  /** Every event carrying money sends its amount under `value` and its currency under `currency`. */
  lemma MoneyParameters(e: Event)
    requires MoneyOf(e).Some?
    ensures Parameters(e).Some?
    ensures ParameterValue in Parameters(e).value && ParameterCurrency in Parameters(e).value
    ensures Parameters(e).value[ParameterValue] == AmountOf(MoneyOf(e).value)
    ensures Parameters(e).value[ParameterCurrency] == CurrencyOf(MoneyOf(e).value)
  {
  }

  /** The keys of one item's dictionary. */
  const ItemKeys: set<string> := {
    ParameterItemID, ParameterItemName, ParameterItemCategory, ParameterItemVariant,
    ParameterItemBrand, ParameterPrice, ParameterItemListID, ParameterItemListName}

  /**
    An item list maps element-wise, in order, to one dictionary per item,
    with the id under `item_id`, the price's amount under `price`, and
    every key present.
   */
  lemma ItemsElementwise(items: seq<P.Item>, i: int)
    requires 0 <= i < |items|
    ensures |ItemsParameter(items).maps| == |items|
    ensures ItemsParameter(items).maps[i].Keys == ItemKeys
    ensures ItemsParameter(items).maps[i][ParameterItemID] == OptString(items[i].id)
    ensures ItemsParameter(items).maps[i][ParameterPrice] == AmountOf(items[i].price)
    ensures ItemsParameter(items).maps[i][ParameterItemListName] == OptString(items[i].listName)
  {
  }

  /** The item list an event carries, when it is not optional. */
  function RequiredItemsOf(e: Event): Option<seq<P.Item>>
  {
    match e
    case AddPaymentInfo(p) => Some(p.items)
    case AddShippingInfo(p) => Some(p.items)
    case AddToCart(p) => Some(p.items)
    case AddToWishList(p) => Some(p.items)
    case BeginCheckout(p) => Some(p.items)
    case Purchase(p) => Some(p.items)
    case SelectItem(p) => Some(p.items)
    case _ => None
  }

  /** The item list an event carries, when it is optional. */
  function OptionalItemsOf(e: Event): Option<Option<seq<P.Item>>>
  {
    match e
    case Refund(p) => Some(p.items)
    case SelectPromotion(p) => Some(p.items)
    case ViewCart(p) => Some(p.items)
    case ViewItem(p) => Some(p.items)
    case ViewItemList(p) => Some(p.items)
    case ViewPromotion(p) => Some(p.items)
    case _ => None
  }

  /** Every event carrying items sends them under `items`, mapped item by item. */
  lemma ItemsInParameters(e: Event)
    requires RequiredItemsOf(e).Some? || OptionalItemsOf(e).Some?
    ensures Parameters(e).Some? && ParameterItems in Parameters(e).value
    ensures RequiredItemsOf(e).Some? ==> Parameters(e).value[ParameterItems] == ItemsParameter(RequiredItemsOf(e).value)
    ensures OptionalItemsOf(e).Some? ==> Parameters(e).value[ParameterItems] == OptItemsParameter(OptionalItemsOf(e).value)
  {
  }

  /** Through `Item.init` as written, the list id is also what is sent as the list name. */
  lemma ItemListNameSentAsWritten()
    ensures ItemParameters(P.MakeItemAsWritten(listID := Some("summer_sale"), listName := Some("Summer Sale")))[ParameterItemListName]
         == OptString(Some("summer_sale"))
    ensures ItemParameters(P.MakeItem(listID := Some("summer_sale"), listName := Some("Summer Sale")))[ParameterItemListName]
         == OptString(Some("Summer Sale"))
  {
  }

  // ---------------------------------------------------------------------
  // The `LevelUp` key
  // ---------------------------------------------------------------------

  /**
    As written, `LevelUp` sends its level under the key `level_up`, so the
    level parameter is missing from what the client logs; corrected, it sits
    under `level`, the same key `PostScore` uses for its level.
   */
  lemma LevelUpKey(p: P.LevelUp, s: P.PostScore)
    ensures Parameters(LevelUp(p)) == Some(LevelUpParametersAsWritten(p))
    ensures ParameterLevel !in Parameters(LevelUp(p)).value
    ensures Parameters(LevelUp(p)).value[EventLevelUp] == AnyInt(p.level)
    ensures ParameterLevel in Parameters(PostScore(s)).value
    ensures CorrectedParameters(LevelUp(p)).value[ParameterLevel] == AnyInt(p.level)
    ensures EventLevelUp !in CorrectedParameters(LevelUp(p)).value
  {
  }

  // ---------------------------------------------------------------------
  // The client's tests, as scenarios
  // ---------------------------------------------------------------------

  lemma ScreenViewScenario()
    ensures Name(ScreenView(P.ScreenView("ViewController", "SearchResults"))) == "screen_view"
    ensures Parameters(ScreenView(P.ScreenView("ViewController", "SearchResults"))) == Some(map[
      "screen_class" := AnyString("ViewController"), "screen_name" := AnyString("SearchResults")])
  {
  }

  lemma SignUpScenario()
    ensures Name(SignUp(P.SignUp("Google"))) == "sign_up"
    ensures Parameters(SignUp(P.SignUp("Google"))) == Some(map["method" := AnyString("Google")])
  {
  }

  lemma PromotionScenarios()
    ensures Name(ViewPromotion(P.ViewPromotion("Summer Sale", "Banner", None, None, None, None))) == "view_promotion"
    ensures Parameters(ViewPromotion(P.ViewPromotion("Summer Sale", "Banner", None, None, None, None))).value["creative_name"]
         == AnyString("Summer Sale")
    ensures Parameters(ViewPromotion(P.ViewPromotion("Summer Sale", "Banner", None, None, None, None))).value["creative_slot"]
         == AnyString("Banner")
    ensures Name(SelectPromotion(P.SelectPromotion(Some("Summer Sale"), Some("Banner"), None, None, None, None))) == "select_promotion"
    ensures Parameters(SelectPromotion(P.SelectPromotion(Some("Summer Sale"), Some("Banner"), None, None, None, None))).value["creative_name"]
         == AnyOptional(Some(AnyString("Summer Sale")))
    ensures Parameters(SelectPromotion(P.SelectPromotion(Some("Summer Sale"), Some("Banner"), None, None, None, None))).value["creative_slot"]
         == AnyOptional(Some(AnyString("Banner")))
  {
  }

  /** The commerce tests: money split into value and currency, and the first item's id under `item_id`. */
  lemma CommerceScenarios(amount: Double)
    ensures
      var item := P.MakeItemAsWritten(id := Some("123"));
      var money := Some(P.Money(amount, "EUR"));
      var events := [
        AddToCart(P.AddToCart(money, [item])),
        AddToWishList(P.AddToWishList(money, [item])),
        AddPaymentInfo(P.AddPaymentInfo("1", [item], "card", money)),
        AddShippingInfo(P.AddShippingInfo("1", [item], "1", money))];
      && Name(events[0]) == "add_to_cart" && Name(events[1]) == "add_to_wishlist"
      && Name(events[2]) == "add_payment_info" && Name(events[3]) == "add_shipping_info"
      && forall i | 0 <= i < 4 ::
           && Parameters(events[i]).Some?
           && Parameters(events[i]).value["value"] == AnyOptional(Some(AnyDouble(amount)))
           && Parameters(events[i]).value["currency"] == AnyOptional(Some(AnyString("EUR")))
           && Parameters(events[i]).value["items"] == ItemsParameter([item])
           && ItemsParameter([item]).maps[0]["item_id"] == AnyOptional(Some(AnyString("123")))
  {
  }

  /**
    The custom-event test: the `PostPublished` record, encoded and wrapped
    as a custom event, is logged under its own name; the scalars arrive as
    their own variants and the tags as an array of `Value`s.
   */
  lemma PostPublishedScenario(rating: Double)
    ensures
      var encoded := Coding.Encoded(CodingLemmas.PostPublishedParameters(rating));
      var init := CE.CustomInit("PostPublished", map k | k in encoded :: Some(encoded[k]));
      && init.Ok?
      && Name(Custom(init.value)) == "PostPublished"
      && Parameters(Custom(init.value)) == Some(map[
           "title" := AnyString("Hello"),
           "likes" := AnyInt(3),
           "tags" := AnyValues([CE.StringValue("foo"), CE.StringValue("bar")]),
           "rating" := AnyDouble(rating)])
  {
    CodingLemmas.PostPublishedEncoding(rating);
    CE.AsWrittenRefusesValidName();
    var encoded := Coding.Encoded(CodingLemmas.PostPublishedParameters(rating));
    var params := map k | k in encoded :: Some(encoded[k]);
    var init := CE.CustomInit("PostPublished", params);
    var r := TransformParameters(params);
    assert r.Keys == {"title", "likes", "tags", "rating"};
    TransformParametersEntry(params, "title");
    TransformParametersEntry(params, "likes");
    TransformParametersEntry(params, "tags");
    TransformParametersEntry(params, "rating");
    assert r == map[
      "title" := AnyString("Hello"),
      "likes" := AnyInt(3),
      "tags" := AnyValues([CE.StringValue("foo"), CE.StringValue("bar")]),
      "rating" := AnyDouble(rating)];
    assert init == Ok(CE.Custom("PostPublished", params));
  }

  /** A custom parameter present with no value is not sent. */
  lemma CustomNilParameterDropped(v: CE.Value)
    ensures Parameters(Custom(CE.Custom("Shared", map["kept" := Some(v), "dropped" := None])))
         == Some(map["kept" := Transform(v).value])
  {
    var params := map["kept" := Some(v), "dropped" := None];
    TransformParametersEntry(params, "kept");
    TransformParametersEntry(params, "dropped");
    var r := TransformParameters(params);
    assert r.Keys == {"kept"};
    assert r == map["kept" := Transform(v).value];
    assert Parameters(Custom(CE.Custom("Shared", params))) == Some(r);
  }
}
