/**
  The payloads of the predefined events, `Money` and `Item`: plain records
  with no logic, except that `Item`'s initializer drops one of its arguments.
 */
module EventPayloads {
  import opened Foundation

  datatype Money = Money(amount: Double, currency: string)

  datatype Item = Item(
    id: Option<string>,
    name: Option<string>,
    category: Option<string>,
    variant: Option<string>,
    brand: Option<string>,
    price: Option<Money>,
    listID: Option<string>,
    listName: Option<string>)

  /**
    `Item.init` as written: the `listName` argument is discarded and the
    stored `listName` is a copy of `listID`.
   */
  function MakeItemAsWritten(
    id: Option<string> := None, name: Option<string> := None, category: Option<string> := None,
    variant: Option<string> := None, brand: Option<string> := None, price: Option<Money> := None,
    listID: Option<string> := None, listName: Option<string> := None): (item: Item)
    ensures item.id == id && item.name == name && item.category == category
    ensures item.variant == variant && item.brand == brand && item.price == price
    ensures item.listID == listID && item.listName == listID
  {
    Item(id, name, category, variant, brand, price, listID, listID)
  }

  /** The argument given for `listName` is lost whenever it differs from `listID`. */
  lemma ItemInitDropsListName()
    ensures MakeItemAsWritten(listID := Some("summer_sale"), listName := Some("Summer Sale")).listName
         != Some("Summer Sale")
  {
  }

  /** `Item.init` storing every argument in its own field. */
  function MakeItem(
    id: Option<string> := None, name: Option<string> := None, category: Option<string> := None,
    variant: Option<string> := None, brand: Option<string> := None, price: Option<Money> := None,
    listID: Option<string> := None, listName: Option<string> := None): (item: Item)
    ensures item.id == id && item.name == name && item.category == category
    ensures item.variant == variant && item.brand == brand && item.price == price
    ensures item.listID == listID && item.listName == listName
  {
    Item(id, name, category, variant, brand, price, listID, listName)
  }

  datatype AdImpression = AdImpression(
    adPlatform: Option<string>, adFormat: Option<string>, adSource: Option<string>,
    adUnitName: Option<string>, value: Option<Money>)

  datatype AddPaymentInfo = AddPaymentInfo(
    coupon: string, items: seq<Item>, paymentType: string, value: Option<Money>)

  datatype AddShippingInfo = AddShippingInfo(
    coupon: string, items: seq<Item>, shippingTier: string, value: Option<Money>)

  datatype AddToCart = AddToCart(value: Option<Money>, items: seq<Item>)

  datatype AddToWishList = AddToWishList(value: Option<Money>, items: seq<Item>)

  datatype BeginCheckout = BeginCheckout(coupon: string, items: seq<Item>, value: Option<Money>)

  datatype CampaignDetails = CampaignDetails(
    source: string, medium: string, campaign: string,
    term: Option<string>, content: Option<string>, adNetworkClickID: Option<string>,
    cp1: Option<string>, campaignID: Option<string>, creativeFormat: Option<string>,
    marketingTactic: Option<string>, sourcePlatform: Option<string>)

  datatype EarnVirtualCurrency = EarnVirtualCurrency(value: Option<Money>)

  datatype GenerateLead = GenerateLead(value: Option<Money>)

  datatype JoinGroup = JoinGroup(groupID: string)

  datatype LevelEnd = LevelEnd(levelName: string, success: string)

  datatype LevelStart = LevelStart(levelName: Option<string>)

  datatype LevelUp = LevelUp(level: Int64, character: Option<string>)

  datatype PostScore = PostScore(score: Int64, level: Option<Int64>, character: Option<string>)

  datatype Purchase = Purchase(
    affiliation: Option<string>, coupon: Option<string>, value: Option<Money>,
    endDate: Option<Date>, itemID: Option<string>, items: seq<Item>, shipping: Double,
    startDate: Option<Date>, tax: Option<Double>, transactionID: Option<string>)

  datatype Refund = Refund(
    affiliation: Option<string>, coupon: Option<string>, value: Option<Money>,
    items: Option<seq<Item>>, shipping: Option<Double>, tax: Option<Double>,
    transactionID: Option<string>)

  datatype RemoveFromCart = RemoveFromCart(value: Option<Money>)

  datatype ScreenView = ScreenView(screenClass: string, screenName: string)

  datatype Search = Search(
    term: string, startDate: Option<string>, endDate: Option<string>,
    numberOfNights: Option<Int64>, numberOfRooms: Option<Int64>, numberOfPassengers: Option<Int64>,
    origin: Option<string>, destination: Option<string>, travelClass: Option<string>)

  datatype SelectContent = SelectContent(contentType: string, itemID: string)

  datatype SelectItem = SelectItem(items: seq<Item>, itemListID: Option<string>, itemListName: Option<string>)

  datatype SelectPromotion = SelectPromotion(
    creativeName: Option<string>, creativeSlot: Option<string>, items: Option<seq<Item>>,
    locationID: Option<string>, promotionID: Option<string>, promotionName: Option<string>)

  datatype Share = Share(contentType: string, itemID: string)

  /** `SignUp.method` (a reserved word here, hence the field name). */
  datatype SignUp = SignUp(signUpMethod: string)

  datatype SpendVirtualCurrency = SpendVirtualCurrency(itemName: string, value: Option<Money>)

  datatype UnlockAchievement = UnlockAchievement(achievementID: string)

  datatype ViewCart = ViewCart(items: Option<seq<Item>>, value: Option<Money>)

  datatype ViewItem = ViewItem(items: Option<seq<Item>>, value: Option<Money>)

  datatype ViewItemList = ViewItemList(items: Option<seq<Item>>, itemListID: Option<string>, itemListName: Option<string>)

  datatype ViewPromotion = ViewPromotion(
    creativeName: string, creativeSlot: string, items: Option<seq<Item>>,
    locationID: Option<string>, promotionID: Option<string>, promotionName: Option<string>)

  datatype ViewSearchResults = ViewSearchResults(searchTerm: string)
}
