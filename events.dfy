/**
  `Event`: the closed sum of every event the client can log. Four cases
  carry no payload; every other case carries one payload record.
 */
module Events {
  import CE = CustomEvent
  import P = EventPayloads

  datatype Event =
    | Custom(custom: CE.Custom)
    | AdImpression(adImpression: P.AdImpression)
    | AddPaymentInfo(addPaymentInfo: P.AddPaymentInfo)
    | AddShippingInfo(addShippingInfo: P.AddShippingInfo)
    | AddToCart(addToCart: P.AddToCart)
    | AddToWishList(addToWishList: P.AddToWishList)
    | AppOpen
    | BeginCheckout(beginCheckout: P.BeginCheckout)
    | CampaignDetails(campaignDetails: P.CampaignDetails)
    | EarnVirtualCurrency(earnVirtualCurrency: P.EarnVirtualCurrency)
    | GenerateLead(generateLead: P.GenerateLead)
    | JoinGroup(joinGroup: P.JoinGroup)
    | LevelEnd(levelEnd: P.LevelEnd)
    | LevelStart(levelStart: P.LevelStart)
    | LevelUp(levelUp: P.LevelUp)
    | Login
    | PostScore(postScore: P.PostScore)
    | Purchase(purchase: P.Purchase)
    | Refund(refund: P.Refund)
    | RemoveFromCart(removeFromCart: P.RemoveFromCart)
    | ScreenView(screenView: P.ScreenView)
    | Search(search: P.Search)
    | SelectContent(selectContent: P.SelectContent)
    | SelectItem(selectItem: P.SelectItem)
    | SelectPromotion(selectPromotion: P.SelectPromotion)
    | Share(share: P.Share)
    | SignUp(signUp: P.SignUp)
    | SpendVirtualCurrency(spendVirtualCurrency: P.SpendVirtualCurrency)
    | TutorialBegin
    | TutorialComplete
    | UnlockAchievement(unlockAchievement: P.UnlockAchievement)
    | ViewCart(viewCart: P.ViewCart)
    | ViewItem(viewItem: P.ViewItem)
    | ViewItemList(viewItemList: P.ViewItemList)
    | ViewPromotion(viewPromotion: P.ViewPromotion)
    | ViewSearchResults(viewSearchResults: P.ViewSearchResults)
  {
    /** The cases without a payload. */
    predicate IsPayloadFree()
    {
      AppOpen? || Login? || TutorialBegin? || TutorialComplete?
    }
  }
}
