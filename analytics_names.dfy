/**
  The analytics SDK's event-name and parameter-name constants
  (`AnalyticsEvent*`, `AnalyticsParameter*`) with the SDK's published
  string values; the tests pin several of them ("screen_view", "sign_up",
  "add_to_cart", "item_id", "value", "currency", ...).
 */
module AnalyticsNames {

  const EventAdImpression := "ad_impression"
  const EventAddPaymentInfo := "add_payment_info"
  const EventAddShippingInfo := "add_shipping_info"
  const EventAddToCart := "add_to_cart"
  const EventAddToWishlist := "add_to_wishlist"
  const EventAppOpen := "app_open"
  const EventBeginCheckout := "begin_checkout"
  const EventCampaignDetails := "campaign_details"
  const EventEarnVirtualCurrency := "earn_virtual_currency"
  const EventGenerateLead := "generate_lead"
  const EventJoinGroup := "join_group"
  const EventLevelEnd := "level_end"
  const EventLevelStart := "level_start"
  const EventLevelUp := "level_up"
  const EventLogin := "login"
  const EventPostScore := "post_score"
  const EventPurchase := "purchase"
  const EventRefund := "refund"
  const EventRemoveFromCart := "remove_from_cart"
  const EventScreenView := "screen_view"
  const EventSearch := "search"
  const EventSelectContent := "select_content"
  const EventSelectItem := "select_item"
  const EventSelectPromotion := "select_promotion"
  const EventShare := "share"
  const EventSignUp := "sign_up"
  const EventSpendVirtualCurrency := "spend_virtual_currency"
  const EventTutorialBegin := "tutorial_begin"
  const EventTutorialComplete := "tutorial_complete"
  const EventUnlockAchievement := "unlock_achievement"
  const EventViewCart := "view_cart"
  const EventViewItem := "view_item"
  const EventViewItemList := "view_item_list"
  const EventViewPromotion := "view_promotion"
  const EventViewSearchResults := "view_search_results"

  const ParameterAchievementID := "achievement_id"
  const ParameterAdFormat := "ad_format"
  const ParameterAdNetworkClickID := "aclid"
  const ParameterAdPlatform := "ad_platform"
  const ParameterAdSource := "ad_source"
  const ParameterAdUnitName := "ad_unit_name"
  const ParameterAffiliation := "affiliation"
  const ParameterCampaign := "campaign"
  const ParameterCampaignID := "campaign_id"
  const ParameterCharacter := "character"
  const ParameterContent := "content"
  const ParameterContentType := "content_type"
  const ParameterCoupon := "coupon"
  const ParameterCP1 := "cp1"
  const ParameterCreativeFormat := "creative_format"
  const ParameterCreativeName := "creative_name"
  const ParameterCreativeSlot := "creative_slot"
  const ParameterCurrency := "currency"
  const ParameterDestination := "destination"
  const ParameterEndDate := "end_date"
  const ParameterGroupID := "group_id"
  const ParameterItemBrand := "item_brand"
  const ParameterItemCategory := "item_category"
  const ParameterItemID := "item_id"
  const ParameterItemListID := "item_list_id"
  const ParameterItemListName := "item_list_name"
  const ParameterItemName := "item_name"
  const ParameterItemVariant := "item_variant"
  const ParameterItems := "items"
  const ParameterLevel := "level"
  const ParameterLevelName := "level_name"
  const ParameterLocationID := "location_id"
  const ParameterMarketingTactic := "marketing_tactic"
  const ParameterMedium := "medium"
  const ParameterMethod := "method"
  const ParameterNumberOfNights := "number_of_nights"
  const ParameterNumberOfPassengers := "number_of_passengers"
  const ParameterNumberOfRooms := "number_of_rooms"
  const ParameterOrigin := "origin"
  const ParameterPaymentType := "payment_type"
  const ParameterPrice := "price"
  const ParameterPromotionID := "promotion_id"
  const ParameterPromotionName := "promotion_name"
  const ParameterScore := "score"
  const ParameterScreenClass := "screen_class"
  const ParameterScreenName := "screen_name"
  const ParameterSearchTerm := "search_term"
  const ParameterShipping := "shipping"
  const ParameterShippingTier := "shipping_tier"
  const ParameterSource := "source"
  const ParameterSourcePlatform := "source_platform"
  const ParameterStartDate := "start_date"
  const ParameterSuccess := "success"
  const ParameterTax := "tax"
  const ParameterTerm := "term"
  const ParameterTransactionID := "transaction_id"
  const ParameterTravelClass := "travel_class"
  const ParameterValue := "value"
}
