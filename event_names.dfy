/**
  `Event.name` tells the predefined events apart: the SDK's event-name
  constants, in the order of the `Event` cases, are strictly increasing in
  lexicographic order, so no two cases share a name.
 */
module EventNames {
  import opened Events
  import opened AnalyticsNames
  import opened Live

  /** The number of predefined cases. */
  const PredefinedCount: nat := 35

  /** The predefined events' names, by the position of their case. */
  function FixedName(k: nat): string
    requires k < PredefinedCount
  {
    match k
    case 0 => EventAdImpression
    case 1 => EventAddPaymentInfo
    case 2 => EventAddShippingInfo
    case 3 => EventAddToCart
    case 4 => EventAddToWishlist
    case 5 => EventAppOpen
    case 6 => EventBeginCheckout
    case 7 => EventCampaignDetails
    case 8 => EventEarnVirtualCurrency
    case 9 => EventGenerateLead
    case 10 => EventJoinGroup
    case 11 => EventLevelEnd
    case 12 => EventLevelStart
    case 13 => EventLevelUp
    case 14 => EventLogin
    case 15 => EventPostScore
    case 16 => EventPurchase
    case 17 => EventRefund
    case 18 => EventRemoveFromCart
    case 19 => EventScreenView
    case 20 => EventSearch
    case 21 => EventSelectContent
    case 22 => EventSelectItem
    case 23 => EventSelectPromotion
    case 24 => EventShare
    case 25 => EventSignUp
    case 26 => EventSpendVirtualCurrency
    case 27 => EventTutorialBegin
    case 28 => EventTutorialComplete
    case 29 => EventUnlockAchievement
    case 30 => EventViewCart
    case 31 => EventViewItem
    case 32 => EventViewItemList
    case 33 => EventViewPromotion
    case _ => EventViewSearchResults
  }

  /** The position of a predefined case among the cases of `Event`, `Custom` left out. */
  function Rank(e: Event): nat
    requires !e.Custom?
  {
    match e
    case AdImpression(_) => 0
    case AddPaymentInfo(_) => 1
    case AddShippingInfo(_) => 2
    case AddToCart(_) => 3
    case AddToWishList(_) => 4
    case AppOpen => 5
    case BeginCheckout(_) => 6
    case CampaignDetails(_) => 7
    case EarnVirtualCurrency(_) => 8
    case GenerateLead(_) => 9
    case JoinGroup(_) => 10
    case LevelEnd(_) => 11
    case LevelStart(_) => 12
    case LevelUp(_) => 13
    case Login => 14
    case PostScore(_) => 15
    case Purchase(_) => 16
    case Refund(_) => 17
    case RemoveFromCart(_) => 18
    case ScreenView(_) => 19
    case Search(_) => 20
    case SelectContent(_) => 21
    case SelectItem(_) => 22
    case SelectPromotion(_) => 23
    case Share(_) => 24
    case SignUp(_) => 25
    case SpendVirtualCurrency(_) => 26
    case TutorialBegin => 27
    case TutorialComplete => 28
    case UnlockAchievement(_) => 29
    case ViewCart(_) => 30
    case ViewItem(_) => 31
    case ViewItemList(_) => 32
    case ViewPromotion(_) => 33
    case ViewSearchResults(_) => 34
  }

  /** `a` comes strictly before `b`: they agree below `k`, where `a` ends or has the smaller character. */
  predicate PrecedesAt(a: string, b: string, k: int)
  {
    0 <= k <= |a| && k < |b| && (forall j | 0 <= j < k :: a[j] == b[j]) && (k == |a| || a[k] < b[k])
  }

  /** Strict lexicographic order on strings. */
  predicate Precedes(a: string, b: string)
  {
    exists k | 0 <= k <= |a| :: PrecedesAt(a, b, k)
  }

  lemma FirstDifference(a: string, b: string, k: int)
    requires PrecedesAt(a, b, k)
    ensures Precedes(a, b)
  {
  }

  lemma PrecedesAtTransitive(a: string, b: string, c: string, k1: int, k2: int)
    requires PrecedesAt(a, b, k1) && PrecedesAt(b, c, k2)
    ensures PrecedesAt(a, c, if k1 <= k2 then k1 else k2)
  {
  }

  lemma PrecedesTransitive(a: string, b: string, c: string)
    requires Precedes(a, b) && Precedes(b, c)
    ensures Precedes(a, c)
  {
    var k1 :| 0 <= k1 <= |a| && PrecedesAt(a, b, k1);
    var k2 :| 0 <= k2 <= |b| && PrecedesAt(b, c, k2);
    PrecedesAtTransitive(a, b, c, k1, k2);
  }

  lemma PrecedesIrreflexive(a: string)
    ensures !Precedes(a, a)
  {
  }

  lemma AdjacentFrom0(i: int)
    requires 0 <= i < 7
    ensures Precedes(FixedName(i), FixedName(i + 1))
  {
    if i == 0 {
      FirstDifference(FixedName(0), FixedName(1), 2);
    } else if i == 1 {
      FirstDifference(FixedName(1), FixedName(2), 4);
    } else if i == 2 {
      FirstDifference(FixedName(2), FixedName(3), 4);
    } else if i == 3 {
      FirstDifference(FixedName(3), FixedName(4), 7);
    } else if i == 4 {
      FirstDifference(FixedName(4), FixedName(5), 1);
    } else if i == 5 {
      FirstDifference(FixedName(5), FixedName(6), 0);
    } else if i == 6 {
      FirstDifference(FixedName(6), FixedName(7), 0);
    }
  }

  lemma AdjacentFrom7(i: int)
    requires 7 <= i < 14
    ensures Precedes(FixedName(i), FixedName(i + 1))
  {
    if i == 7 {
      FirstDifference(FixedName(7), FixedName(8), 0);
    } else if i == 8 {
      FirstDifference(FixedName(8), FixedName(9), 0);
    } else if i == 9 {
      FirstDifference(FixedName(9), FixedName(10), 0);
    } else if i == 10 {
      FirstDifference(FixedName(10), FixedName(11), 0);
    } else if i == 11 {
      FirstDifference(FixedName(11), FixedName(12), 6);
    } else if i == 12 {
      FirstDifference(FixedName(12), FixedName(13), 6);
    } else if i == 13 {
      FirstDifference(FixedName(13), FixedName(14), 1);
    }
  }

  lemma AdjacentFrom14(i: int)
    requires 14 <= i < 21
    ensures Precedes(FixedName(i), FixedName(i + 1))
  {
    if i == 14 {
      FirstDifference(FixedName(14), FixedName(15), 0);
    } else if i == 15 {
      FirstDifference(FixedName(15), FixedName(16), 1);
    } else if i == 16 {
      FirstDifference(FixedName(16), FixedName(17), 0);
    } else if i == 17 {
      FirstDifference(FixedName(17), FixedName(18), 2);
    } else if i == 18 {
      FirstDifference(FixedName(18), FixedName(19), 0);
    } else if i == 19 {
      FirstDifference(FixedName(19), FixedName(20), 1);
    } else if i == 20 {
      FirstDifference(FixedName(20), FixedName(21), 2);
    }
  }

  lemma AdjacentFrom21(i: int)
    requires 21 <= i < 28
    ensures Precedes(FixedName(i), FixedName(i + 1))
  {
    if i == 21 {
      FirstDifference(FixedName(21), FixedName(22), 7);
    } else if i == 22 {
      FirstDifference(FixedName(22), FixedName(23), 7);
    } else if i == 23 {
      FirstDifference(FixedName(23), FixedName(24), 1);
    } else if i == 24 {
      FirstDifference(FixedName(24), FixedName(25), 1);
    } else if i == 25 {
      FirstDifference(FixedName(25), FixedName(26), 1);
    } else if i == 26 {
      FirstDifference(FixedName(26), FixedName(27), 0);
    } else if i == 27 {
      FirstDifference(FixedName(27), FixedName(28), 9);
    }
  }

  lemma AdjacentFrom28(i: int)
    requires 28 <= i < 34
    ensures Precedes(FixedName(i), FixedName(i + 1))
  {
    if i == 28 {
      FirstDifference(FixedName(28), FixedName(29), 0);
    } else if i == 29 {
      FirstDifference(FixedName(29), FixedName(30), 0);
    } else if i == 30 {
      FirstDifference(FixedName(30), FixedName(31), 5);
    } else if i == 31 {
      FirstDifference(FixedName(31), FixedName(32), 9);
    } else if i == 32 {
      FirstDifference(FixedName(32), FixedName(33), 5);
    } else if i == 33 {
      FirstDifference(FixedName(33), FixedName(34), 5);
    }
  }

  /** Each name comes strictly before the next one. */
  lemma Adjacent(i: int)
    requires 0 <= i < PredefinedCount - 1
    ensures Precedes(FixedName(i), FixedName(i + 1))
  {
    if i < 7 {
      AdjacentFrom0(i);
    } else if i < 14 {
      AdjacentFrom7(i);
    } else if i < 21 {
      AdjacentFrom14(i);
    } else if i < 28 {
      AdjacentFrom21(i);
    } else {
      AdjacentFrom28(i);
    }
  }

  /** The names are strictly increasing. */
  lemma {:induction false} FixedNamesOrdered(i: int, j: int)
    requires 0 <= i < j < PredefinedCount
    ensures Precedes(FixedName(i), FixedName(j))
    decreases j - i
  {
    Adjacent(i);
    if i + 1 < j {
      FixedNamesOrdered(i + 1, j);
      PrecedesTransitive(FixedName(i), FixedName(i + 1), FixedName(j));
    }
  }

  /** No name occurs twice. */
  lemma FixedNamesDistinct(i: int, j: int)
    requires 0 <= i < PredefinedCount && 0 <= j < PredefinedCount
    ensures FixedName(i) == FixedName(j) <==> i == j
  {
    if i < j {
      FixedNamesOrdered(i, j);
      PrecedesIrreflexive(FixedName(i));
    } else if j < i {
      FixedNamesOrdered(j, i);
      PrecedesIrreflexive(FixedName(j));
    }
  }

  /** A predefined event is logged under the name listed at its position. */
  lemma NameAtRank(e: Event)
    requires !e.Custom?
    ensures Rank(e) < PredefinedCount && Name(e) == FixedName(Rank(e))
  {
  }

  /**
    Two predefined events are logged under the same name exactly when they
    are of the same case; a payload-free event is identified by its name.
   */
  lemma NameIdentifiesCase(e1: Event, e2: Event)
    requires !e1.Custom? && !e2.Custom?
    ensures Name(e1) == Name(e2) <==> Rank(e1) == Rank(e2)
    ensures e1.IsPayloadFree() && e2.IsPayloadFree() ==> (Name(e1) == Name(e2) <==> e1 == e2)
  {
    NameAtRank(e1);
    NameAtRank(e2);
    FixedNamesDistinct(Rank(e1), Rank(e2));
  }
}
