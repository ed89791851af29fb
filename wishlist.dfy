/**
 A user's wish for a product, with an optional target price that triggers a
 price-drop alert once the product's price falls to it.
 */
module Wishlists {
  import opened Types

  class Wishlist {
    var user: UserId
    var product: ProductId
    var targetPrice: Option<int>
    var notificationEnabled: bool

    /** The builder without an explicit toggle: notifications start enabled. */
    constructor (user: UserId, product: ProductId, targetPrice: Option<int>)
      ensures this.user == user && this.product == product && this.targetPrice == targetPrice
      ensures notificationEnabled
    {
      this.user := user;
      this.product := product;
      this.targetPrice := targetPrice;
      notificationEnabled := true;
    }

    /** Replaces the target price (an unset target included); nothing else changes. */
    method UpdateTargetPrice(targetPrice: Option<int>)
      modifies this
      ensures this.targetPrice == targetPrice
      ensures user == old(user) && product == old(product) && notificationEnabled == old(notificationEnabled)
    {
      this.targetPrice := targetPrice;
    }

    /** Sets the notification toggle; nothing else changes. */
    method ToggleNotification(enabled: bool)
      modifies this
      ensures notificationEnabled == enabled
      ensures user == old(user) && product == old(product) && targetPrice == old(targetPrice)
    {
      notificationEnabled := enabled;
    }

    /** A target counts only when it is set and positive. */
    predicate HasTargetPrice()
      reads this
    {
      targetPrice.Some? && targetPrice.value > 0
    }

    /** The price has fallen to the target: there is a target and the price is at most it. */
    predicate IsTargetPriceReached(currentPrice: int)
      reads this
    {
      HasTargetPrice() && currentPrice <= targetPrice.value
    }
  }

  /**
   A target is set exactly when some price reaches it, and then the target
   itself is the largest price that does: it is reached, one more is not.
   */
  lemma TargetIsLargestReachingPrice(w: Wishlist)
    ensures w.HasTargetPrice() <==> exists p :: w.IsTargetPriceReached(p)
    ensures w.HasTargetPrice()
        ==> w.IsTargetPriceReached(w.targetPrice.value) && !w.IsTargetPriceReached(w.targetPrice.value + 1)
  {
    if w.HasTargetPrice() {
      assert w.IsTargetPriceReached(w.targetPrice.value);
    }
  }

  /** With no target, or a target of zero or less, no price ever reaches it. */
  lemma UnsetTargetNeverReached(w: Wishlist, currentPrice: int)
    requires w.targetPrice.None? || w.targetPrice.value <= 0
    ensures !w.HasTargetPrice() && !w.IsTargetPriceReached(currentPrice)
  {
  }

  /** Once the target is reached at some price, it is reached at every lower price too. */
  lemma TargetReachedBelow(w: Wishlist, price: int, lower: int)
    requires w.IsTargetPriceReached(price) && lower <= price
    ensures w.IsTargetPriceReached(lower)
  {
  }

  /** A target of 10000 is reached at 9000 and at 10000, but not at 10001. */
  lemma TargetReachedExample(w: Wishlist)
    requires w.targetPrice == Some(10000)
    ensures w.IsTargetPriceReached(9000) && w.IsTargetPriceReached(10000)
    ensures !w.IsTargetPriceReached(10001)
  {
  }
}
