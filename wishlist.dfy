/** The wishlist on the home page (frontend/src/app/page.tsx): a set of
    product ids that the heart button toggles on a copy. */
module Wishlist {

  /** The set after toggling `productId`. */
  function Toggled(ids: set<int>, productId: int): (r: set<int>)
    ensures productId in r <==> productId !in ids
    ensures forall other :: other != productId ==> (other in r <==> other in ids)
  {
    if productId in ids then ids - {productId} else ids + {productId}
  }

  lemma ToggleTwiceRestores(ids: set<int>, productId: int)
    ensures Toggled(Toggled(ids, productId), productId) == ids
  {
  }

  class WishlistState {
    var ids: set<int>

    /** useState(new Set()) */
    constructor ()
      ensures ids == {}
    {
      ids := {};
    }

    /** toggleWishlist: copies the set, flips the id in the copy, then
        installs the copy. */
    method ToggleWishlist(productId: int)
      modifies this
      ensures ids == Toggled(old(ids), productId)
    {
      var newWishlist := ids;
      if productId in newWishlist {
        newWishlist := newWishlist - {productId};
      } else {
        newWishlist := newWishlist + {productId};
      }
      ids := newWishlist;
    }
  }
}
