/** The wishlist: a set of product ids whose membership the heart buttons toggle. */
module WishlistSet {

  /**
   * `toggleWishlist`: the copy of the set with `id` removed if it was present
   * and added if it was not; no other id changes.
   */
  function Toggle(ids: set<string>, id: string): (r: set<string>)
    ensures id in r <==> id !in ids
    ensures forall x :: x != id ==> (x in r <==> x in ids)
  {
    if id in ids then ids - {id} else ids + {id}
  }

  /** Toggling the same id twice gives back the original set. */
  lemma ToggleTwice(ids: set<string>, id: string)
    ensures Toggle(Toggle(ids, id), id) == ids
  {
  }

  /** The header's `wishlistCount` goes down by one on removal and up by one on insertion. */
  lemma ToggleChangesCount(ids: set<string>, id: string)
    ensures |Toggle(ids, id)| == if id in ids then |ids| - 1 else |ids| + 1
  {
  }

  /** Toggles of different ids commute. */
  lemma ToggleCommutes(ids: set<string>, a: string, b: string)
    ensures Toggle(Toggle(ids, a), b) == Toggle(Toggle(ids, b), a)
  {
  }
}
