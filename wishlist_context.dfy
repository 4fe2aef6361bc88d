/**
 * src/context/WishlistContext.tsx: the wishlist entries together with the set of their product
 * ids, the optimistic toggle/add/remove steps, and the server refresh that settles every step.
 */
module WishlistContext {
  import opened Wrappers
  import opened Types
  import opened Seqs

  const TEMP_PREFIX: string := "temp_"

  /** `new Set(items.map(item => item.product.id))` */
  function ProductIds(items: seq<WishlistItem>): (r: set<string>)
    ensures forall i | 0 <= i < |items| :: items[i].product.id in r
    ensures forall id | id in r :: exists i | 0 <= i < |items| :: items[i].product.id == id
  {
    set i | 0 <= i < |items| :: items[i].product.id
  }

  /** No product appears in two entries. */
  predicate NoDuplicateProducts(items: seq<WishlistItem>) {
    items == [] || (items[0].product.id !in ProductIds(items[1..]) && NoDuplicateProducts(items[1..]))
  }

  /** `items.filter(item => item.product.id !== productId)` */
  function WithoutProduct(items: seq<WishlistItem>, productId: string): (r: seq<WishlistItem>)
    ensures forall e :: e in r <==> e in items && e.product.id != productId
    ensures IsSubsequence(r, items)
  {
    Filter(items, (e: WishlistItem) => e.product.id != productId)
  }

  /** The optimistic entry: id "temp_" + product id, stamped with the current time. */
  function NewEntry(product: Product, now: string): (r: WishlistItem)
    ensures r.id == TEMP_PREFIX + product.id && r.product == product && r.addedAt == now
  {
    WishlistItem(TEMP_PREFIX + product.id, product, now)
  }

  /** The optimistic toggle: drop every entry of a listed product, append one for another. */
  function Toggled(items: seq<WishlistItem>, product: Product, now: string): seq<WishlistItem> {
    if product.id in ProductIds(items) then WithoutProduct(items, product.id)
    else items + [NewEntry(product, now)]
  }

  /** A list whose entries all come from another has a subset of its product ids. */
  lemma ProductIdsSubset(a: seq<WishlistItem>, b: seq<WishlistItem>)
    requires forall e | e in a :: e in b
    ensures ProductIds(a) <= ProductIds(b)
  {
    forall id | id in ProductIds(a) ensures id in ProductIds(b) {
      var j :| 0 <= j < |a| && a[j].product.id == id;
      assert a[j] in b;
      var i :| 0 <= i < |b| && b[i] == a[j];
    }
  }

  /** A list holding exactly the entries of other products has exactly the other ids. */
  lemma ProductIdsOfOthers(items: seq<WishlistItem>, r: seq<WishlistItem>, productId: string)
    requires forall e :: e in r <==> e in items && e.product.id != productId
    ensures ProductIds(r) == ProductIds(items) - {productId}
  {
    assert ProductIds(r) <= ProductIds(items) by {
      ProductIdsSubset(r, items);
    }
    assert productId !in ProductIds(r) by {
      forall j | 0 <= j < |r| ensures r[j].product.id != productId {
        assert r[j] in r;
      }
    }
    assert ProductIds(items) - {productId} <= ProductIds(r) by {
      forall id | id in ProductIds(items) - {productId} ensures id in ProductIds(r) {
        var i :| 0 <= i < |items| && items[i].product.id == id;
        assert items[i] in r;
        var j :| 0 <= j < |r| && r[j] == items[i];
      }
    }
  }

  /** Dropping a product's entries removes exactly its id from the id set. */
  lemma ProductIdsWithout(items: seq<WishlistItem>, productId: string)
    ensures ProductIds(WithoutProduct(items, productId)) == ProductIds(items) - {productId}
  {
    ProductIdsOfOthers(items, WithoutProduct(items, productId), productId);
  }

  lemma ProductIdsAppend(items: seq<WishlistItem>, e: WishlistItem)
    ensures ProductIds(items + [e]) == ProductIds(items) + {e.product.id}
  {
    var r := items + [e];
    assert r[|items|] == e;
    forall id | id in ProductIds(r) ensures id in ProductIds(items) + {e.product.id} {
      var j :| 0 <= j < |r| && r[j].product.id == id;
      if j < |items| {
        assert r[j] == items[j];
      }
    }
    forall id | id in ProductIds(items) ensures id in ProductIds(r) {
      var i :| 0 <= i < |items| && items[i].product.id == id;
      assert r[i] == items[i];
    }
  }

  /** The toggle flips the product's membership and leaves every other product's as it was. */
  lemma ToggleFlips(items: seq<WishlistItem>, product: Product, now: string)
    ensures product.id in ProductIds(items) ==>
              ProductIds(Toggled(items, product, now)) == ProductIds(items) - {product.id}
    ensures product.id !in ProductIds(items) ==>
              ProductIds(Toggled(items, product, now)) == ProductIds(items) + {product.id}
  {
    if product.id in ProductIds(items) {
      ProductIdsWithout(items, product.id);
    } else {
      ProductIdsAppend(items, NewEntry(product, now));
    }
  }

  /** Toggling an unlisted product twice gives the list back. */
  lemma ToggleTwice(items: seq<WishlistItem>, product: Product, now: string, later: string)
    requires product.id !in ProductIds(items)
    ensures Toggled(Toggled(items, product, now), product, later) == items
  {
    var e := NewEntry(product, now);
    var keep := (x: WishlistItem) => x.product.id != product.id;
    ProductIdsAppend(items, e);
    FilterAppend(items, [e], keep);
    FilterAllKept(items, keep);
    assert Filter([e], keep) == [];
  }

  lemma {:induction false} NoDuplicatesWithout(items: seq<WishlistItem>, productId: string)
    requires NoDuplicateProducts(items)
    ensures NoDuplicateProducts(WithoutProduct(items, productId))
  {
    if items != [] {
      NoDuplicatesWithout(items[1..], productId);
      ProductIdsWithout(items[1..], productId);
      var rest := WithoutProduct(items[1..], productId);
      if items[0].product.id != productId {
        var r := [items[0]] + rest;
        assert WithoutProduct(items, productId) == r;
        assert r[1..] == rest;
      } else {
        assert WithoutProduct(items, productId) == rest;
      }
    }
  }

  lemma {:induction false} NoDuplicatesAppend(items: seq<WishlistItem>, e: WishlistItem)
    requires NoDuplicateProducts(items) && e.product.id !in ProductIds(items)
    ensures NoDuplicateProducts(items + [e])
  {
    if items != [] {
      var tail := items[1..];
      assert (items + [e])[1..] == tail + [e];
      assert e.product.id !in ProductIds(tail) by {
        ProductIdsSubset(tail, items);
      }
      assert items[0].product.id != e.product.id by {
        assert items[0].product.id in ProductIds(items);
      }
      ProductIdsAppend(tail, e);
      NoDuplicatesAppend(tail, e);
    } else {
      assert [] + [e] == [e];
      assert [e][1..] == [];
    }
  }

  /** The toggle never lists a product twice. */
  lemma ToggleKeepsNoDuplicates(items: seq<WishlistItem>, product: Product, now: string)
    requires NoDuplicateProducts(items)
    ensures NoDuplicateProducts(Toggled(items, product, now))
  {
    if product.id in ProductIds(items) {
      NoDuplicatesWithout(items, product.id);
    } else {
      NoDuplicatesAppend(items, NewEntry(product, now));
    }
  }

  /** The provider's state: the entries, the id set kept beside them, and the WISHLIST_DATA entry
      of local storage. */
  class WishlistState {
    var wishlist: seq<WishlistItem>
    var wishlistIds: set<string>
    var isLoading: bool
    var cache: Option<seq<WishlistItem>>

    /** The id set is exactly the set of product ids of the entries. */
    ghost predicate Valid()
      reads this`wishlist, this`wishlistIds
    {
      wishlistIds == ProductIds(wishlist)
    }

    constructor (stored: Option<seq<WishlistItem>>)
      ensures Valid()
      ensures wishlist == [] && wishlistIds == {} && !isLoading && cache == stored
    {
      wishlist, wishlistIds, isLoading, cache := [], {}, false, stored;
    }

    /** isInWishlist: a lookup in the id set, which answers for the entries themselves. */
    function IsInWishlist(productId: string): (r: bool)
      reads this`wishlist, this`wishlistIds
      ensures r <==> productId in wishlistIds
      ensures Valid() ==> (r <==> exists i | 0 <= i < |wishlist| :: wishlist[i].product.id == productId)
    {
      productId in wishlistIds
    }

    /** fetchWishlist: the server list and its ids, cached; a failure is swallowed. */
    method FetchWishlist(fetched: Remote<seq<WishlistItem>>)
      requires Valid()
      modifies this`wishlist, this`wishlistIds, this`cache
      ensures Valid()
      ensures fetched.Ok? ==> wishlist == fetched.value && cache == Some(fetched.value)
      ensures fetched.Err? ==> wishlist == old(wishlist) && cache == old(cache)
    {
      if fetched.Ok? {
        var data := fetched.value;
        wishlist := data;
        wishlistIds := set i | 0 <= i < |data| :: data[i].product.id;
        cache := Some(data);
      }
    }

    /** initWishlist: show the cached list first, then fetch. */
    method InitWishlist(fetched: Remote<seq<WishlistItem>>)
      requires Valid()
      modifies this`wishlist, this`wishlistIds, this`cache
      ensures Valid()
      ensures fetched.Ok? ==> wishlist == fetched.value && cache == Some(fetched.value)
      ensures fetched.Err? && old(cache).Some? ==> wishlist == old(cache).value && cache == old(cache)
      ensures fetched.Err? && old(cache).None? ==> wishlist == old(wishlist) && cache == None
    {
      if cache.Some? {
        var cached := cache.value;
        wishlist := cached;
        wishlistIds := set i | 0 <= i < |cached| :: cached[i].product.id;
      }
      FetchWishlist(fetched);
    }

    /** toggleWishlist: the optimistic toggle, then the remote toggle, then a refresh whether the
        toggle succeeded or not; `toggled` therefore has no bearing on the outcome. */
    method ToggleWishlist(product: Product, now: string, toggled: Remote<()>, fetched: Remote<seq<WishlistItem>>)
      requires Valid()
      modifies this
      ensures Valid() && !isLoading
      ensures fetched.Ok? ==> wishlist == fetched.value && cache == Some(fetched.value)
      ensures fetched.Err? ==> wishlist == Toggled(old(wishlist), product, now) && cache == old(cache)
      ensures fetched.Err? ==> (IsInWishlist(product.id) <==> !old(IsInWishlist(product.id)))
      ensures fetched.Err? && NoDuplicateProducts(old(wishlist)) ==> NoDuplicateProducts(wishlist)
    {
      isLoading := true;
      var wasInWishlist := IsInWishlist(product.id);
      ToggleFlips(wishlist, product, now);
      if NoDuplicateProducts(wishlist) {
        ToggleKeepsNoDuplicates(wishlist, product, now);
      }
      if wasInWishlist {
        wishlist := WithoutProduct(wishlist, product.id);
        wishlistIds := wishlistIds - {product.id};
      } else {
        wishlist := wishlist + [NewEntry(product, now)];
        wishlistIds := wishlistIds + {product.id};
      }
      if toggled.Ok? {
        FetchWishlist(fetched);
      } else {
        FetchWishlist(fetched);
      }
      isLoading := false;
    }

    /** addToWishlist: nothing at all for a listed product; otherwise append, add, refresh. */
    method AddToWishlist(product: Product, now: string, added: Remote<()>, fetched: Remote<seq<WishlistItem>>)
      requires Valid()
      modifies this
      ensures Valid()
      ensures old(IsInWishlist(product.id)) ==>
                wishlist == old(wishlist) && wishlistIds == old(wishlistIds) &&
                isLoading == old(isLoading) && cache == old(cache)
      ensures !old(IsInWishlist(product.id)) ==> !isLoading
      ensures !old(IsInWishlist(product.id)) && fetched.Ok? ==>
                wishlist == fetched.value && cache == Some(fetched.value)
      ensures !old(IsInWishlist(product.id)) && fetched.Err? ==>
                wishlist == old(wishlist) + [NewEntry(product, now)] && cache == old(cache) &&
                IsInWishlist(product.id)
      ensures fetched.Err? && NoDuplicateProducts(old(wishlist)) ==> NoDuplicateProducts(wishlist)
    {
      if IsInWishlist(product.id) {
        return;
      }
      isLoading := true;
      var entry := NewEntry(product, now);
      ProductIdsAppend(wishlist, entry);
      if NoDuplicateProducts(wishlist) {
        NoDuplicatesAppend(wishlist, entry);
      }
      wishlist := wishlist + [entry];
      wishlistIds := wishlistIds + {product.id};
      if added.Ok? {
        FetchWishlist(fetched);
      } else {
        FetchWishlist(fetched);
      }
      isLoading := false;
    }

    /** removeFromWishlist: nothing at all for an unlisted product; otherwise drop its entries and
        its id, then refresh. */
    method RemoveFromWishlist(productId: string, removed: Remote<()>, fetched: Remote<seq<WishlistItem>>)
      requires Valid()
      modifies this
      ensures Valid()
      ensures !old(IsInWishlist(productId)) ==>
                wishlist == old(wishlist) && wishlistIds == old(wishlistIds) &&
                isLoading == old(isLoading) && cache == old(cache)
      ensures old(IsInWishlist(productId)) ==> !isLoading
      ensures old(IsInWishlist(productId)) && fetched.Ok? ==>
                wishlist == fetched.value && cache == Some(fetched.value)
      ensures old(IsInWishlist(productId)) && fetched.Err? ==>
                wishlist == WithoutProduct(old(wishlist), productId) && cache == old(cache) &&
                !IsInWishlist(productId)
      ensures fetched.Err? && NoDuplicateProducts(old(wishlist)) ==> NoDuplicateProducts(wishlist)
    {
      if !IsInWishlist(productId) {
        return;
      }
      isLoading := true;
      ProductIdsWithout(wishlist, productId);
      if NoDuplicateProducts(wishlist) {
        NoDuplicatesWithout(wishlist, productId);
      }
      wishlist := WithoutProduct(wishlist, productId);
      wishlistIds := wishlistIds - {productId};
      if removed.Ok? {
        FetchWishlist(fetched);
      } else {
        FetchWishlist(fetched);
      }
      isLoading := false;
    }
  }
}
