/**
 * src/context/CartContext.tsx: the two optimistic cart lists (product lines and combo lines),
 * their snapshot-and-restore mutations, the server refresh that replaces them, and the totals.
 * Every remote call is one atomic step whose outcome is a parameter.
 */
module CartContext {
  import opened Wrappers
  import opened Text
  import opened Types
  import opened Seqs
  import StoreApi

  /** Prefix of the placeholder ids of lines the server has not confirmed yet. */
  const TEMP_PREFIX: string := "temp_"
  const TEMP_COMBO_PREFIX: string := "temp_combo_"

  /** One line of either list. `id` is the product or combo id, `cartItemId` the server's line
      id, `extras` the options of a product line or the customizations of a combo line. */
  datatype CartLine = CartLine(
    id: string,
    cartItemId: string,
    name: string,
    price: int,
    image: string,
    quantity: int,
    extras: map<string, string>,
    notes: string,
    isCombo: bool)

  /** A cart item as the server returns it; `target` is the product or combo id. */
  datatype ServerCartItem = ServerCartItem(
    id: string,
    target: string,
    targetName: string,
    unitPrice: int,
    image: Option<string>,
    quantity: int,
    extras: Option<map<string, string>>,
    notes: Option<string>)

  datatype ServerCart = ServerCart(items: Option<seq<ServerCartItem>>, comboItems: Option<seq<ServerCartItem>>)

  /** The CART_DATA entry of local storage. */
  datatype CartCache = CartCache(products: seq<CartLine>, combos: seq<CartLine>)

  // ---------------------------------------------------------------------------------------------
  // Building lines

  /** normalizeCartItem / normalizeComboItem */
  function NormalizeItem(item: ServerCartItem, isCombo: bool): (r: CartLine)
    ensures r.id == item.target && r.cartItemId == item.id
    ensures r.price == item.unitPrice && r.quantity == item.quantity && r.isCombo == isCombo
    ensures r.image == StoreApi.BuildMediaUrl(item.image)
    ensures r.name == item.targetName
    ensures r.extras == (if item.extras.Some? then item.extras.value else map[])
    ensures r.notes == (if item.notes.Some? then item.notes.value else "")
  {
    CartLine(item.target, item.id, item.targetName, item.unitPrice, StoreApi.BuildMediaUrl(item.image),
             item.quantity, item.extras.GetOr(map[]), item.notes.GetOr(""), isCombo)
  }

  /** `(items || []).map(normalize)` */
  function NormalizeAll(items: Option<seq<ServerCartItem>>, isCombo: bool): (r: seq<CartLine>)
    ensures items.None? ==> r == []
    ensures items.Some? ==> |r| == |items.value|
    ensures items.Some? ==> forall i | 0 <= i < |r| :: r[i] == NormalizeItem(items.value[i], isCombo)
  {
    var s := items.GetOr([]);
    seq(|s|, i requires 0 <= i < |s| => NormalizeItem(s[i], isCombo))
  }

  function ServerProducts(c: ServerCart): seq<CartLine> {
    NormalizeAll(c.items, false)
  }

  function ServerCombos(c: ServerCart): seq<CartLine> {
    NormalizeAll(c.comboItems, true)
  }

  /** `cart_item_id && !cart_item_id.startsWith('temp_')`: the line exists on the server. */
  predicate IsSynced(cartItemId: string) {
    cartItemId != "" && !StartsWith(cartItemId, TEMP_PREFIX)
  }

  /** buildOptimisticItem(product, 1): the placeholder line shown until the server answers. */
  function OptimisticItem(p: Product): (r: CartLine)
    ensures r.id == p.id && r.price == p.price && r.quantity == 1 && !r.isCombo
    ensures r.cartItemId == TEMP_PREFIX + p.id && !IsSynced(r.cartItemId)
    ensures r.image == StoreApi.BuildMediaUrl(p.mainImageUrl)
    ensures r.name == p.name && r.extras == map[] && r.notes == ""
  {
    assert (TEMP_PREFIX + p.id)[..|TEMP_PREFIX|] == TEMP_PREFIX;
    CartLine(p.id, TEMP_PREFIX + p.id, p.name, p.price, StoreApi.BuildMediaUrl(p.mainImageUrl), 1, map[], "", false)
  }

  /** buildOptimisticCombo(combo, 1) */
  function OptimisticCombo(c: Combo): (r: CartLine)
    ensures r.id == c.id && r.price == c.price && r.quantity == 1 && r.isCombo
    ensures r.cartItemId == TEMP_COMBO_PREFIX + c.id && !IsSynced(r.cartItemId)
    ensures r.image == StoreApi.BuildMediaUrl(c.imageUrl)
    ensures r.name == c.name && r.extras == map[] && r.notes == ""
  {
    assert (TEMP_COMBO_PREFIX + c.id)[..|TEMP_PREFIX|] == TEMP_PREFIX;
    CartLine(c.id, TEMP_COMBO_PREFIX + c.id, c.name, c.price, StoreApi.BuildMediaUrl(c.imageUrl), 1, map[], "", true)
  }

  // ---------------------------------------------------------------------------------------------
  // The list steps

  /** `lines.findIndex(l => l.id === id)`, as an index. */
  function FindLine(lines: seq<CartLine>, id: string): (r: Option<nat>)
    ensures r.Some? ==> r.value < |lines| && lines[r.value].id == id &&
                        forall j | 0 <= j < r.value :: lines[j].id != id
    ensures r.None? ==> forall j | 0 <= j < |lines| :: lines[j].id != id
  {
    Seqs.FirstIndex(lines, (l: CartLine) => l.id == id)
  }

  /** The server line id a delete or update is sent for: that of the first line with `id`, when
      it is synced. */
  function SyncedItemId(lines: seq<CartLine>, id: string): (r: Option<string>)
    ensures r.Some? <==> FindLine(lines, id).Some? && IsSynced(lines[FindLine(lines, id).value].cartItemId)
    ensures r.Some? ==> r.value == lines[FindLine(lines, id).value].cartItemId
  {
    match FindLine(lines, id)
    case Some(i) => if IsSynced(lines[i].cartItemId) then Some(lines[i].cartItemId) else None
    case None => None
  }

  /** The optimistic add: bump the first line with the same id, or append `line`. */
  function AddOne(lines: seq<CartLine>, line: CartLine): (r: seq<CartLine>)
    ensures FindLine(lines, line.id).Some? ==>
              var i := FindLine(lines, line.id).value;
              |r| == |lines| && r[i] == lines[i].(quantity := lines[i].quantity + 1) &&
              forall j | 0 <= j < |lines| && j != i :: r[j] == lines[j]
    ensures FindLine(lines, line.id).None? ==> r == lines + [line]
  {
    match FindLine(lines, line.id)
    case Some(i) => lines[i := lines[i].(quantity := lines[i].quantity + 1)]
    case None => lines + [line]
  }

  /** `lines.filter(l => l.id !== id)` */
  function RemoveLines(lines: seq<CartLine>, id: string): (r: seq<CartLine>)
    ensures forall l :: l in r <==> l in lines && l.id != id
    ensures IsSubsequence(r, lines)
    ensures FindLine(r, id).None?
  {
    Filter(lines, (l: CartLine) => l.id != id)
  }

  /** `lines.map(l => l.id === id ? {...l, quantity: q} : l)` */
  function SetQuantity(lines: seq<CartLine>, id: string, q: int): (r: seq<CartLine>)
    ensures |r| == |lines|
    ensures forall i | 0 <= i < |lines| ::
              r[i] == if lines[i].id == id then lines[i].(quantity := q) else lines[i]
  {
    seq(|lines|, i requires 0 <= i < |lines| =>
      if lines[i].id == id then lines[i].(quantity := q) else lines[i])
  }

  // ---------------------------------------------------------------------------------------------
  // Totals

  /** `lines.reduce((n, l) => n + l.quantity, 0)` */
  function Quantities(lines: seq<CartLine>): int {
    if lines == [] then 0 else lines[0].quantity + Quantities(lines[1..])
  }

  /** `lines.reduce((t, l) => t + l.price * l.quantity, 0)`, in cents. */
  function Subtotal(lines: seq<CartLine>): int {
    if lines == [] then 0 else lines[0].price * lines[0].quantity + Subtotal(lines[1..])
  }

  /** The sum of the quantities of the lines with `id`. */
  function QuantityOf(lines: seq<CartLine>, id: string): int {
    if lines == [] then 0
    else (if lines[0].id == id then lines[0].quantity else 0) + QuantityOf(lines[1..], id)
  }

  predicate NonNegative(lines: seq<CartLine>) {
    forall i | 0 <= i < |lines| :: lines[i].price >= 0 && lines[i].quantity >= 0
  }

  /** A subtotal of lines without negative prices or quantities is not negative. */
  lemma {:induction false} SubtotalNonNegative(lines: seq<CartLine>)
    ensures NonNegative(lines) ==> Subtotal(lines) >= 0
  {
    if lines != [] && NonNegative(lines) {
      assert NonNegative(lines[1..]) by {
        forall j | 0 <= j < |lines[1..]| ensures lines[1..][j].price >= 0 && lines[1..][j].quantity >= 0 {
          assert lines[1..][j] == lines[j + 1];
        }
      }
      SubtotalNonNegative(lines[1..]);
      assert lines[0].price * lines[0].quantity >= 0;
    }
  }

  predicate AllPositive(lines: seq<CartLine>) {
    forall i | 0 <= i < |lines| :: lines[i].quantity >= 1
  }

  lemma {:induction false} TotalsAppend(lines: seq<CartLine>, l: CartLine)
    ensures Quantities(lines + [l]) == Quantities(lines) + l.quantity
    ensures Subtotal(lines + [l]) == Subtotal(lines) + l.price * l.quantity
  {
    if lines != [] {
      assert (lines + [l])[1..] == lines[1..] + [l];
      TotalsAppend(lines[1..], l);
    }
  }

  lemma {:induction false} TotalsUpdate(lines: seq<CartLine>, i: nat, l: CartLine)
    requires i < |lines|
    ensures Quantities(lines[i := l]) == Quantities(lines) - lines[i].quantity + l.quantity
    ensures Subtotal(lines[i := l]) == Subtotal(lines) - lines[i].price * lines[i].quantity + l.price * l.quantity
  {
    if i > 0 {
      assert lines[i := l][1..] == lines[1..][i - 1 := l];
      TotalsUpdate(lines[1..], i - 1, l);
    } else {
      assert lines[i := l][1..] == lines[1..];
    }
  }

  /** The optimistic add raises the item count by one and the total by that line's price. */
  lemma AddOneTotals(lines: seq<CartLine>, line: CartLine)
    requires line.quantity == 1
    ensures Quantities(AddOne(lines, line)) == Quantities(lines) + 1
    ensures FindLine(lines, line.id).Some? ==>
              Subtotal(AddOne(lines, line)) == Subtotal(lines) + lines[FindLine(lines, line.id).value].price
    ensures FindLine(lines, line.id).None? ==> Subtotal(AddOne(lines, line)) == Subtotal(lines) + line.price
  {
    match FindLine(lines, line.id)
    case Some(i) =>
      var l := lines[i].(quantity := lines[i].quantity + 1);
      TotalsUpdate(lines, i, l);
      assert l.price * l.quantity == lines[i].price * lines[i].quantity + lines[i].price;
    case None =>
      TotalsAppend(lines, line);
  }

  /** Removing a product takes away exactly the quantities of its lines. */
  lemma {:induction false} RemoveLinesCount(lines: seq<CartLine>, id: string)
    ensures Quantities(RemoveLines(lines, id)) == Quantities(lines) - QuantityOf(lines, id)
  {
    if lines != [] {
      RemoveLinesCount(lines[1..], id);
      if lines[0].id != id {
        assert RemoveLines(lines, id) == [lines[0]] + RemoveLines(lines[1..], id);
        assert ([lines[0]] + RemoveLines(lines[1..], id))[1..] == RemoveLines(lines[1..], id);
      } else {
        assert RemoveLines(lines, id) == RemoveLines(lines[1..], id);
      }
    }
  }

  /** With positive quantities the item count is at least the number of lines. */
  lemma {:induction false} QuantitiesAtLeastLength(lines: seq<CartLine>)
    requires AllPositive(lines)
    ensures Quantities(lines) >= |lines|
  {
    if lines != [] {
      assert AllPositive(lines[1..]) by {
        forall j | 0 <= j < |lines[1..]| ensures lines[1..][j].quantity >= 1 {
          assert lines[1..][j] == lines[j + 1];
        }
      }
      QuantitiesAtLeastLength(lines[1..]);
    }
  }

  /** No local step creates a line with quantity below 1: add bumps or appends a line of
      quantity 1, remove only drops lines, and update is only applied with a quantity of at
      least 1 (smaller ones become a remove). */
  lemma LocalStepsKeepPositive(lines: seq<CartLine>, line: CartLine, id: string, q: int)
    requires AllPositive(lines) && line.quantity >= 1 && q >= 1
    ensures AllPositive(AddOne(lines, line))
    ensures AllPositive(RemoveLines(lines, id))
    ensures AllPositive(SetQuantity(lines, id, q))
  {
    var r := RemoveLines(lines, id);
    assert AllPositive(r) by {
      forall i | 0 <= i < |r| ensures r[i].quantity >= 1 {
        assert r[i] in r;
        var j :| 0 <= j < |lines| && lines[j] == r[i];
      }
    }
    assert AllPositive(AddOne(lines, line)) by {}
    assert AllPositive(SetQuantity(lines, id, q)) by {}
  }

  // ---------------------------------------------------------------------------------------------
  // The provider's state

  class CartState {
    var cart: seq<CartLine>
    var combos: seq<CartLine>
    var isLoading: bool
    /** The CART_DATA entry of local storage. */
    var cache: Option<CartCache>

    /** Mount: empty lists, storage as left by the previous run. */
    constructor (stored: Option<CartCache>)
      ensures cart == [] && combos == [] && !isLoading && cache == stored
    {
      cart, combos, isLoading, cache := [], [], false, stored;
    }

    /** productTotal: never negative when no line has a negative price or quantity. */
    function ProductTotal(): (t: int)
      reads this
      ensures NonNegative(cart) ==> t >= 0
    {
      SubtotalNonNegative(cart);
      Subtotal(cart)
    }

    /** comboTotal: never negative when no combo line has a negative price or quantity. */
    function ComboTotal(): (t: int)
      reads this
      ensures NonNegative(combos) ==> t >= 0
    {
      SubtotalNonNegative(combos);
      Subtotal(combos)
    }

    /** cartTotal: the sum of both subtotals, so never below either when the other is not negative. */
    function CartTotal(): (t: int)
      reads this
      ensures NonNegative(cart) && NonNegative(combos) ==> t >= ProductTotal() && t >= ComboTotal()
    {
      ProductTotal() + ComboTotal()
    }

    /** cartCount: the units in the cart, at least one per line when quantities are positive. */
    function CartCount(): (n: int)
      reads this
      ensures AllPositive(cart) && AllPositive(combos) ==> n >= |cart| + |combos|
    {
      if AllPositive(cart) && AllPositive(combos) then
        QuantitiesAtLeastLength(cart);
        QuantitiesAtLeastLength(combos);
        Quantities(cart) + Quantities(combos)
      else
        Quantities(cart) + Quantities(combos)
    }

    /** hasItems: an empty cart counts no units and costs nothing. */
    predicate HasItems()
      reads this
      ensures !HasItems() ==> CartCount() == 0 && CartTotal() == 0
    {
      |cart| > 0 || |combos| > 0
    }

    /** With positive quantities, the cart has items exactly when it counts some. */
    lemma HasItemsIffCount()
      requires AllPositive(cart) && AllPositive(combos)
      ensures HasItems() <==> CartCount() > 0
    {
      QuantitiesAtLeastLength(cart);
      QuantitiesAtLeastLength(combos);
    }

    /** fetchCart: a successful fetch replaces both lists with the normalised server cart and
        caches them; a failure is swallowed and changes nothing. */
    method FetchCart(fetched: Remote<ServerCart>)
      modifies this`cart, this`combos, this`cache
      ensures fetched.Ok? ==>
                cart == ServerProducts(fetched.value) && combos == ServerCombos(fetched.value) &&
                cache == Some(CartCache(cart, combos))
      ensures fetched.Err? ==> cart == old(cart) && combos == old(combos) && cache == old(cache)
    {
      if fetched.Ok? {
        var formattedProducts := NormalizeAll(fetched.value.items, false);
        var formattedCombos := NormalizeAll(fetched.value.comboItems, true);
        cart := formattedProducts;
        combos := formattedCombos;
        cache := Some(CartCache(formattedProducts, formattedCombos));
      }
    }

    /** initCart: show the cached lists first, then fetch. */
    method InitCart(fetched: Remote<ServerCart>)
      modifies this`cart, this`combos, this`cache
      ensures fetched.Ok? ==>
                cart == ServerProducts(fetched.value) && combos == ServerCombos(fetched.value) &&
                cache == Some(CartCache(cart, combos))
      ensures fetched.Err? && old(cache).Some? ==>
                cart == old(cache).value.products && combos == old(cache).value.combos && cache == old(cache)
      ensures fetched.Err? && old(cache).None? ==> cart == old(cart) && combos == old(combos) && cache == None
    {
      if cache.Some? {
        cart := cache.value.products;
        combos := cache.value.combos;
      }
      FetchCart(fetched);
    }

    /** addToCart: optimistic add, then the remote add; on success the server cart (when the
        refresh succeeds), on failure the snapshot. */
    method AddToCart(product: Product, added: Remote<()>, fetched: Remote<ServerCart>)
      modifies this
      ensures !isLoading
      ensures added.Err? ==> cart == old(cart) && combos == old(combos) && cache == old(cache)
      ensures added.Ok? && fetched.Ok? ==>
                cart == ServerProducts(fetched.value) && combos == ServerCombos(fetched.value) &&
                cache == Some(CartCache(cart, combos))
      ensures added.Ok? && fetched.Err? ==>
                cart == AddOne(old(cart), OptimisticItem(product)) && combos == old(combos) &&
                cache == old(cache) && CartCount() == old(CartCount()) + 1
    {
      isLoading := true;
      var previousCart := cart;
      cart := AddOne(cart, OptimisticItem(product));
      AddOneTotals(previousCart, OptimisticItem(product));
      if added.Ok? {
        FetchCart(fetched);
      } else {
        cart := previousCart;
      }
      isLoading := false;
    }

    /** addComboToCart */
    method AddComboToCart(combo: Combo, added: Remote<()>, fetched: Remote<ServerCart>)
      modifies this
      ensures !isLoading
      ensures added.Err? ==> cart == old(cart) && combos == old(combos) && cache == old(cache)
      ensures added.Ok? && fetched.Ok? ==>
                cart == ServerProducts(fetched.value) && combos == ServerCombos(fetched.value) &&
                cache == Some(CartCache(cart, combos))
      ensures added.Ok? && fetched.Err? ==>
                combos == AddOne(old(combos), OptimisticCombo(combo)) && cart == old(cart) &&
                cache == old(cache) && CartCount() == old(CartCount()) + 1
    {
      isLoading := true;
      var previousCombos := combos;
      combos := AddOne(combos, OptimisticCombo(combo));
      AddOneTotals(previousCombos, OptimisticCombo(combo));
      if added.Ok? {
        FetchCart(fetched);
      } else {
        combos := previousCombos;
      }
      isLoading := false;
    }

    /** removeFromCart: drop the product's lines; the delete is sent (for the returned server id)
        only for a synced line, and only its failure restores the snapshot. No refresh follows. */
    method RemoveFromCart(productId: string, removed: Remote<()>) returns (deleted: Option<string>)
      modifies this`cart
      ensures deleted == SyncedItemId(old(cart), productId)
      ensures deleted.Some? && removed.Err? ==> cart == old(cart)
      ensures !(deleted.Some? && removed.Err?) ==> cart == RemoveLines(old(cart), productId)
    {
      var previousCart := cart;
      deleted := SyncedItemId(cart, productId);
      cart := RemoveLines(cart, productId);
      if deleted.Some? && removed.Err? {
        cart := previousCart;
      }
    }

    /** removeComboFromCart */
    method RemoveComboFromCart(comboId: string, removed: Remote<()>) returns (deleted: Option<string>)
      modifies this`combos
      ensures deleted == SyncedItemId(old(combos), comboId)
      ensures deleted.Some? && removed.Err? ==> combos == old(combos)
      ensures !(deleted.Some? && removed.Err?) ==> combos == RemoveLines(old(combos), comboId)
    {
      var previousCombos := combos;
      deleted := SyncedItemId(combos, comboId);
      combos := RemoveLines(combos, comboId);
      if deleted.Some? && removed.Err? {
        combos := previousCombos;
      }
    }

    /** updateQuantity: nothing for an absent product; a new quantity below 1 is a remove (whose
        delete is `remote`); otherwise the product's lines take the new quantity, the update
        (`remote`) is sent for a synced line, and the cart is refreshed unless it failed, in which
        case the snapshot comes back. */
    method UpdateQuantity(productId: string, amount: int, remote: Remote<()>, fetched: Remote<ServerCart>)
      returns (sent: Option<string>)
      modifies this`cart, this`combos, this`cache
      ensures FindLine(old(cart), productId).None? ==>
                sent == None && cart == old(cart) && combos == old(combos) && cache == old(cache)
      ensures FindLine(old(cart), productId).Some? ==>
                var q := old(cart)[FindLine(old(cart), productId).value].quantity + amount;
                sent == SyncedItemId(old(cart), productId) &&
                (sent.Some? && remote.Err? ==>
                   cart == old(cart) && combos == old(combos) && cache == old(cache)) &&
                (!(sent.Some? && remote.Err?) && q < 1 ==>
                   cart == RemoveLines(old(cart), productId) && combos == old(combos) && cache == old(cache)) &&
                (!(sent.Some? && remote.Err?) && q >= 1 && fetched.Ok? ==>
                   cart == ServerProducts(fetched.value) && combos == ServerCombos(fetched.value) &&
                   cache == Some(CartCache(cart, combos))) &&
                (!(sent.Some? && remote.Err?) && q >= 1 && fetched.Err? ==>
                   cart == SetQuantity(old(cart), productId, q) && combos == old(combos) && cache == old(cache))
    {
      var index := FindLine(cart, productId);
      if index.None? {
        return None;
      }
      var newQuantity := cart[index.value].quantity + amount;
      if newQuantity < 1 {
        sent := RemoveFromCart(productId, remote);
        return;
      }
      var previousCart := cart;
      sent := SyncedItemId(cart, productId);
      cart := SetQuantity(cart, productId, newQuantity);
      if sent.Some? && remote.Err? {
        cart := previousCart;
      } else {
        FetchCart(fetched);
      }
    }

    /** updateComboQuantity */
    method UpdateComboQuantity(comboId: string, amount: int, remote: Remote<()>, fetched: Remote<ServerCart>)
      returns (sent: Option<string>)
      modifies this`cart, this`combos, this`cache
      ensures FindLine(old(combos), comboId).None? ==>
                sent == None && cart == old(cart) && combos == old(combos) && cache == old(cache)
      ensures FindLine(old(combos), comboId).Some? ==>
                var q := old(combos)[FindLine(old(combos), comboId).value].quantity + amount;
                sent == SyncedItemId(old(combos), comboId) &&
                (sent.Some? && remote.Err? ==>
                   cart == old(cart) && combos == old(combos) && cache == old(cache)) &&
                (!(sent.Some? && remote.Err?) && q < 1 ==>
                   combos == RemoveLines(old(combos), comboId) && cart == old(cart) && cache == old(cache)) &&
                (!(sent.Some? && remote.Err?) && q >= 1 && fetched.Ok? ==>
                   cart == ServerProducts(fetched.value) && combos == ServerCombos(fetched.value) &&
                   cache == Some(CartCache(cart, combos))) &&
                (!(sent.Some? && remote.Err?) && q >= 1 && fetched.Err? ==>
                   combos == SetQuantity(old(combos), comboId, q) && cart == old(cart) && cache == old(cache))
    {
      var index := FindLine(combos, comboId);
      if index.None? {
        return None;
      }
      var newQuantity := combos[index.value].quantity + amount;
      if newQuantity < 1 {
        sent := RemoveComboFromCart(comboId, remote);
        return;
      }
      var previousCombos := combos;
      sent := SyncedItemId(combos, comboId);
      combos := SetQuantity(combos, comboId, newQuantity);
      if sent.Some? && remote.Err? {
        combos := previousCombos;
      } else {
        FetchCart(fetched);
      }
    }

    /** clearCart: both lists and the cache go only once the server has cleared the cart. */
    method ClearCart(cleared: Remote<()>)
      modifies this`cart, this`combos, this`cache
      ensures cleared.Ok? ==> cart == [] && combos == [] && cache == None && !HasItems() && CartCount() == 0
      ensures cleared.Err? ==> cart == old(cart) && combos == old(combos) && cache == old(cache)
    {
      if cleared.Ok? {
        cart := [];
        combos := [];
        cache := None;
      }
    }
  }
}
