/** The cart synchroniser (src/app/services/cart.service.ts): one published cart
    backed either by the guest cart in local storage or by the signed-in user's
    remote cart collection, chosen by the cached authentication state. */
module Cart {
  import opened Common

  type ProductId = string
  type Uid = string

  /** One line of a cart. The price is carried along and never computed with. */
  datatype CartItem = CartItem(
    productId: ProductId,
    name: string,
    price: real,
    imageUrl: string,
    quantity: int)

  /** The documents of one `users/{uid}/cart` collection, by document id. */
  type RemoteCart = map<ProductId, CartItem>

  /** A rejected write during the login merge: the position in the guest cart of
      the item whose upsert the store refused, and the error it gave. */
  datatype Rejection = Rejection(at: nat, error: ThrownError)

  /** The error `getUserId` throws when no user is cached. */
  const NotLoggedIn := ThrownError("", "User not logged in")

  // ---------------------------------------------------------------------------
  // The guest cart, a list
  // ---------------------------------------------------------------------------

  ghost predicate HasProduct(cart: seq<CartItem>, pid: ProductId)
  {
    exists i :: 0 <= i < |cart| && cart[i].productId == pid
  }

  /** At most one item per productId. */
  ghost predicate UniqueIds(cart: seq<CartItem>)
  {
    forall i, j :: 0 <= i < j < |cart| ==> cart[i].productId != cart[j].productId
  }

  /** The number of units in a cart: the sum of the quantities of its items. */
  function TotalQuantity(cart: seq<CartItem>): int
  {
    if cart == [] then 0 else cart[0].quantity + TotalQuantity(cart[1..])
  }

  /** The position of the first item with `pid`, the one `cart.find` returns. */
  function FirstIndex(cart: seq<CartItem>, pid: ProductId): (r: Option<nat>)
    ensures r.Some? ==> r.value < |cart| && cart[r.value].productId == pid
    ensures r.Some? ==> forall j :: 0 <= j < r.value ==> cart[j].productId != pid
    ensures r.None? <==> !HasProduct(cart, pid)
  {
    if cart == [] then None
    else if cart[0].productId == pid then Some(0)
    else
      match FirstIndex(cart[1..], pid)
      case None =>
        assert forall i :: 1 <= i < |cart| ==> cart[i] == cart[1..][i - 1];
        None
      case Some(k) => Some(k + 1)
  }

  /** The item `addToCart` builds from what the caller passed: quantity 1. */
  function Normalize(item: CartItem): CartItem
  {
    item.(quantity := 1)
  }

  /** Guest `addToCart`: one more unit of the first line with the item's
      productId, or a new line holding one unit. */
  function AddGuest(cart: seq<CartItem>, item: CartItem): seq<CartItem>
  {
    match FirstIndex(cart, item.productId)
    case Some(i) => cart[i := cart[i].(quantity := cart[i].quantity + 1)]
    case None => cart + [Normalize(item)]
  }

  /** Guest `updateQuantity`: the first line with `pid` gets exactly `quantity`. */
  function SetGuestQuantity(cart: seq<CartItem>, pid: ProductId, quantity: int): seq<CartItem>
  {
    match FirstIndex(cart, pid)
    case Some(i) => cart[i := cart[i].(quantity := quantity)]
    case None => cart
  }

  /** Guest `removeFromCart`: the lines whose productId is not `pid`, in order. */
  function Without(cart: seq<CartItem>, pid: ProductId): (r: seq<CartItem>)
    ensures |r| <= |cart|
    ensures forall x :: x in r <==> x in cart && x.productId != pid
    ensures !HasProduct(r, pid)
  {
    if cart == [] then []
    else
      assert cart == [cart[0]] + cart[1..];
      (if cart[0].productId == pid then [] else [cart[0]]) + Without(cart[1..], pid)
  }

  lemma {:induction false} TotalAppend(cart: seq<CartItem>, x: CartItem)
    ensures TotalQuantity(cart + [x]) == TotalQuantity(cart) + x.quantity
  {
    if cart == [] {
      assert cart + [x] == [x];
    } else {
      assert (cart + [x])[1..] == cart[1..] + [x];
      TotalAppend(cart[1..], x);
    }
  }

  lemma {:induction false} TotalUpdate(cart: seq<CartItem>, i: nat, x: CartItem)
    requires i < |cart|
    ensures TotalQuantity(cart[i := x]) == TotalQuantity(cart) - cart[i].quantity + x.quantity
  {
    if i == 0 {
      assert cart[i := x][1..] == cart[1..];
    } else {
      assert cart[i := x][1..] == cart[1..][i - 1 := x];
      TotalUpdate(cart[1..], i - 1, x);
    }
  }

  /** Adding a productId already in the cart raises that line by exactly one unit
      and leaves the length and every other line as they were. */
  lemma AddGuestBumpsExisting(cart: seq<CartItem>, item: CartItem, i: nat)
    requires i < |cart| && cart[i].productId == item.productId
    requires forall j :: 0 <= j < i ==> cart[j].productId != item.productId
    ensures |AddGuest(cart, item)| == |cart|
    ensures AddGuest(cart, item)[i] == cart[i].(quantity := cart[i].quantity + 1)
    ensures forall j :: 0 <= j < |cart| && j != i ==> AddGuest(cart, item)[j] == cart[j]
  {
  }

  /** Adding a new productId appends one line with quantity 1, whatever quantity
      the caller passed. */
  lemma AddGuestAppendsNew(cart: seq<CartItem>, item: CartItem)
    requires !HasProduct(cart, item.productId)
    ensures AddGuest(cart, item) == cart + [item.(quantity := 1)]
  {
  }

  /** Guest adding keeps at most one line per productId, and the product is then in the cart. */
  lemma AddGuestKeepsUnique(cart: seq<CartItem>, item: CartItem)
    requires UniqueIds(cart)
    ensures UniqueIds(AddGuest(cart, item))
    ensures HasProduct(AddGuest(cart, item), item.productId)
  {
    var r := AddGuest(cart, item);
    match FirstIndex(cart, item.productId)
    case Some(i) =>
      assert r[i].productId == item.productId;
    case None =>
      assert r[|cart|].productId == item.productId;
  }

  /** Every guest add puts exactly one unit more in the cart. */
  lemma AddGuestAddsOneUnit(cart: seq<CartItem>, item: CartItem)
    ensures TotalQuantity(AddGuest(cart, item)) == TotalQuantity(cart) + 1
  {
    match FirstIndex(cart, item.productId)
    case Some(i) => TotalUpdate(cart, i, cart[i].(quantity := cart[i].quantity + 1));
    case None => TotalAppend(cart, Normalize(item));
  }

  /** Adding the same product twice to an empty guest cart gives one line of two units. */
  lemma AddGuestTwice(item: CartItem)
    ensures AddGuest(AddGuest([], item), item) == [item.(quantity := 2)]
  {
  }

  /** `updateQuantity` sets the first matching line to exactly the given quantity,
      zero included, and removes nothing. */
  lemma SetGuestQuantityAt(cart: seq<CartItem>, pid: ProductId, quantity: int, i: nat)
    requires i < |cart| && cart[i].productId == pid
    requires forall j :: 0 <= j < i ==> cart[j].productId != pid
    ensures |SetGuestQuantity(cart, pid, quantity)| == |cart|
    ensures SetGuestQuantity(cart, pid, quantity)[i] == cart[i].(quantity := quantity)
    ensures forall j :: 0 <= j < |cart| && j != i ==> SetGuestQuantity(cart, pid, quantity)[j] == cart[j]
  {
  }

  /** `updateQuantity` on a productId not in the cart leaves it as it is. */
  lemma SetGuestQuantityAbsent(cart: seq<CartItem>, pid: ProductId, quantity: int)
    requires !HasProduct(cart, pid)
    ensures SetGuestQuantity(cart, pid, quantity) == cart
  {
  }

  /** Setting a quantity keeps at most one line per productId. */
  lemma SetGuestQuantityKeepsUnique(cart: seq<CartItem>, pid: ProductId, quantity: int)
    requires UniqueIds(cart)
    ensures UniqueIds(SetGuestQuantity(cart, pid, quantity))
  {
  }

  /** Removing a productId that is not in the cart changes nothing. */
  lemma {:induction false} WithoutAbsent(cart: seq<CartItem>, pid: ProductId)
    requires !HasProduct(cart, pid)
    ensures Without(cart, pid) == cart
  {
    if cart != [] {
      assert !HasProduct(cart[1..], pid) by {
        forall i | 0 <= i < |cart[1..]| ensures cart[1..][i].productId != pid {
          assert cart[1..][i] == cart[i + 1];
        }
      }
      WithoutAbsent(cart[1..], pid);
      assert cart == [cart[0]] + cart[1..];
    }
  }

  /** Removal keeps the other lines in their order: it distributes over concatenation. */
  lemma {:induction false} WithoutKeepsOrder(a: seq<CartItem>, b: seq<CartItem>, pid: ProductId)
    ensures Without(a + b, pid) == Without(a, pid) + Without(b, pid)
  {
    if a == [] {
      assert a + b == b;
    } else {
      assert (a + b)[0] == a[0];
      assert (a + b)[1..] == a[1..] + b;
      WithoutKeepsOrder(a[1..], b, pid);
    }
  }

  /** Removal keeps at most one line per productId. */
  lemma {:induction false} WithoutKeepsUnique(cart: seq<CartItem>, pid: ProductId)
    requires UniqueIds(cart)
    ensures UniqueIds(Without(cart, pid))
  {
    if cart != [] {
      var rest := Without(cart[1..], pid);
      assert UniqueIds(cart[1..]) by {
        forall i, j | 0 <= i < j < |cart[1..]|
          ensures cart[1..][i].productId != cart[1..][j].productId
        {
          assert cart[1..][i] == cart[i + 1] && cart[1..][j] == cart[j + 1];
        }
      }
      WithoutKeepsUnique(cart[1..], pid);
      if cart[0].productId != pid {
        forall x | x in rest ensures x.productId != cart[0].productId {
          var k :| 0 < k < |cart| && cart[k] == x;
        }
        var r := [cart[0]] + rest;
        forall i, j | 0 <= i < j < |r| ensures r[i].productId != r[j].productId {
          if i == 0 {
            assert r[j] in rest;
          } else {
            assert r[i] == rest[i - 1] && r[j] == rest[j - 1];
          }
        }
      }
    }
  }

  // ---------------------------------------------------------------------------
  // The remote carts, collections of documents keyed by productId
  // ---------------------------------------------------------------------------

  /** A user's cart collection; a collection with no documents and one never
      written to are the same thing. */
  function CartOf(store: map<Uid, RemoteCart>, uid: Uid): RemoteCart
  {
    if uid in store then store[uid] else map[]
  }

  /** `after` is `before` with the cart collection of `uid` replaced by `docs`. */
  ghost predicate StoreAfter(before: map<Uid, RemoteCart>, after: map<Uid, RemoteCart>, uid: Uid, docs: RemoteCart)
  {
    && CartOf(after, uid) == docs
    && forall w :: w != uid ==> CartOf(after, w) == CartOf(before, w)
  }

  /** Every document is stored under its own productId. */
  ghost predicate Keyed(docs: RemoteCart)
  {
    forall k :: k in docs ==> docs[k].productId == k
  }

  /** Every cart collection of the store keeps each document under its own productId. */
  ghost predicate AllKeyed(store: map<Uid, RemoteCart>)
  {
    forall w :: w in store ==> Keyed(store[w])
  }

  /** The productIds of a list of items. */
  ghost function Ids(items: seq<CartItem>): set<ProductId>
  {
    set i | 0 <= i < |items| :: items[i].productId
  }

  /** The login merge: each item in turn is written over the document at its
      productId (`setDoc` with `merge: true` of every field of the item). */
  function MergeInto(docs: RemoteCart, items: seq<CartItem>): RemoteCart
    decreases |items|
  {
    if items == [] then docs
    else MergeInto(docs[items[0].productId := items[0]], items[1..])
  }

  /** Merging one more item is one more overwrite at its productId. */
  lemma {:induction false} MergeSnoc(docs: RemoteCart, items: seq<CartItem>, x: CartItem)
    decreases |items|
    ensures MergeInto(docs, items + [x]) == MergeInto(docs, items)[x.productId := x]
  {
    if items == [] {
      assert items + [x] == [x];
    } else {
      assert (items + [x])[0] == items[0];
      assert (items + [x])[1..] == items[1..] + [x];
      MergeSnoc(docs[items[0].productId := items[0]], items[1..], x);
    }
  }

  /** The productIds of a non-empty list: its first item's, then the rest's. */
  lemma IdsCons(items: seq<CartItem>)
    requires items != []
    ensures Ids(items) == {items[0].productId} + Ids(items[1..])
  {
  }

  /** After the merge the collection holds its old documents and one per merged productId. */
  lemma {:induction false} MergeKeys(docs: RemoteCart, items: seq<CartItem>)
    decreases |items|
    ensures MergeInto(docs, items).Keys == docs.Keys + Ids(items)
  {
    if items != [] {
      MergeKeys(docs[items[0].productId := items[0]], items[1..]);
      IdsCons(items);
    }
  }

  /** A document whose productId the merged items do not mention is left as it was. */
  lemma {:induction false} MergeKeepsOthers(docs: RemoteCart, items: seq<CartItem>, pid: ProductId)
    decreases |items|
    requires pid !in Ids(items)
    ensures pid in MergeInto(docs, items) <==> pid in docs
    ensures pid in docs ==> MergeInto(docs, items)[pid] == docs[pid]
  {
    if items != [] {
      IdsCons(items);
      MergeKeepsOthers(docs[items[0].productId := items[0]], items[1..], pid);
    }
  }

  /** The last merged item with a productId is what the collection holds there:
      the guest line overwrites the remote one, its quantity is not added. */
  lemma {:induction false} MergeLastWins(docs: RemoteCart, items: seq<CartItem>, i: nat)
    decreases |items|
    requires i < |items|
    requires forall j :: i < j < |items| ==> items[j].productId != items[i].productId
    ensures items[i].productId in MergeInto(docs, items)
    ensures MergeInto(docs, items)[items[i].productId] == items[i]
  {
    if i == 0 {
      var pid := items[0].productId;
      forall j | 0 <= j < |items[1..]| ensures items[1..][j].productId != pid {
        assert items[1..][j] == items[j + 1];
      }
      MergeKeepsOthers(docs[pid := items[0]], items[1..], pid);
    } else {
      assert items[1..][i - 1] == items[i];
      MergeLastWins(docs[items[0].productId := items[0]], items[1..], i - 1);
    }
  }

  /** Merging keeps every document under its own productId. */
  lemma {:induction false} MergeKeepsKeyed(docs: RemoteCart, items: seq<CartItem>)
    decreases |items|
    requires Keyed(docs)
    ensures Keyed(MergeInto(docs, items))
  {
    if items != [] {
      MergeKeepsKeyed(docs[items[0].productId := items[0]], items[1..]);
    }
  }

  /** Merging a guest cart with one line per productId leaves the collection
      holding its old documents plus exactly the guest lines, each at its
      productId with the guest's quantity. */
  lemma MergeCarriesGuestCart(docs: RemoteCart, items: seq<CartItem>)
    requires UniqueIds(items)
    ensures MergeInto(docs, items).Keys == docs.Keys + Ids(items)
    ensures forall i :: 0 <= i < |items| ==> MergeInto(docs, items)[items[i].productId] == items[i]
    ensures forall pid :: pid in docs && pid !in Ids(items) ==> MergeInto(docs, items)[pid] == docs[pid]
  {
    MergeKeys(docs, items);
    forall i | 0 <= i < |items| ensures MergeInto(docs, items)[items[i].productId] == items[i] {
      MergeLastWins(docs, items, i);
    }
    forall pid | pid in docs && pid !in Ids(items) ensures MergeInto(docs, items)[pid] == docs[pid] {
      MergeKeepsOthers(docs, items, pid);
    }
  }

  /** A remote line of `remoteQty` units merged with a guest line of `guestQty`
      units of the same product holds `guestQty` units: 5 and 3 give 3, not 8. */
  lemma MergeOverwritesQuantity(item: CartItem, remoteQty: int, guestQty: int)
    ensures var merged := MergeInto(map[item.productId := item.(quantity := remoteQty)], [item.(quantity := guestQty)]);
      item.productId in merged && merged[item.productId].quantity == guestQty
  {
  }

  /** `docs` is a listing of the collection, as a snapshot of `collectionData`
      gives it: every document exactly once, in an order the store chooses. */
  ghost predicate Lists(docs: seq<CartItem>, coll: RemoteCart)
  {
    && |docs| == |coll|
    && forall x :: x in docs <==> x in coll.Values
  }

  /** A keyed collection holds as many different documents as it has keys. */
  lemma {:induction false} KeyedValuesCount(coll: RemoteCart)
    requires Keyed(coll)
    ensures |coll.Values| == |coll|
    decreases |coll|
  {
    if coll != map[] {
      var k :| k in coll;
      var rest := coll - {k};
      assert Keyed(rest);
      KeyedValuesCount(rest);
      forall v | v in coll.Values ensures v in rest.Values + {coll[k]} {
        var w :| w in coll && coll[w] == v;
        if w != k { assert rest[w] == v; }
      }
      forall v | v in rest.Values ensures v in coll.Values {
        var w :| w in rest && rest[w] == v;
        assert coll[w] == v;
      }
      assert coll.Values == rest.Values + {coll[k]};
      assert coll[k] !in rest.Values;
    }
  }

  /** A list has at most as many different elements as entries. */
  lemma {:induction false} ElementsAtMostLength(docs: seq<CartItem>)
    ensures |set x | x in docs| <= |docs|
  {
    if docs != [] {
      ElementsAtMostLength(docs[1..]);
      assert (set x | x in docs) == (set x | x in docs[1..]) + {docs[0]};
    }
  }

  /** A list with two equal entries has fewer different elements than entries. */
  lemma RepeatShrinksElements(docs: seq<CartItem>, i: nat, j: nat)
    requires i < j < |docs| && docs[i] == docs[j]
    ensures |set x | x in docs| < |docs|
  {
    var shorter := docs[..j] + docs[j + 1..];
    assert docs == docs[..j] + [docs[j]] + docs[j + 1..];
    assert (set x | x in docs) == (set x | x in shorter) by {
      assert docs[j] == shorter[i];
    }
    ElementsAtMostLength(shorter);
  }

  /** A listing of a keyed collection shows each document exactly once. */
  lemma KeyedListingHasNoRepeats(docs: seq<CartItem>, coll: RemoteCart)
    requires Keyed(coll) && Lists(docs, coll)
    ensures forall i, j :: 0 <= i < j < |docs| ==> docs[i] != docs[j]
  {
    KeyedValuesCount(coll);
    assert (set x | x in docs) == coll.Values;
    forall i, j | 0 <= i < j < |docs| ensures docs[i] != docs[j] {
      if docs[i] == docs[j] {
        RepeatShrinksElements(docs, i, j);
      }
    }
  }

  /** A document of the merged collection is a guest line, or a remote
      document whose productId the guest cart does not mention. */
  lemma MergedDocumentOrigin(coll: RemoteCart, items: seq<CartItem>, pid: ProductId)
    requires Keyed(coll) && UniqueIds(items)
    requires pid in MergeInto(coll, items)
    ensures var x := MergeInto(coll, items)[pid];
      x in items || (x.productId !in Ids(items) && x in coll.Values)
  {
    MergeKeys(coll, items);
    if pid in Ids(items) {
      var i :| 0 <= i < |items| && items[i].productId == pid;
      MergeLastWins(coll, items, i);
    } else {
      MergeKeepsOthers(coll, items, pid);
    }
  }

  /** A listing of the collection after the login merge shows every guest line
      as it was merged, every remote document the guest cart did not mention,
      and nothing else. */
  lemma ListingAfterMerge(docs: seq<CartItem>, coll: RemoteCart, items: seq<CartItem>)
    requires Keyed(coll) && UniqueIds(items)
    requires Lists(docs, MergeInto(coll, items))
    ensures forall i :: 0 <= i < |items| ==> items[i] in docs
    ensures forall pid :: pid in coll && pid !in Ids(items) ==> coll[pid] in docs
    ensures forall x :: x in docs ==> x in items || (x.productId !in Ids(items) && x in coll.Values)
  {
    var merged := MergeInto(coll, items);
    MergeCarriesGuestCart(coll, items);
    forall i | 0 <= i < |items| ensures items[i] in docs {
      assert items[i].productId in Ids(items);
      assert merged[items[i].productId] in merged.Values;
    }
    forall pid | pid in coll && pid !in Ids(items) ensures coll[pid] in docs {
      assert merged[pid] in merged.Values;
    }
    forall x | x in docs ensures x in items || (x.productId !in Ids(items) && x in coll.Values) {
      var pid :| pid in merged && merged[pid] == x;
      MergedDocumentOrigin(coll, items, pid);
    }
  }

  // ---------------------------------------------------------------------------
  // The service
  // ---------------------------------------------------------------------------

  class CartService {
    /** The value `cart$` last published. */
    var published: seq<CartItem>
    /** The guest cart kept under the `guest_cart` key of local storage ([] when the key is absent). */
    var guest: seq<CartItem>
    /** The cart collections of the remote store, by user id. */
    var remote: map<Uid, RemoteCart>
    /** The cached signed-in user, by uid. */
    var user: Option<Uid>
    /** The users whose cart collection has a live watch feeding `cart$`; a watch is never cancelled. */
    var watched: set<Uid>

    /** The cart invariant: at most one guest line per productId, and every
        remote document stored under its own productId. */
    ghost predicate Consistent()
      reads this
    {
      UniqueIds(guest) && AllKeyed(remote)
    }

    constructor(stored: seq<CartItem>, store: map<Uid, RemoteCart>)
      ensures published == [] && guest == stored && remote == store
      ensures user == None && watched == {}
    {
      published := [];
      guest := stored;
      remote := store;
      user := None;
      watched := {};
    }

    /** `saveGuestCart`: persist the list and publish that same list. */
    method SaveGuestCart(cart: seq<CartItem>)
      modifies this
      ensures guest == cart && published == cart
      ensures remote == old(remote) && user == old(user) && watched == old(watched)
    {
      guest := cart;
      published := cart;
    }

    /** `clearGuestCart`: remove the stored list and publish the empty cart. */
    method ClearGuestCart()
      modifies this
      ensures guest == [] && published == []
      ensures remote == old(remote) && user == old(user) && watched == old(watched)
    {
      guest := [];
      published := [];
    }

    /** `getUserId`: the cached user's uid, or the 'User not logged in' error. */
    function UserId(): (r: Result<Uid>)
      reads this
      ensures r.Ok? <==> user.Some?
      ensures r.Ok? ==> r.value == user.value
      ensures r.Err? ==> r.error == NotLoggedIn
    {
      match user
      case Some(uid) => Ok(uid)
      case None => Err(NotLoggedIn)
    }

    /** `addToFirestoreCart`: write every field of `item` over the document at
        its productId in the cached user's collection. */
    method AddToFirestoreCart(item: CartItem, write: Result<()>) returns (outcome: Result<()>)
      modifies this
      ensures user.None? ==> outcome == Err(NotLoggedIn) && remote == old(remote)
      ensures user.Some? && write.Err? ==> outcome == Err(write.error) && remote == old(remote)
      ensures user.Some? && write.Ok? ==>
        && outcome == Ok(())
        && StoreAfter(old(remote), remote, user.value, CartOf(old(remote), user.value)[item.productId := item])
      ensures AllKeyed(old(remote)) ==> AllKeyed(remote)
      ensures guest == old(guest) && published == old(published)
      ensures user == old(user) && watched == old(watched)
    {
      var uid := UserId();
      if uid.Err? {
        return Err(uid.error);
      }
      if write.Err? {
        return Err(write.error);
      }
      remote := remote[uid.value := CartOf(remote, uid.value)[item.productId := item]];
      outcome := Ok(());
    }

    /** The authentication-state callback of `initCart`. Signing in merges the
        guest cart into the user's collection one item at a time and clears the
        guest cart only once every write has succeeded, then watches the
        collection; signing out republishes the guest cart. */
    method OnAuthState(u: Option<Uid>, rejection: Option<Rejection>) returns (outcome: Result<()>)
      modifies this
      ensures user == u
      ensures u.None? ==>
        && outcome == Ok(()) && published == old(guest)
        && guest == old(guest) && remote == old(remote) && watched == old(watched)
      ensures u.Some? && rejection.Some? && rejection.value.at < |old(guest)| ==>
        && outcome == Err(rejection.value.error)
        && guest == old(guest) && published == old(published) && watched == old(watched)
        && StoreAfter(old(remote), remote, u.value,
                      MergeInto(CartOf(old(remote), u.value), old(guest)[..rejection.value.at]))
      ensures u.Some? && !(rejection.Some? && rejection.value.at < |old(guest)|) ==>
        && outcome == Ok(())
        && guest == [] && published == [] && watched == old(watched) + {u.value}
        && StoreAfter(old(remote), remote, u.value, MergeInto(CartOf(old(remote), u.value), old(guest)))
      ensures old(Consistent()) ==> Consistent()
    {
      user := u;
      if u.None? {
        published := guest;
        return Ok(());
      }
      var uid := u.value;
      var guestCart := guest;
      for i := 0 to |guestCart|
        invariant user == u && guest == old(guest) && guestCart == old(guest)
        invariant published == old(published) && watched == old(watched)
        invariant rejection.Some? ==> i <= rejection.value.at
        invariant StoreAfter(old(remote), remote, uid, MergeInto(CartOf(old(remote), uid), guestCart[..i]))
        invariant AllKeyed(old(remote)) ==> AllKeyed(remote)
      {
        var write := if rejection.Some? && rejection.value.at == i then Err(rejection.value.error) else Ok(());
        var r := AddToFirestoreCart(guestCart[i], write);
        if r.Err? {
          return r;
        }
        assert guestCart[..i + 1] == guestCart[..i] + [guestCart[i]];
        MergeSnoc(CartOf(old(remote), uid), guestCart[..i], guestCart[i]);
      }
      assert guestCart[..|guestCart|] == guestCart;
      ClearGuestCart();
      watched := watched + {uid};
      outcome := Ok(());
    }

    /** A snapshot of `users/{uid}/cart` from a live watch: `cart$` republishes
        the listing of that collection as the store holds it. */
    method OnRemoteCart(uid: Uid, docs: seq<CartItem>)
      requires uid in watched ==> Lists(docs, CartOf(remote, uid))
      modifies this
      ensures uid in watched ==> published == docs && Lists(published, CartOf(remote, uid))
      ensures uid in watched && Consistent() ==>
        forall i, j :: 0 <= i < j < |published| ==> published[i] != published[j]
      ensures uid !in watched ==> published == old(published)
      ensures guest == old(guest) && remote == old(remote)
      ensures user == old(user) && watched == old(watched)
      ensures old(Consistent()) ==> Consistent()
    {
      if uid in watched {
        published := docs;
        if Keyed(CartOf(remote, uid)) {
          KeyedListingHasNoRepeats(docs, CartOf(remote, uid));
        }
      }
    }

    /** `addToCart`: always one unit. Signed in, the one-unit item is written over
        the remote line (so its quantity becomes 1, it is not incremented); as a
        guest, the local list gains one unit. */
    method AddToCart(item: CartItem, write: Result<()>) returns (outcome: Result<()>)
      modifies this
      ensures user == old(user) && watched == old(watched)
      ensures user.Some? ==>
        && guest == old(guest) && published == old(published)
        && (write.Err? ==> outcome == Err(write.error) && remote == old(remote))
        && (write.Ok? ==>
              && outcome == Ok(())
              && StoreAfter(old(remote), remote, user.value,
                            CartOf(old(remote), user.value)[item.productId := item.(quantity := 1)]))
      ensures user.None? ==>
        && outcome == Ok(()) && remote == old(remote)
        && guest == AddGuest(old(guest), item) && published == guest
      ensures old(Consistent()) ==> Consistent()
    {
      var normalized := Normalize(item);
      if user.Some? {
        outcome := AddToFirestoreCart(normalized, write);
      } else {
        var cart := guest;
        var existing := FirstIndex(cart, normalized.productId);
        if existing.Some? {
          var k := existing.value;
          cart := cart[k := cart[k].(quantity := cart[k].quantity + 1)];
        } else {
          cart := cart + [normalized];
        }
        SaveGuestCart(cart);
        outcome := Ok(());
      }
    }

    /** `updateQuantity`: set, not add. Signed in, only the `quantity` field of an
        existing document changes; as a guest, the first matching line gets the
        quantity, and the list is saved and republished even when nothing matched. */
    method UpdateQuantity(pid: ProductId, quantity: int, write: Result<()>) returns (outcome: Result<()>)
      modifies this
      ensures user == old(user) && watched == old(watched)
      ensures user.Some? ==>
        && guest == old(guest) && published == old(published)
        && (write.Err? ==> outcome == Err(write.error) && remote == old(remote))
        && (write.Ok? ==>
              && outcome == Ok(())
              && var docs := CartOf(old(remote), user.value);
                 StoreAfter(old(remote), remote, user.value,
                            if pid in docs then docs[pid := docs[pid].(quantity := quantity)] else docs))
      ensures user.None? ==>
        && outcome == Ok(()) && remote == old(remote)
        && guest == SetGuestQuantity(old(guest), pid, quantity) && published == guest
      ensures old(Consistent()) ==> Consistent()
    {
      if user.Some? {
        if write.Err? {
          return Err(write.error);
        }
        var uid := user.value;
        var docs := CartOf(remote, uid);
        if pid in docs {
          remote := remote[uid := docs[pid := docs[pid].(quantity := quantity)]];
        }
        outcome := Ok(());
      } else {
        var cart := guest;
        var found := FirstIndex(cart, pid);
        if found.Some? {
          var k := found.value;
          cart := cart[k := cart[k].(quantity := quantity)];
        }
        SaveGuestCart(cart);
        outcome := Ok(());
      }
    }

    /** `removeFromCart`: signed in, delete the document at `pid`; as a guest, keep
        every other line in order. An absent productId is not an error. */
    method RemoveFromCart(pid: ProductId, delete: Result<()>) returns (outcome: Result<()>)
      modifies this
      ensures user == old(user) && watched == old(watched)
      ensures user.Some? ==>
        && guest == old(guest) && published == old(published)
        && (delete.Err? ==> outcome == Err(delete.error) && remote == old(remote))
        && (delete.Ok? ==>
              && outcome == Ok(())
              && StoreAfter(old(remote), remote, user.value, CartOf(old(remote), user.value) - {pid}))
      ensures user.None? ==>
        && outcome == Ok(()) && remote == old(remote)
        && guest == Without(old(guest), pid) && published == guest
      ensures old(Consistent()) ==> Consistent()
    {
      if user.Some? {
        if delete.Err? {
          return Err(delete.error);
        }
        var uid := user.value;
        remote := remote[uid := CartOf(remote, uid) - {pid}];
        outcome := Ok(());
      } else {
        if UniqueIds(guest) { WithoutKeepsUnique(guest, pid); }
        SaveGuestCart(Without(guest, pid));
        outcome := Ok(());
      }
    }

    /** `clearCart`: signed in, list the collection and delete every listed
        document; every delete is attempted, a refused one leaves its document and
        makes the whole call reject. As a guest, clear the local list. */
    method ClearCart(list: Result<()>, refused: map<ProductId, ThrownError>) returns (outcome: Result<()>)
      modifies this
      ensures user == old(user) && watched == old(watched)
      ensures user.Some? ==> guest == old(guest) && published == old(published)
      ensures user.Some? && list.Err? ==> outcome == Err(list.error) && remote == old(remote)
      ensures user.Some? && list.Ok? ==>
        var docs := CartOf(old(remote), user.value);
        && StoreAfter(old(remote), remote, user.value, map k | k in docs && k in refused :: docs[k])
        && (outcome.Err? <==> exists k :: k in docs && k in refused)
        && (outcome.Err? ==> exists k :: k in docs && k in refused && outcome.error == refused[k])
      ensures user.None? ==> outcome == Ok(()) && guest == [] && published == [] && remote == old(remote)
      ensures old(Consistent()) ==> Consistent()
    {
      if user.None? {
        ClearGuestCart();
        return Ok(());
      }
      if list.Err? {
        return Err(list.error);
      }
      var uid := user.value;
      var docs := CartOf(remote, uid);
      var pending := docs.Keys;
      outcome := Ok(());
      while pending != {}
        invariant pending <= docs.Keys
        invariant user == old(user) && watched == old(watched)
        invariant guest == old(guest) && published == old(published)
        invariant StoreAfter(old(remote), remote, uid,
                             map k | k in docs && (k in pending || k in refused) :: docs[k])
        invariant outcome.Err? <==> exists k :: k in docs && k !in pending && k in refused
        invariant outcome.Err? ==> exists k :: k in docs && k in refused && outcome.error == refused[k]
        invariant old(Consistent()) ==> Consistent()
        decreases pending
      {
        var id :| id in pending;
        var delete := if id in refused then Err(refused[id]) else Ok(());
        var r := RemoveFromCart(id, delete);
        assert r.Err? <==> id in refused;
        if r.Err? && outcome.Ok? {
          outcome := r;
        }
        pending := pending - {id};
      }
    }
  }
}
