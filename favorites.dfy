/** The favourites screen: a per-user store of favourite item ids (each
    document keyed by the item id and holding the time it was added), and
    `FavoritesViewModel`, which lists the stored favourites and toggles an
    item in or out of them. */
module Favorites {
  import opened Model
  import opened Api
  import opened Lists

  /** The exception the store throws when no user is signed in. */
  const NotLoggedIn: Exception := Exception(Some("User not logged in"), false)

  /** The id of an item, as `map { it.id }` takes it. */
  function ItemId(item: ItemDetail): int {
    item.id
  }

  /** No element occurs twice. */
  predicate NoDuplicates<K(==)>(xs: seq<K>) {
    forall i, j :: 0 <= i < j < |xs| ==> xs[i] != xs[j]
  }

  /** The elements of a set, each once, in an order the set does not fix
      (the store lists documents in an order of its own). */
  method ListOnce<K(==)>(s: set<K>) returns (xs: seq<K>)
    ensures NoDuplicates(xs)
    ensures forall x :: x in xs <==> x in s
  {
    xs := [];
    var rest := s;
    while rest != {}
      invariant NoDuplicates(xs)
      invariant forall x :: x in xs ==> x in s && x !in rest
      invariant forall x :: x in s ==> x in xs || x in rest
      invariant rest <= s
      decreases |rest|
    {
      var x :| x in rest;
      xs := xs + [x];
      rest := rest - {x};
    }
  }

  /** `FavoritesRepository`: the signed-in user's favourites collection,
      from item id to the time it was added. Every operation needs a
      signed-in user and throws otherwise. */
  class FavoritesStore {
    /** Whether a user is signed in. */
    var signedIn: bool
    /** The signed-in user's documents: item id to timestamp. */
    var docs: map<int, int>

    constructor (signedIn: bool, docs: map<int, int>)
      ensures this.signedIn == signedIn && this.docs == docs
    {
      this.signedIn := signedIn;
      this.docs := docs;
    }

    /** `addFavorite`: writes the item's document with the current time
        `now`; without a user it throws and writes nothing. */
    method AddFavorite(itemId: int, now: int) returns (thrown: Option<Exception>)
      modifies this`docs
      ensures thrown == (if signedIn then None else Some(NotLoggedIn))
      ensures docs == (if signedIn then old(docs)[itemId := now] else old(docs))
    {
      if !signedIn {
        return Some(NotLoggedIn);
      }
      docs := docs[itemId := now];
      return None;
    }

    /** `removeFavorite`: deletes the item's document; without a user it
        throws and deletes nothing. */
    method RemoveFavorite(itemId: int) returns (thrown: Option<Exception>)
      modifies this`docs
      ensures thrown == (if signedIn then None else Some(NotLoggedIn))
      ensures docs == (if signedIn then old(docs) - {itemId} else old(docs))
    {
      if !signedIn {
        return Some(NotLoggedIn);
      }
      docs := docs - {itemId};
      return None;
    }

    /** `getFavoriteIds`: the ids of the stored favourites, each once.
        Without a user it throws `NotLoggedIn`; `outage` is the failure of
        the remote read, if there is one. */
    method GetFavoriteIds(outage: Option<Exception>) returns (r: Fetch<seq<int>>)
      ensures !signedIn ==> r == Failed(NotLoggedIn)
      ensures signedIn && outage.Some? ==> r == Failed(outage.value)
      ensures signedIn && outage.None? ==>
                && r.Ok?
                && NoDuplicates(r.value)
                && (forall id :: id in r.value <==> id in docs)
    {
      if !signedIn {
        return Failed(NotLoggedIn);
      }
      if outage.Some? {
        return Failed(outage.value);
      }
      var ids := ListOnce(docs.Keys);
      return Ok(ids);
    }
  }

  /** The favourites list `loadFavorites` shows for what the store
      returned: nothing when the store failed or holds no favourite, the
      items the service returns for the stored ids otherwise, and nothing
      when that request fails. */
  function Shown(listed: Fetch<seq<int>>, itemsByIds: seq<int> -> Fetch<seq<ItemDetail>>): (r: seq<ItemDetail>)
    ensures listed.Failed? ==> r == []
    ensures listed.Ok? && listed.value == [] ==> r == []
    ensures listed.Ok? && listed.value != [] && itemsByIds(listed.value).Ok? ==> r == itemsByIds(listed.value).value
    ensures listed.Ok? && itemsByIds(listed.value).Failed? ==> r == []
  {
    if listed.Failed? || listed.value == [] then []
    else match itemsByIds(listed.value)
      case Ok(items) => items
      case Failed(_) => []
  }

  /** How a toggle changes the store: the item's document is removed when
      its id is among the ids on screen, and written with the time `now`
      otherwise; every other document stays as it was. */
  function ToggledDocs(docs: map<int, int>, shownIds: seq<int>, id: int, now: int): (r: map<int, int>)
    ensures id in shownIds ==> id !in r
    ensures id !in shownIds ==> id in r && r[id] == now
    ensures forall k :: k != id ==> (k in r <==> k in docs)
    ensures forall k :: k != id && k in r ==> r[k] == docs[k]
  {
    if id in shownIds then docs - {id} else docs[id := now]
  }

  class FavoritesViewModel {
    const repo: FavoritesStore
    const api: Gw2Api

    var favorites: seq<ItemDetail>

    constructor (repo: FavoritesStore, api: Gw2Api)
      ensures this.repo == repo && this.api == api
      ensures favorites == []
    {
      this.repo := repo;
      this.api := api;
      favorites := [];
    }

    /** `loadFavorites`: reads the stored ids and shows their items;
        `listed` is what the store returned. Any failure shows an empty
        list. */
    method LoadFavorites(outage: Option<Exception>) returns (listed: Fetch<seq<int>>)
      modifies this`favorites
      ensures listed.Failed? <==> !repo.signedIn || outage.Some?
      ensures listed.Ok? ==> NoDuplicates(listed.value) && (forall id :: id in listed.value <==> id in repo.docs)
      ensures favorites == Shown(listed, api.itemsByIds)
    {
      listed := repo.GetFavoriteIds(outage);
      if listed.Failed? {
        favorites := [];
        return;
      }
      var ids := listed.value;
      if ids == [] {
        favorites := [];
      } else {
        var items := api.itemsByIds(ids);
        if items.Failed? {
          favorites := [];
        } else {
          favorites := items.value;
        }
      }
    }

    /** `toggleFavorite`: removes the item from the store when its id is on
        screen and adds it with the time `now` otherwise, then reloads.
        When the store throws (no user is signed in) the exception ends the
        coroutine before the reload: `reload` is `None` and nothing
        changes. */
    method ToggleFavorite(item: ItemDetail, now: int, outage: Option<Exception>) returns (reload: Option<Fetch<seq<int>>>)
      modifies this`favorites, repo`docs
      ensures reload.Some? <==> repo.signedIn
      ensures repo.docs == (if repo.signedIn then ToggledDocs(old(repo.docs), Map(old(favorites), ItemId), item.id, now)
                            else old(repo.docs))
      ensures reload.None? ==> favorites == old(favorites)
      ensures reload.Some? ==> favorites == Shown(reload.value, api.itemsByIds)
      ensures reload.Some? && reload.value.Ok? ==> forall id :: id in reload.value.value <==> id in repo.docs
    {
      var currently := Map(favorites, ItemId);
      var thrown: Option<Exception>;
      if item.id in currently {
        thrown := repo.RemoveFavorite(item.id);
      } else {
        thrown := repo.AddFavorite(item.id, now);
      }
      if thrown.Some? {
        return None;
      }
      var listed := LoadFavorites(outage);
      return Some(listed);
    }
  }

  /** When the screen shows exactly the stored favourites, a toggle flips
      the item's membership in the store and leaves every other favourite
      where it was. */
  lemma ToggleFlipsMembership(docs: map<int, int>, shownIds: seq<int>, id: int, now: int)
    requires forall k :: k in shownIds <==> k in docs
    ensures id in ToggledDocs(docs, shownIds, id, now) <==> id !in docs
    ensures ToggledDocs(docs, shownIds, id, now).Keys - {id} == docs.Keys - {id}
  {
  }

  /** Toggling the same item twice, each time with the screen in step with
      the store, gives back the original set of favourites. */
  lemma ToggleTwiceRestores(docs: map<int, int>, shown1: seq<int>, shown2: seq<int>, id: int, now1: int, now2: int)
    requires forall k :: k in shown1 <==> k in docs
    requires forall k :: k in shown2 <==> k in ToggledDocs(docs, shown1, id, now1)
    ensures ToggledDocs(ToggledDocs(docs, shown1, id, now1), shown2, id, now2).Keys == docs.Keys
  {
    ToggleFlipsMembership(docs, shown1, id, now1);
    var once := ToggledDocs(docs, shown1, id, now1);
    ToggleFlipsMembership(once, shown2, id, now2);
  }

  /** After a reload against a service that returns the items of the
      requested ids in order, the screen shows exactly the stored
      favourites, so the next toggle decides by the store's contents. */
  lemma ReloadShowsStore(listed: Fetch<seq<int>>, itemsByIds: seq<int> -> Fetch<seq<ItemDetail>>, docs: map<int, int>)
    requires listed.Ok? && (forall k :: k in listed.value <==> k in docs)
    requires forall c :: itemsByIds(c).Ok? ==> Map(itemsByIds(c).value, ItemId) == c
    requires itemsByIds(listed.value).Ok?
    ensures forall k :: k in Map(Shown(listed, itemsByIds), ItemId) <==> k in docs
  {
    if listed.value == [] {
      assert Map(Shown(listed, itemsByIds), ItemId) == [];
    }
  }
}
