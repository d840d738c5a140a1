/** The `shops` collection: shop account documents in the store's document
    order, looked up by the `shop_id` field rather than by document identity.
    Nothing keeps `shop_id` unique, so every lookup takes the first match. */
module ShopTable {
  import opened Docs

  /** A stored shop document. `shop_id` is written once at creation and never
      updated; every other field can be missing or null in the store. */
  datatype ShopDoc = ShopDoc(
    shopId: string,
    username: Field<string>,
    password: Field<string>,
    balance: Field<real>,
    billingType: Field<string>,
    commissionRate: Field<real>)

  /** The body of `POST /shops` (models/shop.py), with its defaults: a shop is
      prepaid and charged 10% unless the request says otherwise. */
  datatype Shop = Shop(
    shopId: string,
    username: string,
    password: string,
    balance: real,
    billingType: string := "prepaid",
    commissionRate: Option<real> := Some(0.1))

  /** The body of `PUT /shops/{shop_id}`: Absent for a field the request did
      not set, Null for one it set to null, Val for one it set to a value. */
  datatype ShopUpdate = ShopUpdate(
    username: Field<string>,
    password: Field<string>,
    balance: Field<real>,
    billingType: Field<string>)

  /** Index of the first document that satisfies `p`. */
  function FirstWhere(shops: seq<ShopDoc>, p: ShopDoc -> bool): (r: Option<nat>)
    ensures r.Some? ==> r.value < |shops| && p(shops[r.value])
    ensures r.Some? ==> forall j :: 0 <= j < r.value ==> !p(shops[j])
    ensures r.None? ==> forall j :: 0 <= j < |shops| ==> !p(shops[j])
  {
    if |shops| == 0 then None
    else if p(shops[0]) then Some(0)
    else
      match FirstWhere(shops[1..], p)
      case None => None
      case Some(k) => Some(k + 1)
  }

  /** `where("shop_id", "==", id).limit(1)`: the first document with that shop id. */
  function FindShop(shops: seq<ShopDoc>, id: string): (r: Option<nat>)
    ensures r.Some? ==> r.value < |shops| && shops[r.value].shopId == id
    ensures r.Some? ==> forall j :: 0 <= j < r.value ==> shops[j].shopId != id
    ensures r.None? ==> forall j :: 0 <= j < |shops| ==> shops[j].shopId != id
  {
    FirstWhere(shops, (d: ShopDoc) => d.shopId == id)
  }

  /** The login query: the first document with both that shop id and that username. */
  function FindAccount(shops: seq<ShopDoc>, id: string, user: string): (r: Option<nat>)
    ensures r.Some? ==> r.value < |shops| && shops[r.value].shopId == id && shops[r.value].username == Val(user)
    ensures r.Some? ==> forall j :: 0 <= j < r.value ==> !(shops[j].shopId == id && shops[j].username == Val(user))
    ensures r.None? ==> forall j :: 0 <= j < |shops| ==> !(shops[j].shopId == id && shops[j].username == Val(user))
  {
    FirstWhere(shops, (d: ShopDoc) => d.shopId == id && d.username == Val(user))
  }

  /** The document a shop-id lookup returns. */
  function ShopOf(shops: seq<ShopDoc>, id: string): Option<ShopDoc>
  {
    match FindShop(shops, id)
    case None => None
    case Some(i) => Some(shops[i])
  }

  /** How many documents carry the shop id. */
  function Count(shops: seq<ShopDoc>, id: string): nat
  {
    if |shops| == 0 then 0
    else (if shops[0].shopId == id then 1 else 0) + Count(shops[1..], id)
  }

  /** `collection.add(doc)`: the store gives the new document a generated id,
      which puts it at some position `k` of the document order. */
  function InsertAt(shops: seq<ShopDoc>, k: nat, d: ShopDoc): (r: seq<ShopDoc>)
    requires k <= |shops|
    ensures |r| == |shops| + 1 && r[k] == d
    ensures r[..k] == shops[..k] && r[k + 1..] == shops[k..]
  {
    shops[..k] + [d] + shops[k..]
  }

  /** `doc.delete()` on the document at position `k`. */
  function RemoveAt(shops: seq<ShopDoc>, k: nat): (r: seq<ShopDoc>)
    requires k < |shops|
    ensures |r| == |shops| - 1
    ensures r[..k] == shops[..k] && r[k..] == shops[k + 1..]
  {
    shops[..k] + shops[k + 1..]
  }

  /** `doc.update(fields)`: a field the request set replaces the stored one
      (an explicit null included); a field it did not set is kept. */
  function Patch<T>(stored: Field<T>, sent: Field<T>): Field<T>
  {
    if sent.Absent? then stored else sent
  }

  /** `update_shop`'s change to one document. The request cannot name
      `shop_id` or `commission_rate`, so those two are never touched. */
  function ApplyUpdate(d: ShopDoc, u: ShopUpdate): (r: ShopDoc)
    ensures r.shopId == d.shopId && r.commissionRate == d.commissionRate
    ensures (u.username.Absent? ==> r.username == d.username) && (!u.username.Absent? ==> r.username == u.username)
    ensures (u.password.Absent? ==> r.password == d.password) && (!u.password.Absent? ==> r.password == u.password)
    ensures (u.balance.Absent? ==> r.balance == d.balance) && (!u.balance.Absent? ==> r.balance == u.balance)
    ensures (u.billingType.Absent? ==> r.billingType == d.billingType) && (!u.billingType.Absent? ==> r.billingType == u.billingType)
  {
    d.(username := Patch(d.username, u.username),
       password := Patch(d.password, u.password),
       balance := Patch(d.balance, u.balance),
       billingType := Patch(d.billingType, u.billingType))
  }

  /** A request that sets no field at all. */
  predicate SetsNothing(u: ShopUpdate)
  {
    u.username.Absent? && u.password.Absent? && u.balance.Absent? && u.billingType.Absent?
  }

  /** Two partial updates in a row: the later one wins on every field it sets. */
  function Merge(u1: ShopUpdate, u2: ShopUpdate): ShopUpdate
  {
    ShopUpdate(Patch(u1.username, u2.username), Patch(u1.password, u2.password),
               Patch(u1.balance, u2.balance), Patch(u1.billingType, u2.billingType))
  }

  /** The document `create_shop` adds: the password replaced by its hash, the
      billing type as sent, and a missing commission rate replaced by 10%. */
  function NewShopDoc(s: Shop, hash: string -> string): (d: ShopDoc)
    ensures d.shopId == s.shopId && d.password == Val(hash(s.password))
    ensures d.commissionRate.Val? && (s.commissionRate.None? ==> d.commissionRate == Val(0.1))
    ensures s.commissionRate.Some? ==> d.commissionRate == Val(s.commissionRate.value)
  {
    ShopDoc(s.shopId, Val(s.username), Val(hash(s.password)), Val(s.balance), Val(s.billingType),
            Val(if s.commissionRate.None? then 0.1 else s.commissionRate.value))
  }

  // ---------------------------------------------------------------------------
  // Lookups across table edits

  lemma {:induction false} FindConcat(a: seq<ShopDoc>, b: seq<ShopDoc>, id: string)
    ensures FindShop(a + b, id) ==
      match FindShop(a, id)
      case Some(i) => Some(i)
      case None => match FindShop(b, id) case None => None case Some(j) => Some(|a| + j)
  {
    var ab := a + b;
    match FindShop(a, id)
    case Some(i) =>
      assert ab[i] == a[i];
      assert forall j :: 0 <= j < i ==> ab[j] == a[j];
    case None =>
      assert forall j :: 0 <= j < |a| ==> ab[j] == a[j];
      assert forall j :: 0 <= j < |b| ==> ab[|a| + j] == b[j];
      match FindShop(b, id)
      case None =>
        assert forall j :: |a| <= j < |ab| ==> ab[j] == b[j - |a|];
      case Some(k) =>
        assert forall j :: |a| <= j < |a| + k ==> ab[j] == b[j - |a|];
  }

  /** A lookup in two runs of documents: the first run's match if it has one,
      otherwise the second run's. */
  lemma ShopOfConcat(a: seq<ShopDoc>, b: seq<ShopDoc>, id: string)
    ensures ShopOf(a + b, id) == if ShopOf(a, id).Some? then ShopOf(a, id) else ShopOf(b, id)
  {
    FindConcat(a, b, id);
    match FindShop(a, id)
    case Some(i) =>
      assert (a + b)[i] == a[i];
    case None =>
      match FindShop(b, id)
      case None =>
      case Some(j) =>
        assert (a + b)[|a| + j] == b[j];
  }

  lemma {:induction false} CountConcat(a: seq<ShopDoc>, b: seq<ShopDoc>, id: string)
    ensures Count(a + b, id) == Count(a, id) + Count(b, id)
  {
    if |a| == 0 {
      assert a + b == b;
    } else {
      assert (a + b)[1..] == a[1..] + b;
      CountConcat(a[1..], b, id);
    }
  }

  /** A shop id has no document exactly when it has no match. */
  lemma {:induction false} CountZero(shops: seq<ShopDoc>, id: string)
    ensures Count(shops, id) == 0 <==> FindShop(shops, id).None?
  {
    if |shops| > 0 {
      CountZero(shops[1..], id);
      if shops[0].shopId != id {
        assert shops == [shops[0]] + shops[1..];
        FindConcat([shops[0]], shops[1..], id);
      }
    }
  }

  /** Replacing a document by one with the same shop id moves no lookup. */
  lemma UpdateKeepsLookups(shops: seq<ShopDoc>, i: nat, d: ShopDoc, id: string)
    requires i < |shops| && d.shopId == shops[i].shopId
    ensures FindShop(shops[i := d], id) == FindShop(shops, id)
    ensures ShopOf(shops[i := d], id) == if FindShop(shops, id) == Some(i) then Some(d) else ShopOf(shops, id)
  {
    var s' := shops[i := d];
    assert forall j :: 0 <= j < |shops| ==> s'[j].shopId == shops[j].shopId;
  }

  /** Adding a document leaves the lookup of every other shop id as it was. */
  lemma InsertKeepsOthers(shops: seq<ShopDoc>, k: nat, d: ShopDoc, id: string)
    requires k <= |shops| && id != d.shopId
    ensures ShopOf(InsertAt(shops, k, d), id) == ShopOf(shops, id)
  {
    var a, b := shops[..k], shops[k..];
    assert shops == a + b;
    assert InsertAt(shops, k, d) == a + ([d] + b);
    ShopOfConcat(a, [d] + b, id);
    ShopOfConcat([d], b, id);
    ShopOfConcat(a, b, id);
    assert FindShop([d], id).None? by {
      assert [d][0] == d;
    }
  }

  /** Adding a document adds one to the count of its shop id only. */
  lemma InsertCount(shops: seq<ShopDoc>, k: nat, d: ShopDoc, id: string)
    requires k <= |shops|
    ensures Count(InsertAt(shops, k, d), id) == Count(shops, id) + (if id == d.shopId then 1 else 0)
  {
    var a, b := shops[..k], shops[k..];
    assert shops == a + b;
    assert InsertAt(shops, k, d) == a + ([d] + b);
    CountConcat(a, [d] + b, id);
    CountConcat([d], b, id);
    CountConcat(a, b, id);
    assert Count([d], id) == (if id == d.shopId then 1 else 0) by {
      assert [d][1..] == [];
    }
  }

  /** A document added under a shop id no other document has is found by
      that id, wherever the store files it. */
  lemma InsertFresh(shops: seq<ShopDoc>, k: nat, d: ShopDoc)
    requires k <= |shops| && Count(shops, d.shopId) == 0
    ensures ShopOf(InsertAt(shops, k, d), d.shopId) == Some(d)
  {
    var a, b := shops[..k], shops[k..];
    assert shops == a + b;
    assert InsertAt(shops, k, d) == a + ([d] + b);
    CountZero(shops, d.shopId);
    ShopOfConcat(a, b, d.shopId);
    ShopOfConcat(a, [d] + b, d.shopId);
    ShopOfConcat([d], b, d.shopId);
    assert FindShop([d], d.shopId) == Some(0);
  }

  /** A duplicate filed after the document a shop id finds stays hidden:
      every lookup by that id still finds the older document. */
  lemma InsertShadowed(shops: seq<ShopDoc>, k: nat, d: ShopDoc)
    requires k <= |shops| && FindShop(shops, d.shopId).Some? && FindShop(shops, d.shopId).value < k
    ensures ShopOf(InsertAt(shops, k, d), d.shopId) == ShopOf(shops, d.shopId)
  {
    var a, b := shops[..k], shops[k..];
    assert shops == a + b;
    assert InsertAt(shops, k, d) == a + ([d] + b);
    FindConcat(a, b, d.shopId);
    ShopOfConcat(a, b, d.shopId);
    ShopOfConcat(a, [d] + b, d.shopId);
  }

  /** A duplicate filed at or before the document a shop id finds takes the
      shop id over: every lookup by that id now finds the new document. */
  lemma InsertTakesOver(shops: seq<ShopDoc>, k: nat, d: ShopDoc)
    requires FindShop(shops, d.shopId).Some? && k <= FindShop(shops, d.shopId).value
    ensures ShopOf(InsertAt(shops, k, d), d.shopId) == Some(d)
  {
    var a, b := shops[..k], shops[k..];
    assert shops == a + b;
    assert InsertAt(shops, k, d) == a + ([d] + b);
    FindConcat(a, b, d.shopId);
    ShopOfConcat(a, [d] + b, d.shopId);
    ShopOfConcat([d], b, d.shopId);
    assert FindShop([d], d.shopId) == Some(0);
  }

  /** Deleting the first match of `id` leaves every other shop id looking up
      the same document. */
  lemma DeleteKeepsOthers(shops: seq<ShopDoc>, i: nat, id: string, other: string)
    requires FindShop(shops, id) == Some(i) && other != id
    ensures ShopOf(RemoveAt(shops, i), other) == ShopOf(shops, other)
  {
    var a, x, b := shops[..i], shops[i], shops[i + 1..];
    assert shops == a + ([x] + b);
    assert RemoveAt(shops, i) == a + b;
    ShopOfConcat(a, b, other);
    ShopOfConcat(a, [x] + b, other);
    ShopOfConcat([x], b, other);
    assert FindShop([x], other).None? by {
      assert [x][0] == x;
    }
  }

  /** After deleting the first match of `id`, `id` finds its next duplicate,
      if any, and has one document fewer. */
  lemma DeleteExposesNext(shops: seq<ShopDoc>, i: nat, id: string)
    requires FindShop(shops, id) == Some(i)
    ensures ShopOf(RemoveAt(shops, i), id) == ShopOf(shops[i + 1..], id)
    ensures Count(RemoveAt(shops, i), id) == Count(shops, id) - 1
  {
    var a, x, b := shops[..i], shops[i], shops[i + 1..];
    assert shops == a + ([x] + b);
    assert RemoveAt(shops, i) == a + b;
    assert FindShop(a, id).None? by {
      assert forall j :: 0 <= j < |a| ==> a[j] == shops[j];
    }
    FindConcat(a, b, id);
    CountZero(a, id);
    CountConcat(a, b, id);
    CountConcat(a, [x] + b, id);
    CountConcat([x], b, id);
  }

  /** Deleting a shop right after creating it under a fresh shop id gives
      back the table as it was. */
  lemma CreateThenDelete(shops: seq<ShopDoc>, k: nat, d: ShopDoc)
    requires k <= |shops| && FindShop(shops, d.shopId).None?
    ensures FindShop(InsertAt(shops, k, d), d.shopId) == Some(k)
    ensures RemoveAt(InsertAt(shops, k, d), k) == shops
  {
    var a, b := shops[..k], shops[k..];
    assert shops == a + b;
    assert InsertAt(shops, k, d) == a + ([d] + b);
    FindConcat(a, [d] + b, d.shopId);
    FindConcat(a, b, d.shopId);
  }

  /** Firestore's partial update composes: two updates in a row are one update
      with the later request's fields taking precedence. */
  lemma UpdateCompose(d: ShopDoc, u1: ShopUpdate, u2: ShopUpdate)
    ensures ApplyUpdate(ApplyUpdate(d, u1), u2) == ApplyUpdate(d, Merge(u1, u2))
    ensures ApplyUpdate(ApplyUpdate(d, u1), u1) == ApplyUpdate(d, u1)
  {
  }
}
