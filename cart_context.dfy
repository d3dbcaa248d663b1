/** The cart provider: the in-memory cart (an ordered sequence of line
    objects) and the four operations that keep it in step with the remote
    cart store. Each awaited HTTP call is one atomic step whose outcome is
    a parameter; the remote store itself is a ghost map from store key to
    the fields stored under it. */
module CartContext {
  import opened JsValues

  /** How one awaited HTTP call settled: with a reply carrying its status
      and its body, or by throwing (no reply at all). */
  datatype Outcome<R> = Replied(status: int, data: R) | Threw
  {
    /** axios resolves the call only for a status in 200..299 (its default
        `validateStatus`); any other reply is rejected like a network error. */
    predicate Accepted() {
      Replied? && 200 <= status < 300
    }
  }

  /** The body of the GET of the whole cart: None when the store answers
      `null`, otherwise its entries in enumeration order. */
  type CartData = Option<seq<(string, Obj)>>

  /** How an async operation of the provider settles for its caller. */
  datatype Settled = Resolved(value: Value) | Rejected

  /** `item.id === id` */
  predicate HasId(line: Obj, id: string)
    ensures HasId(line, id) ==> "id" in line
  {
    Get(line, "id") == Str(id)
  }

  /** Every line the provider builds carries an `id` and a numeric `price`. */
  predicate WellFormed(line: Obj) {
    "id" in line && "price" in line && line["price"].Number?
  }

  /** `fields.price ? parseFloat(fields.price) : 0` */
  function CoercedPrice(fields: Obj): (p: Value)
    ensures p.Number?
  {
    var raw := Get(fields, "price");
    if Truthy(raw) then Number(ParseFloat(raw)) else Number(Fin(0.0))
  }

  /** `{ id: key, ...fields, price: CoercedPrice(fields) }`, the line built
      both for a fetched entry and for a newly added item. The spread comes
      after `id`, so an `id` among the fields overrides the store key. */
  function KeyedLine(key: string, fields: Obj): (line: Obj)
    ensures WellFormed(line)
    ensures line["id"] == (if "id" in fields then fields["id"] else Str(key))
    ensures line["price"] == CoercedPrice(fields)
    ensures forall k :: k != "id" && k != "price" ==> Get(line, k) == Get(fields, k)
    ensures line.Keys == fields.Keys + {"id", "price"}
  {
    map["id" := Str(key)] + fields + map["price" := CoercedPrice(fields)]
  }

  /** `Object.entries(data).map(...)`: one well-formed line per fetched
      entry, in order, carrying the entry's key as its id unless the stored
      fields have an `id` of their own. */
  function FetchedLines(entries: seq<(string, Obj)>): (r: seq<Obj>)
    ensures |r| == |entries|
    ensures forall i :: 0 <= i < |entries| ==> WellFormed(r[i])
    ensures forall i :: 0 <= i < |entries| && "id" !in entries[i].1 ==> HasId(r[i], entries[i].0)
  {
    seq(|entries|, i requires 0 <= i < |entries| => KeyedLine(entries[i].0, entries[i].1))
  }

  /** The cart after `fetchCart` settles: replaced by the fetched lines when
      the GET answered 200 with non-null data, otherwise left as it was
      (errors are logged and swallowed). */
  function AfterFetch(cart: seq<Obj>, reply: Outcome<CartData>): (r: seq<Obj>)
    ensures !(reply.Replied? && reply.status == 200 && reply.data.Some?) ==> r == cart
    ensures reply.Replied? && reply.status == 200 && reply.data.Some? ==>
              |r| == |reply.data.value| &&
              forall i :: 0 <= i < |r| ==> r[i] == KeyedLine(reply.data.value[i].0, reply.data.value[i].1)
    ensures (forall i :: 0 <= i < |cart| ==> WellFormed(cart[i])) ==>
              forall i :: 0 <= i < |r| ==> WellFormed(r[i])
  {
    if reply.Replied? && reply.status == 200 && reply.data.Some?
    then FetchedLines(reply.data.value)
    else cart
  }

  /** `cart.filter(item => item.id !== id)` */
  function WithoutId(cart: seq<Obj>, id: string): (r: seq<Obj>)
    ensures |r| <= |cart|
    ensures forall l :: l in r <==> l in cart && !HasId(l, id)
  {
    if cart == [] then []
    else if HasId(cart[0], id) then WithoutId(cart[1..], id)
    else [cart[0]] + WithoutId(cart[1..], id)
  }

  /** `cart.map(item => item.id === id ? { ...item, quantity: q } : item)` */
  function WithQuantity(cart: seq<Obj>, id: string, q: Num): (r: seq<Obj>)
    ensures |r| == |cart|
    ensures forall i :: 0 <= i < |cart| ==>
              r[i] == if HasId(cart[i], id) then cart[i]["quantity" := Number(q)] else cart[i]
  {
    if cart == [] then []
    else
      var head := if HasId(cart[0], id) then cart[0]["quantity" := Number(q)] else cart[0];
      [head] + WithQuantity(cart[1..], id, q)
  }

  /** `cart.find(item => item.id === id)`, as the index of the line found. */
  function FindIndex(cart: seq<Obj>, id: string): (r: Option<nat>)
    ensures r.Some? ==> r.value < |cart| && HasId(cart[r.value], id)
    ensures r.Some? ==> forall j :: 0 <= j < r.value ==> !HasId(cart[j], id)
    ensures r.None? ==> forall j :: 0 <= j < |cart| ==> !HasId(cart[j], id)
  {
    if cart == [] then None
    else if HasId(cart[0], id) then Some(0)
    else
      match FindIndex(cart[1..], id)
      case None => None
      case Some(i) => Some(i + 1)
  }

  /** `updatedItem.quantity = q` on the line `find` returned: the line
      object lives in the cart, so the cart itself changes. */
  function MutateFirst(cart: seq<Obj>, id: string, q: Num): (r: seq<Obj>)
    ensures |r| == |cart|
    ensures FindIndex(cart, id).None? ==> r == cart
    ensures FindIndex(cart, id).Some? ==>
              var i := FindIndex(cart, id).value;
              r[i] == cart[i]["quantity" := Number(q)] &&
              forall j :: 0 <= j < |cart| && j != i ==> r[j] == cart[j]
  {
    match FindIndex(cart, id)
    case None => cart
    case Some(i) => cart[i := cart[i]["quantity" := Number(q)]]
  }

  // ---------------------------------------------------------------------
  // The provider's state

  class CartProvider {
    /** `const [cart, setCart] = useState([])` */
    var cart: seq<Obj>
    /** The remote cart collection, key to stored fields. */
    ghost var store: map<string, Obj>

    ghost predicate Valid()
      reads this
    {
      forall i :: 0 <= i < |cart| ==> WellFormed(cart[i])
    }

    constructor (ghost remote: map<string, Obj>)
      ensures Valid() && cart == [] && store == remote
    {
      cart := [];
      store := remote;
    }

    /** `fetchCart`: GET the whole cart. A reply with data lists the
      store's entries; the store itself is not changed. */
    method FetchCart(reply: Outcome<CartData>)
      requires Valid()
      requires reply.Replied? && reply.data.Some? ==> Enumerates(reply.data.value, store)
      modifies this
      ensures Valid() && store == old(store)
      ensures cart == AfterFetch(old(cart), reply)
      ensures reply.Replied? && reply.status == 200 && reply.data.Some? ==>
                && (forall k :: k in store ==> exists i :: 0 <= i < |cart| && cart[i] == KeyedLine(k, store[k]))
                && (forall i :: 0 <= i < |cart| ==>
                      var k := reply.data.value[i].0; k in store && cart[i] == KeyedLine(k, store[k]))
    {
      if reply.Replied? && reply.status == 200 && reply.data.Some? {
        FetchedMirrorsStore(reply.data.value, store);
        cart := FetchedLines(reply.data.value);
      }
    }

    /** `addToCart(newItem)`: POST the item; the reply body's `name` is the
      store-assigned key. On status 200 append the line keyed by it and
      resolve `true`; on another 2xx status resolve `undefined`. */
    method AddToCart(newItem: Obj, reply: Outcome<string>) returns (result: Settled)
      requires Valid()
      modifies this
      ensures Valid()
      ensures !reply.Accepted() ==> result == Rejected && cart == old(cart) && store == old(store)
      ensures reply.Accepted() ==> store == old(store)[reply.data := newItem]
      ensures reply.Accepted() && reply.status == 200 ==>
                result == Resolved(Bool(true)) && cart == old(cart) + [KeyedLine(reply.data, newItem)]
      ensures reply.Accepted() && reply.status != 200 ==>
                result == Resolved(Undefined) && cart == old(cart)
    {
      if !reply.Accepted() {
        result := Rejected;
      } else {
        store := store[reply.data := newItem];
        if reply.status == 200 {
          cart := cart + [KeyedLine(reply.data, newItem)];
          result := Resolved(Bool(true));
        } else {
          result := Resolved(Undefined);
        }
      }
    }

    /** `removeFromCart(id)`: DELETE the key; on status 200 drop every line
      with that id and resolve `true`. */
    method RemoveFromCart(id: string, reply: Outcome<()>) returns (result: Settled)
      requires Valid()
      modifies this
      ensures Valid()
      ensures !reply.Accepted() ==> result == Rejected && cart == old(cart) && store == old(store)
      ensures reply.Accepted() ==> store == old(store) - {id}
      ensures reply.Accepted() && reply.status == 200 ==>
                result == Resolved(Bool(true)) && cart == WithoutId(old(cart), id)
      ensures reply.Accepted() && reply.status != 200 ==>
                result == Resolved(Undefined) && cart == old(cart)
    {
      if !reply.Accepted() {
        result := Rejected;
      } else {
        store := store - {id};
        if reply.status == 200 {
          cart := WithoutId(cart, id);
          assert forall i :: 0 <= i < |cart| ==> cart[i] in old(cart);
          result := Resolved(Bool(true));
        } else {
          result := Resolved(Undefined);
        }
      }
    }

    /** `handleUpdateQuantity(id, q)`. A quantity of 0 or less is a removal.
      Otherwise the first line with the id gets the new quantity in place,
      that whole line is PUT, and once axios accepts the reply (the code
      checks no status itself) every line with the id gets the quantity.
      `reply` is the outcome of the one remote call made, if any. */
    method HandleUpdateQuantity(id: string, q: Num, reply: Outcome<()>) returns (result: Settled)
      requires Valid()
      modifies this
      ensures Valid()
      ensures result == (if !reply.Accepted() && (NonPositive(q) || FindIndex(old(cart), id).Some?)
                         then Rejected else Resolved(Undefined))
      // a quantity of 0 or less: exactly the effect of removeFromCart(id)
      ensures NonPositive(q) ==>
                && store == (if reply.Accepted() then old(store) - {id} else old(store))
                && cart == (if reply.Accepted() && reply.status == 200 then WithoutId(old(cart), id) else old(cart))
      // an id not in the cart: no remote call, nothing changes
      ensures !NonPositive(q) && FindIndex(old(cart), id).None? ==>
                cart == old(cart) && store == old(store)
      // an id in the cart: the PUT body is the first such line with the new quantity
      ensures !NonPositive(q) && FindIndex(old(cart), id).Some? ==>
                var body := old(cart)[FindIndex(old(cart), id).value]["quantity" := Number(q)];
                if reply.Accepted()
                then cart == WithQuantity(old(cart), id, q) && store == old(store)[id := body]
                else cart == MutateFirst(old(cart), id, q) && store == old(store)
    {
      if NonPositive(q) {
        var removed := RemoveFromCart(id, reply);
        result := if removed.Rejected? then Rejected else Resolved(Undefined);
        return;
      }
      var found := FindIndex(cart, id);
      result := Resolved(Undefined);
      if found.Some? {
        var body := cart[found.value]["quantity" := Number(q)];
        ghost var before := cart;
        QuantityKeepsWellFormed(before, id, q);
        cart := MutateFirst(cart, id, q);
        if !reply.Accepted() {
          result := Rejected;
        } else {
          store := store[id := body];
          MutateThenMap(before, id, q);
          cart := WithQuantity(cart, id, q);
        }
      }
    }
  }

  // ---------------------------------------------------------------------
  // Lemmas

  /** Setting a quantity keeps every line well formed. */
  lemma QuantityKeepsWellFormed(cart: seq<Obj>, id: string, q: Num)
    requires forall i :: 0 <= i < |cart| ==> WellFormed(cart[i])
    ensures forall i :: 0 <= i < |cart| ==> WellFormed(cart[i]["quantity" := Number(q)])
    ensures forall i :: 0 <= i < |MutateFirst(cart, id, q)| ==> WellFormed(MutateFirst(cart, id, q)[i])
    ensures forall i :: 0 <= i < |WithQuantity(cart, id, q)| ==> WellFormed(WithQuantity(cart, id, q)[i])
  {
  }

  /** `filter` keeps order: it distributes over concatenation. */
  lemma {:induction false} WithoutIdAppend(a: seq<Obj>, b: seq<Obj>, id: string)
    ensures WithoutId(a + b, id) == WithoutId(a, id) + WithoutId(b, id)
  {
    if a != [] {
      assert (a + b)[1..] == a[1..] + b;
      WithoutIdAppend(a[1..], b, id);
    } else {
      assert a + b == b;
    }
  }

  /** Removing an id that no line carries leaves the cart as it is. */
  lemma {:induction false} WithoutAbsentId(cart: seq<Obj>, id: string)
    requires forall l :: l in cart ==> !HasId(l, id)
    ensures WithoutId(cart, id) == cart
  {
    if cart != [] {
      assert cart == [cart[0]] + cart[1..];
      WithoutAbsentId(cart[1..], id);
    }
  }

  /** Removing the same id twice is removing it once. */
  lemma RemoveTwice(cart: seq<Obj>, id: string)
    ensures WithoutId(WithoutId(cart, id), id) == WithoutId(cart, id)
  {
    WithoutAbsentId(WithoutId(cart, id), id);
  }

  /** Add then remove by the store key: when the new item carries no `id`
      of its own and no line had that key, the cart is back where it was. */
  lemma AddThenRemove(cart: seq<Obj>, key: string, item: Obj)
    requires "id" !in item
    requires forall l :: l in cart ==> !HasId(l, key)
    ensures WithoutId(cart + [KeyedLine(key, item)], key) == cart
  {
    WithoutIdAppend(cart, [KeyedLine(key, item)], key);
    WithoutAbsentId(cart, key);
  }

  /** The spread-order quirk: an item that carries its own string `id`
      keeps it, so removing by the store key does not remove its line. */
  lemma AddedOwnIdSurvivesRemove(cart: seq<Obj>, key: string, item: Obj, own: string)
    requires Get(item, "id") == Str(own) && own != key
    ensures KeyedLine(key, item)["id"] == Str(own)
    ensures WithoutId(cart + [KeyedLine(key, item)], key) == WithoutId(cart, key) + [KeyedLine(key, item)]
  {
    WithoutIdAppend(cart, [KeyedLine(key, item)], key);
    assert [KeyedLine(key, item)][1..] == [];
  }

  /** The PUT of the in-place mutated line followed by the `map` gives the
      same cart as the `map` alone: on success the mutation is invisible. */
  lemma MutateThenMap(cart: seq<Obj>, id: string, q: Num)
    ensures WithQuantity(MutateFirst(cart, id, q), id, q) == WithQuantity(cart, id, q)
  {
    var m := MutateFirst(cart, id, q);
    var a := WithQuantity(m, id, q);
    var b := WithQuantity(cart, id, q);
    forall i | 0 <= i < |cart| ensures a[i] == b[i] {
      assert HasId(m[i], id) == HasId(cart[i], id);
    }
  }

  /** ... but when the PUT throws, the cart already shows the new quantity
      on the first line with the id (and only there). */
  lemma FailedUpdateChangesCart(cart: seq<Obj>, id: string, q: Num)
    requires FindIndex(cart, id).Some?
    requires Get(cart[FindIndex(cart, id).value], "quantity") != Number(q)
    ensures MutateFirst(cart, id, q) != cart
    ensures |MutateFirst(cart, id, q)| == |cart|
    ensures forall j :: 0 <= j < |cart| && j != FindIndex(cart, id).value ==>
              MutateFirst(cart, id, q)[j] == cart[j]
  {
    var i := FindIndex(cart, id).value;
    assert MutateFirst(cart, id, q)[i]["quantity"] == Number(q);
  }

  /** Updating a quantity keeps every line's id, so it keeps which lines a
      later removal drops: removing after an update is removing. */
  lemma {:induction false} RemoveAfterUpdate(cart: seq<Obj>, id: string, q: Num, other: string)
    ensures WithoutId(WithQuantity(cart, id, q), other) == WithQuantity(WithoutId(cart, other), id, q)
  {
    if cart != [] {
      var head := if HasId(cart[0], id) then cart[0]["quantity" := Number(q)] else cart[0];
      assert HasId(head, other) == HasId(cart[0], other);
      assert WithQuantity(cart, id, q) == [head] + WithQuantity(cart[1..], id, q);
      assert WithQuantity(cart, id, q)[1..] == WithQuantity(cart[1..], id, q);
      RemoveAfterUpdate(cart[1..], id, q, other);
      if !HasId(cart[0], other) {
        assert WithoutId(cart, other) == [cart[0]] + WithoutId(cart[1..], other);
        assert ([cart[0]] + WithoutId(cart[1..], other))[1..] == WithoutId(cart[1..], other);
      }
    }
  }

  /** With no `id` among the stored fields, distinct store keys give a
      fetched cart whose ids are distinct. */
  lemma FetchedIdsDistinct(entries: seq<(string, Obj)>)
    requires forall i :: 0 <= i < |entries| ==> "id" !in entries[i].1
    requires forall i, j :: 0 <= i < j < |entries| ==> entries[i].0 != entries[j].0
    ensures forall i, j :: 0 <= i < j < |entries| ==>
              FetchedLines(entries)[i]["id"] != FetchedLines(entries)[j]["id"]
  {
    var lines := FetchedLines(entries);
    forall i, j | 0 <= i < j < |entries| ensures lines[i]["id"] != lines[j]["id"] {
      assert lines[i]["id"] == Str(entries[i].0);
      assert lines[j]["id"] == Str(entries[j].0);
    }
  }

  /** `entries` enumerates `store`: every entry is a stored key with its
      fields, and every stored key has an entry. */
  ghost predicate Enumerates(entries: seq<(string, Obj)>, store: map<string, Obj>) {
    && (forall i :: 0 <= i < |entries| ==> entries[i].0 in store && store[entries[i].0] == entries[i].1)
    && (forall k :: k in store ==> exists i :: 0 <= i < |entries| && entries[i].0 == k)
  }

  /** A fetch of a store that the reply enumerates gives a cart that mirrors
      the store: a line built from every stored entry, and each line built
      from the entry stored under the key the reply lists in its place. */
  lemma FetchedMirrorsStore(entries: seq<(string, Obj)>, store: map<string, Obj>)
    requires Enumerates(entries, store)
    ensures forall k :: k in store ==>
              exists i :: 0 <= i < |FetchedLines(entries)| && FetchedLines(entries)[i] == KeyedLine(k, store[k])
    ensures forall i :: 0 <= i < |entries| ==>
              var k := entries[i].0; k in store && FetchedLines(entries)[i] == KeyedLine(k, store[k])
  {
    var lines := FetchedLines(entries);
    forall k | k in store
      ensures exists i :: 0 <= i < |lines| && lines[i] == KeyedLine(k, store[k])
    {
      var i :| 0 <= i < |entries| && entries[i].0 == k;
      assert lines[i] == KeyedLine(k, store[k]);
    }
  }

  /** The line `addToCart` appends is the line a later fetch of the store
      builds for the new entry. */
  lemma RefetchAfterAdd(entries: seq<(string, Obj)>, store: map<string, Obj>, key: string, item: Obj)
    requires Enumerates(entries, store[key := item])
    ensures KeyedLine(key, item) in FetchedLines(entries)
  {
    assert key in store[key := item];
    var i :| 0 <= i < |entries| && entries[i].0 == key;
    assert FetchedLines(entries)[i] == KeyedLine(key, item);
  }

  /** A line the cart holds, stored back by a PUT, is rebuilt unchanged by
      a later fetch when its price is a finite number: its own `id`
      overrides the key and `parseFloat` keeps the price. */
  lemma RefetchAfterUpdate(key: string, line: Obj)
    requires WellFormed(line) && line["price"].n.Fin?
    ensures KeyedLine(key, line) == line
  {
    var p := line["price"];
    assert ParseFloat(p) == p.n;
    assert CoercedPrice(line) == p;
    var r := KeyedLine(key, line);
    assert r.Keys == line.Keys;
    forall k | k in line ensures r[k] == line[k] {
      if k != "id" && k != "price" {
        assert Get(r, k) == Get(line, k);
      }
    }
  }

  /** `price ? parseFloat(price) : 0` on a decimal string, a non-numeric
      string, an absent price and an empty string. A non-numeric string
      gives NaN, not 0. */
  lemma PriceCoercionExamples()
    ensures CoercedPrice(map["price" := Str("12.5")]) == Number(Fin(12.5))
    ensures CoercedPrice(map["price" := Str("abc")]) == Number(NaN)
    ensures CoercedPrice(map[]) == Number(Fin(0.0))
    ensures CoercedPrice(map["price" := Str("")]) == Number(Fin(0.0))
  {
    ParseFloatExamples();
  }

  /** A stored price of white space only, such as `" "`, is truthy, but
      `parseFloat` finds no numeral in it: the fetched line's price is NaN. */
  lemma FetchedBlankPriceIsNaN(entries: seq<(string, Obj)>, i: nat, s: string)
    requires i < |entries| && s != [] && AllSpace(s) && Get(entries[i].1, "price") == Str(s)
    ensures FetchedLines(entries)[i]["price"] == Number(NaN)
  {
    assert FetchedLines(entries)[i] == KeyedLine(entries[i].0, entries[i].1);
  }
}
