/** The item details screen: a quantity counter (minus button, text input,
    plus button) and the handler that adds the shown catalog item to the
    cart through the cart provider. */
module DetailsScreen {
  import opened JsValues
  import CartContext

  /** `isNaN(item.price) ? 0 : item.price` */
  function ItemPrice(item: Obj): (p: Value)
    ensures !IsNaN(p)
    ensures IsNaN(Get(item, "price")) ==> p == Number(Fin(0.0))
    ensures !IsNaN(Get(item, "price")) ==> p == Get(item, "price")
  {
    var raw := Get(item, "price");
    if IsNaN(raw) then Number(Fin(0.0)) else raw
  }

  /** `{ ...item, price: itemPrice, quantity: quantity }` */
  function CartItem(item: Obj, quantity: Num): (c: Obj)
    ensures c.Keys == item.Keys + {"price", "quantity"}
    ensures c["price"] == ItemPrice(item) && c["quantity"] == Number(quantity)
    ensures forall k :: k != "price" && k != "quantity" ==> Get(c, k) == Get(item, k)
  {
    item + map["price" := ItemPrice(item), "quantity" := Number(quantity)]
  }

  /** The minus button: `Math.max(1, prev - 1)`. */
  function Decremented(q: Num): (r: Num)
    ensures q.Fin? ==> r.Fin? && r.r >= 1.0
    ensures q.Fin? && q.r >= 2.0 ==> r == Fin(q.r - 1.0)
    ensures q.Fin? && q.r < 2.0 ==> r == Fin(1.0)
    ensures q.NaN? ==> r.NaN?
  {
    Max(Fin(1.0), Add(q, Fin(-1.0)))
  }

  /** The plus button: `prev + 1`. */
  function Incremented(q: Num): (r: Num)
    ensures r.NaN? <==> q.NaN?
    ensures q.Fin? ==> r.r == q.r + 1.0
    ensures q.Fin? && q.r >= 1.0 ==> Decremented(r) == q
  {
    Add(q, Fin(1.0))
  }

  /** The text input: `Number(text)`, not clamped. */
  function Typed(text: string): (r: Num)
    ensures text != [] && AllDigits(text) ==> r == Fin(DigitsValue(text) as real)
  {
    if text != [] && AllDigits(text) then
      ReadDigits(text);
      ToNumber(Str(text))
    else
      ToNumber(Str(text))
  }

  /** One user action on the counter. */
  datatype Press = Minus | Plus | Type(text: string)

  function Step(q: Num, p: Press): Num {
    match p
    case Minus => Decremented(q)
    case Plus => Incremented(q)
    case Type(text) => Typed(text)
  }

  /** The quantity after a sequence of actions. */
  function Run(q: Num, presses: seq<Press>): Num
    decreases |presses|
  {
    if presses == [] then q else Run(Step(q, presses[0]), presses[1..])
  }

  /** The error alert of `handleAddToCart`. */
  const AddFailed := ShowAlert("Error", "Failed to add item to cart.")

  /** The success alert of `handleAddToCart`, followed by navigation to
      the cart. */
  const AddSucceeded := AlertThenNavigate("Success", "Item added to cart!", "Cart")

  class Screen {
    /** `route.params.item`, the catalog item shown. */
    const item: Obj
    /** `const [quantity, setQuantity] = useState(1)` */
    var quantity: Num

    constructor (item: Obj)
      ensures this.item == item && quantity == Fin(1.0)
    {
      this.item := item;
      quantity := Fin(1.0);
    }

    method OnMinus()
      modifies this
      ensures quantity == Decremented(old(quantity))
    {
      quantity := Decremented(quantity);
    }

    method OnPlus()
      modifies this
      ensures quantity == Incremented(old(quantity))
    {
      quantity := Incremented(quantity);
    }

    method OnChangeText(text: string)
      modifies this
      ensures quantity == Typed(text)
    {
      quantity := Typed(text);
    }

    /** `handleAddToCart`: build the cart item, await `addToCart`, and
      navigate only when it resolved truthy. A reply outside 2xx makes
      `addToCart` reject, like a network error. */
    method HandleAddToCart(provider: CartContext.CartProvider, reply: CartContext.Outcome<string>)
      returns (effect: Effect)
      requires provider.Valid()
      modifies provider
      ensures provider.Valid()
      ensures effect.AlertThenNavigate? <==> reply.Replied? && reply.status == 200
      ensures effect == (if !reply.Accepted() then AddFailed
                         else if reply.status == 200 then AddSucceeded
                         else NoEffect)
      ensures provider.cart ==
                if reply.Replied? && reply.status == 200
                then old(provider.cart) + [CartContext.KeyedLine(reply.data, CartItem(item, quantity))]
                else old(provider.cart)
      ensures !reply.Accepted() ==> provider.store == old(provider.store)
      ensures reply.Accepted() ==> provider.store == old(provider.store)[reply.data := CartItem(item, quantity)]
    {
      var cartItem := CartItem(item, quantity);
      var settled := provider.AddToCart(cartItem, reply);
      if settled.Rejected? {
        effect := AddFailed;
      } else if Truthy(settled.value) {
        effect := AddSucceeded;
      } else {
        effect := NoEffect;
      }
    }
  }

  // ---------------------------------------------------------------------
  // Lemmas

  /** Only the text input takes actions other than the two buttons. */
  predicate ButtonsOnly(presses: seq<Press>) {
    forall i :: 0 <= i < |presses| ==> !presses[i].Type?
  }

  /** From a whole quantity of at least 1, the buttons alone keep the
      quantity a whole number of at least 1. */
  lemma {:induction false} ButtonsKeepQuantityPositive(k: nat, presses: seq<Press>)
    requires k >= 1 && ButtonsOnly(presses)
    ensures var r := Run(Fin(k as real), presses); r.Fin? && r.r >= 1.0 && r.r == r.r.Floor as real
    decreases |presses|
  {
    if presses != [] {
      var k' := if presses[0].Plus? then k + 1 else if k >= 2 then k - 1 else 1;
      assert !presses[0].Type?;
      if presses[0].Plus? {
        assert Incremented(Fin(k as real)) == Fin(k' as real);
      } else {
        assert Decremented(Fin(k as real)) == Fin(k' as real);
      }
      assert Run(Fin(k as real), presses) == Run(Fin(k' as real), presses[1..]);
      ButtonsKeepQuantityPositive(k', presses[1..]);
    }
  }

  /** The screen's initial quantity is 1, so with the buttons alone the
      quantity stays a whole number and never drops below 1. */
  lemma ButtonsFromStart(presses: seq<Press>)
    requires ButtonsOnly(presses)
    ensures Run(Fin(1.0), presses).Fin? && Run(Fin(1.0), presses).r >= 1.0
  {
    ButtonsKeepQuantityPositive(1, presses);
  }

  /** The floor belongs to the minus button only: typing "0" sets the
      quantity to 0, whatever it was. The text is a parameter pinned to
      "0" rather than a literal in the contract, which keeps the solver
      from unfolding the conversion on the literal. */
  lemma TypingZeroBypassesFloor(q: Num, text: string)
    requires text == "0"
    ensures Run(q, [Type(text)]) == Fin(0.0)
  {
    SingleKeystroke(q, text);
    TypedZero(text);
  }

  /** The text input reads "0" as 0 (pinned parameter, as above). */
  lemma TypedZero(text: string)
    requires text == "0"
    ensures Typed(text) == Fin(0.0)
  {
    ZeroNumeral(text);
  }

  /** A single text entry replaces the quantity, whatever it was. */
  lemma SingleKeystroke(q: Num, text: string)
    ensures Run(q, [Type(text)]) == Typed(text)
  {
    assert [Type(text)][1..] == [];
  }

  /** After text that is no number the quantity is NaN, and neither button
      turns it back into a number. */
  lemma NaNQuantityIsStuck(text: string, presses: seq<Press>)
    requires Typed(text) == NaN && ButtonsOnly(presses)
    ensures Run(Typed(text), presses) == NaN
  {
    NaNStaysNaN(presses);
  }

  /** Typing "abc" is such text. */
  lemma TypedLetters()
    ensures Typed("abc") == NaN
  {
    NoNumeral("abc");
  }

  lemma {:induction false} NaNStaysNaN(presses: seq<Press>)
    requires ButtonsOnly(presses)
    ensures Run(NaN, presses) == NaN
    decreases |presses|
  {
    if presses != [] {
      assert Step(NaN, presses[0]) == NaN;
      NaNStaysNaN(presses[1..]);
    }
  }

  /** A price string such as "Rs.2500" is not a number, so an item priced
      that way would go to the cart with price 0. The price is a parameter
      pinned to the string rather than a literal in the contract, which
      keeps the solver from unfolding the conversion on the literal. */
  lemma CatalogPriceBecomesZero(item: Obj)
    requires Get(item, "price") == Str("Rs.2500")
    ensures ItemPrice(item) == Number(Fin(0.0))
  {
    NoNumeral("Rs.2500");
  }

  /** The line that reaches the cart from this screen carries the counter's
      quantity as it stands (unclamped) and the catalog's own `id` if it
      has one, the store key otherwise. */
  lemma AddedLine(item: Obj, key: string, q: Num)
    ensures var line := CartContext.KeyedLine(key, CartItem(item, q));
      && line["quantity"] == Number(q)
      && line["id"] == (if "id" in item then item["id"] else Str(key))
  {
    var c := CartItem(item, q);
    assert ("id" in c <==> "id" in item) && Get(c, "id") == Get(item, "id");
    var line := CartContext.KeyedLine(key, c);
    assert line["quantity"] == Get(c, "quantity") == Number(q);
  }

  /** The price of that line is the price field of the item handed to
      `addToCart`, passed through the provider's coercion. */
  lemma AddedLinePriceIs(item: Obj, key: string, q: Num)
    ensures CartContext.KeyedLine(key, CartItem(item, q))["price"] == CartContext.CoercedPrice(map["price" := ItemPrice(item)])
  {
    var c := CartItem(item, q);
    assert Get(c, "price") == ItemPrice(item);
  }

  /** A catalog price that is a finite number reaches the cart as it is. */
  lemma NumberPriceKept(item: Obj, key: string, q: Num)
    requires Get(item, "price").Number? && Get(item, "price").n.Fin?
    ensures CartContext.KeyedLine(key, CartItem(item, q))["price"] == Get(item, "price")
  {
    AddedLinePriceIs(item, key, q);
  }

  /** A numeric string price would reach the cart as the number it
      denotes. The screen itself never gets this far with a string price:
      rendering `itemPrice.toFixed(2)` throws first. */
  lemma NumericStringPriceParsed(item: Obj, key: string, q: Num)
    requires Get(item, "price").Str?
    requires var s := Get(item, "price").s; StringToNumber(s).Fin? && TrimStart(s) != []
    ensures CartContext.KeyedLine(key, CartItem(item, q))["price"] == Number(StringToNumber(Get(item, "price").s))
  {
    AddedLinePriceIs(item, key, q);
    ParseFloatAgreesWithNumber(Get(item, "price").s);
  }

  /** A price of white space, such as `" "`, passes `isNaN`, since
      `Number(" ")` is 0, so `itemPrice` keeps the string; `parseFloat(" ")`
      then finds no numeral, so the built line's price is NaN. As above, the
      screen's render throws on such a price before the handler can run; the
      same price stored remotely reaches the cart through a fetch
      (CartContext.FetchedBlankPriceIsNaN). */
  lemma SpacePriceBecomesNaN(item: Obj, key: string, q: Num, s: string)
    requires s != [] && AllSpace(s) && Get(item, "price") == Str(s)
    ensures ItemPrice(item) == Str(s)
    ensures CartContext.KeyedLine(key, CartItem(item, q))["price"] == Number(NaN)
  {
    AddedLinePriceIs(item, key, q);
  }

  /** A price `isNaN` rejects reaches the cart as 0. */
  lemma NaNPriceZeroed(item: Obj, key: string, q: Num)
    requires IsNaN(Get(item, "price"))
    ensures CartContext.KeyedLine(key, CartItem(item, q))["price"] == Number(Fin(0.0))
  {
    AddedLinePriceIs(item, key, q);
  }
}
