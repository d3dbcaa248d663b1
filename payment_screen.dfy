/** The payment screen: the choice of payment method, the four card
    inputs, and the confirm handler that lists the missing fields or moves
    on to the order confirmation. */
module PaymentScreen {
  import opened JsValues

  datatype PaymentMethod = PaymentMethod(id: string, name: string, icon: string)

  /** The methods the screen offers. */
  const Methods: seq<PaymentMethod> := [
    PaymentMethod("1", "Master Card", "card-outline"),
    PaymentMethod("2", "PayPal", "logo-paypal"),
    PaymentMethod("3", "UPI", "cash-outline")
  ]

  datatype CardDetails = CardDetails(name: string, cardNumber: string, expiry: string, cvv: string)

  const EmptyCard := CardDetails("", "", "", "")

  /** The four text inputs of the card form. */
  datatype CardField = Name | CardNumber | Expiry | Cvv

  function FieldValue(d: CardDetails, f: CardField): string {
    match f
    case Name => d.name
    case CardNumber => d.cardNumber
    case Expiry => d.expiry
    case Cvv => d.cvv
  }

  /** `{ ...cardDetails, <f>: text }`, what an input's `onChangeText` stores. */
  function WithField(d: CardDetails, f: CardField, text: string): (r: CardDetails)
    ensures FieldValue(r, f) == text
    ensures forall g :: g != f ==> FieldValue(r, g) == FieldValue(d, g)
  {
    match f
    case Name => d.(name := text)
    case CardNumber => d.(cardNumber := text)
    case Expiry => d.(expiry := text)
    case Cvv => d.(cvv := text)
  }

  /** `item.id === selectedMethod`: a method renders as selected. */
  predicate IsSelected(m: PaymentMethod, selected: Option<string>)
    ensures IsSelected(m, selected) && m.id != "" ==> !MethodMissing(selected)
  {
    selected == Some(m.id)
  }

  /** `!selectedMethod`: nothing selected yet (null) or an empty id. */
  predicate MethodMissing(selected: Option<string>)
    ensures MethodMissing(selected) <==> !Truthy(if selected.Some? then Str(selected.value) else Null)
  {
    selected == None || selected == Some("")
  }

  /** The labels of the five required inputs, in the order they are checked. */
  const Labels: seq<string> := ["Payment Method", "Cardholder Name", "Card Number", "Expiry Date", "CVV"]

  /** For each label, whether its input is empty. */
  function Blanks(selected: Option<string>, d: CardDetails): seq<bool> {
    [MethodMissing(selected), d.name == "", d.cardNumber == "", d.expiry == "", d.cvv == ""]
  }

  /** `[x]` when `b` holds, nothing otherwise. */
  function Kept(x: string, b: bool): seq<string> {
    if b then [x] else []
  }

  /** The elements of `xs` whose flag in `keep` is set, in their order. */
  function Select(xs: seq<string>, keep: seq<bool>): (r: seq<string>)
    requires |xs| == |keep|
    ensures |r| <= |xs|
  {
    if xs == [] then []
    else Kept(xs[0], keep[0]) + Select(xs[1..], keep[1..])
  }

  /** The labels of the empty inputs: `missingFields` once all five checks ran. */
  function MissingFields(selected: Option<string>, d: CardDetails): (r: seq<string>)
    ensures |r| <= |Labels|
    ensures forall x :: x in r ==> x in Labels
  {
    SelectMembers(Labels, Blanks(selected, d));
    Select(Labels, Blanks(selected, d))
  }

  const ErrorPrefix := "Please fill the following fields:\n"

  /** `xs.join(sep)` */
  function Join(xs: seq<string>, sep: string): (r: string)
    ensures xs == [] ==> r == ""
    ensures xs != [] ==> |r| >= |xs[0]| && r[..|xs[0]|] == xs[0]
    ensures |xs| >= 2 ==> |r| >= |xs[0]| + |sep| && r[|xs[0]|..|xs[0]| + |sep|] == sep
  {
    if xs == [] then ""
    else if |xs| == 1 then xs[0]
    else xs[0] + sep + Join(xs[1..], sep)
  }

  /** `s.split("\n")`: the pieces between line breaks. */
  function SplitLines(s: string): (r: seq<string>)
    ensures |r| >= 1
  {
    if s == [] then [""]
    else
      var rest := SplitLines(s[1..]);
      if s[0] == '\n' then [""] + rest else [[s[0]] + rest[0]] + rest[1..]
  }

  /** What confirming does in a given form state: an error alert listing
      the missing labels one per line, or navigation to `OrderConfirmed`. */
  function ConfirmEffect(selected: Option<string>, d: CardDetails): (r: Effect)
    ensures r.NavigateTo? || r.ShowAlert?
    ensures r.NavigateTo? <==> MissingFields(selected, d) == []
    ensures r.NavigateTo? ==> r.screen == "OrderConfirmed"
    ensures r.ShowAlert? ==>
              r.title == "Error" && |r.message| >= |ErrorPrefix| && r.message[..|ErrorPrefix|] == ErrorPrefix
  {
    var missing := MissingFields(selected, d);
    if |missing| > 0 then ShowAlert("Error", ErrorPrefix + Join(missing, "\n"))
    else NavigateTo("OrderConfirmed")
  }

  class Screen {
    /** `const [selectedMethod, setSelectedMethod] = useState(null)` */
    var selectedMethod: Option<string>
    /** `const [cardDetails, setCardDetails] = useState({...})` */
    var cardDetails: CardDetails

    constructor ()
      ensures selectedMethod == None && cardDetails == EmptyCard
    {
      selectedMethod := None;
      cardDetails := EmptyCard;
    }

    /** `handlePaymentMethodSelect(method)` */
    method HandlePaymentMethodSelect(m: PaymentMethod)
      modifies this
      ensures selectedMethod == Some(m.id) && cardDetails == old(cardDetails)
    {
      selectedMethod := Some(m.id);
    }

    /** The `onChangeText` handler of the input for field `f`. */
    method OnChangeText(f: CardField, text: string)
      modifies this
      ensures cardDetails == WithField(old(cardDetails), f, text)
      ensures selectedMethod == old(selectedMethod)
    {
      cardDetails := WithField(cardDetails, f, text);
    }

    /** `handleConfirmOrder`: push the label of each empty input, then
      alert or navigate. */
    method HandleConfirmOrder() returns (effect: Effect)
      ensures effect == ConfirmEffect(selectedMethod, cardDetails)
    {
      var missing: seq<string> := [];
      ghost var k0 := Kept("Payment Method", MethodMissing(selectedMethod));
      ghost var k1 := Kept("Cardholder Name", cardDetails.name == "");
      ghost var k2 := Kept("Card Number", cardDetails.cardNumber == "");
      ghost var k3 := Kept("Expiry Date", cardDetails.expiry == "");
      ghost var k4 := Kept("CVV", cardDetails.cvv == "");
      if MethodMissing(selectedMethod) { missing := missing + ["Payment Method"]; }
      assert missing == k0;
      if cardDetails.name == "" { missing := missing + ["Cardholder Name"]; }
      assert missing == k0 + k1;
      if cardDetails.cardNumber == "" { missing := missing + ["Card Number"]; }
      assert missing == k0 + k1 + k2;
      if cardDetails.expiry == "" { missing := missing + ["Expiry Date"]; }
      assert missing == k0 + k1 + k2 + k3;
      if cardDetails.cvv == "" { missing := missing + ["CVV"]; }
      assert missing == k0 + k1 + k2 + k3 + k4;
      MissingFieldsUnfold(selectedMethod, cardDetails);
      if |missing| > 0 {
        effect := ShowAlert("Error", ErrorPrefix + Join(missing, "\n"));
      } else {
        effect := NavigateTo("OrderConfirmed");
      }
    }
  }

  // ---------------------------------------------------------------------
  // Lemmas

  /** The missing-field list spelled out check by check. */
  lemma MissingFieldsUnfold(selected: Option<string>, d: CardDetails)
    ensures MissingFields(selected, d) ==
              Kept("Payment Method", MethodMissing(selected)) +
              Kept("Cardholder Name", d.name == "") +
              Kept("Card Number", d.cardNumber == "") +
              Kept("Expiry Date", d.expiry == "") +
              Kept("CVV", d.cvv == "")
  {
    SelectFive(Labels, Blanks(selected, d));
  }

  /** `Select` on five elements, one test per element. */
  lemma SelectFive(xs: seq<string>, keep: seq<bool>)
    requires |xs| == |keep| == 5
    ensures Select(xs, keep) ==
              Kept(xs[0], keep[0]) + Kept(xs[1], keep[1]) + Kept(xs[2], keep[2]) +
              Kept(xs[3], keep[3]) + Kept(xs[4], keep[4])
  {
    var k0, k1, k2, k3, k4 := Kept(xs[0], keep[0]), Kept(xs[1], keep[1]), Kept(xs[2], keep[2]),
      Kept(xs[3], keep[3]), Kept(xs[4], keep[4]);
    assert Select(xs[..5], keep[..5]) == k0 + k1 + k2 + k3 + k4 by {
      assert Select(xs[..4], keep[..4]) == k0 + k1 + k2 + k3 by {
        assert Select(xs[..3], keep[..3]) == k0 + k1 + k2 by {
          assert Select(xs[..2], keep[..2]) == k0 + k1 by {
            assert Select(xs[..1], keep[..1]) == k0 by {
              assert xs[..0] == [] && keep[..0] == [];
              SelectSnoc(xs, keep, 0);
            }
            SelectSnoc(xs, keep, 1);
          }
          SelectSnoc(xs, keep, 2);
        }
        SelectSnoc(xs, keep, 3);
      }
      SelectSnoc(xs, keep, 4);
    }
    assert xs[..5] == xs && keep[..5] == keep;
  }

  /** One more check: `Select` over one more element appends that element
      when its flag is set. */
  lemma SelectSnoc(xs: seq<string>, keep: seq<bool>, j: nat)
    requires j < |xs| == |keep|
    ensures Select(xs[..j + 1], keep[..j + 1]) == Select(xs[..j], keep[..j]) + Kept(xs[j], keep[j])
  {
    assert xs[..j + 1] == xs[..j] + [xs[j]] && keep[..j + 1] == keep[..j] + [keep[j]];
    SelectAppend(xs[..j], keep[..j], [xs[j]], [keep[j]]);
    assert Select([xs[j]], [keep[j]]) == Kept(xs[j], keep[j]) + Select([], []);
  }

  /** With every flag set, `Select` keeps everything. */
  lemma {:induction false} SelectAll(xs: seq<string>, keep: seq<bool>)
    requires |xs| == |keep|
    requires forall i :: 0 <= i < |keep| ==> keep[i]
    ensures Select(xs, keep) == xs
  {
    if xs != [] {
      SelectAll(xs[1..], keep[1..]);
      assert [xs[0]] + xs[1..] == xs;
    }
  }

  /** `Select` keeps exactly the flagged elements. */
  lemma {:induction false} SelectMembers(xs: seq<string>, keep: seq<bool>)
    requires |xs| == |keep|
    ensures forall i :: 0 <= i < |xs| && keep[i] ==> xs[i] in Select(xs, keep)
    ensures forall x :: x in Select(xs, keep) ==> exists i :: 0 <= i < |xs| && keep[i] && xs[i] == x
  {
    if xs != [] {
      SelectMembers(xs[1..], keep[1..]);
      var rest := Select(xs[1..], keep[1..]);
      forall x | x in Select(xs, keep) ensures exists i :: 0 <= i < |xs| && keep[i] && xs[i] == x {
        if x in rest {
          var i :| 0 <= i < |xs| - 1 && keep[1..][i] && xs[1..][i] == x;
          assert keep[i + 1] && xs[i + 1] == x;
        } else {
          assert keep[0] && xs[0] == x;
        }
      }
      forall i | 0 <= i < |xs| && keep[i] ensures xs[i] in Select(xs, keep) {
        if i > 0 {
          assert xs[1..][i - 1] == xs[i] && keep[1..][i - 1];
        }
      }
    }
  }

  /** `Select` keeps order: it distributes over concatenation. */
  lemma {:induction false} SelectAppend(xs: seq<string>, ks: seq<bool>, ys: seq<string>, ls: seq<bool>)
    requires |xs| == |ks| && |ys| == |ls|
    ensures Select(xs + ys, ks + ls) == Select(xs, ks) + Select(ys, ls)
  {
    if xs == [] {
      assert xs + ys == ys && ks + ls == ls;
    } else {
      assert (xs + ys)[1..] == xs[1..] + ys && (ks + ls)[1..] == ks[1..] + ls;
      SelectAppend(xs[1..], ks[1..], ys, ls);
    }
  }

  /** No two inputs share a label. */
  lemma LabelsDistinct()
    ensures forall i, j :: 0 <= i < j < |Labels| ==> Labels[i] != Labels[j]
  {
    assert Labels[2][0] != Labels[3][0];
  }

  /** Every label fits on one line. */
  lemma LabelsSingleLine()
    ensures forall x :: x in Labels ==> '\n' !in x
  {
  }

  /** A label is listed exactly when its input is empty. */
  lemma MissingExactlyBlank(selected: Option<string>, d: CardDetails)
    ensures forall i :: 0 <= i < |Labels| ==>
              (Labels[i] in MissingFields(selected, d) <==> Blanks(selected, d)[i])
  {
    var b := Blanks(selected, d);
    SelectMembers(Labels, b);
    LabelsDistinct();
    forall i | 0 <= i < |Labels|
      ensures Labels[i] in MissingFields(selected, d) <==> b[i]
    {
      if Labels[i] in MissingFields(selected, d) {
        var j :| 0 <= j < |Labels| && b[j] && Labels[j] == Labels[i];
        assert j == i;
      }
    }
  }

  /** Confirming navigates if and only if every input is filled. */
  lemma NavigatesIffComplete(selected: Option<string>, d: CardDetails)
    ensures ConfirmEffect(selected, d).NavigateTo? <==>
              !MethodMissing(selected) && d.name != "" && d.cardNumber != "" && d.expiry != "" && d.cvv != ""
    ensures ConfirmEffect(selected, d).NavigateTo? ==> ConfirmEffect(selected, d).screen == "OrderConfirmed"
  {
    var b := Blanks(selected, d);
    var missing := MissingFields(selected, d);
    MissingExactlyBlank(selected, d);
    if missing != [] {
      assert missing[0] in Labels;
      var i :| 0 <= i < |Labels| && Labels[i] == missing[0];
      assert b[i];
      assert i == 0 || i == 1 || i == 2 || i == 3 || i == 4;
    } else {
      assert !b[0] && !b[1] && !b[2] && !b[3] && !b[4];
    }
  }

  /** In the initial state all five labels are missing, in order. */
  lemma InitialConfirmListsAll(selected: Option<string>, d: CardDetails)
    requires selected == None && d == EmptyCard
    ensures MissingFields(selected, d) == Labels
    ensures ConfirmEffect(selected, d) == ShowAlert("Error", ErrorPrefix + Join(Labels, "\n"))
  {
    SelectAll(Labels, Blanks(selected, d));
  }

  /** Text without a line break is one piece. */
  lemma {:induction false} SplitSingle(x: string)
    requires '\n' !in x
    ensures SplitLines(x) == [x]
  {
    if x != [] {
      SplitSingle(x[1..]);
      assert [x[0]] + x[1..] == x;
    }
  }

  /** A line break after text without one ends the first piece. */
  lemma {:induction false} SplitAfterLine(x: string, y: string)
    requires '\n' !in x
    ensures SplitLines(x + "\n" + y) == [x] + SplitLines(y)
  {
    if x == [] {
      assert x + "\n" + y == "\n" + y;
      assert ("\n" + y)[1..] == y;
    } else {
      assert (x + "\n" + y)[1..] == x[1..] + "\n" + y;
      SplitAfterLine(x[1..], y);
      assert [x[0]] + x[1..] == x;
    }
  }

  /** Joining lines without breaks and splitting the result gives them back. */
  lemma {:induction false} SplitJoin(xs: seq<string>)
    requires |xs| > 0
    requires forall x :: x in xs ==> '\n' !in x
    ensures SplitLines(Join(xs, "\n")) == xs
  {
    if |xs| == 1 {
      SplitSingle(xs[0]);
    } else {
      SplitJoin(xs[1..]);
      SplitAfterLine(xs[0], Join(xs[1..], "\n"));
      assert [xs[0]] + xs[1..] == xs;
    }
  }

  /** The error alert names exactly the missing labels: after the fixed
      prefix, its lines are the missing-field list. */
  lemma ErrorTextListsMissing(selected: Option<string>, d: CardDetails)
    requires MissingFields(selected, d) != []
    ensures ConfirmEffect(selected, d).ShowAlert?
    ensures var msg := ConfirmEffect(selected, d).message;
              |msg| >= |ErrorPrefix| && msg[..|ErrorPrefix|] == ErrorPrefix &&
              SplitLines(msg[|ErrorPrefix|..]) == MissingFields(selected, d)
  {
    var missing := MissingFields(selected, d);
    LabelsSingleLine();
    SplitJoin(missing);
    var msg := ErrorPrefix + Join(missing, "\n");
    assert msg[..|ErrorPrefix|] == ErrorPrefix && msg[|ErrorPrefix|..] == Join(missing, "\n");
  }

  /** The offered methods have distinct ids, so at most one renders as
      selected, and after selecting one exactly that one does. */
  lemma SelectionIsExclusive(selected: Option<string>, k: nat)
    requires k < |Methods|
    ensures forall i, j ::
              0 <= i < |Methods| && 0 <= j < |Methods| && IsSelected(Methods[i], selected) && IsSelected(Methods[j], selected)
              ==> i == j
    ensures forall j :: 0 <= j < |Methods| ==> (IsSelected(Methods[j], Some(Methods[k].id)) <==> j == k)
  {
  }
}
