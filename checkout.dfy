/**
 * The checkout page: a three-step form (address, payment, review), the order
 * summary arithmetic, the masked card number on the review step, and placing
 * the order, which empties the cart.
 */
module Checkout {
  import opened Seqs
  import opened CartReducer
  import opened CartTotals
  import opened CartEngine

  const FirstStep := 1
  const LastStep := 3

  /** `handleNextStep`: forward one step, except from the last. */
  function NextStep(step: int): (r: int)
    ensures FirstStep <= step <= LastStep ==> FirstStep <= r <= LastStep
    ensures step >= LastStep ==> r == step
    ensures step < LastStep ==> r == step + 1
  {
    if step < LastStep then step + 1 else step
  }

  /** `handlePrevStep`: back one step, except from the first. */
  function PrevStep(step: int): (r: int)
    ensures FirstStep <= step <= LastStep ==> FirstStep <= r <= LastStep
    ensures step <= FirstStep ==> r == step
    ensures step > FirstStep ==> r == step - 1
  {
    if step > FirstStep then step - 1 else step
  }

  /** From a step before the last, Next then Previous returns to it. */
  lemma PrevUndoesNext(step: int)
    requires FirstStep <= step < LastStep
    ensures PrevStep(NextStep(step)) == step
  {
  }

  datatype StepButton = NextButton | PreviousButton

  /** The step after pressing the buttons in order. */
  function PressAll(step: int, presses: seq<StepButton>): int
    decreases |presses|
  {
    if presses == [] then step
    else
      var s := if presses[0].NextButton? then NextStep(step) else PrevStep(step);
      PressAll(s, presses[1..])
  }

  /** Starting at step 1, no series of presses leaves the range 1 to 3. */
  lemma {:induction false} PressesStayInRange(step: int, presses: seq<StepButton>)
    requires FirstStep <= step <= LastStep
    ensures FirstStep <= PressAll(step, presses) <= LastStep
    decreases |presses|
  {
    if presses != [] {
      var s := if presses[0].NextButton? then NextStep(step) else PrevStep(step);
      PressesStayInRange(s, presses[1..]);
    }
  }

  /** The form's fields with their initial values. */
  function InitialForm(): (form: map<string, string>)
    ensures "country" in form && form["country"] == "United States"
    ensures "billingAddress" in form && form["billingAddress"] == "same"
    ensures "cardNumber" in form && form["cardNumber"] == ""
  {
    map[
      "firstName" := "", "lastName" := "", "email" := "", "phone" := "",
      "address" := "", "city" := "", "state" := "", "zipCode" := "",
      "country" := "United States",
      "cardNumber" := "", "expiryDate" := "", "cvv" := "", "cardName" := "",
      "billingAddress" := "same"]
  }

  /** `handleInputChange`: the field named by the input takes its value; nothing else changes. */
  function UpdateField(form: map<string, string>, name: string, value: string): (r: map<string, string>)
    ensures r.Keys == form.Keys + {name}
    ensures r[name] == value
    ensures forall k :: k in form && k != name ==> r[k] == form[k]
  {
    form[name := value]
  }

  const Shipping: real := 9.99
  const TaxRate: real := 0.08

  /** `getCartTotal() * 0.08`. */
  function Tax(subtotal: real): (t: real)
    ensures subtotal >= 0.0 ==> 0.0 <= t <= subtotal
  {
    subtotal * TaxRate
  }

  /** `getCartTotal() + shipping + tax`: the subtotal with 8% tax and flat shipping. */
  function OrderTotal(subtotal: real): (t: real)
    ensures t == subtotal * 1.08 + Shipping
    ensures subtotal >= 0.0 ==> t >= Shipping
  {
    subtotal + Shipping + Tax(subtotal)
  }

  /** The total grows with the subtotal. */
  lemma OrderTotalMonotone(a: real, b: real)
    requires a <= b
    ensures OrderTotal(a) <= OrderTotal(b)
  {
  }

  /** For a cart with non-negative prices, the order total is at least the shipping charge. */
  lemma CartOrderTotalAtLeastShipping(items: seq<LineItem>)
    requires forall i :: 0 <= i < |items| ==> items[i].product.price >= 0.0 && items[i].quantity >= 1
    ensures OrderTotal(CartTotal(items)) >= Shipping
  {
  }

  /** `cardNumber.slice(-4)`: the last four characters, or all of a shorter number. */
  function LastFour(cardNumber: string): (r: string)
    ensures |r| == Min(4, |cardNumber|)
    ensures r == cardNumber[|cardNumber| - |r|..]
  {
    Slice(cardNumber, -4, |cardNumber|)
  }

  /** The payment line of the review step. */
  function MaskedCard(cardNumber: string): (r: string)
    ensures |r| == 15 + Min(4, |cardNumber|)
    ensures r[..15] == "**** **** **** " && r[15..] == LastFour(cardNumber)
  {
    "**** **** **** " + LastFour(cardNumber)
  }

  class CheckoutPage {
    var currentStep: int
    var formData: map<string, string>
    var showSuccessModal: bool

    ghost predicate Valid()
      reads this
    {
      FirstStep <= currentStep <= LastStep
    }

    constructor ()
      ensures Valid()
      ensures currentStep == FirstStep && formData == InitialForm() && !showSuccessModal
    {
      currentStep := FirstStep;
      formData := InitialForm();
      showSuccessModal := false;
    }

    method HandleInputChange(name: string, value: string)
      requires Valid()
      modifies this
      ensures formData == UpdateField(old(formData), name, value)
      ensures currentStep == old(currentStep) && showSuccessModal == old(showSuccessModal)
      ensures Valid()
    {
      formData := formData[name := value];
    }

    method HandleNextStep()
      requires Valid()
      modifies this
      ensures currentStep == NextStep(old(currentStep))
      ensures formData == old(formData) && showSuccessModal == old(showSuccessModal)
      ensures Valid()
    {
      if currentStep < LastStep {
        currentStep := currentStep + 1;
      }
    }

    method HandlePrevStep()
      requires Valid()
      modifies this
      ensures currentStep == PrevStep(old(currentStep))
      ensures formData == old(formData) && showSuccessModal == old(showSuccessModal)
      ensures Valid()
    {
      if currentStep > FirstStep {
        currentStep := currentStep - 1;
      }
    }

    /** `handlePlaceOrder`: show the success message and start the three-second timer. */
    method HandlePlaceOrder()
      requires Valid()
      modifies this
      ensures showSuccessModal
      ensures currentStep == old(currentStep) && formData == old(formData)
      ensures Valid()
    {
      showSuccessModal := true;
    }

    /** The timer callback: clear the cart and hide the message. */
    method OrderTimerElapsed(cart: CartProvider)
      requires Valid() && cart.Valid()
      modifies this, cart
      ensures cart.items == [] && cart.hydrated == old(cart.hydrated)
      ensures cart.storage == if cart.hydrated then Saved([]) else old(cart.storage)
      ensures cart.Valid()
      ensures !showSuccessModal && currentStep == old(currentStep) && formData == old(formData)
      ensures Valid()
    {
      cart.ClearCart();
      showSuccessModal := false;
    }
  }
}
