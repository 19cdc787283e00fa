/** The card form (components/checkout/StripePaymentForm.tsx): after the processor's opaque
    confirmation call, which callback fires and what happens to the form's `loading` flag. */
module StripePaymentForm {
  import opened Wrappers

  /** The processor's payment intent, as far as checkout reads it. */
  datatype PaymentIntent = PaymentIntent(id: string, status: string, receiptEmail: Option<string>)

  /** What `confirmCardPayment` resolves to: an error (with or without a message), or an intent. */
  datatype Confirmation = Declined(message: Option<string>) | Confirmed(intent: PaymentIntent)

  /** Which of the parent's callbacks a submission fires. */
  datatype Callback = NoCallback | SuccessCallback(intent: PaymentIntent) | ErrorCallback(message: string)

  const PaymentFailed: string := "Payment failed"
  const Succeeded: string := "succeeded"

  /** The branch after confirmation: `onError` on an error, `onSuccess` on a succeeded intent,
      nothing otherwise. */
  function Dispatch(c: Confirmation): (cb: Callback)
    ensures cb.ErrorCallback? <==> c.Declined?
    ensures cb.ErrorCallback? ==> cb.message == MessageOr(c.message, PaymentFailed)
    ensures cb.SuccessCallback? <==> c.Confirmed? && c.intent.status == Succeeded
    ensures cb.SuccessCallback? ==> cb.intent == c.intent
  {
    match c
    case Declined(msg) => ErrorCallback(MessageOr(msg, PaymentFailed))
    case Confirmed(intent) => if intent.status == Succeeded then SuccessCallback(intent) else NoCallback
  }

  /** The submit button's `disabled` rule. */
  predicate SubmitDisabled(stripeLoaded: bool, loading: bool)
  {
    !stripeLoaded || loading
  }

  class PaymentForm {
    var loading: bool

    constructor ()
      ensures !loading
    {
      loading := false;
    }

    /** `setLoading(true)` before the confirmation call. */
    method StartConfirmation()
      modifies this
      ensures loading
    {
      loading := true;
    }

    /** After confirmation: only an error turns `loading` back off. */
    method FinishConfirmation(c: Confirmation) returns (cb: Callback)
      requires loading
      modifies this
      ensures cb == Dispatch(c)
      ensures loading == !c.Declined?
    {
      cb := Dispatch(c);
      if c.Declined? {
        loading := false;
      }
    }

    /** `handleSubmit`: without the processor or its elements nothing happens at all. */
    method HandleSubmit(stripeLoaded: bool, elementsLoaded: bool, c: Confirmation)
      returns (cb: Callback)
      modifies this
      ensures !(stripeLoaded && elementsLoaded) ==> cb == NoCallback && loading == old(loading)
      ensures stripeLoaded && elementsLoaded ==> cb == Dispatch(c) && loading == !c.Declined?
      ensures stripeLoaded && elementsLoaded ==> (SubmitDisabled(stripeLoaded, loading) <==> !c.Declined?)
    {
      if !(stripeLoaded && elementsLoaded) {
        return NoCallback;
      }
      StartConfirmation();
      cb := FinishConfirmation(c);
    }
  }
}
