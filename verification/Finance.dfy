/**
 The immutable finance records the service keeps locally.  Amounts are integer
 minor units; a missing optional string is "".
 */
module Finance {

  datatype Option<+T> = None | Some(value: T)

  datatype Invoice = Invoice(
    id: string, account: string, subscription: string, provider: string,
    providerInvoiceID: string, amount: int, currency: string)

  datatype Payment = Payment(
    id: string, invoiceID: string, account: string, provider: string,
    providerPaymentID: string, amount: int, currency: string)

  /** A settled refund, keyed by the operation key or by "stripe-refund:" + id. */
  datatype RefundFact = RefundFact(
    key: string, paymentID: string, provider: string,
    providerRefundID: string, amount: int, currency: string)

  /** A local subscription row; `meta` times live where they are used. */
  datatype Subscription = Subscription(
    id: string, externalID: string, provider: string, kind: string,
    planID: string, status: string)

  datatype OpStatus = Pending | InProgress | Succeeded | Failed | ReconcileNeeded

  function FindPaymentByProvider(payments: seq<Payment>, provider: string, providerPaymentID: string): (r: Option<Payment>)
    ensures r.Some? ==> r.value in payments && r.value.provider == provider
                        && r.value.providerPaymentID == providerPaymentID
    ensures r.None? ==> forall p :: p in payments ==> p.provider != provider || p.providerPaymentID != providerPaymentID
  {
    if payments == [] then None
    else if payments[0].provider == provider && payments[0].providerPaymentID == providerPaymentID
    then Some(payments[0])
    else FindPaymentByProvider(payments[1..], provider, providerPaymentID)
  }
}
