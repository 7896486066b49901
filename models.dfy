/** The two database records of the backend: a device's token balance and a payment
    transaction, with their column defaults. A table whose key column is unique is
    modelled as a map from that key to the record; `KeyedBy...` says every record
    is stored under its own key. */
module Models {
  import opened Common

  /** `settings.free_uses_per_device`. */
  const FreeUsesPerDevice: int := 3

  const StatusPending: string := "pending"
  const StatusCompleted: string := "completed"

  /** A row of `device_tokens`. The surrogate `id` and the timestamps are not modelled. */
  datatype DeviceToken = DeviceToken(deviceId: string, freeUsesRemaining: int, paidTokens: int)

  /** A row of `payment_transactions`; `completedAt` is the nullable completion time. */
  datatype PaymentTransaction = PaymentTransaction(
    checkoutId: string,
    deviceId: string,
    productSku: string,
    tokensGranted: int,
    amountCents: int,
    currency: string,
    status: string,
    completedAt: Option<int>)

  /** A device row built with the column defaults. */
  function NewDeviceToken(deviceId: string): (d: DeviceToken)
    ensures d.deviceId == deviceId
    ensures d.freeUsesRemaining == 3 && d.paidTokens == 0
  {
    DeviceToken(deviceId, FreeUsesPerDevice, 0)
  }

  /** A transaction row built with the column defaults: USD, pending, not completed. */
  function NewTransaction(checkoutId: string, deviceId: string, productSku: string,
                          tokensGranted: int, amountCents: int): (t: PaymentTransaction)
    ensures t.checkoutId == checkoutId && t.deviceId == deviceId && t.productSku == productSku
    ensures t.tokensGranted == tokensGranted && t.amountCents == amountCents
    ensures t.currency == "USD" && t.status == "pending" && t.completedAt == None
  {
    PaymentTransaction(checkoutId, deviceId, productSku, tokensGranted, amountCents, "USD", StatusPending, None)
  }

  /** `device_id` is unique: each device row is stored under its own id. */
  ghost predicate DevicesKeyed(m: map<string, DeviceToken>) {
    forall k :: k in m ==> m[k].deviceId == k
  }

  /** `checkout_id` is unique: each transaction is stored under its own checkout id. */
  ghost predicate TransactionsKeyed(m: map<string, PaymentTransaction>) {
    forall k :: k in m ==> m[k].checkoutId == k
  }

  /** A completion time is present only on a completed transaction. */
  ghost predicate CompletionStamped(m: map<string, PaymentTransaction>) {
    forall k :: k in m ==> (m[k].completedAt.Some? ==> m[k].status == StatusCompleted)
  }

  /** Under the uniqueness constraint, a lookup by checkout id finds at most one row. */
  lemma {:induction false} TransactionLookupUnique(m: map<string, PaymentTransaction>, k1: string, k2: string)
    requires TransactionsKeyed(m)
    requires k1 in m && k2 in m && m[k1].checkoutId == m[k2].checkoutId
    ensures k1 == k2
  {
    assert m[k1].checkoutId == k1;
    assert m[k2].checkoutId == k2;
  }
}
