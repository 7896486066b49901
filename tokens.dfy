/** The per-device token ledger of the backend (`services/tokens.py`): every device
    has a row of free uses and paid tokens, created lazily with the defaults; one
    use spends a free use before a paid token; a purchase credits paid tokens.

    The database table is the map `Ledger.devices`, keyed by device id. The pure
    functions below say what one operation does to one row; the methods of
    `Ledger` apply them to the map in place. */
module Tokens {
  import opened Common
  import opened Models
  import Text

  const NoTokensMessage: string := "No tokens available. Please purchase more."

  /** The dictionary returned by `get_token_status`. */
  datatype TokenStatus = TokenStatus(deviceId: string, freeUsesRemaining: int, paidTokens: int, totalAvailable: int)

  /** The outcome of one `check_and_use_token`: the `(success, message)` pair and the row afterwards. */
  datatype Consumption = Consumption(ok: bool, message: string, record: DeviceToken)

  /** Uses still available on a row. */
  function Total(d: DeviceToken): int {
    d.freeUsesRemaining + d.paidTokens
  }

  predicate NonNegative(d: DeviceToken) {
    d.freeUsesRemaining >= 0 && d.paidTokens >= 0
  }

  /** The row `get_or_create_device` yields: the stored one, or a fresh one with the defaults. */
  function Lookup(m: map<string, DeviceToken>, id: string): (d: DeviceToken)
    ensures id in m ==> d == m[id]
    ensures id !in m ==> d == NewDeviceToken(id)
  {
    if id in m then m[id] else NewDeviceToken(id)
  }

  /** The table after `get_or_create_device`: unchanged if the row exists, else with the new row added. */
  function Registered(m: map<string, DeviceToken>, id: string): (m': map<string, DeviceToken>)
    ensures id in m'
    ensures m'.Keys == m.Keys + {id}
    ensures m' == m[id := Lookup(m, id)]
  {
    if id in m then m else m[id := NewDeviceToken(id)]
  }

  function FreeMessage(left: nat): string {
    "Free use consumed. " + Text.NatToString(left) + " remaining."
  }

  function PaidMessage(left: nat): string {
    "Paid token consumed. " + Text.NatToString(left) + " remaining."
  }

  /** One `check_and_use_token` on a row: a free use if any is left, otherwise a paid
      token if any is left, otherwise a refusal that changes nothing. */
  function Consume(d: DeviceToken): (r: Consumption)
    ensures r.ok <==> d.freeUsesRemaining > 0 || d.paidTokens > 0
    ensures r.record.deviceId == d.deviceId
    // a free use is spent whenever one is left, and paid tokens are then untouched
    ensures d.freeUsesRemaining > 0 ==>
      r.record.freeUsesRemaining == d.freeUsesRemaining - 1 && r.record.paidTokens == d.paidTokens
    // paid tokens are touched only when no free use is left
    ensures d.freeUsesRemaining <= 0 ==> r.record.freeUsesRemaining == d.freeUsesRemaining
    ensures r.ok ==> Total(r.record) == Total(d) - 1
    ensures !r.ok ==> r.record == d && r.message == NoTokensMessage
    // a counter is never taken below zero
    ensures NonNegative(d) ==> NonNegative(r.record)
    ensures r.record.freeUsesRemaining >= 0 || r.record.freeUsesRemaining == d.freeUsesRemaining
    ensures r.record.paidTokens >= 0 || r.record.paidTokens == d.paidTokens
    // the message reports the new value of the counter that was spent
    ensures r.ok && d.freeUsesRemaining > 0 ==> r.message == FreeMessage(r.record.freeUsesRemaining)
    ensures r.ok && d.freeUsesRemaining <= 0 ==> r.message == PaidMessage(r.record.paidTokens)
  {
    if d.freeUsesRemaining > 0 then
      var left := d.freeUsesRemaining - 1;
      Consumption(true, FreeMessage(left), d.(freeUsesRemaining := left))
    else if d.paidTokens > 0 then
      var left := d.paidTokens - 1;
      Consumption(true, PaidMessage(left), d.(paidTokens := left))
    else
      Consumption(false, NoTokensMessage, d)
  }

  /** `add_tokens` on a row: paid tokens go up by `amount`, free uses stay. */
  function Credit(d: DeviceToken, amount: int): (r: DeviceToken)
    ensures r.deviceId == d.deviceId && r.freeUsesRemaining == d.freeUsesRemaining
    ensures Total(r) == Total(d) + amount
    ensures amount >= 0 && NonNegative(d) ==> NonNegative(r)
  {
    d.(paidTokens := d.paidTokens + amount)
  }

  /** The status dictionary of a row. */
  function StatusOf(d: DeviceToken): (s: TokenStatus)
    ensures s.totalAvailable == s.freeUsesRemaining + s.paidTokens
    ensures s.deviceId == d.deviceId && s.totalAvailable == Total(d)
  {
    TokenStatus(d.deviceId, d.freeUsesRemaining, d.paidTokens, d.freeUsesRemaining + d.paidTokens)
  }

  /** The row after `k` calls of `check_and_use_token` in a row. */
  function ConsumeTimes(d: DeviceToken, k: nat): DeviceToken
    decreases k
  {
    if k == 0 then d else ConsumeTimes(Consume(d).record, k - 1)
  }

  /** Repeated use drains a row down to zero and no further: after `k` uses, the
      balance is the old balance less `k`, but never below zero. */
  lemma {:induction false} ConsumeTimesTotal(d: DeviceToken, k: nat)
    requires NonNegative(d)
    ensures NonNegative(ConsumeTimes(d, k))
    ensures Total(ConsumeTimes(d, k)) == if k <= Total(d) then Total(d) - k else 0
    decreases k
  {
    if k > 0 {
      var c := Consume(d);
      ConsumeTimesTotal(c.record, k - 1);
    }
  }

  /** Free uses go first: as long as `k` does not exceed the free uses, the paid
      tokens are untouched. */
  lemma {:induction false} FreeUsesSpentFirst(d: DeviceToken, k: nat)
    requires k <= d.freeUsesRemaining
    ensures ConsumeTimes(d, k).paidTokens == d.paidTokens
    ensures ConsumeTimes(d, k).freeUsesRemaining == d.freeUsesRemaining - k
    decreases k
  {
    if k > 0 {
      FreeUsesSpentFirst(Consume(d).record, k - 1);
    }
  }

  /** A row whose balance is exhausted refuses every further use and stays as it is. */
  lemma RefusalIsStable(d: DeviceToken)
    requires NonNegative(d) && Total(d) == 0
    ensures !Consume(d).ok && Consume(d).record == d
  {
  }

  /** Successive credits accumulate. */
  lemma CreditsAccumulate(d: DeviceToken, a: int, b: int)
    ensures Credit(Credit(d, a), b) == Credit(d, a + b)
  {
  }

  /** The ledger: the `device_tokens` table, updated in place. */
  class Ledger {
    var devices: map<string, DeviceToken>

    ghost predicate Valid()
      reads this
    {
      DevicesKeyed(devices)
    }

    /** Every stored counter is non-negative. */
    ghost predicate AllNonNegative()
      reads this
    {
      forall k :: k in devices ==> NonNegative(devices[k])
    }

    constructor ()
      ensures Valid() && AllNonNegative() && devices == map[]
    {
      devices := map[];
    }

    /** `get_or_create_device`: returns the stored row unchanged, or stores and
        returns a new row with 3 free uses and no paid tokens. */
    method GetOrCreateDevice(id: string) returns (d: DeviceToken)
      requires Valid()
      modifies this
      ensures Valid()
      ensures old(AllNonNegative()) ==> AllNonNegative()
      ensures id in old(devices) ==> d == old(devices)[id] && devices == old(devices)
      ensures id !in old(devices) ==> d == NewDeviceToken(id) && devices == old(devices)[id := d]
      ensures d == Lookup(old(devices), id) && devices == Registered(old(devices), id)
    {
      if id in devices {
        d := devices[id];
      } else {
        d := NewDeviceToken(id);
        devices := devices[id := d];
      }
    }

    /** `check_and_use_token`: applies `Consume` to the device's row; every other row is untouched. */
    method CheckAndUseToken(id: string) returns (ok: bool, message: string)
      requires Valid()
      modifies this
      ensures Valid()
      ensures old(AllNonNegative()) ==> AllNonNegative()
      ensures var c := Consume(Lookup(old(devices), id));
        ok == c.ok && message == c.message && devices == old(devices)[id := c.record]
    {
      var device := GetOrCreateDevice(id);
      if device.freeUsesRemaining > 0 {
        device := device.(freeUsesRemaining := device.freeUsesRemaining - 1);
        devices := devices[id := device];
        return true, FreeMessage(device.freeUsesRemaining);
      }
      if device.paidTokens > 0 {
        device := device.(paidTokens := device.paidTokens - 1);
        devices := devices[id := device];
        return true, PaidMessage(device.paidTokens);
      }
      return false, NoTokensMessage;
    }

    /** `get_token_status`: the row's counters and their sum (creating the row if needed). */
    method GetTokenStatus(id: string) returns (s: TokenStatus)
      requires Valid()
      modifies this
      ensures Valid()
      ensures old(AllNonNegative()) ==> AllNonNegative()
      ensures s == StatusOf(Lookup(old(devices), id)) && s.deviceId == id
      ensures devices == Registered(old(devices), id)
    {
      var device := GetOrCreateDevice(id);
      s := TokenStatus(id, device.freeUsesRemaining, device.paidTokens,
                       device.freeUsesRemaining + device.paidTokens);
    }

    /** `add_tokens`: credits `amount` paid tokens to the device's row and returns it. */
    method AddTokens(id: string, amount: int) returns (d: DeviceToken)
      requires Valid()
      modifies this
      ensures Valid()
      ensures old(AllNonNegative()) && amount >= 0 ==> AllNonNegative()
      ensures d == Credit(Lookup(old(devices), id), amount) && devices == old(devices)[id := d]
    {
      var device := GetOrCreateDevice(id);
      d := device.(paidTokens := device.paidTokens + amount);
      devices := devices[id := d];
    }
  }

  /** The scenarios of the service tests, on one row: a new device has three free
      uses and reports "2 remaining" after the first, the fourth use is refused, and
      after buying five tokens the next use spends a paid one and reports "4 remaining". */
  lemma ServiceTestScenario(id: string)
    ensures var d0 := NewDeviceToken(id);
      && StatusOf(d0).totalAvailable == 3
      && Consume(d0).ok && Consume(d0).message == FreeMessage(2)
      && !Consume(ConsumeTimes(d0, 3)).ok
      && Consume(Credit(ConsumeTimes(d0, 3), 5)).message == PaidMessage(4)
  {
    var d0 := NewDeviceToken(id);
    FreeUsesSpentFirst(d0, 3);
  }
}
