/**
 * The domain model: the value objects User, BillingPeriod, SmsCharge and
 * UsageData, and the aggregate root NormalizedUserData whose charge list
 * grows in place.
 */
module Domain {
  import opened Wrappers
  import opened JsValues
  import opened Dtos

  datatype User = User(telgeaUserId: string, msisdn: string)

  /**
   * A JavaScript `Date` built by `new Date(source)`. Which instant it
   * denotes, and whether the text is a valid date at all, is not interpreted.
   */
  datatype Date = DateOf(source: string)

  /**
   * `Date.prototype.toISOString`, which the caller supplies: `None` when the
   * Date is invalid, where JavaScript throws a RangeError.
   */
  type IsoRenderer = Date -> Option<string>

  /** The message of the RangeError `toISOString` throws on an invalid Date. */
  const InvalidTimeValue := "Invalid time value"

  datatype BillingPeriod = BillingPeriod(start: Date, end: Date) {

    static function FromIsoStrings(start: string, end: string): (p: BillingPeriod)
      ensures p.start.source == start && p.end.source == end
    {
      BillingPeriod(DateOf(start), DateOf(end))
    }

    function ToPlainObject(toIso: IsoRenderer): (r: Result<BillingPeriodDto, string>)
      ensures r.Ok? <==> toIso(start).Some? && toIso(end).Some?
      ensures r.Ok? ==> Some(r.value.start) == toIso(start) && Some(r.value.end) == toIso(end)
      ensures r.Err? ==> r.error == InvalidTimeValue
    {
      match (toIso(start), toIso(end))
      case (Some(s), Some(e)) => Ok(BillingPeriodDto(s, e))
      case _ => Err(InvalidTimeValue)
    }
  }

  datatype SmsCharge = SmsCharge(messageId: string, timestamp: Date, amount: Number, currency: string) {

    static function FromRawData(messageId: string, timestamp: string, amount: Number, currency: string): (c: SmsCharge)
      ensures c.messageId == messageId && c.amount == amount && c.currency == currency
      ensures c.timestamp.source == timestamp
    {
      SmsCharge(messageId, DateOf(timestamp), amount, currency)
    }

    function ToPlainObject(toIso: IsoRenderer): (r: Result<SmsChargeDto, string>)
      ensures r.Ok? <==> toIso(timestamp).Some?
      ensures r.Ok? ==> r.value.messageId == messageId && r.value.amount == amount && r.value.currency == currency
      ensures r.Ok? ==> Some(r.value.timestamp) == toIso(timestamp)
      ensures r.Err? ==> r.error == InvalidTimeValue
    {
      match toIso(timestamp)
      case Some(t) => Ok(SmsChargeDto(messageId, t, amount, currency))
      case None => Err(InvalidTimeValue)
    }
  }

  datatype UsageData = UsageData(totalMb: Number, roamingMb: Number, country: string, networkType: string, providerCode: string) {

    function ToPlainObject(): (d: UsageDataDto)
      ensures d.totalMb == totalMb && d.roamingMb == roamingMb && d.country == country
      ensures d.networkType == networkType && d.providerCode == providerCode
    {
      UsageDataDto(totalMb, roamingMb, country, networkType, providerCode)
    }
  }

  /** Rendering a charge keeps its identifier, amount and currency; reading the plain object back as raw data restores them. */
  lemma SmsChargePlainObjectRoundTrip(c: SmsCharge, toIso: IsoRenderer)
    ensures c.ToPlainObject(toIso).Ok? <==> toIso(c.timestamp).Some?
    ensures c.ToPlainObject(toIso).Ok? ==>
      var d := c.ToPlainObject(toIso).value;
      && d.timestamp == toIso(c.timestamp).value
      && SmsCharge.FromRawData(d.messageId, d.timestamp, d.amount, d.currency)
         == c.(timestamp := DateOf(toIso(c.timestamp).value))
  {
  }

  /**
   * A billing period renders when both Dates do; reading the rendered strings
   * back gives the period of the rendered text, and a period built from
   * strings already in `toISOString` form renders to those same strings.
   */
  lemma BillingPeriodPlainObjectRoundTrip(start: string, end: string, toIso: IsoRenderer)
    ensures var p := BillingPeriod.FromIsoStrings(start, end);
      && (p.ToPlainObject(toIso).Ok? <==> toIso(DateOf(start)).Some? && toIso(DateOf(end)).Some?)
      && (p.ToPlainObject(toIso).Ok? ==>
            var d := p.ToPlainObject(toIso).value;
            BillingPeriod.FromIsoStrings(d.start, d.end)
              == BillingPeriod(DateOf(toIso(DateOf(start)).value), DateOf(toIso(DateOf(end)).value)))
    ensures toIso(DateOf(start)) == Some(start) && toIso(DateOf(end)) == Some(end) ==>
      BillingPeriod.FromIsoStrings(start, end).ToPlainObject(toIso) == Ok(BillingPeriodDto(start, end))
  {
  }

  /** `toPlainObject` renames each camelCase field to its snake_case key and loses nothing: the fields can be read back. */
  lemma UsageDataPlainObjectRoundTrip(u: UsageData)
    ensures var d := u.ToPlainObject();
      UsageData(d.totalMb, d.roamingMb, d.country, d.networkType, d.providerCode) == u
  {
  }

  /**
   * The charges rendered one by one, in order; the first charge whose
   * timestamp does not render makes the whole `map` throw.
   */
  function PlainCharges(charges: seq<SmsCharge>, toIso: IsoRenderer): (r: Result<seq<SmsChargeDto>, string>)
    ensures r.Ok? <==> forall i :: 0 <= i < |charges| ==> toIso(charges[i].timestamp).Some?
    ensures r.Ok? ==> |r.value| == |charges|
    ensures r.Ok? ==> forall i :: 0 <= i < |charges| ==> charges[i].ToPlainObject(toIso) == Ok(r.value[i])
    ensures r.Err? ==> r.error == InvalidTimeValue
  {
    if charges == [] then Ok([])
    else
      match (charges[0].ToPlainObject(toIso), PlainCharges(charges[1..], toIso))
      case (Ok(d), Ok(rest)) => Ok([d] + rest)
      case (Err(e), _) => Err(e)
      case (_, Err(e)) => Err(e)
  }

  /** Aggregate root: one user's usage, billing period and SMS charges. */
  class NormalizedUserData {
    const user: User
    const usageData: UsageData
    const billingPeriod: BillingPeriod
    /** The private `_smsCharges` array, in arrival order. */
    var smsChargeList: seq<SmsCharge>

    constructor (user: User, usageData: UsageData, billingPeriod: BillingPeriod)
      ensures this.user == user && this.usageData == usageData && this.billingPeriod == billingPeriod
      ensures smsChargeList == []
    {
      this.user := user;
      this.usageData := usageData;
      this.billingPeriod := billingPeriod;
      smsChargeList := [];
    }

    /** `push` of one charge. */
    method AddSmsCharge(smsCharge: SmsCharge)
      modifies this
      ensures smsChargeList == old(smsChargeList) + [smsCharge]
    {
      smsChargeList := smsChargeList + [smsCharge];
    }

    /** `push(...smsCharges)`: all of them, in the given order. */
    method AddSmsCharges(smsCharges: seq<SmsCharge>)
      modifies this
      ensures smsChargeList == old(smsChargeList) + smsCharges
    {
      smsChargeList := smsChargeList + smsCharges;
    }

    /** The `smsCharges` getter: a new array holding the charges, so writes to it cannot reach this object. */
    method SmsCharges() returns (copy: array<SmsCharge>)
      ensures fresh(copy)
      ensures copy[..] == smsChargeList
    {
      var charges := smsChargeList;
      copy := new SmsCharge[|charges|](i requires 0 <= i < |charges| => charges[i]);
    }

    /**
     * `toInternalApiFormat`: identity from `user`, the plain usage data,
     * every charge rendered in order, and the rendered billing period. It
     * fails only where a Date does not render; nothing is validated.
     */
    function ToInternalApiFormat(toIso: IsoRenderer): (r: Result<InternalApiFormat, string>)
      reads this
      ensures r.Ok? <==>
        && (forall i :: 0 <= i < |smsChargeList| ==> toIso(smsChargeList[i].timestamp).Some?)
        && toIso(billingPeriod.start).Some? && toIso(billingPeriod.end).Some?
      ensures r.Ok? ==>
        && r.value.telgeaUserId == user.telgeaUserId
        && r.value.msisdn == user.msisdn
        && r.value.usageData == usageData.ToPlainObject()
        && |r.value.smsCharges| == |smsChargeList|
        && (forall i :: 0 <= i < |smsChargeList| ==> smsChargeList[i].ToPlainObject(toIso) == Ok(r.value.smsCharges[i]))
        && billingPeriod.ToPlainObject(toIso) == Ok(r.value.billingPeriod)
      ensures r.Err? ==> r.error == InvalidTimeValue
    {
      match (PlainCharges(smsChargeList, toIso), billingPeriod.ToPlainObject(toIso))
      case (Ok(charges), Ok(period)) =>
        Ok(InternalApiFormat(user.telgeaUserId, user.msisdn, usageData.ToPlainObject(), charges, period))
      case (Err(e), _) => Err(e)
      case (_, Err(e)) => Err(e)
    }
  }
}
