/**
 * The application-layer data transfer shapes: the two upstream payloads,
 * the internal API format, and the partial form of that format which each
 * mapper produces and the aggregation service merges.
 */
module Dtos {
  import opened Wrappers
  import opened JsValues

  /**
   * The SOAP charging response after XML parsing. The wire keys are
   * namespace-qualified (`soapenv:Envelope`, `soapenv:Body`, `sms:ChargeSMS`,
   * `sms:UserID`, ...); here each becomes a named field. All six leaves are
   * strings, the charge amount included.
   */
  datatype ChargeSms = ChargeSms(
    userId: string,        // sms:UserID
    phoneNumber: string,   // sms:PhoneNumber
    messageId: string,     // sms:MessageID
    timestamp: string,     // sms:Timestamp
    chargeAmount: string,  // sms:ChargeAmount
    currency: string)      // sms:Currency
  datatype SoapBody = SoapBody(chargeSms: ChargeSms)
  datatype SoapEnvelope = SoapEnvelope(body: SoapBody)
  datatype SoapSmsResponse = SoapSmsResponse(envelope: SoapEnvelope)

  /** The REST usage response. `total_mb` and `roaming_mb` are numbers; the period bounds and network fields are strings. */
  datatype UsageFigures = UsageFigures(totalMb: Number, roamingMb: Number, country: string)
  datatype UsagePeriod = UsagePeriod(start: string, end: string)
  datatype Usage = Usage(data: UsageFigures, period: UsagePeriod)
  datatype Network = Network(kind: string, providerCode: string)  // `kind` is the `type` key
  datatype RestUsageResponse = RestUsageResponse(
    userId: string,   // user_id
    msisdn: string,
    usage: Usage,
    network: Network)

  /** UsageDataDto, which is also the shape of the internal format's `usage_data`. */
  datatype UsageDataDto = UsageDataDto(
    totalMb: Number,       // total_mb
    roamingMb: Number,     // roaming_mb
    country: string,
    networkType: string,   // network_type
    providerCode: string)  // provider_code

  /** SmsChargeDto, which is also the element type of the internal format's `sms_charges`. */
  datatype SmsChargeDto = SmsChargeDto(
    messageId: string,  // message_id
    timestamp: string,
    amount: Number,
    currency: string)

  /** The internal format's `billing_period`. */
  datatype BillingPeriodDto = BillingPeriodDto(start: string, end: string)

  /** InternalApiFormatDto: every key present; `sms_charges` is a required array. */
  datatype InternalApiFormat = InternalApiFormat(
    telgeaUserId: string,             // telgea_user_id
    msisdn: string,
    usageData: UsageDataDto,          // usage_data
    smsCharges: seq<SmsChargeDto>,    // sms_charges
    billingPeriod: BillingPeriodDto)  // billing_period

  /**
   * Partial<InternalApiFormatDto>: the same five keys, each of which may be
   * absent (`None`). A key set to `undefined` is never produced by the
   * mappers, so presence and `Some` coincide.
   */
  datatype Fragment = Fragment(
    telgeaUserId: Option<string>,
    msisdn: Option<string>,
    usageData: Option<UsageDataDto>,
    smsCharges: Option<seq<SmsChargeDto>>,
    billingPeriod: Option<BillingPeriodDto>)

  /** The object literal `{}`: no key present. */
  const EmptyFragment := Fragment(None, None, None, None, None)
}
