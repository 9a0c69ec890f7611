/**
 * The three use cases: fetch from one or both upstream clients, map, merge
 * where there are two fragments, and rethrow any failure with a fixed
 * prefix. The clients are parameters: a function from the user id to the
 * payload or to what the client threw.
 */
module UseCases {
  import opened Wrappers
  import opened JsValues
  import opened Dtos
  import SoapMapper
  import RestMapper
  import opened Aggregation

  /** What a rejected promise or a `throw` carries: an `Error` with its message, or some other value. */
  datatype Thrown = Error(message: string) | NonError

  /** `error instanceof Error ? error.message : "Unknown error"`. */
  function Describe(t: Thrown): (message: string)
    ensures t.Error? ==> message == t.message
    ensures t.NonError? ==> message == "Unknown error"
  {
    match t
    case Error(m) => m
    case NonError => "Unknown error"
  }

  /** `fetchSmsChargeData(userId)` of the SOAP client, resolved or rejected. */
  type SoapClient = string -> Result<SoapSmsResponse, Thrown>
  /** `fetchUsageData(userId)` of the REST client, resolved or rejected. */
  type RestClient = string -> Result<RestUsageResponse, Thrown>

  const AggregatedPrefix := "Failed to get aggregated user data: "
  const UsagePrefix := "Failed to get normalized usage data: "
  const SmsPrefix := "Failed to get normalized SMS data: "

  /**
   * GetAggregatedUserDataUseCase.execute: both clients are asked for the same
   * user; if either rejects, nothing is merged; otherwise the SOAP fragment
   * and then the REST fragment are merged. Any failure is rethrown with the
   * aggregated prefix.
   */
  function GetAggregatedUserData(userId: string, soapClient: SoapClient, restClient: RestClient): (r: Result<InternalApiFormat, string>)
    ensures soapClient(userId).Err? || restClient(userId).Err? ==> r.Err?
    ensures soapClient(userId).Err? && restClient(userId).Ok? ==>
      r == Err(AggregatedPrefix + Describe(soapClient(userId).error))
    ensures soapClient(userId).Ok? && restClient(userId).Err? ==>
      r == Err(AggregatedPrefix + Describe(restClient(userId).error))
    ensures soapClient(userId).Err? && restClient(userId).Err? ==>
      r.error == AggregatedPrefix + Describe(soapClient(userId).error)
      || r.error == AggregatedPrefix + Describe(restClient(userId).error)
    ensures soapClient(userId).Ok? && restClient(userId).Ok? ==>
      var merged := Merge([
        SoapMapper.MapToPartialInternalFormat(soapClient(userId).value),
        RestMapper.MapToPartialInternalFormat(restClient(userId).value)]);
      r == if merged.Ok? then merged else Err(AggregatedPrefix + merged.error)
  {
    match (soapClient(userId), restClient(userId))
    case (Err(e), _) => Err(AggregatedPrefix + Describe(e))
    case (_, Err(e)) => Err(AggregatedPrefix + Describe(e))
    case (Ok(smsResponse), Ok(usageResponse)) =>
      var normalizedSmsData := SoapMapper.MapToPartialInternalFormat(smsResponse);
      var normalizedUsageData := RestMapper.MapToPartialInternalFormat(usageResponse);
      match Merge([normalizedSmsData, normalizedUsageData])
      case Ok(aggregatedData) => Ok(aggregatedData)
      case Err(m) => Err(AggregatedPrefix + Describe(Error(m)))
  }

  /** Every truthiness check of the validation, read off the REST payload alone. */
  predicate RestPayloadComplete(usage: RestUsageResponse) {
    && StringTruthy(usage.userId) && StringTruthy(usage.msisdn)
    && NumberTruthy(usage.usage.data.totalMb) && NumberTruthy(usage.usage.data.roamingMb)
    && StringTruthy(usage.usage.data.country)
    && StringTruthy(usage.network.kind) && StringTruthy(usage.network.providerCode)
    && StringTruthy(usage.usage.period.start) && StringTruthy(usage.usage.period.end)
  }

  /**
   * The merge of [SOAP fragment, REST fragment]: the REST fragment carries
   * every key but `sms_charges`, so it supplies identity, usage and period,
   * while `sms_charges` is the SOAP fragment's one-element list.
   */
  lemma SoapThenRestMerge(sms: SoapSmsResponse, usage: RestUsageResponse)
    ensures var soapFragment := SoapMapper.MapToPartialInternalFormat(sms);
      var restFragment := RestMapper.MapToPartialInternalFormat(usage);
      WithDefaultSmsCharges(MergeFold([soapFragment, restFragment]))
        == restFragment.(smsCharges := soapFragment.smsCharges)
  {
  }

  /**
   * The aggregated call succeeds exactly when both fetches succeed and the
   * REST payload passes every truthiness check; the SOAP identity plays no
   * part, since REST's comes later and wins. A successful result takes
   * identity, usage and period from REST and its single charge from SOAP.
   */
  lemma AggregatedResult(userId: string, soapClient: SoapClient, restClient: RestClient)
    ensures GetAggregatedUserData(userId, soapClient, restClient).Ok? <==>
      soapClient(userId).Ok? && restClient(userId).Ok? && RestPayloadComplete(restClient(userId).value)
    ensures var r := GetAggregatedUserData(userId, soapClient, restClient);
      r.Ok? ==>
        var sms := SoapMapper.ChargeRecord(soapClient(userId).value);
        var usage := restClient(userId).value;
        && r.value.telgeaUserId == usage.userId
        && r.value.msisdn == usage.msisdn
        && Some(r.value.usageData) == RestMapper.MapToPartialInternalFormat(usage).usageData
        && r.value.billingPeriod == BillingPeriodDto(usage.usage.period.start, usage.usage.period.end)
        && r.value.smsCharges == [SmsChargeDto(sms.messageId, sms.timestamp, ParseFloat(sms.chargeAmount), sms.currency)]
  {
    if soapClient(userId).Ok? && restClient(userId).Ok? {
      var sms := soapClient(userId).value;
      var usage := restClient(userId).value;
      SoapThenRestMerge(sms, usage);
      var merged := RestMapper.MapToPartialInternalFormat(usage).(smsCharges := SoapMapper.MapToPartialInternalFormat(sms).smsCharges);
      ValidateOkIffAllChecksPass(merged);
      if RestPayloadComplete(usage) {
        assert forall i :: 0 <= i < CheckCount ==> CheckPasses(merged, i);
      }
    }
  }

  /**
   * GetNormalizedUsageDataUseCase.execute: the REST client is asked for the
   * user and its payload is mapped, with neither merge nor validation, so
   * the result carries no `sms_charges` key.
   */
  function GetNormalizedUsageData(userId: string, restClient: RestClient): (r: Result<Fragment, string>)
    ensures r.Ok? <==> restClient(userId).Ok?
    ensures r.Ok? ==> r.value == RestMapper.MapToPartialInternalFormat(restClient(userId).value)
    ensures r.Ok? ==> r.value.smsCharges.None?
    ensures r.Err? ==> r.error == UsagePrefix + Describe(restClient(userId).error)
  {
    match restClient(userId)
    case Ok(usageResponse) => Ok(RestMapper.MapToPartialInternalFormat(usageResponse))
    case Err(e) => Err(UsagePrefix + Describe(e))
  }

  /**
   * GetNormalizedSmsDataUseCase.execute: the SOAP client is asked for the
   * user and its payload is mapped, with neither merge nor validation: one
   * charge and no `usage_data` or `billing_period`.
   */
  function GetNormalizedSmsData(userId: string, soapClient: SoapClient): (r: Result<Fragment, string>)
    ensures r.Ok? <==> soapClient(userId).Ok?
    ensures r.Ok? ==> r.value == SoapMapper.MapToPartialInternalFormat(soapClient(userId).value)
    ensures r.Ok? ==> r.value.smsCharges.Some? && |r.value.smsCharges.value| == 1
    ensures r.Ok? ==> r.value.usageData.None? && r.value.billingPeriod.None?
    ensures r.Err? ==> r.error == SmsPrefix + Describe(soapClient(userId).error)
  {
    match soapClient(userId)
    case Ok(smsResponse) => Ok(SoapMapper.MapToPartialInternalFormat(smsResponse))
    case Err(e) => Err(SmsPrefix + Describe(e))
  }
}
