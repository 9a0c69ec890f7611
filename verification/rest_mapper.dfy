/**
 * RestToInternalMapper: the REST usage response to domain objects and to a
 * partial internal format.
 */
module RestMapper {
  import opened Wrappers
  import opened JsValues
  import opened Dtos
  import opened Domain

  function MapResponseToUsageData(restResponse: RestUsageResponse): (u: UsageData)
    ensures u.totalMb == restResponse.usage.data.totalMb
    ensures u.roamingMb == restResponse.usage.data.roamingMb
    ensures u.country == restResponse.usage.data.country
    ensures u.networkType == restResponse.network.kind
    ensures u.providerCode == restResponse.network.providerCode
  {
    UsageData(
      restResponse.usage.data.totalMb,
      restResponse.usage.data.roamingMb,
      restResponse.usage.data.country,
      restResponse.network.kind,
      restResponse.network.providerCode)
  }

  function ExtractBillingPeriodFromResponse(restResponse: RestUsageResponse): (p: BillingPeriod)
    ensures p.start == DateOf(restResponse.usage.period.start)
    ensures p.end == DateOf(restResponse.usage.period.end)
  {
    BillingPeriod.FromIsoStrings(restResponse.usage.period.start, restResponse.usage.period.end)
  }

  function ExtractUserFromResponse(restResponse: RestUsageResponse): (u: User)
    ensures u.telgeaUserId == restResponse.userId && u.msisdn == restResponse.msisdn
  {
    User(restResponse.userId, restResponse.msisdn)
  }

  /**
   * The partial format: identity from `user_id` and `msisdn`, `usage_data`
   * with `network.type` and `network.provider_code` renamed and the other
   * values copied, the period strings verbatim, and no `sms_charges` key.
   */
  function MapToPartialInternalFormat(restResponse: RestUsageResponse): (r: Fragment)
    ensures r.smsCharges.None?
    ensures r.telgeaUserId == Some(restResponse.userId) && r.msisdn == Some(restResponse.msisdn)
    ensures r.usageData.Some? && r.billingPeriod.Some?
    ensures var u := r.usageData.value;
      && u.totalMb == restResponse.usage.data.totalMb
      && u.roamingMb == restResponse.usage.data.roamingMb
      && u.country == restResponse.usage.data.country
      && u.networkType == restResponse.network.kind
      && u.providerCode == restResponse.network.providerCode
    ensures r.billingPeriod.value.start == restResponse.usage.period.start
    ensures r.billingPeriod.value.end == restResponse.usage.period.end
  {
    var usageData := UsageDataDto(
      restResponse.usage.data.totalMb,
      restResponse.usage.data.roamingMb,
      restResponse.usage.data.country,
      restResponse.network.kind,
      restResponse.network.providerCode);
    Fragment(
      Some(restResponse.userId),
      Some(restResponse.msisdn),
      Some(usageData),
      None,
      Some(BillingPeriodDto(restResponse.usage.period.start, restResponse.usage.period.end)))
  }

  /**
   * The domain path and the partial path agree: the domain usage data is
   * the fragment's `usage_data`, the extracted user is its identity, and the
   * domain billing period renders to the fragment's period exactly when both
   * bounds are already in `toISOString` form.
   */
  lemma DomainAgreesWithPartial(restResponse: RestUsageResponse, toIso: IsoRenderer)
    ensures var f := MapToPartialInternalFormat(restResponse);
      && f.usageData == Some(MapResponseToUsageData(restResponse).ToPlainObject())
      && f.telgeaUserId == Some(ExtractUserFromResponse(restResponse).telgeaUserId)
      && f.msisdn == Some(ExtractUserFromResponse(restResponse).msisdn)
    ensures var f := MapToPartialInternalFormat(restResponse);
      var period := restResponse.usage.period;
      var rendered := ExtractBillingPeriodFromResponse(restResponse).ToPlainObject(toIso);
      (rendered == Ok(f.billingPeriod.value)) <==> (toIso(DateOf(period.start)) == Some(period.start) && toIso(DateOf(period.end)) == Some(period.end))
  {
  }

  /** The fixture of the mapper's unit test. */
  const Fixture := RestUsageResponse(
    "test123", "+46701234567",
    Usage(UsageFigures(Finite(845.23), Finite(210.50), "SE"), UsagePeriod("2025-04-01T00:00:00Z", "2025-04-30T23:59:59Z")),
    Network("4G", "SE01"))

  /** What the unit test asserts of the fixture: the renamed usage record and the period strings unchanged. */
  lemma FixturePartialFormat()
    ensures var f := MapToPartialInternalFormat(Fixture);
      && f.telgeaUserId == Some("test123") && f.msisdn == Some("+46701234567")
      && f.usageData == Some(UsageDataDto(Finite(845.23), Finite(210.50), "SE", "4G", "SE01"))
      && f.billingPeriod == Some(BillingPeriodDto("2025-04-01T00:00:00Z", "2025-04-30T23:59:59Z"))
  {
  }
}
