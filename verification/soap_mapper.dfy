/**
 * SoapToInternalMapper: the SOAP SMS-charge record to domain objects and to
 * a partial internal format.
 */
module SoapMapper {
  import opened Wrappers
  import opened JsValues
  import opened Dtos
  import opened Domain

  /** The `["soapenv:Envelope"]["soapenv:Body"]["sms:ChargeSMS"]` lookup every method starts with. */
  function ChargeRecord(soapResponse: SoapSmsResponse): (sms: ChargeSms)
    ensures soapResponse == SoapSmsResponse(SoapEnvelope(SoapBody(sms)))
  {
    soapResponse.envelope.body.chargeSms
  }

  function MapSmsResponseToSmsCharge(soapResponse: SoapSmsResponse): (c: SmsCharge)
    ensures var sms := ChargeRecord(soapResponse);
      && c.messageId == sms.messageId && c.currency == sms.currency
      && c.amount == ParseFloat(sms.chargeAmount)
      && c.timestamp == DateOf(sms.timestamp)
  {
    var sms := ChargeRecord(soapResponse);
    SmsCharge.FromRawData(sms.messageId, sms.timestamp, ParseFloat(sms.chargeAmount), sms.currency)
  }

  function ExtractUserFromSoapResponse(soapResponse: SoapSmsResponse): (u: User)
    ensures u.telgeaUserId == ChargeRecord(soapResponse).userId
    ensures u.msisdn == ChargeRecord(soapResponse).phoneNumber
  {
    var sms := ChargeRecord(soapResponse);
    User(sms.userId, sms.phoneNumber)
  }

  /**
   * The partial format: identity from `sms:UserID` and `sms:PhoneNumber`
   * and exactly one charge whose identifier, timestamp text and currency are
   * the raw strings; `usage_data` and `billing_period` are never set.
   */
  function MapToPartialInternalFormat(soapResponse: SoapSmsResponse): (r: Fragment)
    ensures r.usageData.None? && r.billingPeriod.None?
    ensures r.telgeaUserId == Some(ChargeRecord(soapResponse).userId)
    ensures r.msisdn == Some(ChargeRecord(soapResponse).phoneNumber)
    ensures r.smsCharges.Some? && |r.smsCharges.value| == 1
    ensures var sms := ChargeRecord(soapResponse); var c := r.smsCharges.value[0];
      && c.messageId == sms.messageId && c.timestamp == sms.timestamp
      && c.currency == sms.currency && c.amount == ParseFloat(sms.chargeAmount)
  {
    var sms := ChargeRecord(soapResponse);
    var smsCharge := SmsChargeDto(sms.messageId, sms.timestamp, ParseFloat(sms.chargeAmount), sms.currency);
    Fragment(Some(sms.userId), Some(sms.phoneNumber), None, Some([smsCharge]), None)
  }

  /**
   * The domain path and the partial path agree: the domain charge, once
   * rendered, is the fragment's charge except that its timestamp is the
   * `toISOString` of the parsed text; when that text is already in
   * `toISOString` form the two are equal. The extracted user is the
   * fragment's identity.
   */
  lemma DomainAgreesWithPartial(soapResponse: SoapSmsResponse, toIso: IsoRenderer)
    ensures var f := MapToPartialInternalFormat(soapResponse);
      var u := ExtractUserFromSoapResponse(soapResponse);
      f.telgeaUserId == Some(u.telgeaUserId) && f.msisdn == Some(u.msisdn)
    ensures var f := MapToPartialInternalFormat(soapResponse);
      var raw := ChargeRecord(soapResponse).timestamp;
      var rendered := MapSmsResponseToSmsCharge(soapResponse).ToPlainObject(toIso);
      && (rendered.Ok? <==> toIso(DateOf(raw)).Some?)
      && (rendered.Ok? ==> rendered.value == f.smsCharges.value[0].(timestamp := toIso(DateOf(raw)).value))
      && (toIso(DateOf(raw)) == Some(raw) ==> rendered == Ok(f.smsCharges.value[0]))
  {
  }

  /** The fixture of the mapper's unit test. */
  const Fixture := SoapSmsResponse(SoapEnvelope(SoapBody(ChargeSms(
    "test123", "+46701234567", "msg456", "2025-04-01T12:30:00Z", "0.05", "EUR"))))

  /** What the unit test asserts of the fixture: one charge, the raw timestamp text, and the amount 0.05. */
  lemma FixturePartialFormat()
    ensures var f := MapToPartialInternalFormat(Fixture);
      && f.telgeaUserId == Some("test123") && f.msisdn == Some("+46701234567")
      && f.smsCharges == Some([SmsChargeDto("msg456", "2025-04-01T12:30:00Z", Finite(0.05), "EUR")])
    ensures MapSmsResponseToSmsCharge(Fixture) == SmsCharge("msg456", DateOf("2025-04-01T12:30:00Z"), Finite(0.05), "EUR")
  {
    ParseFloatFixtureAmount();
  }
}
