/**
 * DataAggregationService: merges partial internal formats with a shallow
 * "later key wins" fold, defaults `sms_charges` to `[]`, and validates the
 * result with JavaScript truthiness, reporting the first failing check.
 */
module Aggregation {
  import opened Wrappers
  import opened JsValues
  import opened Dtos
  import opened Domain

  // ---------------------------------------------------------------------------
  // The merge fold

  /** One key of `{ ...acc, ...curr }`: the later object's value when it has the key, else the earlier one's. */
  function Spread<T>(earlier: Option<T>, later: Option<T>): (r: Option<T>)
    ensures later.Some? ==> r == later
    ensures later.None? ==> r == earlier
  {
    if later.Some? then later else earlier
  }

  /** `{ ...acc, ...curr }` on whole fragments: a nested object is taken as a whole, never combined field by field. */
  function Override(acc: Fragment, curr: Fragment): (r: Fragment)
    ensures curr == EmptyFragment ==> r == acc
    ensures acc == EmptyFragment ==> r == curr
    ensures curr.telgeaUserId.Some? ==> r.telgeaUserId == curr.telgeaUserId
    ensures curr.msisdn.Some? ==> r.msisdn == curr.msisdn
    ensures curr.usageData.Some? ==> r.usageData == curr.usageData
    ensures curr.smsCharges.Some? ==> r.smsCharges == curr.smsCharges
    ensures curr.billingPeriod.Some? ==> r.billingPeriod == curr.billingPeriod
    ensures curr.telgeaUserId.None? ==> r.telgeaUserId == acc.telgeaUserId
    ensures curr.msisdn.None? ==> r.msisdn == acc.msisdn
    ensures curr.usageData.None? ==> r.usageData == acc.usageData
    ensures curr.smsCharges.None? ==> r.smsCharges == acc.smsCharges
    ensures curr.billingPeriod.None? ==> r.billingPeriod == acc.billingPeriod
  {
    Fragment(
      Spread(acc.telgeaUserId, curr.telgeaUserId),
      Spread(acc.msisdn, curr.msisdn),
      Spread(acc.usageData, curr.usageData),
      Spread(acc.smsCharges, curr.smsCharges),
      Spread(acc.billingPeriod, curr.billingPeriod))
  }

  /** `partialFormats.reduce((acc, curr) => ({ ...acc, ...curr }), {})`, folding from the left. */
  function MergeFold(partialFormats: seq<Fragment>): (r: Fragment)
    ensures |partialFormats| == 1 ==> r == partialFormats[0]
    ensures r.telgeaUserId.Some? <==> exists i :: 0 <= i < |partialFormats| && partialFormats[i].telgeaUserId.Some?
    ensures r.msisdn.Some? <==> exists i :: 0 <= i < |partialFormats| && partialFormats[i].msisdn.Some?
    ensures r.usageData.Some? <==> exists i :: 0 <= i < |partialFormats| && partialFormats[i].usageData.Some?
    ensures r.smsCharges.Some? <==> exists i :: 0 <= i < |partialFormats| && partialFormats[i].smsCharges.Some?
    ensures r.billingPeriod.Some? <==> exists i :: 0 <= i < |partialFormats| && partialFormats[i].billingPeriod.Some?
    decreases |partialFormats|
  {
    if partialFormats == [] then EmptyFragment
    else
      var n := |partialFormats| - 1;
      Override(MergeFold(partialFormats[..n]), partialFormats[n])
  }

  /** One key read across a list of fragments. */
  function Column<T>(fs: seq<Fragment>, slot: Fragment -> Option<T>): (c: seq<Option<T>>)
    ensures |c| == |fs|
    ensures forall i :: 0 <= i < |fs| ==> c[i] == slot(fs[i])
  {
    seq(|fs|, i requires 0 <= i < |fs| => slot(fs[i]))
  }

  /** The value of the last slot that is present, if any. */
  function LastPresent<T>(s: seq<Option<T>>): Option<T> {
    if s == [] then None
    else if s[|s| - 1].Some? then s[|s| - 1]
    else LastPresent(s[..|s| - 1])
  }

  /** A present slot followed only by absent ones is the one that survives. */
  lemma {:induction false} LastPresentIsLatest<T>(s: seq<Option<T>>, i: nat)
    requires i < |s| && s[i].Some?
    requires forall j :: i < j < |s| ==> s[j].None?
    ensures LastPresent(s) == s[i]
    decreases |s|
  {
    if i < |s| - 1 {
      LastPresentIsLatest(s[..|s| - 1], i);
    }
  }

  /** Nothing survives exactly when no slot is present. */
  lemma {:induction false} LastPresentAbsent<T>(s: seq<Option<T>>)
    ensures LastPresent(s).None? <==> forall i :: 0 <= i < |s| ==> s[i].None?
    decreases |s|
  {
    if s != [] {
      LastPresentAbsent(s[..|s| - 1]);
      assert forall i :: 0 <= i < |s| - 1 ==> s[..|s| - 1][i] == s[i];
    }
  }

  /** Whatever survives was supplied by some fragment. */
  lemma {:induction false} LastPresentSupplied<T>(s: seq<Option<T>>)
    ensures LastPresent(s).Some? ==> exists i :: 0 <= i < |s| && s[i] == LastPresent(s)
    decreases |s|
  {
    if s != [] && s[|s| - 1].None? {
      LastPresentSupplied(s[..|s| - 1]);
      if LastPresent(s).Some? {
        var i :| 0 <= i < |s| - 1 && s[..|s| - 1][i] == LastPresent(s);
        assert s[i] == LastPresent(s);
      }
    }
  }

  lemma {:induction false} MergeFoldSlot<T>(fs: seq<Fragment>, slot: Fragment -> Option<T>)
    requires slot(EmptyFragment).None?
    requires forall a, b :: slot(Override(a, b)) == Spread(slot(a), slot(b))
    ensures slot(MergeFold(fs)) == LastPresent(Column(fs, slot))
    decreases |fs|
  {
    if fs != [] {
      var n := |fs| - 1;
      var c := Column(fs, slot);
      assert slot(MergeFold(fs)) == Spread(slot(MergeFold(fs[..n])), slot(fs[n])) by {
        assert MergeFold(fs) == Override(MergeFold(fs[..n]), fs[n]);
      }
      assert LastPresent(c) == Spread(LastPresent(c[..n]), c[n]);
      MergeFoldSlot(fs[..n], slot);
      ColumnPrefix(fs, slot, n);
    }
  }

  lemma ColumnPrefix<T>(fs: seq<Fragment>, slot: Fragment -> Option<T>, n: nat)
    requires n <= |fs|
    ensures Column(fs, slot)[..n] == Column(fs[..n], slot)
  {
  }

  /**
   * The fold is slot-wise "later wins": every key of the merged object is
   * the one the last fragment carrying that key supplied, and a key no
   * fragment carries stays absent.
   */
  lemma MergeIsLastWinsPerKey(fs: seq<Fragment>)
    ensures MergeFold(fs) == Fragment(
      LastPresent(Column(fs, (f: Fragment) => f.telgeaUserId)),
      LastPresent(Column(fs, (f: Fragment) => f.msisdn)),
      LastPresent(Column(fs, (f: Fragment) => f.usageData)),
      LastPresent(Column(fs, (f: Fragment) => f.smsCharges)),
      LastPresent(Column(fs, (f: Fragment) => f.billingPeriod)))
  {
    MergeFoldSlot(fs, (f: Fragment) => f.telgeaUserId);
    MergeFoldSlot(fs, (f: Fragment) => f.msisdn);
    MergeFoldSlot(fs, (f: Fragment) => f.usageData);
    MergeFoldSlot(fs, (f: Fragment) => f.smsCharges);
    MergeFoldSlot(fs, (f: Fragment) => f.billingPeriod);
  }

  /**
   * The merge is shallow: a later `usage_data` or `billing_period` replaces
   * the earlier object whole, even where the later one's fields are falsy.
   */
  lemma MergeIsShallow(earlier: seq<Fragment>, later: Fragment)
    ensures later.usageData.Some? ==> MergeFold(earlier + [later]).usageData == later.usageData
    ensures later.billingPeriod.Some? ==> MergeFold(earlier + [later]).billingPeriod == later.billingPeriod
  {
  }

  // ---------------------------------------------------------------------------
  // The `sms_charges` default

  /**
   * `if (!merged.sms_charges) merged.sms_charges = []`. An array is always
   * truthy, so only an absent key is replaced.
   */
  function WithDefaultSmsCharges(merged: Fragment): (r: Fragment)
    ensures r.smsCharges == Some(merged.smsCharges.GetOr([]))
    ensures r.(smsCharges := merged.smsCharges) == merged
  {
    if merged.smsCharges.None? then merged.(smsCharges := Some([])) else merged
  }

  // ---------------------------------------------------------------------------
  // Validation

  const RequiredProperties: seq<string> := ["telgea_user_id", "msisdn", "usage_data", "billing_period"]
  const RequiredUsageProps: seq<string> := ["total_mb", "roaming_mb", "country", "network_type", "provider_code"]
  const RequiredBillingProps: seq<string> := ["start", "end"]

  function MissingProperty(prop: string): string {
    "Missing required property: " + prop
  }

  function MissingUsageProperty(prop: string): string {
    "Missing required property in usage_data: " + prop
  }

  function MissingBillingProperty(prop: string): string {
    "Missing required property in billing_period: " + prop
  }

  /** The truthiness of `merged[prop]`; an object is always truthy and an unknown key reads as `undefined`. */
  predicate PropertyTruthy(merged: Fragment, prop: string) {
    if prop == "telgea_user_id" then merged.telgeaUserId.Some? && StringTruthy(merged.telgeaUserId.value)
    else if prop == "msisdn" then merged.msisdn.Some? && StringTruthy(merged.msisdn.value)
    else if prop == "usage_data" then merged.usageData.Some?
    else if prop == "billing_period" then merged.billingPeriod.Some?
    else if prop == "sms_charges" then merged.smsCharges.Some?
    else false
  }

  /** The truthiness of `merged.usage_data?.[prop]`: `undefined`, hence falsy, when there is no `usage_data`. */
  predicate UsagePropTruthy(usage: Option<UsageDataDto>, prop: string) {
    match usage
    case None => false
    case Some(u) =>
      if prop == "total_mb" then NumberTruthy(u.totalMb)
      else if prop == "roaming_mb" then NumberTruthy(u.roamingMb)
      else if prop == "country" then StringTruthy(u.country)
      else if prop == "network_type" then StringTruthy(u.networkType)
      else if prop == "provider_code" then StringTruthy(u.providerCode)
      else false
  }

  /** The truthiness of `merged.billing_period?.[prop]`. */
  predicate BillingPropTruthy(period: Option<BillingPeriodDto>, prop: string) {
    match period
    case None => false
    case Some(p) =>
      if prop == "start" then StringTruthy(p.start)
      else if prop == "end" then StringTruthy(p.end)
      else false
  }

  /** The number of checks the validation runs. */
  const CheckCount := 11

  /** Check `i` of the eleven, in the order the validation runs them. */
  predicate CheckPasses(merged: Fragment, i: nat)
    requires i < CheckCount
  {
    if i < 4 then PropertyTruthy(merged, RequiredProperties[i])
    else if i < 9 then UsagePropTruthy(merged.usageData, RequiredUsageProps[i - 4])
    else BillingPropTruthy(merged.billingPeriod, RequiredBillingProps[i - 9])
  }

  /** The error check `i` throws when it fails. */
  function CheckMessage(i: nat): string
    requires i < CheckCount
  {
    if i < 4 then MissingProperty(RequiredProperties[i])
    else if i < 9 then MissingUsageProperty(RequiredUsageProps[i - 4])
    else MissingBillingProperty(RequiredBillingProps[i - 9])
  }

  /**
   * The validation and the cast to the complete format, as one reference
   * definition: the checks in source order, each on a named slot. A
   * successful result is the merged object's own values, all of them truthy.
   */
  function Validate(merged: Fragment): (r: Result<InternalApiFormat, string>)
    requires merged.smsCharges.Some?
    ensures r.Ok? ==>
      && merged.telgeaUserId == Some(r.value.telgeaUserId)
      && merged.msisdn == Some(r.value.msisdn)
      && merged.usageData == Some(r.value.usageData)
      && merged.smsCharges == Some(r.value.smsCharges)
      && merged.billingPeriod == Some(r.value.billingPeriod)
    ensures r.Ok? ==>
      && StringTruthy(r.value.telgeaUserId) && StringTruthy(r.value.msisdn)
      && NumberTruthy(r.value.usageData.totalMb) && NumberTruthy(r.value.usageData.roamingMb)
      && StringTruthy(r.value.usageData.country) && StringTruthy(r.value.usageData.networkType)
      && StringTruthy(r.value.usageData.providerCode)
      && StringTruthy(r.value.billingPeriod.start) && StringTruthy(r.value.billingPeriod.end)
  {
    if merged.telgeaUserId.None? || !StringTruthy(merged.telgeaUserId.value) then Err(MissingProperty("telgea_user_id"))
    else if merged.msisdn.None? || !StringTruthy(merged.msisdn.value) then Err(MissingProperty("msisdn"))
    else if merged.usageData.None? then Err(MissingProperty("usage_data"))
    else if merged.billingPeriod.None? then Err(MissingProperty("billing_period"))
    else
      var u := merged.usageData.value;
      if !NumberTruthy(u.totalMb) then Err(MissingUsageProperty("total_mb"))
      else if !NumberTruthy(u.roamingMb) then Err(MissingUsageProperty("roaming_mb"))
      else if !StringTruthy(u.country) then Err(MissingUsageProperty("country"))
      else if !StringTruthy(u.networkType) then Err(MissingUsageProperty("network_type"))
      else if !StringTruthy(u.providerCode) then Err(MissingUsageProperty("provider_code"))
      else
        var p := merged.billingPeriod.value;
        if !StringTruthy(p.start) then Err(MissingBillingProperty("start"))
        else if !StringTruthy(p.end) then Err(MissingBillingProperty("end"))
        else Ok(InternalApiFormat(merged.telgeaUserId.value, merged.msisdn.value, u, merged.smsCharges.value, p))
  }

  /** Validation succeeds exactly when all eleven checks pass. */
  lemma ValidateOkIffAllChecksPass(merged: Fragment)
    requires merged.smsCharges.Some?
    ensures Validate(merged).Ok? <==> forall i :: 0 <= i < CheckCount ==> CheckPasses(merged, i)
  {
    if forall i :: 0 <= i < CheckCount ==> CheckPasses(merged, i) {
      assert CheckPasses(merged, 0) && CheckPasses(merged, 1) && CheckPasses(merged, 2);
      assert CheckPasses(merged, 3) && CheckPasses(merged, 4) && CheckPasses(merged, 5);
      assert CheckPasses(merged, 6) && CheckPasses(merged, 7) && CheckPasses(merged, 8);
      assert CheckPasses(merged, 9) && CheckPasses(merged, 10);
    }
  }

  /** When checks 0..i-1 pass and check i fails, the error is check i's message and no later check is consulted. */
  lemma ValidateReportsFirstFailure(merged: Fragment, i: nat)
    requires merged.smsCharges.Some?
    requires i < CheckCount
    requires forall j :: 0 <= j < i ==> CheckPasses(merged, j)
    requires !CheckPasses(merged, i)
    ensures Validate(merged) == Err(CheckMessage(i))
  {
    if i > 0 { assert CheckPasses(merged, 0); }
    if i > 1 { assert CheckPasses(merged, 1); }
    if i > 2 { assert CheckPasses(merged, 2); }
    if i > 3 { assert CheckPasses(merged, 3); }
    if i > 4 { assert CheckPasses(merged, 4); }
    if i > 5 { assert CheckPasses(merged, 5); }
    if i > 6 { assert CheckPasses(merged, 6); }
    if i > 7 { assert CheckPasses(merged, 7); }
    if i > 8 { assert CheckPasses(merged, 8); }
    if i > 9 { assert CheckPasses(merged, 9); }
  }

  /** Every error names the first check that fails. */
  lemma ValidateErrIsFirstFailure(merged: Fragment)
    requires merged.smsCharges.Some?
    ensures Validate(merged).Err? ==>
      exists i :: 0 <= i < CheckCount && !CheckPasses(merged, i)
        && (forall j :: 0 <= j < i ==> CheckPasses(merged, j))
        && Validate(merged).error == CheckMessage(i)
  {
    if Validate(merged).Err? {
      var i := 0;
      while CheckPasses(merged, i)
        invariant 0 <= i < CheckCount
        invariant forall j :: 0 <= j < i ==> CheckPasses(merged, j)
        decreases CheckCount - i
      {
        if i == CheckCount - 1 {
          ValidateOkIffAllChecksPass(merged);
          assert false;
        }
        i := i + 1;
      }
      ValidateReportsFirstFailure(merged, i);
    }
  }

  /**
   * `validateRequiredProperties` as the source runs it: three loops over the
   * key lists, stopping at the first falsy value; on success, the merged
   * object read as the complete format.
   */
  method ValidateRequiredProperties(merged: Fragment) returns (r: Result<InternalApiFormat, string>)
    requires merged.smsCharges.Some?
    ensures r == Validate(merged)
  {
    for k := 0 to |RequiredProperties|
      invariant forall j :: 0 <= j < k ==> CheckPasses(merged, j)
    {
      var prop := RequiredProperties[k];
      if !PropertyTruthy(merged, prop) {
        ValidateReportsFirstFailure(merged, k);
        return Err(MissingProperty(prop));
      }
    }
    for k := 0 to |RequiredUsageProps|
      invariant forall j :: 0 <= j < 4 + k ==> CheckPasses(merged, j)
    {
      var prop := RequiredUsageProps[k];
      if !UsagePropTruthy(merged.usageData, prop) {
        ValidateReportsFirstFailure(merged, 4 + k);
        return Err(MissingUsageProperty(prop));
      }
    }
    for k := 0 to |RequiredBillingProps|
      invariant forall j :: 0 <= j < 9 + k ==> CheckPasses(merged, j)
    {
      var prop := RequiredBillingProps[k];
      if !BillingPropTruthy(merged.billingPeriod, prop) {
        ValidateReportsFirstFailure(merged, 9 + k);
        return Err(MissingBillingProperty(prop));
      }
    }
    ValidateOkIffAllChecksPass(merged);
    assert CheckPasses(merged, 0) && CheckPasses(merged, 1) && CheckPasses(merged, 2) && CheckPasses(merged, 3);
    r := Ok(InternalApiFormat(
      merged.telgeaUserId.value, merged.msisdn.value, merged.usageData.value,
      merged.smsCharges.value, merged.billingPeriod.value));
  }

  // ---------------------------------------------------------------------------
  // mergePartialInternalFormats

  /** `mergePartialInternalFormats` as a value: fold, default `sms_charges`, validate. */
  function Merge(partialFormats: seq<Fragment>): (r: Result<InternalApiFormat, string>)
    ensures r.Ok? ==>
      && StringTruthy(r.value.telgeaUserId) && StringTruthy(r.value.msisdn)
      && NumberTruthy(r.value.usageData.totalMb) && NumberTruthy(r.value.usageData.roamingMb)
      && StringTruthy(r.value.usageData.country) && StringTruthy(r.value.usageData.networkType)
      && StringTruthy(r.value.usageData.providerCode)
      && StringTruthy(r.value.billingPeriod.start) && StringTruthy(r.value.billingPeriod.end)
    ensures r.Err? ==> exists i :: 0 <= i < CheckCount && r.error == CheckMessage(i)
  {
    var merged := WithDefaultSmsCharges(MergeFold(partialFormats));
    ValidateErrIsFirstFailure(merged);
    Validate(merged)
  }

  /** `mergePartialInternalFormats` as the source runs it, with the in-place default on the merged object. */
  method MergePartialInternalFormats(partialFormats: seq<Fragment>) returns (r: Result<InternalApiFormat, string>)
    ensures r == Merge(partialFormats)
  {
    var merged := MergeFold(partialFormats);
    if merged.smsCharges.None? {
      merged := merged.(smsCharges := Some([]));
    }
    r := ValidateRequiredProperties(merged);
  }

  /**
   * A successful merge holds, for every key, the value of the last fragment
   * that carried it; `sms_charges` is the last supplied list unchanged, or
   * `[]` when no fragment supplied one.
   */
  lemma MergeTakesLastValues(fs: seq<Fragment>)
    ensures Merge(fs).Ok? ==>
      && Some(Merge(fs).value.telgeaUserId) == LastPresent(Column(fs, (f: Fragment) => f.telgeaUserId))
      && Some(Merge(fs).value.msisdn) == LastPresent(Column(fs, (f: Fragment) => f.msisdn))
      && Some(Merge(fs).value.usageData) == LastPresent(Column(fs, (f: Fragment) => f.usageData))
      && Some(Merge(fs).value.billingPeriod) == LastPresent(Column(fs, (f: Fragment) => f.billingPeriod))
    ensures Merge(fs).Ok? ==>
      Merge(fs).value.smsCharges == LastPresent(Column(fs, (f: Fragment) => f.smsCharges)).GetOr([])
  {
    MergeIsLastWinsPerKey(fs);
  }

  /** With no fragments nothing is present, so the first check fails. */
  lemma MergeOfNothingFails()
    ensures Merge([]) == Err("Missing required property: telgea_user_id")
  {
    assert MissingProperty("telgea_user_id") == "Missing required property: telgea_user_id";
  }

  /** Truthiness, not presence: an empty identifier is reported as missing. */
  lemma EmptyIdentifierIsMissing(merged: Fragment)
    requires merged.smsCharges.Some? && merged.telgeaUserId == Some("")
    ensures Validate(merged) == Err("Missing required property: telgea_user_id")
  {
    assert MissingProperty("telgea_user_id") == "Missing required property: telgea_user_id";
  }

  /** Truthiness, not presence: a usage of zero megabytes is reported as missing once the top-level keys pass. */
  lemma ZeroUsageIsMissing(merged: Fragment)
    requires merged.smsCharges.Some?
    requires forall j :: 0 <= j < 4 ==> CheckPasses(merged, j)
    requires merged.usageData.Some?
    ensures merged.usageData.value.totalMb == Finite(0.0) ==>
      Validate(merged) == Err("Missing required property in usage_data: total_mb")
    ensures NumberTruthy(merged.usageData.value.totalMb) && merged.usageData.value.roamingMb == Finite(0.0) ==>
      Validate(merged) == Err("Missing required property in usage_data: roaming_mb")
  {
    assert CheckPasses(merged, 0) && CheckPasses(merged, 1) && CheckPasses(merged, 2) && CheckPasses(merged, 3);
    assert MissingUsageProperty("total_mb") == "Missing required property in usage_data: total_mb";
    assert MissingUsageProperty("roaming_mb") == "Missing required property in usage_data: roaming_mb";
  }

  // ---------------------------------------------------------------------------
  // normalizedUserDataToInternalFormat

  /**
   * The direct conversion of an aggregate: exactly its `toInternalApiFormat`.
   * It validates nothing: it succeeds whenever the Dates render, whatever the
   * identifiers or usage figures are.
   */
  function NormalizedUserDataToInternalFormat(data: NormalizedUserData, toIso: IsoRenderer): (r: Result<InternalApiFormat, string>)
    reads data
    ensures r == data.ToInternalApiFormat(toIso)
    ensures r.Ok? <==>
      && (forall i :: 0 <= i < |data.smsChargeList| ==> toIso(data.smsChargeList[i].timestamp).Some?)
      && toIso(data.billingPeriod.start).Some? && toIso(data.billingPeriod.end).Some?
  {
    data.ToInternalApiFormat(toIso)
  }
}
