/** The shared quota lookup of the collectors package: one Service Quotas
    request for a service code and a quota code. */
module ServiceQuotas {
  import opened Aws

  /** The request sent for a (service code, quota code) pair. */
  function QuotaRequest(serviceCode: string, quotaCode: string): GetServiceQuotaInput
  {
    GetServiceQuotaInput(quotaCode, serviceCode)
  }

  /** The lookup dereferences `Quota.Value` without a nil check: a successful
      answer must carry a value. */
  predicate QuotaValuePresent(client: ServiceQuotaClient, serviceCode: string, quotaCode: string)
  {
    var out := client.getServiceQuota(QuotaRequest(serviceCode, quotaCode));
    out.Ok? ==> out.value.quotaValue.Some?
  }

  /** A failed call yields 0 together with the error; a successful one yields
      the quota value unchanged and no error. */
  function GetQuotaValue(client: ServiceQuotaClient, serviceCode: string, quotaCode: string): (r: Reading)
    requires QuotaValuePresent(client, serviceCode, quotaCode)
    ensures var out := client.getServiceQuota(QuotaRequest(serviceCode, quotaCode));
            && (r.err.Some? <==> out.Err?)
            && (out.Err? ==> r.value == 0.0 && r.err == Some(out.error))
            && (out.Ok? ==> r.value == out.value.quotaValue.value)
  {
    match client.getServiceQuota(QuotaRequest(serviceCode, quotaCode))
    case Err(e) => Reading(0.0, Some(e))
    case Ok(out) => Reading(out.quotaValue.value, None)
  }

  /** The lookup consults the service only about its own (service, quota) pair:
      two clients that agree on that one request give the same reading. */
  lemma GetQuotaValueAsksOnlyForItsCodes(a: ServiceQuotaClient, b: ServiceQuotaClient,
                                         serviceCode: string, quotaCode: string)
    requires QuotaValuePresent(a, serviceCode, quotaCode)
    requires a.getServiceQuota(QuotaRequest(serviceCode, quotaCode))
          == b.getServiceQuota(QuotaRequest(serviceCode, quotaCode))
    ensures QuotaValuePresent(b, serviceCode, quotaCode)
    ensures GetQuotaValue(a, serviceCode, quotaCode) == GetQuotaValue(b, serviceCode, quotaCode)
  {
  }
}
