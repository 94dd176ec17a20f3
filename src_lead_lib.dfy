/**
 * The second-generation qualification rule (src/lib/index.ts): public
 * companies and the largest size bucket qualify outright, then the employee
 * and funding thresholds are tried in that order. Domain extraction is the
 * same exactly-one-`@` rule as LeadLib.ExtractDomainFromEmail.
 */
module SrcLeadLib {
  import opened Wrappers
  import opened LeadTypes

  /** The record `enrichDomain` yields in this generation. */
  datatype SrcEnrichment = SrcEnrichment(
    employees: Option<int>,
    funding: Option<real>,
    companyType: Option<string>,
    size: Option<string>)

  /** The verdict of this generation, whose field is named `qualified`. */
  datatype SrcQualification = SrcQualification(qualified: bool, reason: string)

  predicate IsPublic(d: SrcEnrichment) { d.companyType == Some("public") }

  predicate LargestBucket(d: SrcEnrichment) { d.size == Some("10001+") }

  /**
   * Truthy employees at or above the threshold. A zero threshold does not
   * disable the rule here; a missing one (`undefined`) fails every comparison.
   */
  predicate EmployeesMet(d: SrcEnrichment, c: WorkspaceCriteria) {
    d.employees.Some? && d.employees.value != 0 && c.minEmployees.Some? && d.employees.value >= c.minEmployees.value
  }

  predicate FundingMet(d: SrcEnrichment, c: WorkspaceCriteria) {
    d.funding.Some? && d.funding.value != 0.0 && c.minFundingUsd.Some? && d.funding.value >= c.minFundingUsd.value
  }

  /** `qualifyLead`: public, then the "10001+" bucket, then employees, then funding. */
  function QualifyLead(data: Option<SrcEnrichment>, criteria: Option<WorkspaceCriteria>): SrcQualification
  {
    if data.None? || criteria.None? then SrcQualification(false, "missing_data")
    else if IsPublic(data.value) then SrcQualification(true, "public")
    else if LargestBucket(data.value) then SrcQualification(true, "size")
    else if EmployeesMet(data.value, criteria.value) then SrcQualification(true, "employees")
    else if FundingMet(data.value, criteria.value) then SrcQualification(true, "funding")
    else SrcQualification(false, "no criteria met")
  }

  /**
   * The precedence of the rules: each reason is given exactly when its rule
   * holds and no earlier rule does, and a lead qualifies exactly when some
   * rule holds.
   */
  lemma QualifyLeadPrecedence(data: Option<SrcEnrichment>, criteria: Option<WorkspaceCriteria>)
    ensures var q := QualifyLead(data, criteria);
      && (data.None? || criteria.None? <==> q == SrcQualification(false, "missing_data"))
      && (data.Some? && criteria.Some? ==>
            var d, c := data.value, criteria.value;
            && (q.reason == "public" <==> IsPublic(d))
            && (q.reason == "size" <==> !IsPublic(d) && LargestBucket(d))
            && (q.reason == "employees" <==> !IsPublic(d) && !LargestBucket(d) && EmployeesMet(d, c))
            && (q.reason == "funding" <==> !IsPublic(d) && !LargestBucket(d) && !EmployeesMet(d, c) && FundingMet(d, c))
            && (q.qualified <==> IsPublic(d) || LargestBucket(d) || EmployeesMet(d, c) || FundingMet(d, c))
            && (!q.qualified ==> q.reason == "no criteria met"))
  {
  }
}
