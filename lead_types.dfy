/** The record shapes shared by the qualification code (types/index.ts). */
module LeadTypes {
  import opened Wrappers

  /** What the company lookup yields; every field may be null. */
  datatype EnrichmentData = EnrichmentData(
    name: Option<string>,
    employees: Option<int>,
    funding: Option<real>,
    sector: Option<string>,
    size: Option<string>)

  /** A workspace's optional thresholds. */
  datatype WorkspaceCriteria = WorkspaceCriteria(
    minEmployees: Option<int>,
    minFundingUsd: Option<real>,
    minRevenueUsd: Option<real>)

  /** The verdict and its reason, as logged and stored. */
  datatype QualificationResult = QualificationResult(result: bool, reason: string)
}
