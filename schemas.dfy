/**
 * The structured record the property-issue handler asks the language model
 * to fill in, with the construction rules of its pydantic model: three
 * required fields and one field that defaults to the empty list.
 */
module Schemas {
  import opened Wrappers

  datatype PropertyIssueReport = PropertyIssueReport(
    issueAssessment: string,
    troubleshootingSuggestions: seq<string>,
    professionalReferral: seq<string>,
    safetyWarnings: seq<string>)

  /** The fields handed to the model's constructor; `None` marks a field that was omitted. */
  datatype ReportFields = ReportFields(
    issueAssessment: Option<string>,
    troubleshootingSuggestions: Option<seq<string>>,
    professionalReferral: Option<seq<string>>,
    safetyWarnings: Option<seq<string>>)

  /** The names of the omitted required fields, each named once. */
  function MissingFields(f: ReportFields): (names: seq<string>)
    ensures |names| <= 3
    ensures forall i, j :: 0 <= i < j < |names| ==> names[i] != names[j]
    ensures "issue_assessment" in names <==> f.issueAssessment.None?
    ensures "troubleshooting_suggestions" in names <==> f.troubleshootingSuggestions.None?
    ensures "professional_referral" in names <==> f.professionalReferral.None?
    ensures "safety_warnings" !in names
  {
    (if f.issueAssessment.None? then ["issue_assessment"] else [])
    + (if f.troubleshootingSuggestions.None? then ["troubleshooting_suggestions"] else [])
    + (if f.professionalReferral.None? then ["professional_referral"] else [])
  }

  /**
   * Construction of a `PropertyIssueReport`: it fails, naming the missing
   * fields, when a required field is omitted, and fills an omitted
   * `safety_warnings` with the empty list.
   */
  function Validate(f: ReportFields): (r: Result<PropertyIssueReport, seq<string>>)
    ensures r.Success? <==>
      f.issueAssessment.Some? && f.troubleshootingSuggestions.Some? && f.professionalReferral.Some?
    ensures r.Failure? ==> r.error == MissingFields(f) && |r.error| > 0
    ensures r.Success? ==>
      && r.value.issueAssessment == f.issueAssessment.value
      && r.value.troubleshootingSuggestions == f.troubleshootingSuggestions.value
      && r.value.professionalReferral == f.professionalReferral.value
      && r.value.safetyWarnings == (if f.safetyWarnings.Some? then f.safetyWarnings.value else [])
  {
    if f.issueAssessment.Some? && f.troubleshootingSuggestions.Some? && f.professionalReferral.Some? then
      Success(PropertyIssueReport(
        f.issueAssessment.value,
        f.troubleshootingSuggestions.value,
        f.professionalReferral.value,
        if f.safetyWarnings.Some? then f.safetyWarnings.value else []))
    else
      Failure(MissingFields(f))
  }

  /** Every field of a report, supplied explicitly; constructing from them gives the report back. */
  function FieldsOf(report: PropertyIssueReport): (f: ReportFields)
    ensures Validate(f) == Success(report)
  {
    ReportFields(
      Some(report.issueAssessment),
      Some(report.troubleshootingSuggestions),
      Some(report.professionalReferral),
      Some(report.safetyWarnings))
  }
}
