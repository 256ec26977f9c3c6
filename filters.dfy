/**
  The four filter fields of the notification form (class `Filters`): the
  names under which the submitted form carries the selected employee country,
  employment status, job title and status.
 */
module Filters {

  const EmployeeEmploymentStatuses: string := "employee_employment_statuses"
  const EmployeeCountries: string := "employee_countries"
  const EmployeeJobTitles: string := "employee_job_titles"
  const EmployeeStatuses: string := "employee_statuses"

  /** The values of the class's constants, in declaration order, as reflection
      lists them: four distinct field names, none of which is a field the
      planner itself sets on an outgoing request (`json`, `to`). */
  function Values(): (r: seq<string>)
    ensures |r| == 4
    ensures forall i, j :: 0 <= i < j < |r| ==> r[i] != r[j]
    ensures "json" !in r && "to" !in r
  {
    [EmployeeEmploymentStatuses, EmployeeCountries, EmployeeJobTitles, EmployeeStatuses]
  }

  /** The filter field names as a set: exactly the elements of `Values()`,
      four of them, and neither `json` nor `to`. */
  function Keys(): (k: set<string>)
    ensures forall key :: key in k <==> key in Values()
    ensures |k| == 4
    ensures "json" !in k && "to" !in k
  {
    {EmployeeEmploymentStatuses, EmployeeCountries, EmployeeJobTitles, EmployeeStatuses}
  }
}
