/** The mock service's estimates: the processes it proposes for a role and
    the monthly return it expects from the hours a team loses. */
module Processes {
  import opened Wrappers
  import opened Js

  /** The table of `getProcessesByRole`: five processes for each known role. */
  const ProcessesByRole: map<string, seq<string>> := map[
    "CEO / Founder" := [
      "Strategic Planning Automation",
      "Financial Dashboard",
      "Sales Pipeline Management",
      "Weekly Reporting",
      "Stakeholder Updates"],
    "Director Operaciones" := [
      "Project Timeline Tracking",
      "Resource Allocation",
      "Risk Management",
      "Vendor Management",
      "Team Performance Metrics"],
    "PM / Project Manager" := [
      "Milestone Tracking",
      "Sprint Planning",
      "Backlog Prioritization",
      "Stakeholder Communication",
      "Resource Planning"],
    "Marketing Manager" := [
      "Campaign Scheduling",
      "Lead Scoring",
      "Content Calendar",
      "Performance Analytics",
      "Social Media Management"],
    "CFO / Director Finanzas" := [
      "Revenue Forecasting",
      "Budget Variance Analysis",
      "Cash Flow Projection",
      "Invoice Tracking",
      "Financial Reporting"]
  ]

  /** The processes offered to a role the table does not list. */
  const DefaultProcesses: seq<string> := ["Process Optimization", "Data Integration", "Workflow Automation"]

  /** The keys every object literal inherits from `Object.prototype`: looking
      one of them up in the table finds a function or an object, not a list. */
  const ObjectPrototypeMembers: set<string> := {
    "constructor", "__defineGetter__", "__defineSetter__", "hasOwnProperty",
    "__lookupGetter__", "__lookupSetter__", "isPrototypeOf", "propertyIsEnumerable",
    "toString", "valueOf", "__proto__", "toLocaleString"}

  /** A role that the table does not list but inherits as a key. */
  predicate InheritedRole(rol: string) {
    rol !in ProcessesByRole && rol in ObjectPrototypeMembers
  }

  /** The list `processesByRole[rol] || defaults` picks for a role that is
      not inherited. */
  function RoleList(rol: string): seq<string> {
    if rol in ProcessesByRole then ProcessesByRole[rol] else DefaultProcesses
  }

  /** `getProcessesByRole(rol, limit)`: the first `limit` processes of the
      role's list. An inherited key is truthy, so the defaults are not taken,
      and the value found has no `slice`: the call throws (`None`). */
  function GetProcessesByRole(rol: string, limit: int): (r: Option<seq<string>>)
    ensures r.None? <==> InheritedRole(rol)
    ensures r.Some? ==> r.value <= RoleList(rol)
    ensures r.Some? && limit >= 0 ==>
      |r.value| == if limit < |RoleList(rol)| then limit else |RoleList(rol)|
  {
    if rol in ProcessesByRole then Some(SliceTo(ProcessesByRole[rol], limit))
    else if rol in ObjectPrototypeMembers then None
    else Some(SliceTo(DefaultProcesses, limit))
  }

  /** Every role the table lists has five processes, and the defaults are three. */
  lemma RoleListLengths(rol: string)
    ensures |RoleList(rol)| == if rol in ProcessesByRole then 5 else 3
  {
    if rol in ProcessesByRole {
      assert rol == "CEO / Founder" || rol == "Director Operaciones" || rol == "PM / Project Manager"
          || rol == "Marketing Manager" || rol == "CFO / Director Finanzas";
    }
  }

  /** `estimateROI(horas)`: a base of 500 plus 30 per weekly hour. It can be
      undone, and over the hours the handler accepts it lies in [530, 1700]. */
  function EstimateRoi(horas: real): (roi: real)
    ensures (roi - 500.0) / 30.0 == horas
    ensures 1.0 <= horas <= 40.0 ==> 530.0 <= roi <= 1700.0
  {
    500.0 + horas * 30.0
  }

  /** More hours always mean a larger estimate. */
  lemma RoiStrictlyIncreasing(horas: real, horas': real)
    requires horas < horas'
    ensures EstimateRoi(horas) < EstimateRoi(horas')
  {
  }
}
