/**
 * The badge variants both dashboards give a report's status and severity. The citizen and the
 * administrator dashboard each carry an identical copy of these two tables.
 */
module Badges {

  /** Resolved is green, In Progress amber, Pending red; any other string falls back to grey. */
  function StatusBadge(status: string): (variant: string)
    ensures variant == "success" <==> status == "Resolved"
    ensures variant == "warning" <==> status == "In Progress"
    ensures variant == "destructive" <==> status == "Pending"
    ensures variant == "secondary" <==> status != "Resolved" && status != "In Progress" && status != "Pending"
  {
    match status
    case "Resolved" => "success"
    case "In Progress" => "warning"
    case "Pending" => "destructive"
    case _ => "secondary"
  }

  /** High is red and Medium amber; Low shares the grey fallback with every other string. */
  function SeverityBadge(severity: string): (variant: string)
    ensures variant == "destructive" <==> severity == "High"
    ensures variant == "warning" <==> severity == "Medium"
    ensures variant == "secondary" <==> severity != "High" && severity != "Medium"
  {
    match severity
    case "High" => "destructive"
    case "Medium" => "warning"
    case "Low" => "secondary"
    case _ => "secondary"
  }

  /** Both tables are total and take at most four and three values respectively. */
  lemma BadgeRanges(status: string, severity: string)
    ensures StatusBadge(status) in {"success", "warning", "destructive", "secondary"}
    ensures SeverityBadge(severity) in {"destructive", "warning", "secondary"}
  {
  }
}
