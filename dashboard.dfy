/**
 * The citizen dashboard: three seeded reports and the four figures shown above them.
 * Its reports carry no coordinates, reporter or cost, so they are a record of their own.
 */
module Dashboard {
  import Seqs
  import Badges

  datatype CitizenReport = CitizenReport(
    id: int,
    issueType: string,
    location: string,
    status: string,
    severity: string,
    reportedAt: string,
    estimatedMaterial: string,
    image: string)

  const SeedReports: seq<CitizenReport> := [
    CitizenReport(1, "Pothole", "Main St & 5th Ave", "In Progress", "High", "2024-01-15T10:30:00Z",
                  "12 kg asphalt, 3 bags cement",
                  "https://images.unsplash.com/photo-1482881497185-d4a9ddbe4151?w=300&h=200&fit=crop"),
    CitizenReport(2, "Waterlogged Area", "Park Avenue", "Resolved", "Medium", "2024-01-14T14:20:00Z",
                  "Drainage pipe cleaning",
                  "https://images.unsplash.com/photo-1433086966358-54859d0ed716?w=300&h=200&fit=crop"),
    CitizenReport(3, "Sewage Overflow", "Elm Street", "Pending", "High", "2024-01-16T08:45:00Z",
                  "Emergency response required",
                  "https://images.unsplash.com/photo-1465146344425-f00d5f5c8f07?w=300&h=200&fit=crop")
  ]

  /** The four stat cards: Total Reports, Resolved, In Progress and High Priority. */
  datatype Summary = Summary(total: nat, resolved: nat, inProgress: nat, high: nat)

  function Statuses(reports: seq<CitizenReport>): (keys: seq<string>)
    ensures |keys| == |reports| && forall i :: 0 <= i < |reports| ==> keys[i] == reports[i].status
  {
    seq(|reports|, i requires 0 <= i < |reports| => reports[i].status)
  }

  function Severities(reports: seq<CitizenReport>): (keys: seq<string>)
    ensures |keys| == |reports| && forall i :: 0 <= i < |reports| ==> keys[i] == reports[i].severity
  {
    seq(|reports|, i requires 0 <= i < |reports| => reports[i].severity)
  }

  /**
   * The cards count exact, case-sensitive matches; no card exceeds the total, and the
   * Resolved and In Progress cards together do not either.
   */
  function Summarize(reports: seq<CitizenReport>): (s: Summary)
    ensures s.total == |reports|
    ensures s.resolved == multiset(Statuses(reports))["Resolved"]
    ensures s.inProgress == multiset(Statuses(reports))["In Progress"]
    ensures s.high == multiset(Severities(reports))["High"]
    ensures s.resolved <= s.total && s.inProgress <= s.total && s.high <= s.total
    ensures s.resolved + s.inProgress <= s.total
    ensures s.resolved == 0 <==> forall i :: 0 <= i < |reports| ==> reports[i].status != "Resolved"
    ensures s.high == s.total <==> forall i :: 0 <= i < |reports| ==> reports[i].severity == "High"
  {
    var statuses := Statuses(reports);
    Seqs.OccurrencesOfTwo(statuses, "Resolved", "In Progress");
    Summary(
      |reports|,
      Seqs.Occurrences(statuses, "Resolved"),
      Seqs.Occurrences(statuses, "In Progress"),
      Seqs.Occurrences(Severities(reports), "High"))
  }

  lemma SeedStatusColumn()
    ensures Statuses(SeedReports) == ["In Progress", "Resolved", "Pending"]
  {
  }

  lemma SeedSeverityColumn()
    ensures Severities(SeedReports) == ["High", "Medium", "High"]
  {
  }

  lemma SeedTally()
    ensures var m := multiset(["In Progress", "Resolved", "Pending"]); m["Resolved"] == 1 && m["In Progress"] == 1
    ensures multiset(["High", "Medium", "High"])["High"] == 2
  {
  }

  /** The figures the dashboard shows for its three sample reports. */
  lemma SeedSummary()
    ensures Summarize(SeedReports) == Summary(3, 1, 1, 2)
  {
    SeedStatusColumn();
    SeedSeverityColumn();
    SeedTally();
  }

  /** This page's copy of the badge tables maps exactly as follows. */
  lemma BadgeTables(other: string)
    requires other != "Resolved" && other != "In Progress" && other != "Pending"
    requires other != "High" && other != "Medium"
    ensures Badges.StatusBadge("Resolved") == "success"
    ensures Badges.StatusBadge("In Progress") == "warning"
    ensures Badges.StatusBadge("Pending") == "destructive"
    ensures Badges.StatusBadge(other) == "secondary"
    ensures Badges.SeverityBadge("High") == "destructive"
    ensures Badges.SeverityBadge("Medium") == "warning"
    ensures Badges.SeverityBadge("Low") == "secondary"
    ensures Badges.SeverityBadge(other) == "secondary"
  {
  }
}
