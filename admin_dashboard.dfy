/**
 * The administrator dashboard: the seeded report list, the type/severity filter applied to it
 * and the aggregate figures shown above it. The list is never changed, so all of it is pure.
 */
module AdminDashboard {
  import opened Wrappers
  import opened Reports
  import Seqs
  import JsString

  /** The four sample reports the dashboard starts with. */
  const SeedReports: seq<Report> := [
    Report(1, "Pothole", "Main St & 5th Ave", 40.7128, -74.0060, "In Progress", "High",
           "John Doe", "2024-01-15T10:30:00Z", "12 kg asphalt, 3 bags cement", "$450",
           "https://images.unsplash.com/photo-1482881497185-d4a9ddbe4151?w=300&h=200&fit=crop"),
    Report(2, "Waterlogged Area", "Park Avenue", 40.7589, -73.9851, "Resolved", "Medium",
           "Jane Smith", "2024-01-14T14:20:00Z", "Drainage pipe cleaning", "$280",
           "https://images.unsplash.com/photo-1433086966358-54859d0ed716?w=300&h=200&fit=crop"),
    Report(3, "Sewage Overflow", "Elm Street", 40.7505, -73.9934, "Pending", "High",
           "Mike Johnson", "2024-01-16T08:45:00Z", "Emergency response required", "$1,200",
           "https://images.unsplash.com/photo-1465146344425-f00d5f5c8f07?w=300&h=200&fit=crop"),
    Report(4, "Blocked Drain", "Broadway & 42nd", 40.7580, -73.9855, "In Progress", "Medium",
           "Sarah Wilson", "2024-01-17T16:15:00Z", "Drain cleaning equipment", "$180",
           "https://images.unsplash.com/photo-1426604966848-d7adac402bff?w=300&h=200&fit=crop")
  ]

  // ---------------------------------------------------------------- filtering

  /** The type filter: "all", or a substring of the lower-cased type (the filter itself is not lower-cased). */
  predicate TypeMatches(r: Report, typeFilter: string) {
    typeFilter == "all" || JsString.Includes(JsString.ToLowerCase(r.issueType), typeFilter)
  }

  /** The severity filter: "all", or exactly the lower-cased severity. */
  predicate SeverityMatches(r: Report, severityFilter: string) {
    severityFilter == "all" || JsString.ToLowerCase(r.severity) == severityFilter
  }

  predicate Keeps(r: Report, typeFilter: string, severityFilter: string) {
    TypeMatches(r, typeFilter) && SeverityMatches(r, severityFilter)
  }

  /** `filteredReports`: the reports both filters keep, in their original order. */
  function FilteredReports(reports: seq<Report>, typeFilter: string, severityFilter: string): (out: seq<Report>)
    ensures Seqs.Subsequence(out, reports)
    ensures forall r :: r in out <==> r in reports && Keeps(r, typeFilter, severityFilter)
    decreases |reports|
  {
    if reports == [] then []
    else
      var rest := FilteredReports(reports[1..], typeFilter, severityFilter);
      if Keeps(reports[0], typeFilter, severityFilter) then [reports[0]] + rest else rest
  }

  /** Filtering a concatenation filters each part: a report's fate depends on that report alone. */
  lemma {:induction false} FilterAppend(a: seq<Report>, b: seq<Report>, typeFilter: string, severityFilter: string)
    ensures FilteredReports(a + b, typeFilter, severityFilter)
            == FilteredReports(a, typeFilter, severityFilter) + FilteredReports(b, typeFilter, severityFilter)
    decreases |a|
  {
    if a == [] {
      assert a + b == b;
    } else {
      assert (a + b)[0] == a[0];
      assert (a + b)[1..] == a[1..] + b;
      FilterAppend(a[1..], b, typeFilter, severityFilter);
    }
  }

  /** With both filters at "all" every report is shown. */
  lemma {:induction false} FilterAllIsIdentity(reports: seq<Report>)
    ensures FilteredReports(reports, "all", "all") == reports
    decreases |reports|
  {
    if reports != [] {
      FilterAllIsIdentity(reports[1..]);
      assert [reports[0]] + reports[1..] == reports;
    }
  }

  /** Filtering the filtered list again gives the same list. */
  lemma {:induction false} FilterIdempotent(reports: seq<Report>, typeFilter: string, severityFilter: string)
    ensures FilteredReports(FilteredReports(reports, typeFilter, severityFilter), typeFilter, severityFilter)
            == FilteredReports(reports, typeFilter, severityFilter)
    decreases |reports|
  {
    if reports != [] {
      var rest := FilteredReports(reports[1..], typeFilter, severityFilter);
      FilterIdempotent(reports[1..], typeFilter, severityFilter);
      if Keeps(reports[0], typeFilter, severityFilter) {
        assert ([reports[0]] + rest)[1..] == rest;
      }
    }
  }

  /** The lower-cased type filter "pothole" keeps exactly the reports whose type contains it, in any letter case. */
  lemma PotholeFilter(reports: seq<Report>)
    ensures forall r :: r in FilteredReports(reports, "pothole", "all") <==>
              r in reports && exists i :: JsString.OccursAt(JsString.ToLowerCase(r.issueType), "pothole", i)
  {
  }

  // ---------------------------------------------------------------- aggregate stats

  datatype Stats = Stats(
    total: nat,
    pending: nat,
    inProgress: nat,
    resolved: nat,
    highSeverity: nat,
    totalCost: Option<int>)   // None is the NaN that a non-numeric cost makes of the sum

  function Statuses(reports: seq<Report>): (keys: seq<string>)
    ensures |keys| == |reports| && forall i :: 0 <= i < |reports| ==> keys[i] == reports[i].status
  {
    seq(|reports|, i requires 0 <= i < |reports| => reports[i].status)
  }

  function Severities(reports: seq<Report>): (keys: seq<string>)
    ensures |keys| == |reports| && forall i :: 0 <= i < |reports| ==> keys[i] == reports[i].severity
  {
    seq(|reports|, i requires 0 <= i < |reports| => reports[i].severity)
  }

  /**
   * `parseInt(r.estimatedCost.replace(/[\$,]/g, ""))`: a cost without a decimal digit is NaN,
   * and a cost without dollar signs or commas is read as written.
   */
  function CostOf(r: Report): (c: Option<int>)
    ensures c.Some? ==> exists i :: 0 <= i < |r.estimatedCost| && JsString.IsDecimalDigit(r.estimatedCost[i])
    ensures (forall i :: 0 <= i < |r.estimatedCost| ==> r.estimatedCost[i] != '$' && r.estimatedCost[i] != ',') ==>
              c == JsString.ParseInt(r.estimatedCost)
  {
    var stripped := JsString.StripDollarsAndCommas(r.estimatedCost);
    var clean := forall i :: 0 <= i < |r.estimatedCost| ==> r.estimatedCost[i] != '$' && r.estimatedCost[i] != ',';
    assert clean ==> stripped == r.estimatedCost by {
      if clean {
        JsString.StripDollarsAndCommasClean(r.estimatedCost);
      }
    }
    var c := JsString.ParseInt(stripped);
    if c.Some? then
      var i :| 0 <= i < |stripped| && JsString.IsDecimalDigit(stripped[i]);
      assert stripped[i] in r.estimatedCost;
      c
    else c
  }

  /** The parsed cost of each report, in order. */
  function Costs(reports: seq<Report>): (costs: seq<Option<int>>)
    ensures |costs| == |reports|
    ensures forall i :: 0 <= i < |reports| ==> costs[i] == CostOf(reports[i])
    decreases |reports|
  {
    if reports == [] then [] else [CostOf(reports[0])] + Costs(reports[1..])
  }

  /** One step of the `reduce`: `sum + cost`, where NaN on either side gives NaN. */
  function AddCost(sum: Option<int>, cost: Option<int>): (r: Option<int>)
    ensures r.Some? <==> sum.Some? && cost.Some?
    ensures r.Some? ==> r.value == sum.value + cost.value
  {
    if sum.Some? && cost.Some? then Some(sum.value + cost.value) else None
  }

  /** The `reduce` of parsed costs from the left, starting at 0; one NaN makes the whole sum NaN. */
  function SumCosts(costs: seq<Option<int>>): (sum: Option<int>)
    ensures sum.Some? <==> forall i :: 0 <= i < |costs| ==> costs[i].Some?
    decreases |costs|
  {
    if costs == [] then Some(0)
    else
      AddCost(SumCosts(costs[..|costs| - 1]), costs[|costs| - 1])
  }

  /** The sum over a concatenation is the sum of the two sums (and NaN if either is). */
  lemma {:induction false} SumCostsAppend(a: seq<Option<int>>, b: seq<Option<int>>)
    ensures SumCosts(a + b) == AddCost(SumCosts(a), SumCosts(b))
    decreases |b|
  {
    if b == [] {
      assert a + b == a;
    } else {
      var b' := b[..|b| - 1];
      assert (a + b)[..|a + b| - 1] == a + b';
      assert (a + b)[|a + b| - 1] == b[|b| - 1];
      SumCostsAppend(a, b');
    }
  }

  /** `stats`: the counts by status and by "High" severity (exact, case-sensitive) and the total cost. */
  function ComputeStats(reports: seq<Report>): (s: Stats)
    ensures s.total == |reports|
    ensures s.pending == multiset(Statuses(reports))["Pending"]
    ensures s.inProgress == multiset(Statuses(reports))["In Progress"]
    ensures s.resolved == multiset(Statuses(reports))["Resolved"]
    ensures s.highSeverity == multiset(Severities(reports))["High"]
    ensures s.totalCost == SumCosts(Costs(reports))
    ensures s.pending <= s.total && s.inProgress <= s.total && s.resolved <= s.total && s.highSeverity <= s.total
    ensures s.pending + s.inProgress + s.resolved <= s.total
    ensures s.pending + s.inProgress + s.resolved == s.total <==>
            forall i :: 0 <= i < |reports| ==>
              reports[i].status == "Pending" || reports[i].status == "In Progress" || reports[i].status == "Resolved"
    ensures s.highSeverity == 0 <==> forall i :: 0 <= i < |reports| ==> reports[i].severity != "High"
  {
    var statuses := Statuses(reports);
    StatusCoverage(reports);
    NoHighSeverity(reports);
    Stats(
      |reports|,
      Seqs.Occurrences(statuses, "Pending"),
      Seqs.Occurrences(statuses, "In Progress"),
      Seqs.Occurrences(statuses, "Resolved"),
      Seqs.Occurrences(Severities(reports), "High"),
      SumCosts(Costs(reports)))
  }

  /**
   * The three status counters together cover at most every report, and all of them exactly
   * when no report has a fourth status.
   */
  lemma StatusCoverage(reports: seq<Report>)
    ensures var statuses := Statuses(reports);
            Seqs.Occurrences(statuses, "Pending") + Seqs.Occurrences(statuses, "In Progress")
              + Seqs.Occurrences(statuses, "Resolved") <= |reports|
    ensures var statuses := Statuses(reports);
            Seqs.Occurrences(statuses, "Pending") + Seqs.Occurrences(statuses, "In Progress")
              + Seqs.Occurrences(statuses, "Resolved") == |reports|
            <==> forall i :: 0 <= i < |reports| ==>
                   reports[i].status == "Pending" || reports[i].status == "In Progress" || reports[i].status == "Resolved"
  {
    var statuses := Statuses(reports);
    Seqs.OccurrencesOfThree(statuses, "Pending", "In Progress", "Resolved");
    assert forall i :: 0 <= i < |reports| ==> statuses[i] == reports[i].status;
  }

  /** No report is counted as high severity exactly when none has severity `High`. */
  lemma NoHighSeverity(reports: seq<Report>)
    ensures Seqs.Occurrences(Severities(reports), "High") == 0 <==>
            forall i :: 0 <= i < |reports| ==> reports[i].severity != "High"
  {
    var severities := Severities(reports);
    assert forall i :: 0 <= i < |reports| ==> severities[i] == reports[i].severity;
    assert "High" in severities <==> exists i :: 0 <= i < |severities| && severities[i] == "High";
  }

  /** A formatted cost such as "$1,200" loses its dollar sign and comma ... */
  lemma StripExample()
    ensures JsString.StripDollarsAndCommas("$1,200") == "1200"
  {
    JsString.StripDollarsAndCommasClean("200");
    assert "$1,200"[1..] == "1,200";
    assert "1,200"[1..] == ",200";
    assert ",200"[1..] == "200";
    assert "1,200"[0] == '1';
    assert [ '1' ] + "200" == "1200";
  }

  /** ... and then reads as the number its digits spell. */
  lemma ParseExample()
    ensures JsString.ParseInt("1200") == Some(1200)
  {
    assert JsString.DecimalString(1) == "1";
    assert JsString.DecimalString(12) == "12";
    assert JsString.DecimalString(120) == "120";
    assert JsString.DecimalString(1200) == "1200";
    JsString.ParseIntDecimalString(1200);
  }

  /** A cost written "$" followed by a decimal numeral parses to that number. */
  lemma DollarAmount(r: Report, n: nat)
    requires r.estimatedCost == "$" + JsString.DecimalString(n)
    ensures CostOf(r) == Some(n)
  {
    var digits := JsString.DecimalString(n);
    assert ("$" + digits)[1..] == digits;
    JsString.StripDollarsAndCommasClean(digits);
    JsString.ParseIntDecimalString(n);
  }

  lemma SeedCost0()
    ensures CostOf(SeedReports[0]) == Some(450)
  {
    assert JsString.DecimalString(450) == "450" by {
      assert JsString.DecimalString(4) == "4";
      assert JsString.DecimalString(45) == "45";
    }
    DollarAmount(SeedReports[0], 450);
  }

  lemma SeedCost1()
    ensures CostOf(SeedReports[1]) == Some(280)
  {
    assert JsString.DecimalString(280) == "280" by {
      assert JsString.DecimalString(2) == "2";
      assert JsString.DecimalString(28) == "28";
    }
    DollarAmount(SeedReports[1], 280);
  }

  lemma SeedCost2()
    ensures CostOf(SeedReports[2]) == Some(1200)
  {
    assert SeedReports[2].estimatedCost == "$1,200";
    StripExample();
    ParseExample();
  }

  lemma SeedCost3()
    ensures CostOf(SeedReports[3]) == Some(180)
  {
    assert JsString.DecimalString(180) == "180" by {
      assert JsString.DecimalString(1) == "1";
      assert JsString.DecimalString(18) == "18";
    }
    DollarAmount(SeedReports[3], 180);
  }

  lemma {:induction false} CostsAppend(a: seq<Report>, b: seq<Report>)
    ensures Costs(a + b) == Costs(a) + Costs(b)
    decreases |a|
  {
    if a == [] {
      assert a + b == b;
    } else {
      assert (a + b)[1..] == a[1..] + b;
      CostsAppend(a[1..], b);
    }
  }

  lemma SumCostsSingle(c: Option<int>)
    ensures SumCosts([c]) == c
  {
    assert [c][..0] == [];
  }

  /** The total cost of a list is the running sum of its reports' costs. */
  lemma TotalCostSnoc(rs: seq<Report>, r: Report)
    ensures SumCosts(Costs(rs + [r])) == AddCost(SumCosts(Costs(rs)), CostOf(r))
  {
    var c := CostOf(r);
    CostsAppend(rs, [r]);
    assert Costs([r]) == [c];
    SumCostsAppend(Costs(rs), [c]);
    SumCostsSingle(c);
  }

  /** The sum of four costs, spelled out as the `reduce` adds them. */
  lemma SumCostsOfFour(cs: seq<Option<int>>)
    requires |cs| == 4
    ensures SumCosts(cs) == AddCost(AddCost(AddCost(AddCost(Some(0), cs[0]), cs[1]), cs[2]), cs[3])
  {
    var c1, c2, c3 := cs[..1], cs[..2], cs[..3];
    assert SumCosts(c1) == AddCost(Some(0), cs[0]) by {
      assert c1[..0] == [];
    }
    assert SumCosts(c2) == AddCost(SumCosts(c1), cs[1]) by {
      assert c2[..1] == c1;
    }
    assert SumCosts(c3) == AddCost(SumCosts(c2), cs[2]) by {
      assert c3[..2] == c2;
    }
    assert cs[..3] == c3;
  }

  /** The total of four reports, spelled out as the `reduce` computes it. */
  lemma TotalCostOfFour(rs: seq<Report>)
    requires |rs| == 4
    ensures SumCosts(Costs(rs)) ==
            AddCost(AddCost(AddCost(AddCost(Some(0), CostOf(rs[0])), CostOf(rs[1])), CostOf(rs[2])), CostOf(rs[3]))
  {
    SumCostsOfFour(Costs(rs));
  }

  lemma SeedTotalCost()
    ensures SumCosts(Costs(SeedReports)) == Some(2110)
  {
    SeedCost0();
    SeedCost1();
    SeedCost2();
    SeedCost3();
    TotalCostOfFour(SeedReports);
  }

  lemma SeedStatusColumn()
    ensures Statuses(SeedReports) == ["In Progress", "Resolved", "Pending", "In Progress"]
  {
  }

  lemma SeedSeverityColumn()
    ensures Severities(SeedReports) == ["High", "Medium", "High", "Medium"]
  {
  }

  lemma StatusTally()
    ensures var m := multiset(["In Progress", "Resolved", "Pending", "In Progress"]);
            m["Pending"] == 1 && m["In Progress"] == 2 && m["Resolved"] == 1
  {
  }

  lemma SeverityTally()
    ensures multiset(["High", "Medium", "High", "Medium"])["High"] == 2
  {
  }

  /** How often each counted status and severity occurs among the seeded reports. */
  lemma SeedCounts()
    ensures multiset(Statuses(SeedReports))["Pending"] == 1
    ensures multiset(Statuses(SeedReports))["In Progress"] == 2
    ensures multiset(Statuses(SeedReports))["Resolved"] == 1
    ensures multiset(Severities(SeedReports))["High"] == 2
  {
    SeedStatusColumn();
    SeedSeverityColumn();
    StatusTally();
    SeverityTally();
  }

  /** The figures the dashboard shows for its four sample reports. */
  lemma SeedStats()
    ensures ComputeStats(SeedReports) == Stats(4, 1, 2, 1, 2, Some(2110))
  {
    SeedTotalCost();
    SeedCounts();
  }
}
