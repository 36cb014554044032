/**
 The dashboard's `fetchStats`: project and task counts, and for admins the
 income/expense sums and profit, plus the "Active / Ongoing / Completed" bar
 data. A query answer of `null` counts as no rows. Amounts are integer cents.
 */
module Dashboard {
  import opened Common

  datatype FinanceRecord = FinanceRecord(kind: string, amount: int)

  datatype Stats = Stats(
    totalProjects: nat,
    activeProjects: nat,
    completedProjects: nat,
    totalTasks: nat,
    pendingTasks: nat,
    totalEarnings: int,
    totalExpenses: int,
    profit: int)

  /** The answers of the three queries; `finance` is consulted only for admins. */
  datatype FetchOutcome =
    | Answered(projects: Option<seq<string>>, tasks: Option<seq<string>>,
               finance: Option<seq<FinanceRecord>>)
    | Threw

  datatype DashboardState = DashboardState(stats: Stats, loading: bool)

  datatype Bar = Bar(name: string, value: int)

  const ZeroStats: Stats := Stats(0, 0, 0, 0, 0, 0, 0, 0)
  const InitialDashboard: DashboardState := DashboardState(ZeroStats, true)

  /** `rows.filter(r => r === s).length` */
  function CountEq(rows: seq<string>, s: string): (n: nat)
    ensures n <= |rows|
    decreases |rows|
  {
    if |rows| == 0 then 0
    else (if rows[0] == s then 1 else 0) + CountEq(rows[1..], s)
  }

  /** `rows.filter(r => r !== s).length` */
  function CountNe(rows: seq<string>, s: string): (n: nat)
    ensures n <= |rows|
    decreases |rows|
  {
    if |rows| == 0 then 0
    else (if rows[0] != s then 1 else 0) + CountNe(rows[1..], s)
  }

  /** `records.filter(f => f.type === kind)` */
  function FilterKind(records: seq<FinanceRecord>, kind: string): (r: seq<FinanceRecord>)
    ensures |r| <= |records|
    ensures forall i :: 0 <= i < |r| ==> r[i].kind == kind && r[i] in records
    decreases |records|
  {
    if |records| == 0 then []
    else (if records[0].kind == kind then [records[0]] else []) + FilterKind(records[1..], kind)
  }

  /** `.reduce((sum, f) => sum + Number(f.amount), 0)` */
  function SumAmounts(records: seq<FinanceRecord>): int
    decreases |records|
  {
    if |records| == 0 then 0 else records[0].amount + SumAmounts(records[1..])
  }

  /** The statistics computed from the query answers. */
  function ComputeStats(isAdmin: bool, projects: Option<seq<string>>, tasks: Option<seq<string>>,
                        finance: Option<seq<FinanceRecord>>): (st: Stats)
    ensures st.totalProjects == |projects.GetOr([])|
    ensures st.activeProjects + st.completedProjects <= st.totalProjects
    ensures st.pendingTasks <= st.totalTasks == |tasks.GetOr([])|
    ensures st.profit == st.totalEarnings - st.totalExpenses
    ensures st.activeProjects == multiset(projects.GetOr([]))["active"]
    ensures st.completedProjects == multiset(projects.GetOr([]))["completed"]
    ensures st.totalTasks - st.pendingTasks == multiset(tasks.GetOr([]))["done"]
    ensures !isAdmin ==> st.totalEarnings == 0 && st.totalExpenses == 0 && st.profit == 0
    ensures isAdmin ==> st.totalEarnings == KindTotal(finance.GetOr([]), "income")
    ensures isAdmin ==> st.totalExpenses == KindTotal(finance.GetOr([]), "expense")
    ensures isAdmin ==> st.profit == SignedTotal(finance.GetOr([]))
  {
    var ps := projects.GetOr([]);
    var ts := tasks.GetOr([]);
    var fs := if isAdmin then finance.GetOr([]) else [];
    var earnings := SumAmounts(FilterKind(fs, "income"));
    var expenses := SumAmounts(FilterKind(fs, "expense"));
    CountDisjoint(ps, "active", "completed");
    CountEqIsMultiplicity(ps, "active");
    CountEqIsMultiplicity(ps, "completed");
    CountEqIsMultiplicity(ts, "done");
    PendingComplementsDone(ts);
    ProfitIsSignedTotal(fs);
    FilterSumIsKindTotal(fs, "income");
    FilterSumIsKindTotal(fs, "expense");
    Stats(|ps|, CountEq(ps, "active"), CountEq(ps, "completed"),
          |ts|, CountNe(ts, "done"), earnings, expenses, earnings - expenses)
  }

  /** `fetchStats` as a whole: new statistics when every query answered, the
      old ones when something threw; loading ends either way. */
  function Refresh(st: DashboardState, isAdmin: bool, outcome: FetchOutcome): (r: DashboardState)
    ensures !r.loading
    ensures outcome.Threw? ==> r.stats == st.stats
    ensures outcome.Answered? ==>
              r.stats == ComputeStats(isAdmin, outcome.projects, outcome.tasks, outcome.finance)
  {
    match outcome
    case Threw => st.(loading := false)
    case Answered(ps, ts, fs) => DashboardState(ComputeStats(isAdmin, ps, ts, fs), false)
  }

  /** The bar chart's three values. */
  function ProjectBars(st: Stats): (bars: seq<Bar>)
    ensures |bars| == 3
    ensures bars[0] == Bar("Active", st.activeProjects)
    ensures bars[2] == Bar("Completed", st.completedProjects)
    ensures bars[1].name == "Ongoing"
    ensures bars[0].value + bars[1].value + bars[2].value == st.totalProjects
  {
    [Bar("Active", st.activeProjects),
     Bar("Ongoing", st.totalProjects - st.activeProjects - st.completedProjects),
     Bar("Completed", st.completedProjects)]
  }

  /** Counting rows equal to `s` counts the occurrences of `s`. */
  lemma {:induction false} CountEqIsMultiplicity(rows: seq<string>, s: string)
    ensures CountEq(rows, s) == multiset(rows)[s]
    decreases |rows|
  {
    if |rows| > 0 {
      CountEqIsMultiplicity(rows[1..], s);
      assert rows == [rows[0]] + rows[1..];
    }
  }

  /** The pending count is everything that is not `done`. */
  lemma {:induction false} PendingComplementsDone(rows: seq<string>)
    ensures CountNe(rows, "done") + CountEq(rows, "done") == |rows|
    decreases |rows|
  {
    if |rows| > 0 {
      PendingComplementsDone(rows[1..]);
    }
  }

  /** Two different statuses are counted over disjoint rows. */
  lemma {:induction false} CountDisjoint(rows: seq<string>, a: string, b: string)
    requires a != b
    ensures CountEq(rows, a) + CountEq(rows, b) <= |rows|
    decreases |rows|
  {
    if |rows| > 0 {
      CountDisjoint(rows[1..], a, b);
    }
  }

  /** The "Ongoing" bar of any statistics the dashboard shows is never
      negative, and the three bars add up to the project count. */
  lemma OngoingNonNegative(st: DashboardState, isAdmin: bool, outcome: FetchOutcome)
    requires st == InitialDashboard || st.stats.activeProjects + st.stats.completedProjects <= st.stats.totalProjects
    ensures var bars := ProjectBars(Refresh(st, isAdmin, outcome).stats);
      bars[1].value >= 0 && bars[0].value + bars[1].value + bars[2].value
                              == Refresh(st, isAdmin, outcome).stats.totalProjects
  {
  }

  /** A signed reference sum: incomes add, expenses subtract, other kinds are
      ignored. */
  function SignedTotal(records: seq<FinanceRecord>): int
    decreases |records|
  {
    if |records| == 0 then 0
    else
      var r := records[0];
      (if r.kind == "income" then r.amount else if r.kind == "expense" then -r.amount else 0)
      + SignedTotal(records[1..])
  }

  /** A reference per-type total: the amounts of the records of that type. */
  function KindTotal(records: seq<FinanceRecord>, kind: string): int
    decreases |records|
  {
    if |records| == 0 then 0
    else (if records[0].kind == kind then records[0].amount else 0) + KindTotal(records[1..], kind)
  }

  /** Filtering by type and then summing gives the per-type total. */
  lemma {:induction false} FilterSumIsKindTotal(records: seq<FinanceRecord>, kind: string)
    ensures SumAmounts(FilterKind(records, kind)) == KindTotal(records, kind)
    decreases |records|
  {
    if |records| > 0 {
      FilterSumIsKindTotal(records[1..], kind);
      var r := records[0];
      SumAppend(if r.kind == kind then [r] else [], FilterKind(records[1..], kind));
    }
  }

  /** Summing amounts distributes over concatenation. */
  lemma {:induction false} SumAppend(a: seq<FinanceRecord>, b: seq<FinanceRecord>)
    ensures SumAmounts(a + b) == SumAmounts(a) + SumAmounts(b)
    decreases |a|
  {
    if |a| == 0 {
      assert a + b == b;
    } else {
      assert (a + b)[1..] == a[1..] + b;
      SumAppend(a[1..], b);
    }
  }

  /** For admins, profit is the signed total of the finance rows: the filters
      by type pick out exactly the incomes and the expenses. */
  lemma {:induction false} ProfitIsSignedTotal(records: seq<FinanceRecord>)
    ensures SumAmounts(FilterKind(records, "income")) - SumAmounts(FilterKind(records, "expense"))
            == SignedTotal(records)
    decreases |records|
  {
    if |records| > 0 {
      ProfitIsSignedTotal(records[1..]);
      var r := records[0];
      SumAppend(if r.kind == "income" then [r] else [], FilterKind(records[1..], "income"));
      SumAppend(if r.kind == "expense" then [r] else [], FilterKind(records[1..], "expense"));
    }
  }

  /** For a non-admin the finance answer plays no part: the records are never
      read, whatever they would have been. */
  lemma NonAdminIgnoresFinance(projects: Option<seq<string>>, tasks: Option<seq<string>>,
                               f1: Option<seq<FinanceRecord>>, f2: Option<seq<FinanceRecord>>)
    ensures ComputeStats(false, projects, tasks, f1) == ComputeStats(false, projects, tasks, f2)
  {
  }

  /** Scenario: incomes 500 and 300 and an expense 200 give earnings 800,
      expenses 200 and profit 600 for an admin. */
  lemma AdminFinanceScenario()
    ensures var rs := [FinanceRecord("income", 500), FinanceRecord("expense", 200),
                       FinanceRecord("income", 300)];
      var st := ComputeStats(true, None, None, Some(rs));
      st.totalEarnings == 800 && st.totalExpenses == 200 && st.profit == 600
  {
    var rs := [FinanceRecord("income", 500), FinanceRecord("expense", 200),
               FinanceRecord("income", 300)];
    assert rs[1..][1..][1..] == [];
    assert FilterKind(rs, "income") == [rs[0], rs[2]];
    assert FilterKind(rs, "expense") == [rs[1]];
    assert [rs[0], rs[2]][1..] == [rs[2]];
    assert SumAmounts([rs[2]]) == 300;
    assert SumAmounts([rs[0], rs[2]]) == 800;
    assert SumAmounts([rs[1]]) == 200;
  }
}
