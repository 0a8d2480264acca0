/**
 * The data pipeline of the progress graph: an optional inclusive date range
 * filters three series (objectives, projects, self-esteem scores), every kept
 * item becomes one chart record, the three record lists are concatenated in
 * that order and the result is sorted by date with a stable sort.
 *
 * Dates are integers compared with <= (an abstract total order standing for
 * the dayjs timestamps); numeric values are integers.
 */
module ProgressGraph {
  import opened Wrappers

  datatype Objective = Objective(id: string, title: string, progress: int, date: int)
  datatype Project = Project(id: string, title: string, completed: bool, date: int)
  datatype SelfEsteemScore = SelfEsteemScore(id: string, score: int, date: int)

  /** The two ends of the range chosen in the range picker. */
  datatype Period = Period(start: int, end: int)

  /** Which key a chart record carries its value under. */
  datatype Series = Objectives | Projects | SelfEsteemScores

  /** One point of the line chart: `{ date, objectives: v }`, `{ date, projects: v }`
      or `{ date, selfEsteemScores: v }`. */
  datatype ChartRecord = ChartRecord(date: int, series: Series, value: int)

  // ---------------------------------------------------------------------------
  // The three date-range filters
  // ---------------------------------------------------------------------------

  /** `isBetween(start, end, null, '[]')`: both ends are inclusive. */
  predicate InPeriod(date: int, p: Period) {
    p.start <= date <= p.end
  }

  /** Whether an item dated `date` survives the filter; with no period everything does. */
  predicate Keeps(period: Option<Period>, date: int) {
    period.None? || InPeriod(date, period.value)
  }

  /** `r` is obtained from `s` by deleting elements (relative order is kept). */
  predicate IsSubsequence<T(==)>(r: seq<T>, s: seq<T>)
    decreases |s|
  {
    if r == [] then true
    else if s == [] then false
    else if r[0] == s[0] then IsSubsequence(r[1..], s[1..])
    else IsSubsequence(r, s[1..])
  }

  lemma {:induction false} SubsequenceReflexive<T>(s: seq<T>)
    ensures IsSubsequence(s, s)
  {
    if s != [] {
      SubsequenceReflexive(s[1..]);
    }
  }

  /** `xs.filter(x => dayjs(x.date).isBetween(p.start, p.end, null, '[]'))` */
  function KeepInPeriod<T(==,!new)>(xs: seq<T>, dateOf: T -> int, p: Period): (r: seq<T>)
    ensures IsSubsequence(r, xs)
    ensures forall x :: x in r ==> InPeriod(dateOf(x), p)
    ensures forall x :: multiset(r)[x] == if InPeriod(dateOf(x), p) then multiset(xs)[x] else 0
  {
    if xs == [] then []
    else
      var rest := KeepInPeriod(xs[1..], dateOf, p);
      assert xs == [xs[0]] + xs[1..];
      if InPeriod(dateOf(xs[0]), p) then
        assert ([xs[0]] + rest)[1..] == rest;
        [xs[0]] + rest
      else
        assert rest != [] ==> rest[0] != xs[0];
        rest
  }

  /** `if (!timePeriod) return xs; return xs.filter(...)`: the memo shared by the three series. */
  function FilterByPeriod<T(==,!new)>(xs: seq<T>, dateOf: T -> int, period: Option<Period>): (r: seq<T>)
    ensures period.None? ==> r == xs
    ensures IsSubsequence(r, xs)
    ensures forall x :: x in r ==> Keeps(period, dateOf(x))
    ensures forall x :: multiset(r)[x] == if Keeps(period, dateOf(x)) then multiset(xs)[x] else 0
  {
    match period
    case None => SubsequenceReflexive(xs); xs
    case Some(p) => KeepInPeriod(xs, dateOf, p)
  }

  function FilteredObjectives(objectives: seq<Objective>, period: Option<Period>): seq<Objective> {
    FilterByPeriod(objectives, (o: Objective) => o.date, period)
  }

  function FilteredProjects(projects: seq<Project>, period: Option<Period>): seq<Project> {
    FilterByPeriod(projects, (p: Project) => p.date, period)
  }

  function FilteredScores(scores: seq<SelfEsteemScore>, period: Option<Period>): seq<SelfEsteemScore> {
    FilterByPeriod(scores, (s: SelfEsteemScore) => s.date, period)
  }

  /** An item outside the period is dropped and one inside it is kept, for
      every end point included: the filter of the objectives series. */
  lemma ObjectiveKeptIffInPeriod(objectives: seq<Objective>, p: Period, o: Objective)
    requires o in objectives
    ensures o in FilteredObjectives(objectives, Some(p)) <==> p.start <= o.date <= p.end
  {
    var r := FilteredObjectives(objectives, Some(p));
    assert multiset(r)[o] == if InPeriod(o.date, p) then multiset(objectives)[o] else 0;
  }

  /** The same for the projects series. */
  lemma ProjectKeptIffInPeriod(projects: seq<Project>, p: Period, x: Project)
    requires x in projects
    ensures x in FilteredProjects(projects, Some(p)) <==> p.start <= x.date <= p.end
  {
    var r := FilteredProjects(projects, Some(p));
    assert multiset(r)[x] == if InPeriod(x.date, p) then multiset(projects)[x] else 0;
  }

  /** The same for the self-esteem series. */
  lemma ScoreKeptIffInPeriod(scores: seq<SelfEsteemScore>, p: Period, x: SelfEsteemScore)
    requires x in scores
    ensures x in FilteredScores(scores, Some(p)) <==> p.start <= x.date <= p.end
  {
    var r := FilteredScores(scores, Some(p));
    assert multiset(r)[x] == if InPeriod(x.date, p) then multiset(scores)[x] else 0;
  }

  // ---------------------------------------------------------------------------
  // Chart records and their concatenation
  // ---------------------------------------------------------------------------

  /** `{ date: obj.date, objectives: obj.progress }` */
  function ObjectiveRecord(o: Objective): (r: ChartRecord)
    ensures r.date == o.date && r.series == Objectives && r.value == o.progress
  {
    ChartRecord(o.date, Objectives, o.progress)
  }

  /** `{ date: proj.date, projects: proj.completed ? 1 : 0 }`: a completion flag. */
  function ProjectRecord(p: Project): (r: ChartRecord)
    ensures r.date == p.date && r.series == Projects
    ensures r.value == 0 || r.value == 1
    ensures r.value == 1 <==> p.completed
  {
    ChartRecord(p.date, Projects, if p.completed then 1 else 0)
  }

  /** `{ date: score.date, selfEsteemScores: score.score }` */
  function ScoreRecord(s: SelfEsteemScore): (r: ChartRecord)
    ensures r.date == s.date && r.series == SelfEsteemScores && r.value == s.score
  {
    ChartRecord(s.date, SelfEsteemScores, s.score)
  }

  /** One record per item, in the order of the items (one `forEach` of pushes). */
  function Records<T>(xs: seq<T>, toRecord: T -> ChartRecord): seq<ChartRecord> {
    seq(|xs|, i requires 0 <= i < |xs| => toRecord(xs[i]))
  }

  /** `combinedData` before the sort: objectives, then projects, then scores. */
  function Combined(fo: seq<Objective>, fp: seq<Project>, fs: seq<SelfEsteemScore>): seq<ChartRecord> {
    Records(fo, ObjectiveRecord) + Records(fp, ProjectRecord) + Records(fs, ScoreRecord)
  }

  // ---------------------------------------------------------------------------
  // The sort: `combinedData.sort((a, b) => dayjs(a.date).diff(dayjs(b.date)))`.
  // Array.prototype.sort is stable (ECMA-262, 2019 edition onwards); it is
  // modelled by a stable insertion sort, and StableSortIsUnique shows that any
  // sort that is ordered and stable gives the same result.
  // ---------------------------------------------------------------------------

  predicate SortedByDate(s: seq<ChartRecord>) {
    forall i, j :: 0 <= i < j < |s| ==> s[i].date <= s[j].date
  }

  /** The records of `s` that carry date `d`, in their order in `s`. */
  function OnDate(s: seq<ChartRecord>, d: int): seq<ChartRecord> {
    if s == [] then [] else (if s[0].date == d then [s[0]] else []) + OnDate(s[1..], d)
  }

  lemma {:induction false} OnDateMembers(s: seq<ChartRecord>, d: int)
    ensures forall x :: x in OnDate(s, d) <==> x in s && x.date == d
  {
    if s != [] {
      OnDateMembers(s[1..], d);
      assert s == [s[0]] + s[1..];
    }
  }

  /** Places `x` before the first record whose date is not earlier than its own. */
  function InsertByDate(x: ChartRecord, s: seq<ChartRecord>): seq<ChartRecord> {
    if s == [] || x.date <= s[0].date then [x] + s else [s[0]] + InsertByDate(x, s[1..])
  }

  /** Inserting into a date-ordered sequence keeps it ordered and adds exactly `x`. */
  lemma {:induction false} InsertByDateSorted(x: ChartRecord, s: seq<ChartRecord>)
    requires SortedByDate(s)
    ensures |InsertByDate(x, s)| == |s| + 1
    ensures multiset(InsertByDate(x, s)) == multiset(s) + multiset{x}
    ensures SortedByDate(InsertByDate(x, s))
  {
    if s == [] || x.date <= s[0].date {
      PrependSorted(x, s);
    } else {
      var rest := InsertByDate(x, s[1..]);
      InsertByDateSorted(x, s[1..]);
      assert s == [s[0]] + s[1..];
      InsertedAfterHead(x, s, rest);
    }
  }

  lemma PrependSorted(x: ChartRecord, s: seq<ChartRecord>)
    requires SortedByDate(s)
    requires s == [] || x.date <= s[0].date
    ensures SortedByDate([x] + s)
  {
    var r := [x] + s;
    forall i, j | 0 <= i < j < |r|
      ensures r[i].date <= r[j].date
    {
      if i == 0 {
        assert r[j] == s[j - 1];
        assert s[0].date <= s[j - 1].date;
      } else {
        assert r[i] == s[i - 1] && r[j] == s[j - 1];
      }
    }
  }

  lemma InsertedAfterHead(x: ChartRecord, s: seq<ChartRecord>, rest: seq<ChartRecord>)
    requires SortedByDate(s) && s != [] && s[0].date < x.date
    requires SortedByDate(rest) && multiset(rest) == multiset(s[1..]) + multiset{x}
    ensures SortedByDate([s[0]] + rest)
  {
    forall k | 0 <= k < |rest|
      ensures s[0].date <= rest[k].date
    {
      assert rest[k] in multiset(rest);
      if rest[k] != x {
        assert rest[k] in multiset(s[1..]);
        var m :| 0 <= m < |s[1..]| && s[1..][m] == rest[k];
        assert s[m + 1] == rest[k];
      }
    }
    PrependSorted(s[0], rest);
  }

  function SortByDate(s: seq<ChartRecord>): (r: seq<ChartRecord>)
    ensures |r| == |s|
    ensures multiset(r) == multiset(s)
    ensures SortedByDate(r)
  {
    if s == [] then []
    else
      assert s == [s[0]] + s[1..];
      InsertByDateSorted(s[0], SortByDate(s[1..]));
      InsertByDate(s[0], SortByDate(s[1..]))
  }

  lemma OnDateCons(x: ChartRecord, s: seq<ChartRecord>, d: int)
    ensures OnDate([x] + s, d) == (if x.date == d then [x] else []) + OnDate(s, d)
  {
    assert ([x] + s)[0] == x;
    assert ([x] + s)[1..] == s;
  }

  lemma {:induction false} InsertByDateOnDate(x: ChartRecord, s: seq<ChartRecord>, d: int)
    ensures OnDate(InsertByDate(x, s), d) == (if x.date == d then [x] else []) + OnDate(s, d)
  {
    if s == [] || x.date <= s[0].date {
      OnDateCons(x, s, d);
    } else {
      var rest := InsertByDate(x, s[1..]);
      assert InsertByDate(x, s) == [s[0]] + rest;
      OnDateCons(s[0], rest, d);
      InsertByDateOnDate(x, s[1..], d);
      assert s == [s[0]] + s[1..];
      OnDateCons(s[0], s[1..], d);
    }
  }

  /** Stability: for every date, the records carrying it keep their relative order. */
  lemma {:induction false} SortByDateIsStable(s: seq<ChartRecord>, d: int)
    ensures OnDate(SortByDate(s), d) == OnDate(s, d)
  {
    if s != [] {
      SortByDateIsStable(s[1..], d);
      InsertByDateOnDate(s[0], SortByDate(s[1..]), d);
    }
  }

  /** Two date-ordered sequences with the same records, in the same order, on every date are equal. */
  lemma {:induction false} StableSortIsUnique(t: seq<ChartRecord>, u: seq<ChartRecord>)
    requires SortedByDate(t) && SortedByDate(u)
    requires forall d :: OnDate(t, d) == OnDate(u, d)
    ensures t == u
  {
    if t == [] || u == [] {
      FirstDateIsPresent(t);
      FirstDateIsPresent(u);
    } else {
      var d := t[0].date;
      assert t == [t[0]] + t[1..] && u == [u[0]] + u[1..];
      OnDateMembers(t, d);
      OnDateMembers(u, u[0].date);
      assert OnDate(u, d) == OnDate(t, d) && OnDate(t, u[0].date) == OnDate(u, u[0].date);
      FirstIsEarliest(u, t[0], d);
      FirstIsEarliest(t, u[0], u[0].date);
      assert u[0].date == d;
      OnDateCons(t[0], t[1..], d);
      OnDateCons(u[0], u[1..], d);
      assert OnDate(t, d) == OnDate(u, d);
      assert OnDate(t, d)[0] == t[0] && OnDate(u, d)[0] == u[0];
      forall e
        ensures OnDate(t[1..], e) == OnDate(u[1..], e)
      {
        OnDateCons(t[0], t[1..], e);
        OnDateCons(u[0], u[1..], e);
        var head := if t[0].date == e then [t[0]] else [];
        assert OnDate(t, e) == head + OnDate(t[1..], e) && OnDate(u, e) == head + OnDate(u[1..], e);
        assert (head + OnDate(t[1..], e))[|head|..] == OnDate(t[1..], e);
        assert (head + OnDate(u[1..], e))[|head|..] == OnDate(u[1..], e);
      }
      StableSortIsUnique(t[1..], u[1..]);
    }
  }

  lemma FirstDateIsPresent(s: seq<ChartRecord>)
    ensures s != [] ==> OnDate(s, s[0].date) != []
  {
    if s != [] {
      OnDateCons(s[0], s[1..], s[0].date);
      assert s == [s[0]] + s[1..];
    }
  }

  /** In a date-ordered sequence, a record of date `d` that is in it shows the first date is at most `d`. */
  lemma FirstIsEarliest(s: seq<ChartRecord>, x: ChartRecord, d: int)
    requires SortedByDate(s) && s != []
    requires x in OnDate(s, d)
    ensures s[0].date <= d
  {
    OnDateMembers(s, d);
    var k :| 0 <= k < |s| && s[k] == x;
    assert s[0].date <= s[k].date;
  }

  /** The result of the sort is the only ordering of `s` that is by date and stable. */
  lemma SortByDateIsTheStableSort(s: seq<ChartRecord>, r: seq<ChartRecord>)
    requires SortedByDate(r)
    requires forall d :: OnDate(r, d) == OnDate(s, d)
    ensures r == SortByDate(s)
  {
    forall d
      ensures OnDate(r, d) == OnDate(SortByDate(s), d)
    {
      SortByDateIsStable(s, d);
    }
    StableSortIsUnique(r, SortByDate(s));
  }

  // ---------------------------------------------------------------------------
  // Equal dates keep the insertion order of the series
  // ---------------------------------------------------------------------------

  function Rank(s: Series): nat {
    match s
    case Objectives => 0
    case Projects => 1
    case SelfEsteemScores => 2
  }

  predicate SeriesOrdered(s: seq<ChartRecord>) {
    forall i, j :: 0 <= i < j < |s| ==> Rank(s[i].series) <= Rank(s[j].series)
  }

  predicate TiesInSeriesOrder(s: seq<ChartRecord>) {
    forall i, j :: 0 <= i < j < |s| && s[i].date == s[j].date ==> Rank(s[i].series) <= Rank(s[j].series)
  }

  lemma CombinedSeriesOrdered(fo: seq<Objective>, fp: seq<Project>, fs: seq<SelfEsteemScore>)
    ensures SeriesOrdered(Combined(fo, fp, fs))
  {
    var c := Combined(fo, fp, fs);
    var n1, n2 := |fo|, |fo| + |fp|;
    forall i | 0 <= i < |c|
      ensures Rank(c[i].series) == (if i < n1 then 0 else if i < n2 then 1 else 2)
    {
      if i < n1 {
        assert c[i] == ObjectiveRecord(fo[i]);
      } else if i < n2 {
        assert c[i] == ProjectRecord(fp[i - n1]);
      } else {
        assert c[i] == ScoreRecord(fs[i - n2]);
      }
    }
  }

  lemma {:induction false} OnDateKeepsSeriesOrder(s: seq<ChartRecord>, d: int)
    requires SeriesOrdered(s)
    ensures SeriesOrdered(OnDate(s, d))
  {
    if s != [] {
      assert SeriesOrdered(s[1..]);
      OnDateKeepsSeriesOrder(s[1..], d);
      var rest := OnDate(s[1..], d);
      OnDateMembers(s[1..], d);
      forall x | x in rest
        ensures Rank(s[0].series) <= Rank(x.series)
      {
        var k :| 0 <= k < |s[1..]| && s[1..][k] == x;
        assert s[k + 1] == x;
      }
    }
  }

  lemma {:induction false} TiesInSeriesOrderFromOnDate(s: seq<ChartRecord>)
    requires forall d :: SeriesOrdered(OnDate(s, d))
    ensures TiesInSeriesOrder(s)
  {
    if s != [] {
      assert s == [s[0]] + s[1..];
      forall d
        ensures SeriesOrdered(OnDate(s[1..], d))
      {
        OnDateCons(s[0], s[1..], d);
        SeriesOrderedSuffix(OnDate(s, d), if s[0].date == d then 1 else 0);
      }
      TiesInSeriesOrderFromOnDate(s[1..]);
      forall j | 0 < j < |s| && s[0].date == s[j].date
        ensures Rank(s[0].series) <= Rank(s[j].series)
      {
        HeadBeforeTie(s, j);
      }
      forall i, j | 0 <= i < j < |s| && s[i].date == s[j].date
        ensures Rank(s[i].series) <= Rank(s[j].series)
      {
        if i > 0 {
          assert s[1..][i - 1] == s[i] && s[1..][j - 1] == s[j];
        }
      }
    }
  }

  lemma SeriesOrderedSuffix(s: seq<ChartRecord>, k: nat)
    requires SeriesOrdered(s) && k <= |s|
    ensures SeriesOrdered(s[k..])
  {
    forall i, j | 0 <= i < j < |s[k..]|
      ensures Rank(s[k..][i].series) <= Rank(s[k..][j].series)
    {
      assert s[k..][i] == s[k + i] && s[k..][j] == s[k + j];
    }
  }

  lemma HeadBeforeTie(s: seq<ChartRecord>, j: nat)
    requires 0 < j < |s| && s[0].date == s[j].date
    requires SeriesOrdered(OnDate(s, s[0].date))
    ensures Rank(s[0].series) <= Rank(s[j].series)
  {
    var d := s[0].date;
    assert s == [s[0]] + s[1..];
    OnDateCons(s[0], s[1..], d);
    var t := OnDate(s, d);
    var rest := OnDate(s[1..], d);
    assert t == [s[0]] + rest;
    assert s[j] == s[1..][j - 1];
    OnDateMembers(s[1..], d);
    assert s[j] in rest;
    var k :| 0 <= k < |rest| && rest[k] == s[j];
    assert t[0] == s[0] && t[k + 1] == s[j];
  }

  // ---------------------------------------------------------------------------
  // The `data` memo
  // ---------------------------------------------------------------------------

  /** What the chart is drawn from, for the three input series and the selected period. */
  function ChartData(objectives: seq<Objective>, projects: seq<Project>, scores: seq<SelfEsteemScore>,
                     period: Option<Period>): (data: seq<ChartRecord>)
    ensures SortedByDate(data)
    ensures multiset(data) == multiset(Combined(FilteredObjectives(objectives, period),
                                                FilteredProjects(projects, period),
                                                FilteredScores(scores, period)))
  {
    SortByDate(Combined(FilteredObjectives(objectives, period), FilteredProjects(projects, period),
                        FilteredScores(scores, period)))
  }

  /** One `forEach` of the memo: pushes the record of every item onto `combinedData`. */
  method PushRecords<T>(combinedData: seq<ChartRecord>, xs: seq<T>, toRecord: T -> ChartRecord)
    returns (r: seq<ChartRecord>)
    ensures r == combinedData + Records(xs, toRecord)
  {
    r := combinedData;
    for i := 0 to |xs|
      invariant r == combinedData + Records(xs[..i], toRecord)
    {
      assert Records(xs[..i + 1], toRecord) == Records(xs[..i], toRecord) + [toRecord(xs[i])];
      r := r + [toRecord(xs[i])];
    }
    assert xs[..|xs|] == xs;
  }

  /** The `data` memo as the source computes it: three `forEach` loops pushing
      onto `combinedData`, then the sort. */
  method BuildChartData(objectives: seq<Objective>, projects: seq<Project>, scores: seq<SelfEsteemScore>,
                        period: Option<Period>) returns (data: seq<ChartRecord>)
    ensures data == ChartData(objectives, projects, scores, period)
    ensures |data| == |FilteredObjectives(objectives, period)| + |FilteredProjects(projects, period)|
                      + |FilteredScores(scores, period)|
    ensures SortedByDate(data)
  {
    var fo := FilteredObjectives(objectives, period);
    var fp := FilteredProjects(projects, period);
    var fs := FilteredScores(scores, period);
    var combinedData: seq<ChartRecord> := [];
    combinedData := PushRecords(combinedData, fo, ObjectiveRecord);
    assert combinedData == Records(fo, ObjectiveRecord);
    combinedData := PushRecords(combinedData, fp, ProjectRecord);
    combinedData := PushRecords(combinedData, fs, ScoreRecord);
    assert combinedData == Combined(fo, fp, fs);
    data := SortByDate(combinedData);
  }

  /** The chart data is ordered by date and is a permutation of the concatenated
      records, one per filtered item. */
  lemma ChartDataIsSortedPermutation(objectives: seq<Objective>, projects: seq<Project>,
                                     scores: seq<SelfEsteemScore>, period: Option<Period>)
    ensures var fo, fp, fs := FilteredObjectives(objectives, period), FilteredProjects(projects, period),
                              FilteredScores(scores, period);
            var data := ChartData(objectives, projects, scores, period);
            && SortedByDate(data)
            && multiset(data) == multiset(Combined(fo, fp, fs))
            && |data| == |fo| + |fp| + |fs|
  {
  }

  /** Records with equal dates keep the order in which they were pushed. */
  lemma ChartDataIsStable(objectives: seq<Objective>, projects: seq<Project>,
                          scores: seq<SelfEsteemScore>, period: Option<Period>, d: int)
    ensures OnDate(ChartData(objectives, projects, scores, period), d)
         == OnDate(Combined(FilteredObjectives(objectives, period), FilteredProjects(projects, period),
                            FilteredScores(scores, period)), d)
  {
    SortByDateIsStable(Combined(FilteredObjectives(objectives, period), FilteredProjects(projects, period),
                                FilteredScores(scores, period)), d);
  }

  /** On equal dates, objective records come before project records, which come before score records. */
  lemma ChartDataTiesInSeriesOrder(objectives: seq<Objective>, projects: seq<Project>,
                                   scores: seq<SelfEsteemScore>, period: Option<Period>)
    ensures TiesInSeriesOrder(ChartData(objectives, projects, scores, period))
  {
    var c := Combined(FilteredObjectives(objectives, period), FilteredProjects(projects, period),
                      FilteredScores(scores, period));
    var data := ChartData(objectives, projects, scores, period);
    CombinedSeriesOrdered(FilteredObjectives(objectives, period), FilteredProjects(projects, period),
                          FilteredScores(scores, period));
    forall d
      ensures SeriesOrdered(OnDate(data, d))
    {
      SortByDateIsStable(c, d);
      OnDateKeepsSeriesOrder(c, d);
    }
    TiesInSeriesOrderFromOnDate(data);
  }

  /** Every filtered item has its record in the chart data, and every record
      comes from a filtered item: objectives carry `progress`, projects carry 1
      when completed and 0 otherwise, scores carry `score`. */
  lemma ChartDataRecords(objectives: seq<Objective>, projects: seq<Project>,
                         scores: seq<SelfEsteemScore>, period: Option<Period>)
    ensures var data := ChartData(objectives, projects, scores, period);
            && (forall o :: o in FilteredObjectives(objectives, period) ==>
                  ChartRecord(o.date, Objectives, o.progress) in data)
            && (forall p :: p in FilteredProjects(projects, period) ==>
                  ChartRecord(p.date, Projects, if p.completed then 1 else 0) in data)
            && (forall s :: s in FilteredScores(scores, period) ==>
                  ChartRecord(s.date, SelfEsteemScores, s.score) in data)
            && (forall r :: r in data && r.series == Objectives ==>
                  exists o :: o in FilteredObjectives(objectives, period) && r == ObjectiveRecord(o))
            && (forall r :: r in data && r.series == Projects ==>
                  (r.value == 0 || r.value == 1) &&
                  exists p :: p in FilteredProjects(projects, period) && r == ProjectRecord(p))
            && (forall r :: r in data && r.series == SelfEsteemScores ==>
                  exists s :: s in FilteredScores(scores, period) && r == ScoreRecord(s))
  {
    var fo, fp, fs := FilteredObjectives(objectives, period), FilteredProjects(projects, period),
                      FilteredScores(scores, period);
    var c := Combined(fo, fp, fs);
    var data := ChartData(objectives, projects, scores, period);
    CombinedRecords(fo, fp, fs);
    assert multiset(data) == multiset(c);
    forall r
      ensures r in data <==> r in c
    {
      assert r in data <==> r in multiset(data);
      assert r in c <==> r in multiset(c);
    }
  }

  lemma CombinedRecords(fo: seq<Objective>, fp: seq<Project>, fs: seq<SelfEsteemScore>)
    ensures var c := Combined(fo, fp, fs);
            && (forall o :: o in fo ==> ObjectiveRecord(o) in c)
            && (forall p :: p in fp ==> ProjectRecord(p) in c)
            && (forall s :: s in fs ==> ScoreRecord(s) in c)
            && (forall r :: r in c && r.series == Objectives ==> exists o :: o in fo && r == ObjectiveRecord(o))
            && (forall r :: r in c && r.series == Projects ==> exists p :: p in fp && r == ProjectRecord(p))
            && (forall r :: r in c && r.series == SelfEsteemScores ==> exists s :: s in fs && r == ScoreRecord(s))
  {
    var c := Combined(fo, fp, fs);
    forall o | o in fo
      ensures ObjectiveRecord(o) in c
    {
      var k :| 0 <= k < |fo| && fo[k] == o;
      assert c[k] == ObjectiveRecord(o);
    }
    forall p | p in fp
      ensures ProjectRecord(p) in c
    {
      var k :| 0 <= k < |fp| && fp[k] == p;
      assert c[|fo| + k] == ProjectRecord(p);
    }
    forall s | s in fs
      ensures ScoreRecord(s) in c
    {
      var k :| 0 <= k < |fs| && fs[k] == s;
      assert c[|fo| + |fp| + k] == ScoreRecord(s);
    }
    forall r | r in c
      ensures r.series == Objectives ==> exists o :: o in fo && r == ObjectiveRecord(o)
      ensures r.series == Projects ==> exists p :: p in fp && r == ProjectRecord(p)
      ensures r.series == SelfEsteemScores ==> exists s :: s in fs && r == ScoreRecord(s)
    {
      var k :| 0 <= k < |c| && c[k] == r;
      if k < |fo| {
        assert c[k] == ObjectiveRecord(fo[k]);
      } else if k < |fo| + |fp| {
        assert c[k] == ProjectRecord(fp[k - |fo|]);
      } else {
        assert c[k] == ScoreRecord(fs[k - |fo| - |fp|]);
      }
    }
  }

  /** With a period selected, an objective's record is in the chart data exactly
      when the objective's date lies in the period, end points included. */
  lemma ChartDataObjectiveIffInPeriod(objectives: seq<Objective>, projects: seq<Project>,
                                      scores: seq<SelfEsteemScore>, p: Period, o: Objective)
    requires o in objectives
    ensures ObjectiveRecord(o) in ChartData(objectives, projects, scores, Some(p)) <==> InPeriod(o.date, p)
  {
    var fo := FilteredObjectives(objectives, Some(p));
    ChartDataRecords(objectives, projects, scores, Some(p));
    ObjectiveKeptIffInPeriod(objectives, p, o);
    if ObjectiveRecord(o) in ChartData(objectives, projects, scores, Some(p)) {
      var o' :| o' in fo && ObjectiveRecord(o) == ObjectiveRecord(o');
      assert Keeps(Some(p), o'.date);
    }
  }

  /** With a period selected, every record of the chart data lies in it. */
  lemma ChartDataWithinPeriod(objectives: seq<Objective>, projects: seq<Project>,
                              scores: seq<SelfEsteemScore>, p: Period)
    ensures forall r :: r in ChartData(objectives, projects, scores, Some(p)) ==> InPeriod(r.date, p)
  {
    ChartDataRecords(objectives, projects, scores, Some(p));
    forall r | r in ChartData(objectives, projects, scores, Some(p))
      ensures InPeriod(r.date, p)
    {
      match r.series
      case Objectives =>
        var o :| o in FilteredObjectives(objectives, Some(p)) && r == ObjectiveRecord(o);
        assert Keeps(Some(p), o.date);
      case Projects =>
        var q :| q in FilteredProjects(projects, Some(p)) && r == ProjectRecord(q);
        assert Keeps(Some(p), q.date);
      case SelfEsteemScores =>
        var s :| s in FilteredScores(scores, Some(p)) && r == ScoreRecord(s);
        assert Keeps(Some(p), s.date);
    }
  }

  /** With no period selected, the chart is drawn from all items of all three series. */
  lemma ChartDataWithoutPeriod(objectives: seq<Objective>, projects: seq<Project>, scores: seq<SelfEsteemScore>)
    ensures ChartData(objectives, projects, scores, None) == SortByDate(Combined(objectives, projects, scores))
  {
  }
}
