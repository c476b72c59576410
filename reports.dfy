/**
 * The history, reports, export and session-detail endpoints over the stored sessions:
 * the filter-and-sort query, the integer parts of the summary statistics, the per-unit
 * aggregation, the export format check with the CSV serialiser, and session lookup.
 * The dataset is a parameter: the endpoints read it and never change it.
 */
module Reports {
  import opened Wrappers
  import opened Http
  import opened Builtins
  import opened Scoring

  // ---------------------------------------------------------------------------
  // Records
  // ---------------------------------------------------------------------------

  datatype Risk = FitRisk | MildRisk | ModerateRisk | SevereRisk
  {
    /** The value of the `risk` field and of the `risk_level` query parameter. */
    function Name(): string
    {
      match this
      case FitRisk => "fit"
      case MildRisk => "mild"
      case ModerateRisk => "moderate"
      case SevereRisk => "severe"
    }
  }

  /** A session date: its text as stored, and the instant it denotes (opaque, comparable). */
  datatype Date = Date(text: string, instant: int)

  datatype HistoryRecord = HistoryRecord(
    sessionId: string,
    date: Date,
    totalScore: int,
    risk: Risk,
    components: SubScores,
    recommendation: string,
    shift: string,
    unit: string,
    userId: Option<string>)

  // ---------------------------------------------------------------------------
  // Filters
  // ---------------------------------------------------------------------------

  /** A `unit_id`, `risk_level` or `shift` parameter that filters: truthy and not "all". */
  predicate Active(param: Option<string>)
  {
    Truthy(param) && param.value != "all"
  }

  // Each filter's test on a record; a test is applied only when its parameter is given.

  function WithinDates(from: Option<int>, to: Option<int>): HistoryRecord -> bool
  {
    (r: HistoryRecord) => from.Some? && to.Some? && from.value <= r.date.instant <= to.value
  }

  function InUnit(unitId: Option<string>): HistoryRecord -> bool
  {
    (r: HistoryRecord) => unitId.Some? && ToLower(r.unit) == ToLower(unitId.value)
  }

  function OfUser(userId: Option<string>): HistoryRecord -> bool
  {
    (r: HistoryRecord) => r.userId == userId
  }

  function AtRiskLevel(riskLevel: Option<string>): HistoryRecord -> bool
  {
    (r: HistoryRecord) => riskLevel.Some? && r.risk.Name() == riskLevel.value
  }

  function OnShift(shift: Option<string>): HistoryRecord -> bool
  {
    (r: HistoryRecord) => shift.Some? && ToLower(r.shift) == ToLower(shift.value)
  }

  /** Whether a record survives `generateMockData`'s date, unit and user filters. */
  predicate Selected(r: HistoryRecord, userId: Option<string>, unitId: Option<string>, from: Option<int>, to: Option<int>)
  {
    && (from.Some? && to.Some? ==> from.value <= r.date.instant <= to.value)
    && (Active(unitId) ==> ToLower(r.unit) == ToLower(unitId.value))
    && (Truthy(userId) ==> r.userId == userId)
  }

  /** Whether a record survives the handlers' further risk-level and shift filters. */
  predicate RiskAndShiftMatch(r: HistoryRecord, riskLevel: Option<string>, shift: Option<string>)
  {
    && (Active(riskLevel) ==> r.risk.Name() == riskLevel.value)
    && (Active(shift) ==> ToLower(r.shift) == ToLower(shift.value))
  }

  // ---------------------------------------------------------------------------
  // Newest first
  // ---------------------------------------------------------------------------

  predicate IsNewestFirst(s: seq<HistoryRecord>)
  {
    forall i, j | 0 <= i < j < |s| :: s[i].date.instant >= s[j].date.instant
  }

  /** Put `x` into a list after every record at least as new: the same records plus `x`. */
  function InsertNewest(x: HistoryRecord, s: seq<HistoryRecord>): (r: seq<HistoryRecord>)
    ensures multiset(r) == multiset(s) + multiset{x}
  {
    if |s| == 0 then [x]
    else if s[0].date.instant < x.date.instant then [x] + s
    else
      assert s == [s[0]] + s[1..];
      [s[0]] + InsertNewest(x, s[1..])
  }

  /** Inserting into a newest-first list keeps it newest first. */
  lemma {:induction false} InsertNewestSorted(x: HistoryRecord, s: seq<HistoryRecord>)
    requires IsNewestFirst(s)
    ensures IsNewestFirst(InsertNewest(x, s))
  {
    if |s| > 0 && s[0].date.instant >= x.date.instant {
      var rest := InsertNewest(x, s[1..]);
      InsertNewestSorted(x, s[1..]);
      var r := [s[0]] + rest;
      forall y | y in rest ensures y.date.instant <= s[0].date.instant {
        InsertNewestMember(x, s[1..], y);
        if y != x {
          NewestFirstHead(s, y);
        }
      }
      forall i, j | 0 <= i < j < |r| ensures r[i].date.instant >= r[j].date.instant {
        assert r[j] == rest[j - 1];
        if i > 0 {
          assert r[i] == rest[i - 1];
        }
      }
    }
  }

  /** A record of the inserted list is the inserted one or one of the list's. */
  lemma InsertNewestMember(x: HistoryRecord, s: seq<HistoryRecord>, y: HistoryRecord)
    requires y in InsertNewest(x, s)
    ensures y == x || y in s
  {
    assert y in multiset(InsertNewest(x, s));
    if y != x {
      assert y in multiset(s);
    }
  }

  /** In a newest-first list nothing after the head is newer than it. */
  lemma NewestFirstHead(s: seq<HistoryRecord>, y: HistoryRecord)
    requires IsNewestFirst(s) && |s| > 0 && y in s[1..]
    ensures y.date.instant <= s[0].date.instant
  {
    var k :| 0 <= k < |s[1..]| && s[1..][k] == y;
    assert s[k + 1] == y;
  }

  /** `sort((a, b) => date(b) - date(a))`: newest first, the same records. */
  function SortNewestFirst(s: seq<HistoryRecord>): (r: seq<HistoryRecord>)
    ensures IsNewestFirst(r)
    ensures multiset(r) == multiset(s)
  {
    if |s| == 0 then []
    else
      assert s == s[..|s| - 1] + [s[|s| - 1]];
      var sorted := SortNewestFirst(s[..|s| - 1]);
      InsertNewestSorted(s[|s| - 1], sorted);
      InsertNewest(s[|s| - 1], sorted)
  }

  /** Filtering a newest-first list leaves it newest first. */
  lemma {:induction false} FilterKeepsNewestFirst(s: seq<HistoryRecord>, p: HistoryRecord -> bool)
    requires IsNewestFirst(s)
    ensures IsNewestFirst(Filter(s, p))
  {
    if |s| > 0 {
      FilterKeepsNewestFirst(s[1..], p);
      var rest := Filter(s[1..], p);
      assert forall y | y in rest :: y.date.instant <= s[0].date.instant;
    }
  }

  // ---------------------------------------------------------------------------
  // generateMockData's query
  // ---------------------------------------------------------------------------

  /** A filter step that applies only when its parameter is active. */
  function FilterIf(s: seq<HistoryRecord>, active: bool, p: HistoryRecord -> bool): seq<HistoryRecord>
  {
    if active then Filter(s, p) else s
  }

  /** An optional filter step keeps every copy of the records it accepts and drops the rest. */
  lemma FilterIfMultiset(s: seq<HistoryRecord>, active: bool, p: HistoryRecord -> bool)
    ensures forall x :: multiset(FilterIf(s, active, p))[x] == if active && !p(x) then 0 else multiset(s)[x]
  {
    if active {
      FilterMultiset(s, p);
    }
  }

  /**
   * `generateMockData` over the dataset `db`: filter by date range when both bounds are
   * given, by unit (ignoring case) unless absent or "all", by user when given, then sort
   * newest first.
   */
  function GenerateMockData(db: seq<HistoryRecord>, userId: Option<string>, unitId: Option<string>, from: Option<int>, to: Option<int>): seq<HistoryRecord>
  {
    var byDate := FilterIf(db, from.Some? && to.Some?, WithinDates(from, to));
    var byUnit := FilterIf(byDate, Active(unitId), InUnit(unitId));
    var byUser := FilterIf(byUnit, Truthy(userId), OfUser(userId));
    SortNewestFirst(byUser)
  }

  /**
   * The query returns, newest first, every copy of every record that passes all active
   * filters and nothing else.
   */
  lemma GenerateMockDataSelects(db: seq<HistoryRecord>, userId: Option<string>, unitId: Option<string>, from: Option<int>, to: Option<int>)
    ensures var data := GenerateMockData(db, userId, unitId, from, to);
      && IsNewestFirst(data)
      && forall x :: multiset(data)[x] == if Selected(x, userId, unitId, from, to) then multiset(db)[x] else 0
  {
    var byDate := FilterIf(db, from.Some? && to.Some?, WithinDates(from, to));
    var byUnit := FilterIf(byDate, Active(unitId), InUnit(unitId));
    var byUser := FilterIf(byUnit, Truthy(userId), OfUser(userId));
    FilterIfMultiset(db, from.Some? && to.Some?, WithinDates(from, to));
    FilterIfMultiset(byDate, Active(unitId), InUnit(unitId));
    FilterIfMultiset(byUnit, Truthy(userId), OfUser(userId));
    forall x ensures multiset(byUser)[x] == if Selected(x, userId, unitId, from, to) then multiset(db)[x] else 0 {
      var date := from.Some? && to.Some? && !WithinDates(from, to)(x);
      var unit := Active(unitId) && !InUnit(unitId)(x);
      var user := Truthy(userId) && !OfUser(userId)(x);
      assert Selected(x, userId, unitId, from, to) <==> !date && !unit && !user;
      assert multiset(byDate)[x] == if date then 0 else multiset(db)[x];
      assert multiset(byUnit)[x] == if unit then 0 else multiset(byDate)[x];
      assert multiset(byUser)[x] == if user then 0 else multiset(byUnit)[x];
    }
  }

  /** The risk-level and shift filters the history and reports handlers apply afterwards. */
  function FilterRiskAndShift(data: seq<HistoryRecord>, riskLevel: Option<string>, shift: Option<string>): seq<HistoryRecord>
  {
    var byRisk := FilterIf(data, Active(riskLevel), AtRiskLevel(riskLevel));
    FilterIf(byRisk, Active(shift), OnShift(shift))
  }

  /** An optional filter step keeps the order, and a newest-first list stays newest first. */
  lemma FilterIfOrder(s: seq<HistoryRecord>, active: bool, p: HistoryRecord -> bool)
    ensures IsSubsequence(FilterIf(s, active, p), s)
    ensures IsNewestFirst(s) ==> IsNewestFirst(FilterIf(s, active, p))
    ensures !active ==> FilterIf(s, active, p) == s
  {
    if active {
      FilterIsSubsequence(s, p);
      if IsNewestFirst(s) {
        FilterKeepsNewestFirst(s, p);
      }
    } else {
      SubsequenceReflexive(s);
    }
  }

  /**
   * The risk-level filter keeps exactly the records at that level (compared as written,
   * case-sensitively) and the shift filter those on that shift ignoring case; both keep
   * the order, and an absent or "all" parameter keeps everything.
   */
  lemma FilterRiskAndShiftSelects(data: seq<HistoryRecord>, riskLevel: Option<string>, shift: Option<string>)
    ensures var out := FilterRiskAndShift(data, riskLevel, shift);
      && IsSubsequence(out, data)
      && (forall x :: multiset(out)[x] == if RiskAndShiftMatch(x, riskLevel, shift) then multiset(data)[x] else 0)
      && (!Active(riskLevel) && !Active(shift) ==> out == data)
      && (IsNewestFirst(data) ==> IsNewestFirst(out))
  {
    var byRisk := FilterIf(data, Active(riskLevel), AtRiskLevel(riskLevel));
    var out := FilterIf(byRisk, Active(shift), OnShift(shift));
    FilterIfOrder(data, Active(riskLevel), AtRiskLevel(riskLevel));
    FilterIfOrder(byRisk, Active(shift), OnShift(shift));
    SubsequenceTransitive(out, byRisk, data);
    FilterIfMultiset(data, Active(riskLevel), AtRiskLevel(riskLevel));
    FilterIfMultiset(byRisk, Active(shift), OnShift(shift));
    forall x ensures multiset(out)[x] == if RiskAndShiftMatch(x, riskLevel, shift) then multiset(data)[x] else 0 {
      var risk := Active(riskLevel) && !AtRiskLevel(riskLevel)(x);
      var onShift := Active(shift) && !OnShift(shift)(x);
      assert RiskAndShiftMatch(x, riskLevel, shift) <==> !risk && !onShift;
      assert multiset(byRisk)[x] == if risk then 0 else multiset(data)[x];
      assert multiset(out)[x] == if onShift then 0 else multiset(byRisk)[x];
    }
  }

  // ---------------------------------------------------------------------------
  // calculateSummaryStats (its integer parts)
  // ---------------------------------------------------------------------------

  /** The `risk_distribution` object: one counter per risk level. */
  datatype RiskDistribution = RiskDistribution(fit: nat, mild: nat, moderate: nat, severe: nat)
  {
    function Count(k: Risk): nat
    {
      match k
      case FitRisk => fit
      case MildRisk => mild
      case ModerateRisk => moderate
      case SevereRisk => severe
    }

    /** `acc[record.risk]++`: that counter goes up by one and no other changes. */
    function Bump(k: Risk): (d: RiskDistribution)
      ensures d.Count(k) == Count(k) + 1
      ensures forall j: Risk | j != k :: d.Count(j) == Count(j)
    {
      match k
      case FitRisk => this.(fit := fit + 1)
      case MildRisk => this.(mild := mild + 1)
      case ModerateRisk => this.(moderate := moderate + 1)
      case SevereRisk => this.(severe := severe + 1)
    }

    function Total(): nat
    {
      fit + mild + moderate + severe
    }
  }

  const NoRisks := RiskDistribution(0, 0, 0, 0)

  function HasRisk(k: Risk): HistoryRecord -> bool
  {
    (r: HistoryRecord) => r.risk == k
  }

  /** The reference distribution: how many records carry each risk level. */
  function Distribution(data: seq<HistoryRecord>): RiskDistribution
  {
    RiskDistribution(
      |Filter(data, HasRisk(FitRisk))|,
      |Filter(data, HasRisk(MildRisk))|,
      |Filter(data, HasRisk(ModerateRisk))|,
      |Filter(data, HasRisk(SevereRisk))|)
  }

  /** One more record bumps exactly its own level's counter. */
  lemma DistributionSnoc(s: seq<HistoryRecord>, x: HistoryRecord)
    ensures Distribution(s + [x]) == Distribution(s).Bump(x.risk)
  {
    FilterSnoc(s, x, HasRisk(FitRisk));
    FilterSnoc(s, x, HasRisk(MildRisk));
    FilterSnoc(s, x, HasRisk(ModerateRisk));
    FilterSnoc(s, x, HasRisk(SevereRisk));
  }

  /** Every record is counted exactly once: the counters add up to the number of records. */
  lemma {:induction false} DistributionTotal(data: seq<HistoryRecord>)
    ensures Distribution(data).Total() == |data|
  {
    if |data| > 0 {
      var s, x := data[..|data| - 1], data[|data| - 1];
      assert data == s + [x];
      DistributionTotal(s);
      DistributionSnoc(s, x);
    }
  }

  /** The integer parts of `SummaryStats`; the two averages are not modelled. */
  datatype SummaryStats = SummaryStats(totalSessions: nat, riskDistribution: RiskDistribution)

  /**
   * `calculateSummaryStats`: an empty list gives the all-zero summary; otherwise the
   * distribution is accumulated one record at a time.
   */
  method CalculateSummaryStats(data: seq<HistoryRecord>) returns (stats: SummaryStats)
    ensures stats == SummaryStats(|data|, Distribution(data))
  {
    if |data| == 0 {
      return SummaryStats(0, NoRisks);
    }
    var riskDistribution := NoRisks;
    for i := 0 to |data|
      invariant riskDistribution == Distribution(data[..i])
    {
      DistributionSnoc(data[..i], data[i]);
      assert data[..i + 1] == data[..i] + [data[i]];
      riskDistribution := riskDistribution.Bump(data[i].risk);
    }
    assert data[..|data|] == data;
    stats := SummaryStats(|data|, riskDistribution);
  }

  /**
   * The counters add up to `total_sessions`, which is the number of records, and the
   * distribution is all zero exactly when there are no records.
   */
  lemma SummaryStatsFacts(data: seq<HistoryRecord>)
    ensures Distribution(data).Total() == |data|
    ensures Distribution(data) == NoRisks <==> |data| == 0
  {
    DistributionTotal(data);
  }

  // ---------------------------------------------------------------------------
  // handleReportsGet's per-unit aggregation
  // ---------------------------------------------------------------------------

  /** One `unit_stats` entry; `avg_score` is not modelled. */
  datatype UnitStat = UnitStat(unit: string, totalSessions: nat, riskDistribution: RiskDistribution)

  function InExactUnit(u: string): HistoryRecord -> bool
  {
    (r: HistoryRecord) => r.unit == u
  }

  /** The units present in the data, as written. */
  function Units(data: seq<HistoryRecord>): set<string>
  {
    set r | r in data :: r.unit
  }

  /** The reference entry for unit `u`: its records counted, in total and by level. */
  function UnitStatOf(data: seq<HistoryRecord>, u: string): UnitStat
  {
    var inUnit := Filter(data, InExactUnit(u));
    UnitStat(u, |inUnit|, Distribution(inUnit))
  }

  /** The reference aggregation: one entry per unit present, keyed by the unit name. */
  function UnitStatsOf(data: seq<HistoryRecord>): map<string, UnitStat>
  {
    map u | u in Units(data) :: UnitStatOf(data, u)
  }

  /** One more record changes only its own unit's entry, by one session at its level. */
  lemma UnitStatSnoc(s: seq<HistoryRecord>, x: HistoryRecord, u: string)
    ensures UnitStatOf(s + [x], u) ==
      if x.unit == u then
        var e := UnitStatOf(s, u);
        UnitStat(u, e.totalSessions + 1, e.riskDistribution.Bump(x.risk))
      else UnitStatOf(s, u)
  {
    FilterSnoc(s, x, InExactUnit(u));
    if x.unit == u {
      DistributionSnoc(Filter(s, InExactUnit(u)), x);
    } else {
      assert Filter(s, InExactUnit(u)) + [] == Filter(s, InExactUnit(u));
    }
  }

  /** A unit with no records has the empty entry. */
  lemma UnitStatAbsent(s: seq<HistoryRecord>, u: string)
    requires u !in Units(s)
    ensures UnitStatOf(s, u) == UnitStat(u, 0, NoRisks)
  {
    var inUnit := Filter(s, InExactUnit(u));
    FilterMultiset(s, InExactUnit(u));
    forall x: HistoryRecord ensures multiset(inUnit)[x] == 0 {
      if x.unit == u {
        assert x !in s;
      }
    }
    assert multiset(inUnit) == multiset{};
  }

  /**
   * The `unitStats` reduce: create a unit's entry the first time it is seen, then count
   * the record in it.
   */
  method AggregateUnits(data: seq<HistoryRecord>) returns (unitStats: map<string, UnitStat>)
    ensures unitStats == UnitStatsOf(data)
  {
    unitStats := map[];
    for i := 0 to |data|
      invariant unitStats == UnitStatsOf(data[..i])
    {
      var record := data[i];
      if record.unit !in unitStats {
        UnitStatAbsent(data[..i], record.unit);
        unitStats := unitStats[record.unit := UnitStat(record.unit, 0, NoRisks)];
      }
      var entry := unitStats[record.unit];
      unitStats := unitStats[record.unit := UnitStat(entry.unit, entry.totalSessions + 1, entry.riskDistribution.Bump(record.risk))];
      UnitStatsStep(data, i, unitStats);
    }
    assert data[..|data|] == data;
  }

  /** The map after record `i`, stated on the loop's prefixes of the data. */
  lemma UnitStatsStep(data: seq<HistoryRecord>, i: nat, next: map<string, UnitStat>)
    requires i < |data|
    requires next.Keys == UnitStatsOf(data[..i]).Keys + {data[i].unit}
    requires forall u | u in next && u != data[i].unit :: next[u] == UnitStatsOf(data[..i])[u]
    requires var s, x := data[..i], data[i];
      var e := if x.unit in Units(s) then UnitStatOf(s, x.unit) else UnitStat(x.unit, 0, NoRisks);
      next[x.unit] == UnitStat(e.unit, e.totalSessions + 1, e.riskDistribution.Bump(x.risk))
    ensures next == UnitStatsOf(data[..i + 1])
  {
    assert data[..i + 1] == data[..i] + [data[i]];
    UnitStatsSnoc(data[..i], data[i], next);
  }

  /** The map after one more record: the previous map with that unit's entry counted. */
  lemma UnitStatsSnoc(s: seq<HistoryRecord>, x: HistoryRecord, next: map<string, UnitStat>)
    requires next.Keys == UnitStatsOf(s).Keys + {x.unit}
    requires forall u | u in next && u != x.unit :: next[u] == UnitStatsOf(s)[u]
    requires var e := if x.unit in Units(s) then UnitStatOf(s, x.unit) else UnitStat(x.unit, 0, NoRisks);
      next[x.unit] == UnitStat(e.unit, e.totalSessions + 1, e.riskDistribution.Bump(x.risk))
    ensures next == UnitStatsOf(s + [x])
  {
    var m := UnitStatsOf(s + [x]);
    UnitsSnoc(s, x);
    forall u | u in next ensures u in m && next[u] == m[u] {
      UnitStatsSnocAt(s, x, next, u);
    }
    SameEntries(next, m);
  }

  /** The entry of one unit after one more record. */
  lemma UnitStatsSnocAt(s: seq<HistoryRecord>, x: HistoryRecord, next: map<string, UnitStat>, u: string)
    requires u in next
    requires next.Keys == UnitStatsOf(s).Keys + {x.unit}
    requires u != x.unit ==> next[u] == UnitStatsOf(s)[u]
    requires var e := if x.unit in Units(s) then UnitStatOf(s, x.unit) else UnitStat(x.unit, 0, NoRisks);
      next[x.unit] == UnitStat(e.unit, e.totalSessions + 1, e.riskDistribution.Bump(x.risk))
    ensures u in UnitStatsOf(s + [x]) && next[u] == UnitStatsOf(s + [x])[u]
  {
    UnitsSnoc(s, x);
    UnitStatsEntry(s + [x], u);
    if u == x.unit {
      UnitStatSnocOwn(s, x);
    } else {
      UnitStatsEntry(s, u);
      UnitStatSnoc(s, x, u);
    }
  }

  /** Two maps with the same keys and the same entry at every key are equal. */
  lemma SameEntries<K, V>(a: map<K, V>, b: map<K, V>)
    requires forall k | k in a :: k in b && a[k] == b[k]
    requires b.Keys <= a.Keys
    ensures a == b
  {
  }

  /** An entry of the aggregation is the reference entry of its unit. */
  lemma UnitStatsEntry(data: seq<HistoryRecord>, u: string)
    requires u in UnitStatsOf(data)
    ensures UnitStatsOf(data)[u] == UnitStatOf(data, u)
  {
  }

  /** The record's own unit: its entry, or the empty one, counted once more. */
  lemma UnitStatSnocOwn(s: seq<HistoryRecord>, x: HistoryRecord)
    ensures var e := if x.unit in Units(s) then UnitStatOf(s, x.unit) else UnitStat(x.unit, 0, NoRisks);
      UnitStatOf(s + [x], x.unit) == UnitStat(e.unit, e.totalSessions + 1, e.riskDistribution.Bump(x.risk))
  {
    UnitStatSnoc(s, x, x.unit);
    if x.unit !in Units(s) {
      UnitStatAbsent(s, x.unit);
    }
  }

  lemma UnitsSnoc(s: seq<HistoryRecord>, x: HistoryRecord)
    ensures Units(s + [x]) == Units(s) + {x.unit}
  {
    forall u | u in Units(s + [x]) ensures u in Units(s) + {x.unit} {
      var r :| r in s + [x] && r.unit == u;
      if r != x {
        assert r in s;
      }
    }
  }

  /**
   * Every unit present has exactly one entry, named after it, whose counters add up to
   * its session count, and that count is the number of its records (at least one).
   */
  lemma UnitStatsFacts(data: seq<HistoryRecord>)
    ensures UnitStatsOf(data).Keys == Units(data)
    ensures forall u | u in UnitStatsOf(data) ::
      var e := UnitStatsOf(data)[u];
      && e.unit == u
      && e.totalSessions == |Filter(data, InExactUnit(u))| >= 1
      && e.riskDistribution.Total() == e.totalSessions
  {
    forall u | u in UnitStatsOf(data)
      ensures |Filter(data, InExactUnit(u))| >= 1
      ensures UnitStatsOf(data)[u].riskDistribution.Total() == UnitStatsOf(data)[u].totalSessions
    {
      var r :| r in data && r.unit == u;
      assert r in Filter(data, InExactUnit(u));
      DistributionTotal(Filter(data, InExactUnit(u)));
    }
  }

  // ---------------------------------------------------------------------------
  // handleHistoryGet and handleReportsGet
  // ---------------------------------------------------------------------------

  /** One point of the trend chart; the locale-formatted date label is not modelled. */
  datatype TrendPoint = TrendPoint(date: Date, score: int, components: SubScores)

  /** `data.slice(0, 7).reverse().map(...)`. */
  function Trend(data: seq<HistoryRecord>): seq<TrendPoint>
  {
    var recent := Reverse(data[..if |data| < 7 then |data| else 7]);
    seq(|recent|, i requires 0 <= i < |recent| => TrendPoint(recent[i].date, recent[i].totalScore, recent[i].components))
  }

  /**
   * The trend holds the first (at most seven) records in reverse order, so a
   * newest-first list gives a chart that runs oldest to newest.
   */
  lemma TrendFacts(data: seq<HistoryRecord>)
    ensures var t := Trend(data);
      && |t| == (if |data| < 7 then |data| else 7)
      && (forall i | 0 <= i < |t| ::
            var r := data[|t| - 1 - i];
            t[i] == TrendPoint(r.date, r.totalScore, r.components))
      && (IsNewestFirst(data) ==> forall i, j | 0 <= i < j < |t| :: t[i].date.instant <= t[j].date.instant)
  {
  }

  const DefaultUserId := "user123"

  datatype HistoryQuery = HistoryQuery(
    userId: Option<string>,
    from: Option<int>,
    to: Option<int>,
    riskLevel: Option<string>,
    shift: Option<string>,
    unitId: Option<string>)
  {
    /** `user_id || 'user123'`. */
    function CurrentUserId(): string
    {
      if Truthy(userId) then userId.value else DefaultUserId
    }
  }

  datatype HistoryResponse = HistoryResponse(summary: SummaryStats, trend: seq<TrendPoint>, details: seq<HistoryRecord>)

  /** The records `handleHistoryGet` reports. */
  function HistoryDetails(db: seq<HistoryRecord>, q: HistoryQuery): seq<HistoryRecord>
  {
    FilterRiskAndShift(GenerateMockData(db, Some(q.CurrentUserId()), q.unitId, q.from, q.to), q.riskLevel, q.shift)
  }

  /** `handleHistoryGet`: query, filter further, then summarise and chart the result. */
  method HandleHistoryGet(db: seq<HistoryRecord>, q: HistoryQuery) returns (resp: HistoryResponse)
    ensures resp.details == HistoryDetails(db, q)
    ensures resp.summary == SummaryStats(|resp.details|, Distribution(resp.details))
    ensures resp.trend == Trend(resp.details)
  {
    var data := GenerateMockData(db, Some(q.CurrentUserId()), q.unitId, q.from, q.to);
    if Active(q.riskLevel) {
      data := Filter(data, AtRiskLevel(q.riskLevel));
    }
    if Active(q.shift) {
      data := Filter(data, OnShift(q.shift));
    }
    var summary := CalculateSummaryStats(data);
    resp := HistoryResponse(summary, Trend(data), data);
  }

  /**
   * The history is always one user's: the requested one, or "user123" when none is
   * given. It lists, newest first, every copy of every record of that user that passes
   * the date, unit, risk-level and shift filters, and nothing else.
   */
  lemma HistoryDetailsFacts(db: seq<HistoryRecord>, q: HistoryQuery)
    ensures var details := HistoryDetails(db, q);
      && IsNewestFirst(details)
      && (forall x | x in details :: x.userId == Some(q.CurrentUserId()))
      && forall x :: multiset(details)[x] ==
           if Selected(x, Some(q.CurrentUserId()), q.unitId, q.from, q.to) && RiskAndShiftMatch(x, q.riskLevel, q.shift)
           then multiset(db)[x] else 0
  {
    var data := GenerateMockData(db, Some(q.CurrentUserId()), q.unitId, q.from, q.to);
    GenerateMockDataSelects(db, Some(q.CurrentUserId()), q.unitId, q.from, q.to);
    FilterRiskAndShiftSelects(data, q.riskLevel, q.shift);
    var details := HistoryDetails(db, q);
    forall x | x in details ensures x.userId == Some(q.CurrentUserId()) {
      assert multiset(details)[x] > 0;
    }
  }

  datatype ReportsQuery = ReportsQuery(
    unitId: Option<string>,
    from: Option<int>,
    to: Option<int>,
    riskLevel: Option<string>,
    shift: Option<string>)

  datatype ReportsResponse = ReportsResponse(summary: SummaryStats, details: seq<HistoryRecord>, unitStats: map<string, UnitStat>)

  /** The records `handleReportsGet` reports: every user's. */
  function ReportsDetails(db: seq<HistoryRecord>, q: ReportsQuery): seq<HistoryRecord>
  {
    FilterRiskAndShift(GenerateMockData(db, None, q.unitId, q.from, q.to), q.riskLevel, q.shift)
  }

  /** `handleReportsGet`: the history query across all users, plus the per-unit entries. */
  method HandleReportsGet(db: seq<HistoryRecord>, q: ReportsQuery) returns (resp: ReportsResponse)
    ensures resp.details == ReportsDetails(db, q)
    ensures resp.summary == SummaryStats(|resp.details|, Distribution(resp.details))
    ensures resp.unitStats == UnitStatsOf(resp.details)
  {
    var data := GenerateMockData(db, None, q.unitId, q.from, q.to);
    if Active(q.riskLevel) {
      data := Filter(data, AtRiskLevel(q.riskLevel));
    }
    if Active(q.shift) {
      data := Filter(data, OnShift(q.shift));
    }
    var summary := CalculateSummaryStats(data);
    var unitStats := AggregateUnits(data);
    resp := ReportsResponse(summary, data, unitStats);
  }

  /**
   * The management report does not filter by user: it lists, newest first, every copy
   * of every record that passes the date, unit, risk-level and shift filters.
   */
  lemma ReportsDetailsFacts(db: seq<HistoryRecord>, q: ReportsQuery)
    ensures var details := ReportsDetails(db, q);
      && IsNewestFirst(details)
      && forall x :: multiset(details)[x] ==
           if Selected(x, None, q.unitId, q.from, q.to) && RiskAndShiftMatch(x, q.riskLevel, q.shift)
           then multiset(db)[x] else 0
  {
    GenerateMockDataSelects(db, None, q.unitId, q.from, q.to);
    FilterRiskAndShiftSelects(GenerateMockData(db, None, q.unitId, q.from, q.to), q.riskLevel, q.shift);
  }

  // ---------------------------------------------------------------------------
  // handleExportData
  // ---------------------------------------------------------------------------

  const InvalidFormat := "Invalid format. Use 'csv' or 'pdf'"

  /** The column names of the CSV header, in order. */
  const CsvColumns: seq<string> := [
    "Date", "Session ID", "Total Score", "Risk Level", "FAS", "PSQI", "PA",
    "BP", "HR", "Temp", "Face", "Shift", "Unit", "Recommendation"]

  /** The header line: the column names joined by commas, then a newline. */
  const CsvHeader := Join(CsvColumns, ',') + "\n"

  /** The fields of a record's row, in header order; the recommendation is put in quotes. */
  function CsvFields(r: HistoryRecord): (fields: seq<string>)
    ensures |fields| == |CsvColumns|
  {
    var c := r.components;
    [r.date.text, r.sessionId, IntToString(r.totalScore), r.risk.Name(),
     IntToString(c.fas), IntToString(c.psqi), IntToString(c.pa),
     IntToString(c.bp), IntToString(c.hr), IntToString(c.temp),
     IntToString(c.face), r.shift, r.unit, "\"" + r.recommendation + "\""]
  }

  /** One CSV row: the fields joined by commas, no quoting or escaping besides the quotes. */
  function CsvRow(r: HistoryRecord): string
  {
    Join(CsvFields(r), ',')
  }

  function CsvRows(data: seq<HistoryRecord>): (rows: seq<string>)
    ensures |rows| == |data|
    ensures forall i | 0 <= i < |data| :: rows[i] == CsvRow(data[i])
  {
    seq(|data|, i requires 0 <= i < |data| => CsvRow(data[i]))
  }

  /** The CSV document: the header, then the rows joined by newlines. */
  function Csv(data: seq<HistoryRecord>): string
  {
    CsvHeader + Join(CsvRows(data), '\n')
  }

  /** The free-text fields of a record hold neither separator. */
  predicate CsvSafe(r: HistoryRecord)
  {
    forall f | f in [r.date.text, r.sessionId, r.recommendation, r.shift, r.unit] :: ',' !in f && '\n' !in f
  }

  /** A rendered number holds no separator. */
  lemma NumberFieldSafe(n: int)
    ensures ',' !in IntToString(n) && '\n' !in IntToString(n)
  {
    var t := IntToString(n);
    forall i | 0 <= i < |t| ensures t[i] != ',' && t[i] != '\n' {
    }
  }

  /**
   * A row of separator-free fields splits on commas into exactly the fourteen fields in
   * header order, the last being the recommendation in quotes, and holds no newline.
   */
  lemma CsvRowFields(r: HistoryRecord)
    requires CsvSafe(r)
    ensures Split(CsvRow(r), ',') == CsvFields(r)
    ensures |Split(CsvRow(r), ',')| == 14
    ensures Split(CsvRow(r), ',')[13] == "\"" + r.recommendation + "\""
    ensures '\n' !in CsvRow(r)
  {
    var c := r.components;
    NumberFieldSafe(r.totalScore);
    NumberFieldSafe(c.fas);
    NumberFieldSafe(c.psqi);
    NumberFieldSafe(c.pa);
    NumberFieldSafe(c.bp);
    NumberFieldSafe(c.hr);
    NumberFieldSafe(c.temp);
    NumberFieldSafe(c.face);
    var fields := CsvFields(r);
    assert r.date.text in [r.date.text, r.sessionId, r.recommendation, r.shift, r.unit];
    assert r.sessionId in [r.date.text, r.sessionId, r.recommendation, r.shift, r.unit];
    assert r.recommendation in [r.date.text, r.sessionId, r.recommendation, r.shift, r.unit];
    assert r.shift in [r.date.text, r.sessionId, r.recommendation, r.shift, r.unit];
    assert r.unit in [r.date.text, r.sessionId, r.recommendation, r.shift, r.unit];
    assert forall i | 0 <= i < |fields| :: ',' !in fields[i] && '\n' !in fields[i];
    SplitJoin(fields, ',');
    JoinAvoids(fields, ',', '\n');
  }

  /** The header names the fourteen columns in order. */
  lemma CsvHeaderColumns()
    ensures CsvHeader[..|CsvHeader| - 1] == Join(CsvColumns, ',')
    ensures Split(CsvHeader[..|CsvHeader| - 1], ',') == CsvColumns
  {
    assert forall i | 0 <= i < |CsvColumns| :: ',' !in CsvColumns[i];
    SplitJoin(CsvColumns, ',');
  }

  /**
   * The document starts with the header, and when the records' free text holds no
   * separator, the rest splits on newlines into exactly one row per record, in order
   * (no records leaves the header alone).
   */
  lemma CsvLines(data: seq<HistoryRecord>)
    requires forall i | 0 <= i < |data| :: CsvSafe(data[i])
    ensures CsvHeader <= Csv(data)
    ensures |data| == 0 ==> Csv(data) == CsvHeader
    ensures |data| > 0 ==> Split(Csv(data)[|CsvHeader|..], '\n') == CsvRows(data)
  {
    var rows := CsvRows(data);
    assert Csv(data)[|CsvHeader|..] == Join(rows, '\n');
    if |data| == 0 {
      assert CsvHeader + "" == CsvHeader;
    } else {
      forall i | 0 <= i < |rows| ensures '\n' !in rows[i] {
        CsvRowFields(data[i]);
      }
      SplitJoin(rows, '\n');
    }
  }

  /** The body of a successful export. */
  datatype ExportBody = CsvDocument(text: string) | PdfSummary(totalRecords: nat)

  datatype ExportQuery = ExportQuery(
    format: Option<string>,
    userId: Option<string>,
    unitId: Option<string>,
    from: Option<int>,
    to: Option<int>)

  /** `['csv', 'pdf'].includes(format)` for a truthy format. */
  predicate KnownFormat(format: Option<string>)
  {
    format == Some("csv") || format == Some("pdf")
  }

  /** `handleExportData`: reject an unknown format, else export the queried records. */
  function ExportOutcome(db: seq<HistoryRecord>, q: ExportQuery): Result<ExportBody, Failure>
  {
    if !Truthy(q.format) || !KnownFormat(q.format) then Failure(BadRequest(InvalidFormat))
    else
      var data := GenerateMockData(db, q.userId, q.unitId, q.from, q.to);
      if q.format.value == "csv" then Success(CsvDocument(Csv(data)))
      else Success(PdfSummary(|data|))
  }

  /**
   * Export fails, with 400 and the format message, exactly when the format is neither
   * "csv" nor "pdf"; "csv" gives the CSV of the query's records and "pdf" their count.
   */
  lemma ExportFormatCheck(db: seq<HistoryRecord>, q: ExportQuery)
    ensures var out := ExportOutcome(db, q);
      && (out.Failure? <==> !KnownFormat(q.format))
      && (out.Failure? ==> out.error == BadRequest(InvalidFormat) && out.error.Status() == 400)
      && (q.format == Some("csv") ==> out == Success(CsvDocument(Csv(GenerateMockData(db, q.userId, q.unitId, q.from, q.to)))))
      && (q.format == Some("pdf") ==> out == Success(PdfSummary(|GenerateMockData(db, q.userId, q.unitId, q.from, q.to)|)))
  {
  }

  // ---------------------------------------------------------------------------
  // handleSessionDetail
  // ---------------------------------------------------------------------------

  const SessionNotFound := "Session not found"

  /** `data.find(record => record.session_id === id)`: the first match, if any. */
  function FindSession(data: seq<HistoryRecord>, id: string): (r: Option<HistoryRecord>)
    ensures r.None? <==> forall i | 0 <= i < |data| :: data[i].sessionId != id
    ensures r.Some? ==> exists i | 0 <= i < |data| ::
      && data[i] == r.value && r.value.sessionId == id
      && forall j | 0 <= j < i :: data[j].sessionId != id
  {
    if |data| == 0 then None
    else if data[0].sessionId == id then Some(data[0])
    else
      var r := FindSession(data[1..], id);
      assert forall i | 1 <= i < |data| :: data[i] == data[1..][i - 1];
      r
  }

  /** `handleSessionDetail`: look the id up among all records; 404 when it is absent. */
  function SessionDetailOutcome(db: seq<HistoryRecord>, id: string): Result<HistoryRecord, Failure>
  {
    match FindSession(GenerateMockData(db, None, None, None, None), id)
    case None => Failure(NotFound(SessionNotFound))
    case Some(r) => Success(r)
  }

  /**
   * The lookup answers 404 "Session not found" exactly when no stored record has the
   * id; otherwise it returns a stored record with that id.
   */
  lemma SessionDetailLookup(db: seq<HistoryRecord>, id: string)
    ensures var out := SessionDetailOutcome(db, id);
      && (out.Failure? <==> forall r | r in db :: r.sessionId != id)
      && (out.Failure? ==> out.error == NotFound(SessionNotFound) && out.error.Status() == 404)
      && (out.Success? ==> out.value in db && out.value.sessionId == id)
  {
    var all := GenerateMockData(db, None, None, None, None);
    GenerateMockDataSelects(db, None, None, None, None);
    assert forall x :: x in all <==> x in db by {
      forall x ensures x in all <==> x in db {
        assert multiset(all)[x] == multiset(db)[x];
      }
    }
  }

  lemma {:induction false} SubsequenceReflexive<T>(s: seq<T>)
    ensures IsSubsequence(s, s)
  {
    if |s| > 0 {
      SubsequenceReflexive(s[1..]);
    }
  }

  lemma {:induction false} SubsequenceTransitive<T>(a: seq<T>, b: seq<T>, c: seq<T>)
    requires IsSubsequence(a, b) && IsSubsequence(b, c)
    ensures IsSubsequence(a, c)
    decreases |c|
  {
    if |a| > 0 && |c| > 0 {
      if IsSubsequence(b, c[1..]) {
        SubsequenceTransitive(a, b, c[1..]);
      } else {
        assert b[0] == c[0] && IsSubsequence(b[1..], c[1..]);
        if a[0] == b[0] && IsSubsequence(a[1..], b[1..]) {
          SubsequenceTransitive(a[1..], b[1..], c[1..]);
        } else {
          SubsequenceTransitive(a, b[1..], c[1..]);
        }
      }
    }
  }
}
