/**
 * The derived statistics of the beekeeping dashboard page: the record
 * shapes, the fleet totals, the status mappings, the per-season harvest
 * rollup, the id joins used for display and the recent-records window.
 * Everything here is a pure function of the three input collections.
 */
module Dashboard {
  import opened Wrappers
  import opened ArrayOps

  // ---------------------------------------------------------------- records

  /** The three values the `status` field of an apiary may take. */
  datatype Status = Active | Dormant | Maintenance {
    /** The string literal the status stands for. */
    function Name(): string {
      match this
      case Active => "active"
      case Dormant => "dormant"
      case Maintenance => "maintenance"
    }
  }

  /** JavaScript numbers are modelled as mathematical integers. */
  datatype Apiary = Apiary(
    id: int,
    name: string,
    location: string,
    hiveCount: int,
    totalHoney: int,
    avgPerHive: int,
    status: Status)

  datatype Hive = Hive(
    id: int,
    apiaryId: int,
    number: string,
    queenAge: int,
    strength: int,
    lastInspection: string,
    honeyCollected: int)

  datatype HarvestRecord = HarvestRecord(
    date: string,
    amount: int,
    hiveId: int,
    season: string)

  // ----------------------------------------------------------- fleet totals

  function HoneyOf(a: Apiary): int { a.totalHoney }
  function HivesOf(a: Apiary): int { a.hiveCount }

  /** The reducer `(sum, a) => sum + a.totalHoney`. */
  function AddHoney(sum: int, a: Apiary): int { sum + a.totalHoney }

  /** The reducer `(sum, a) => sum + a.hiveCount`. */
  function AddHives(sum: int, a: Apiary): int { sum + a.hiveCount }

  /** The filter predicate `a => a.status === "active"`. */
  function IsActive(a: Apiary): bool { a.status.Name() == "active" }

  /** `apiaries.reduce((sum, a) => sum + a.totalHoney, 0)`. */
  function TotalHoney(apiaries: seq<Apiary>): (r: int)
    ensures r == Sum(apiaries, HoneyOf)
    ensures apiaries == [] ==> r == 0
  {
    ReduceAdds(apiaries, AddHoney, HoneyOf, 0);
    Reduce(apiaries, AddHoney, 0)
  }

  /** `apiaries.reduce((sum, a) => sum + a.hiveCount, 0)`. */
  function TotalHives(apiaries: seq<Apiary>): (r: int)
    ensures r == Sum(apiaries, HivesOf)
    ensures apiaries == [] ==> r == 0
  {
    ReduceAdds(apiaries, AddHives, HivesOf, 0);
    Reduce(apiaries, AddHives, 0)
  }

  /** `apiaries.filter(a => a.status === "active").length`. */
  function ActiveApiaries(apiaries: seq<Apiary>): (r: nat)
    ensures r == Sum(apiaries, Indicator(IsActive))
    ensures r <= |apiaries|
    ensures r == 0 <==> forall i :: 0 <= i < |apiaries| ==> apiaries[i].status != Active
    ensures r == |apiaries| <==> forall i :: 0 <= i < |apiaries| ==> apiaries[i].status == Active
  {
    FilterCount(apiaries, IsActive);
    |Filter(apiaries, IsActive)|
  }

  /** The fleet totals of two groups of apiaries add up to those of the whole fleet. */
  lemma FleetTotalsAppend(front: seq<Apiary>, back: seq<Apiary>)
    ensures TotalHoney(front + back) == TotalHoney(front) + TotalHoney(back)
    ensures TotalHives(front + back) == TotalHives(front) + TotalHives(back)
    ensures ActiveApiaries(front + back) == ActiveApiaries(front) + ActiveApiaries(back)
  {
    SumAppend(front, back, HoneyOf);
    SumAppend(front, back, HivesOf);
    FilterAppend(front, back, IsActive);
  }

  /** Apiaries with non-negative honey and hive counts give non-negative totals. */
  lemma FleetTotalsNonnegative(apiaries: seq<Apiary>)
    requires forall i :: 0 <= i < |apiaries| ==> apiaries[i].totalHoney >= 0 && apiaries[i].hiveCount >= 0
    ensures TotalHoney(apiaries) >= 0 && TotalHives(apiaries) >= 0
  {
    SumNonnegative(apiaries, HoneyOf);
    SumNonnegative(apiaries, HivesOf);
  }

  // -------------------------------------------------------- status mappings

  /** True for the three strings the status switches name explicitly. */
  predicate IsKnownStatus(status: string) {
    status == "active" || status == "dormant" || status == "maintenance"
  }

  /** The badge style of a status; unknown strings fall back to "bg-muted". */
  function StatusColor(status: string): (r: string)
    ensures status == "active" ==> r == "bg-secondary text-white"
    ensures status == "dormant" ==> r == "bg-muted text-muted-foreground"
    ensures status == "maintenance" ==> r == "bg-primary/20 text-primary"
    ensures r == "bg-muted" <==> !IsKnownStatus(status)
  {
    match status
    case "active" => "bg-secondary text-white"
    case "dormant" => "bg-muted text-muted-foreground"
    case "maintenance" => "bg-primary/20 text-primary"
    case _ => "bg-muted"
  }

  /** The badge label of a status; unknown strings are shown as they are. */
  function StatusText(status: string): (r: string)
    ensures status == "active" ==> r == "Активна"
    ensures status == "dormant" ==> r == "Зимовка"
    ensures status == "maintenance" ==> r == "Обслуживание"
    ensures r == status <==> !IsKnownStatus(status)
  {
    match status
    case "active" => "Активна"
    case "dormant" => "Зимовка"
    case "maintenance" => "Обслуживание"
    case _ => status
  }

  // ------------------------------------------------------------ season stats

  /** The fixed season order of the harvest rollup: spring, summer, autumn. */
  const Seasons: seq<string> := ["Весна", "Лето", "Осень"]

  /** One row of the rollup. */
  datatype SeasonStat = SeasonStat(season: string, total: int, count: nat)

  function AmountOf(r: HarvestRecord): int { r.amount }

  /** The reducer `(sum, r) => sum + r.amount`. */
  function AddAmount(sum: int, r: HarvestRecord): int { sum + r.amount }

  /** The filter predicate `r => r.season === season`. */
  function InSeason(season: string): HarvestRecord -> bool {
    (r: HarvestRecord) => r.season == season
  }

  /** True for a record whose season is one of `seasons`. */
  function InSeasons(seasons: seq<string>): HarvestRecord -> bool {
    (r: HarvestRecord) => r.season in seasons
  }

  /** Reference definition: the total amount of the records of `season`. */
  function SeasonTotal(records: seq<HarvestRecord>, season: string): int {
    Sum(records, Masked(InSeason(season), AmountOf))
  }

  /** Reference definition: the number of records of `season`. */
  function SeasonCount(records: seq<HarvestRecord>, season: string): nat {
    IndicatorBound(records, InSeason(season));
    Sum(records, Indicator(InSeason(season)))
  }

  /** The body of the callback passed to `seasons.map`. */
  function StatOf(records: seq<HarvestRecord>): string -> SeasonStat {
    season =>
      var matching := Filter(records, InSeason(season));
      SeasonStat(season, Reduce(matching, AddAmount, 0), |matching|)
  }

  /** One rollup entry for `season`, as the source's callback computes it. */
  lemma StatOfIsReference(records: seq<HarvestRecord>, season: string)
    ensures StatOf(records)(season) == SeasonStat(season, SeasonTotal(records, season), SeasonCount(records, season))
  {
    var matching := Filter(records, InSeason(season));
    assert StatOf(records)(season) == SeasonStat(season, Reduce(matching, AddAmount, 0), |matching|);
    ReduceAdds(matching, AddAmount, AmountOf, 0);
    FilterSum(records, InSeason(season), AmountOf);
    FilterCount(records, InSeason(season));
  }

  /** The rollup over a caller-supplied season list: one entry per season, in order. */
  function SeasonStatsFor(records: seq<HarvestRecord>, seasons: seq<string>): (r: seq<SeasonStat>)
    ensures |r| == |seasons|
    ensures forall i :: 0 <= i < |seasons| ==>
      r[i] == SeasonStat(seasons[i], SeasonTotal(records, seasons[i]), SeasonCount(records, seasons[i]))
  {
    forall season {
      StatOfIsReference(records, season);
    }
    Map(seasons, StatOf(records))
  }

  /** `getSeasonStats()`: always three entries, spring, summer, autumn, none omitted. */
  function SeasonStats(records: seq<HarvestRecord>): (r: seq<SeasonStat>)
    ensures |r| == 3
    ensures r[0].season == "Весна" && r[1].season == "Лето" && r[2].season == "Осень"
    ensures forall i :: 0 <= i < 3 ==>
      r[i].total == SeasonTotal(records, r[i].season) && r[i].count == SeasonCount(records, r[i].season)
  {
    SeasonStatsFor(records, Seasons)
  }

  /** The rollup written out: spring, summer, autumn, each with its reference total and count. */
  lemma SeasonStatsShape(records: seq<HarvestRecord>)
    ensures SeasonStats(records) == [
      SeasonStat("Весна", SeasonTotal(records, "Весна"), SeasonCount(records, "Весна")),
      SeasonStat("Лето", SeasonTotal(records, "Лето"), SeasonCount(records, "Лето")),
      SeasonStat("Осень", SeasonTotal(records, "Осень"), SeasonCount(records, "Осень"))]
  {
    var r := SeasonStats(records);
    assert r == [r[0], r[1], r[2]];
  }

  /** A season with no records still has its entry, with total 0 and count 0. */
  lemma EmptySeason(records: seq<HarvestRecord>, k: nat)
    requires k < 3
    ensures SeasonStats(records)[k].count == 0 <==> forall i :: 0 <= i < |records| ==> records[i].season != Seasons[k]
    ensures SeasonStats(records)[k].count == 0 ==> SeasonStats(records)[k].total == 0
  {
    FilterCount(records, InSeason(Seasons[k]));
    if SeasonStats(records)[k].count == 0 {
      SumZero(records, Masked(InSeason(Seasons[k]), AmountOf));
    }
  }

  // ------------------------------------------- conservation of the rollup

  function TotalOf(stat: SeasonStat): int { stat.total }
  function CountOf(stat: SeasonStat): int { stat.count }

  /** No season occurs twice in the list. */
  predicate Distinct(seasons: seq<string>) {
    forall i, j :: 0 <= i < j < |seasons| ==> seasons[i] != seasons[j]
  }

  /**
   * Summed over a list of distinct seasons, the rollup's totals are the
   * amount of the records whose season is in the list and its counts are
   * the number of those records: nothing is counted twice or lost.
   */
  lemma {:induction false} RollupConserves(records: seq<HarvestRecord>, seasons: seq<string>)
    requires Distinct(seasons)
    ensures Sum(SeasonStatsFor(records, seasons), TotalOf) == Sum(records, Masked(InSeasons(seasons), AmountOf))
    ensures Sum(SeasonStatsFor(records, seasons), CountOf) == Sum(records, Indicator(InSeasons(seasons)))
    decreases |seasons|
  {
    if seasons == [] {
      SumZero(records, Masked(InSeasons(seasons), AmountOf));
      SumZero(records, Indicator(InSeasons(seasons)));
    } else {
      SeasonStatsForTail(records, seasons);
      RollupConserves(records, seasons[1..]);
      SeasonsSplit(records, seasons);
    }
  }

  /** Dropping the first season drops the first entry of the rollup. */
  lemma SeasonStatsForTail(records: seq<HarvestRecord>, seasons: seq<string>)
    requires seasons != []
    ensures SeasonStatsFor(records, seasons)[1..] == SeasonStatsFor(records, seasons[1..])
    ensures SeasonStatsFor(records, seasons)[0].total == SeasonTotal(records, seasons[0])
    ensures SeasonStatsFor(records, seasons)[0].count == SeasonCount(records, seasons[0])
  {
  }

  /** Splitting off the first of distinct seasons splits the amount and the count of the records in them. */
  lemma SeasonsSplit(records: seq<HarvestRecord>, seasons: seq<string>)
    requires Distinct(seasons) && seasons != []
    ensures Sum(records, Masked(InSeasons(seasons), AmountOf)) ==
      SeasonTotal(records, seasons[0]) + Sum(records, Masked(InSeasons(seasons[1..]), AmountOf))
    ensures Sum(records, Indicator(InSeasons(seasons))) ==
      SeasonCount(records, seasons[0]) + Sum(records, Indicator(InSeasons(seasons[1..])))
  {
    var s, rest := seasons[0], seasons[1..];
    assert seasons == [s] + rest;
    assert s !in rest;
    SumSplit(records, Masked(InSeasons(seasons), AmountOf), Masked(InSeason(s), AmountOf), Masked(InSeasons(rest), AmountOf));
    SumSplit(records, Indicator(InSeasons(seasons)), Indicator(InSeason(s)), Indicator(InSeasons(rest)));
  }

  /** The three season labels are different strings. */
  lemma SeasonsDistinct()
    ensures Distinct(Seasons)
  {
    assert "Весна"[0] != "Осень"[0];
  }

  /**
   * The three totals of `getSeasonStats()` add up to the amount of the
   * records in the three seasons (all of the amount when every record has
   * one of them), and the three counts to at most the number of records.
   */
  lemma SeasonStatsConserve(records: seq<HarvestRecord>)
    ensures var r := SeasonStats(records);
      r[0].total + r[1].total + r[2].total == Sum(records, Masked(InSeasons(Seasons), AmountOf))
    ensures var r := SeasonStats(records);
      r[0].count + r[1].count + r[2].count == Sum(records, Indicator(InSeasons(Seasons))) <= |records|
    ensures (forall i :: 0 <= i < |records| ==> records[i].season in Seasons) ==>
      var r := SeasonStats(records);
      r[0].total + r[1].total + r[2].total == Sum(records, AmountOf)
  {
    var r := SeasonStats(records);
    SeasonsDistinct();
    RollupConserves(records, Seasons);
    SumOfThree(r, TotalOf);
    SumOfThree(r, CountOf);
    IndicatorBound(records, InSeasons(Seasons));
    if forall i :: 0 <= i < |records| ==> records[i].season in Seasons {
      SumAgree(records, Masked(InSeasons(Seasons), AmountOf), AmountOf);
    }
  }

  /** Records of other seasons add nothing to the total or the count of `season`. */
  lemma OtherSeasonIgnored(before: seq<HarvestRecord>, extra: seq<HarvestRecord>, after: seq<HarvestRecord>, season: string)
    requires forall i :: 0 <= i < |extra| ==> extra[i].season != season
    ensures SeasonTotal(before + extra + after, season) == SeasonTotal(before + after, season)
    ensures SeasonCount(before + extra + after, season) == SeasonCount(before + after, season)
  {
    var total, count := Masked(InSeason(season), AmountOf), Indicator(InSeason(season));
    SumAppend(before + extra, after, total);
    SumAppend(before, extra, total);
    SumAppend(before, after, total);
    SumZero(extra, total);
    SumAppend(before + extra, after, count);
    SumAppend(before, extra, count);
    SumAppend(before, after, count);
    SumZero(extra, count);
  }

  /** Records whose season is none of the three leave the rollup unchanged, wherever they stand. */
  lemma OffSeasonIgnored(before: seq<HarvestRecord>, extra: seq<HarvestRecord>, after: seq<HarvestRecord>)
    requires forall i :: 0 <= i < |extra| ==> extra[i].season !in Seasons
    ensures SeasonStats(before + extra + after) == SeasonStats(before + after)
  {
    forall k | 0 <= k < 3 {
      OtherSeasonIgnored(before, extra, after, Seasons[k]);
    }
  }

  // ---------------------------------------------------------------- id joins

  /** The find predicate `a => a.id === id`. */
  function HasApiaryId(id: int): Apiary -> bool {
    (a: Apiary) => a.id == id
  }

  /** The find predicate `h => h.id === id`. */
  function HasHiveId(id: int): Hive -> bool {
    (h: Hive) => h.id == id
  }

  /** No two elements share an id. */
  predicate UniqueApiaryIds(apiaries: seq<Apiary>) {
    forall i, j :: 0 <= i < j < |apiaries| ==> apiaries[i].id != apiaries[j].id
  }

  predicate UniqueHiveIds(hives: seq<Hive>) {
    forall i, j :: 0 <= i < j < |hives| ==> hives[i].id != hives[j].id
  }

  /**
   * `apiaries.find(a => a.id === hive.apiaryId)`: the first apiary with the
   * hive's apiary id, or None (never a failure) when no apiary has it.
   */
  function ApiaryOfHive(hive: Hive, apiaries: seq<Apiary>): (r: Option<Apiary>)
    ensures r.None? <==> forall i :: 0 <= i < |apiaries| ==> apiaries[i].id != hive.apiaryId
    ensures r.Some? ==> exists i :: 0 <= i < |apiaries| && apiaries[i] == r.value && r.value.id == hive.apiaryId &&
                                    forall j :: 0 <= j < i ==> apiaries[j].id != hive.apiaryId
  {
    Find(apiaries, HasApiaryId(hive.apiaryId))
  }

  /**
   * `hives.find(h => h.id === record.hiveId)`: the first hive with the
   * record's hive id, or None when no hive has it.
   */
  function HiveOfRecord(record: HarvestRecord, hives: seq<Hive>): (r: Option<Hive>)
    ensures r.None? <==> forall i :: 0 <= i < |hives| ==> hives[i].id != record.hiveId
    ensures r.Some? ==> exists i :: 0 <= i < |hives| && hives[i] == r.value && r.value.id == record.hiveId &&
                                    forall j :: 0 <= j < i ==> hives[j].id != record.hiveId
  {
    Find(hives, HasHiveId(record.hiveId))
  }

  /** With unique ids, the apiary that carries the hive's apiary id is the one found. */
  lemma ApiaryOfHiveUnique(hive: Hive, apiaries: seq<Apiary>, k: nat)
    requires UniqueApiaryIds(apiaries)
    requires k < |apiaries| && apiaries[k].id == hive.apiaryId
    ensures ApiaryOfHive(hive, apiaries) == Some(apiaries[k])
  {
    var r := ApiaryOfHive(hive, apiaries);
    var i :| 0 <= i < |apiaries| && apiaries[i] == r.value && r.value.id == hive.apiaryId;
    assert i == k;
  }

  /** With unique ids, the hive that carries the record's hive id is the one found. */
  lemma HiveOfRecordUnique(record: HarvestRecord, hives: seq<Hive>, k: nat)
    requires UniqueHiveIds(hives)
    requires k < |hives| && hives[k].id == record.hiveId
    ensures HiveOfRecord(record, hives) == Some(hives[k])
  {
    var r := HiveOfRecord(record, hives);
    var i :| 0 <= i < |hives| && hives[i] == r.value && r.value.id == record.hiveId;
    assert i == k;
  }

  /** Earlier apiaries shadow later ones with the same id. */
  lemma FirstApiaryWins(hive: Hive, front: seq<Apiary>, back: seq<Apiary>)
    ensures ApiaryOfHive(hive, front + back) ==
      if ApiaryOfHive(hive, front).Some? then ApiaryOfHive(hive, front) else ApiaryOfHive(hive, back)
  {
    FindAppend(front, back, HasApiaryId(hive.apiaryId));
  }

  /** Earlier hives shadow later ones with the same id. */
  lemma FirstHiveWins(record: HarvestRecord, front: seq<Hive>, back: seq<Hive>)
    ensures HiveOfRecord(record, front + back) ==
      if HiveOfRecord(record, front).Some? then HiveOfRecord(record, front) else HiveOfRecord(record, back)
  {
    FindAppend(front, back, HasHiveId(record.hiveId));
  }

  function NameOf(a: Apiary): string { a.name }
  function NumberOf(h: Hive): string { h.number }

  /** `apiary?.name` on a hive card: absent exactly when the join finds nothing. */
  function ApiaryNameOf(hive: Hive, apiaries: seq<Apiary>): (r: Option<string>)
    ensures r.None? <==> forall i :: 0 <= i < |apiaries| ==> apiaries[i].id != hive.apiaryId
    ensures r.Some? ==> exists i :: 0 <= i < |apiaries| && apiaries[i].id == hive.apiaryId && apiaries[i].name == r.value &&
                                    forall j :: 0 <= j < i ==> apiaries[j].id != hive.apiaryId
  {
    ApiaryOfHive(hive, apiaries).Project(NameOf)
  }

  /** `hive?.number` on a recent-harvest row: absent exactly when the join finds nothing. */
  function HiveNumberOf(record: HarvestRecord, hives: seq<Hive>): (r: Option<string>)
    ensures r.None? <==> forall i :: 0 <= i < |hives| ==> hives[i].id != record.hiveId
    ensures r.Some? ==> exists i :: 0 <= i < |hives| && hives[i].id == record.hiveId && hives[i].number == r.value &&
                                    forall j :: 0 <= j < i ==> hives[j].id != record.hiveId
  {
    HiveOfRecord(record, hives).Project(NumberOf)
  }

  /** A hive card: the hive and the name of its apiary, if it resolves. */
  datatype HiveCard = HiveCard(hive: Hive, apiaryName: Option<string>)

  function HiveCardOf(apiaries: seq<Apiary>): Hive -> HiveCard {
    (hive: Hive) => HiveCard(hive, ApiaryNameOf(hive, apiaries))
  }

  /** The hives tab: one card per hive, in order, each joined to its apiary. */
  function HiveCards(hives: seq<Hive>, apiaries: seq<Apiary>): (r: seq<HiveCard>)
    ensures |r| == |hives|
    ensures forall i :: 0 <= i < |hives| ==> r[i].hive == hives[i] && r[i].apiaryName == ApiaryNameOf(hives[i], apiaries)
  {
    Map(hives, HiveCardOf(apiaries))
  }

  // --------------------------------------------------- recent-records window

  /** `harvestRecords.slice(0, 5)`: the first five records, or all when fewer. */
  function RecentRecords(records: seq<HarvestRecord>): (r: seq<HarvestRecord>)
    ensures |r| == if |records| < 5 then |records| else 5
    ensures r == records[..|r|]
    ensures r == records <==> |records| <= 5
  {
    Slice(records, 0, 5)
  }

  /** A recent-harvest row: the record and the number of its hive, if it resolves. */
  datatype RecentRow = RecentRow(record: HarvestRecord, hiveNumber: Option<string>)

  function RecentRowOf(hives: seq<Hive>): HarvestRecord -> RecentRow {
    (record: HarvestRecord) => RecentRow(record, HiveNumberOf(record, hives))
  }

  /** The recent-harvest list: the window of records, in order, each joined to its hive. */
  function RecentRows(records: seq<HarvestRecord>, hives: seq<Hive>): (r: seq<RecentRow>)
    ensures |r| == if |records| < 5 then |records| else 5
    ensures forall i :: 0 <= i < |r| ==> r[i].record == records[i] && r[i].hiveNumber == HiveNumberOf(records[i], hives)
  {
    Map(RecentRecords(records), RecentRowOf(hives))
  }

  // ------------------------------------------- status mappings, by enum

  /** Every value of the closed status type is one of the strings the switches name. */
  lemma StatusNamesKnown(st: Status)
    ensures IsKnownStatus(st.Name())
    ensures StatusText(st.Name()) != st.Name()
    ensures StatusColor(st.Name()) != "bg-muted"
  {
    match st
    case Active =>
    case Dormant =>
    case Maintenance =>
  }

  /** The three statuses get three different labels and three different styles. */
  lemma StatusMappingsInjective(s: Status, t: Status)
    ensures StatusText(s.Name()) == StatusText(t.Name()) ==> s == t
    ensures StatusColor(s.Name()) == StatusColor(t.Name()) ==> s == t
  {
  }
}
