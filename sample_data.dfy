/**
 * The fixed sample collections the dashboard page starts from, and what
 * the derived statistics give on them.
 */
module SampleData {
  import opened Wrappers
  import opened ArrayOps
  import opened Dashboard

  const SampleApiaries: seq<Apiary> := [
    Apiary(1, "Солнечная поляна", "Луговая, участок 15", 12, 324, 27, Active),
    Apiary(2, "Лесная опушка", "Сосновый бор, кордон 3", 8, 256, 32, Active),
    Apiary(3, "Северная пасека", "Деревня Пчеловодово", 15, 390, 26, Maintenance)
  ]

  const SampleHives: seq<Hive> := [
    Hive(1, 1, "П1-01", 2, 85, "2024-10-28", 32),
    Hive(2, 1, "П1-02", 1, 92, "2024-10-28", 28),
    Hive(3, 1, "П1-03", 3, 78, "2024-10-25", 25),
    Hive(4, 2, "Л2-01", 1, 95, "2024-10-30", 35),
    Hive(5, 2, "Л2-02", 2, 88, "2024-10-30", 33)
  ]

  const SampleRecords: seq<HarvestRecord> := [
    HarvestRecord("2024-06-15", 45, 1, "Весна"),
    HarvestRecord("2024-07-20", 62, 1, "Лето"),
    HarvestRecord("2024-08-25", 38, 1, "Лето"),
    HarvestRecord("2024-06-18", 52, 4, "Весна"),
    HarvestRecord("2024-07-22", 68, 4, "Лето")
  ]

  /** The header cards: 970 kg of honey, 35 hives, 2 of the 3 apiaries active. */
  lemma SampleFleetTotals()
    ensures TotalHoney(SampleApiaries) == 970
    ensures TotalHives(SampleApiaries) == 35
    ensures ActiveApiaries(SampleApiaries) == 2
  {
  }

  /** The sample's spring, summer and autumn totals and counts. */
  lemma SampleSeasonSums()
    ensures SeasonTotal(SampleRecords, "Весна") == 97 && SeasonCount(SampleRecords, "Весна") == 2
    ensures SeasonTotal(SampleRecords, "Лето") == 168 && SeasonCount(SampleRecords, "Лето") == 3
    ensures SeasonTotal(SampleRecords, "Осень") == 0 && SeasonCount(SampleRecords, "Осень") == 0
  {
    var s := SampleRecords;
    assert s[1..][1..][1..][1..][1..] == [];
  }

  /** The season rollup of the sample: spring 97 kg in 2, summer 168 kg in 3, autumn empty. */
  lemma SampleSeasonStats()
    ensures SeasonStats(SampleRecords) ==
      [SeasonStat("Весна", 97, 2), SeasonStat("Лето", 168, 3), SeasonStat("Осень", 0, 0)]
  {
    SampleSeasonSums();
    SeasonStatsShape(SampleRecords);
  }

  /** Every sample hive resolves to its apiary and every sample record to its hive. */
  lemma SampleJoinsResolve()
    ensures forall i :: 0 <= i < |SampleHives| ==> ApiaryNameOf(SampleHives[i], SampleApiaries).Some?
    ensures forall i :: 0 <= i < |SampleRecords| ==> HiveNumberOf(SampleRecords[i], SampleHives).Some?
  {
    forall i | 0 <= i < |SampleHives|
      ensures ApiaryNameOf(SampleHives[i], SampleApiaries).Some?
    {
      var k := SampleHives[i].apiaryId - 1;
      assert 0 <= k < |SampleApiaries| && SampleApiaries[k].id == SampleHives[i].apiaryId;
    }
    forall i | 0 <= i < |SampleRecords|
      ensures HiveNumberOf(SampleRecords[i], SampleHives).Some?
    {
      var k := SampleRecords[i].hiveId - 1;
      assert 0 <= k < |SampleHives| && SampleHives[k].id == SampleRecords[i].hiveId;
    }
  }

  /** A hive whose apiary id names no apiary gets no apiary name, and no failure. */
  lemma OrphanHiveHasNoApiary()
    ensures ApiaryNameOf(Hive(6, 99, "Х9-01", 1, 50, "2024-10-01", 0), SampleApiaries) == None
  {
  }

  /** The sample has exactly five records, so the recent list shows all of them. */
  lemma SampleRecentIsAll()
    ensures RecentRecords(SampleRecords) == SampleRecords
  {
  }
}
