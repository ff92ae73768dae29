# Beekeeping dashboard: derived statistics

A Dafny model of the data layer of the beekeeping dashboard page
(`src/pages/Index.tsx`). The page holds three fixed collections (apiaries,
hives and harvest records) and derives from them everything it shows:
the fleet totals in the header cards, the status badges of the apiaries,
the per-season harvest rollup, the hive-to-apiary and record-to-hive joins
used for labels, and the first five harvest records in stored order
(shown on the card titled as the latest records; nothing sorts them by
date, so with more than five records the latest ones need not be among
them). All of it is pure: the model is datatypes, functions and lemmas.

Files and modules:

- `wrappers.dfy`, module `Wrappers`: `Option`, standing for `T | undefined`,
  with `Project` for optional chaining (`x?.field`).
- `array_ops.dfy`, module `ArrayOps`: the JavaScript array built-ins the page
  uses (`reduce`, `filter`, `map`, `find`, `slice`) as functions on sequences,
  `Sum` as the reference definition of a total, and the lemmas that tie
  `reduce` and `filter` to it.
- `dashboard.dfy`, module `Dashboard`: the record shapes, the fleet totals,
  `getStatusColor` / `getStatusText`, `getSeasonStats`, the `find` joins and
  the `?.` labels, the hives tab cards and the recent-harvest rows.
- `sample_data.dfy`, module `SampleData`: the sample collections the page
  starts from and what the statistics give on them.

Modelling decisions:

- JavaScript `number` is modelled as `int`. Every value in the data is an
  integer and the modelled computations only add numbers, so no rounding is
  involved (the one division on the page, for a progress bar, is left out).
- The `status` field of an apiary is the closed enum `Status`; `Name()` gives
  its string literal. `getStatusColor` and `getStatusText` take any string,
  as in the source, so their default branches are modelled.
- Each callback passed to `reduce`, `filter`, `find` and `map` is a named
  function (`AddHoney`, `InSeason(season)`, `HasApiaryId(id)`, …). The
  reference definitions are sums of weights (`Sum`, `Indicator`, `Masked`);
  the lemmas prove that the source's fold and filter compute them.
- `reduce` is a left fold from the initial value, as the built-in is.
  `ArrayOps.Reduce` and `Dashboard.StatOf` (the callback given to
  `seasons.map`) are the as-written forms and carry no contract of their
  own: what they compute is stated by `ArrayOps.ReduceAdds` and
  `Dashboard.StatOfIsReference`, whose rows cite their source lines.
- `slice` follows the built-in's index rules: a negative index counts from
  the end, and both indices are clamped to the length.
- The statistics are functions of their inputs. Computing one twice on the
  same inputs therefore gives the same result, and a lookup repeated with
  the same inputs gives the same result. This needs no lemma.

## Model

| member | source | states |
|---|---|---|
| `Wrappers.Option.Project` | src/pages/Index.tsx:247 | optional chaining: the result is absent exactly when the value is absent, otherwise it is the field of the value |
| `ArrayOps.Filter` | src/pages/Index.tsx:87 | every element of the result is an input element satisfying the predicate, and every such input element is in the result; the result is no longer than the input, has the full length iff every element passes, and is empty iff none does (order: `FilterAppend`; multiplicity: `FilterSubMultiset`, `FilterCount`) |
| `ArrayOps.FilterSubMultiset` | src/pages/Index.tsx:87 | the filtered records are a sub-multiset of the input: nothing is duplicated |
| `ArrayOps.Map` | src/pages/Index.tsx:86-90 | one result per element, same length, the i-th result is the callback applied to the i-th element |
| `ArrayOps.Find` | src/pages/Index.tsx:240 | None iff no element satisfies the predicate; otherwise the value is an element that satisfies it and no earlier element does |
| `ArrayOps.RelativeIndex` | src/pages/Index.tsx:315 | a slice index: negative counts from the end, the result lies in [0, len] |
| `ArrayOps.Slice` | src/pages/Index.tsx:315 | the result is the contiguous window starting at the clamped start; its length is the clamped end minus the clamped start when that is positive, else 0 (so for non-negative indices the difference of the indices cut to the length) |
| `ArrayOps.ReduceAdds` | src/pages/Index.tsx:62-63 | a reduce whose step adds `f` of each element yields the initial value plus the sum of `f` |
| `ArrayOps.FilterSum` | src/pages/Index.tsx:87-88 | summing over the filtered records equals summing the masked weight over all records |
| `ArrayOps.FilterCount` | src/pages/Index.tsx:64 | the length of a filter equals the number of elements satisfying the predicate |
| `ArrayOps.FilterAppend` | src/pages/Index.tsx:64 | filtering a concatenation is the concatenation of the filtered parts (order is kept) |
| `ArrayOps.FindAppend` | src/pages/Index.tsx:240 | on a concatenation, find returns the first part's match when it has one, else the second part's |
| `Dashboard.TotalHoney` | src/pages/Index.tsx:62 | the reduce equals the sum of `totalHoney` over all apiaries, 0 for no apiaries |
| `Dashboard.TotalHives` | src/pages/Index.tsx:63 | the reduce equals the sum of `hiveCount` over all apiaries, 0 for no apiaries |
| `Dashboard.ActiveApiaries` | src/pages/Index.tsx:64 | the count of apiaries whose status is active; at most the number of apiaries; 0 iff none is active; the full number iff all are |
| `Dashboard.FleetTotalsAppend` | src/pages/Index.tsx:62-64 | the three totals are additive over a split of the apiary list |
| `Dashboard.FleetTotalsNonnegative` | src/pages/Index.tsx:62-63 | non-negative honey amounts and hive counts give non-negative totals |
| `Dashboard.StatusColor` | src/pages/Index.tsx:66-73 | the three statuses map to their styles; the result is "bg-muted" iff the status is none of the three |
| `Dashboard.StatusText` | src/pages/Index.tsx:75-82 | the three statuses map to their labels; the result equals the input iff the status is none of the three |
| `Dashboard.StatusNamesKnown` | src/pages/Index.tsx:19 | every value of the status type hits an explicit case of both switches, never the default |
| `Dashboard.StatusMappingsInjective` | src/pages/Index.tsx:66-82 | different statuses get different labels and different styles |
| `Dashboard.StatOfIsReference` | src/pages/Index.tsx:86-89 | the map callback yields the season, the total amount of its records and their number |
| `Dashboard.SeasonStatsFor` | src/pages/Index.tsx:86-90 | one entry per season of the list, in the list's order, each with that season's total and count |
| `Dashboard.SeasonStats` | src/pages/Index.tsx:84-91 | exactly three entries, spring, summer, autumn in that order, each with its season's total and count |
| `Dashboard.EmptySeason` | src/pages/Index.tsx:85-89 | an entry's count is 0 iff no record has that season, and then its total is 0 and the entry is still present |
| `Dashboard.RollupConserves` | src/pages/Index.tsx:85-89 | over distinct seasons, the totals add up to the amount of the records in those seasons and the counts to their number |
| `Dashboard.SeasonsDistinct` | src/pages/Index.tsx:85 | the three season labels are pairwise different |
| `Dashboard.SeasonStatsConserve` | src/pages/Index.tsx:84-91 | the three totals sum to the amount of the records in the three seasons (all of it when every record has one of them); the three counts sum to at most the number of records |
| `Dashboard.OtherSeasonIgnored` | src/pages/Index.tsx:87-89 | records of other seasons, inserted anywhere, change neither the total nor the count of a season |
| `Dashboard.OffSeasonIgnored` | src/pages/Index.tsx:85-89 | records whose season is none of the three leave the whole rollup unchanged |
| `Dashboard.ApiaryOfHive` | src/pages/Index.tsx:240 | None iff no apiary has the hive's apiary id; otherwise the first apiary with that id |
| `Dashboard.HiveOfRecord` | src/pages/Index.tsx:316 | None iff no hive has the record's hive id; otherwise the first hive with that id |
| `Dashboard.ApiaryOfHiveUnique` | src/pages/Index.tsx:240 | with unique apiary ids, the apiary carrying the id is the one found |
| `Dashboard.HiveOfRecordUnique` | src/pages/Index.tsx:316 | with unique hive ids, the hive carrying the id is the one found |
| `Dashboard.FirstApiaryWins` | src/pages/Index.tsx:240 | an earlier apiary with the id shadows any later one |
| `Dashboard.FirstHiveWins` | src/pages/Index.tsx:316 | an earlier hive with the id shadows any later one |
| `Dashboard.ApiaryNameOf` | src/pages/Index.tsx:247 | the hive card's apiary name is absent iff the join finds nothing, else the name of the first apiary carrying the id |
| `Dashboard.HiveNumberOf` | src/pages/Index.tsx:324 | the recent row's hive number is absent iff the join finds nothing, else the number of the first hive carrying the id |
| `Dashboard.HiveCards` | src/pages/Index.tsx:239-247 | one card per hive, in order, each with its joined apiary name |
| `Dashboard.RecentRecords` | src/pages/Index.tsx:315 | length min(5, number of records); a prefix of the records in their order; the whole list iff it has at most five records |
| `Dashboard.RecentRows` | src/pages/Index.tsx:315-324 | min(5, number of records) rows; row i shows record i and its joined hive number |
| `SampleData.SampleFleetTotals` | src/pages/Index.tsx:40-64 | on the sample apiaries: 970 kg of honey, 35 hives, 2 active |
| `SampleData.SampleSeasonStats` | src/pages/Index.tsx:54-91 | on the sample records: spring 97 kg in 2, summer 168 kg in 3, autumn 0 kg in 0 |
| `SampleData.SampleJoinsResolve` | src/pages/Index.tsx:46-60 | every sample hive finds its apiary and every sample record its hive |
| `SampleData.OrphanHiveHasNoApiary` | src/pages/Index.tsx:240-247 | a hive whose apiary id names no apiary gets an absent name, not a failure |
| `SampleData.SampleRecentIsAll` | src/pages/Index.tsx:54-60 | the five sample records are all in the recent list |

## Left out

- Markup, styling, icons and the card, tab, dialog, input and progress components (`src/pages/Index.tsx:2-10`, 93-380): display calls into a UI library that is not part of this model.
- Tab selection and the create-apiary dialog's open state: that state lives inside the library's tab and dialog components, and the "Создать" button has no handler, so there is no write path.
- The progress-bar percentage `(stat.total / 200) * 100` (line 302): floating-point division.
- Date parsing and `toLocaleDateString('ru-RU')` (lines 265, 325): locale-dependent host library calls.
- The hard-coded calendar task list and its priority badge (lines 351-370): constant display data.
- The `useState` wrappers (lines 40, 46, 54): no setter is ever taken, so the collections are constant and are modelled as plain input sequences.
- `avgPerHive` is carried as an independent field; nothing in the source relates it to `totalHoney / hiveCount`, and neither does the model.
- JavaScript `number` arithmetic on non-integers and beyond 2^53 is not modelled; amounts and counts are mathematical integers.
