/**
 * The statistics cog (cogs/stats.py): the in-memory command counter and the
 * batch of command uses waiting to be written, and the arithmetic of the
 * owner reports: the `commandstats` slice, the day's outcome partition, the
 * gateway health summary, and the per-command and per-cog usage tables.
 * Database rows are inputs; the queries that produce them are not part of
 * this model.
 */
module Stats {
  import opened Common
  import Strings
  import Sorting

  type Time = int

  /** One use of a command, as `register_command` records it
    * (cogs/stats.py:134-142); `guild` is None in a direct message. */
  datatype CommandUse = CommandUse(
    name: string, guild: Option<int>, channel: int, author: int,
    used: Time, prefix: string, failed: bool)

  /** (name, count) pairs, as `Counter.items()` lists them. */
  type Tally = seq<(string, int)>

  function CountKey(p: (string, int)): int
  {
    p.1
  }

  /** `Counter.most_common()`: most used first; equal counts keep their
    * insertion order. */
  function MostCommon(items: Tally): (r: Tally)
    ensures multiset(r) == multiset(items)
    ensures |r| == |items|
    ensures Sorting.SortedDesc(r, CountKey)
    ensures forall c :: Sorting.WithKey(r, CountKey, c) == Sorting.WithKey(items, CountKey, c)
  {
    Sorting.SortDescSorted(items, CountKey);
    Sorting.SortDescStableAll(items, CountKey);
    Sorting.SortDesc(items, CountKey)
  }

  /** The pairs of a counter whose keys are `names`, in that order. */
  function ItemsOf(names: seq<string>, counts: map<string, int>): (r: Tally)
    requires forall n :: n in names ==> n in counts
    ensures |r| == |names|
    ensures forall i :: 0 <= i < |r| ==> r[i] == (names[i], counts[names[i]])
  {
    if names == [] then []
    else ItemsOf(names[..|names| - 1], counts) + [(names[|names| - 1], counts[names[|names| - 1]])]
  }

  /** Where Python's `xs[start:]` begins in a list of length `n`. */
  function SliceStart(start: int, n: nat): (r: nat)
    ensures r <= n
    ensures 0 <= start <= n ==> r == start
    ensures start > n ==> r == n
    ensures -(n as int) <= start < 0 ==> r == n + start
    ensures start < -(n as int) ==> r == 0
  {
    if start >= 0 then (if start <= n then start else n)
    else if n + start >= 0 then n + start
    else 0
  }

  datatype StatsError = EmptyCounter

  /** The entries `commandstats` lists (cogs/stats.py:178-185). An empty
    * counter fails in `max`, before any slicing. */
  function CommandStatsView(items: Tally, limit: int): (r: Result<Tally, StatsError>)
    ensures items == [] <==> r.Err?
    ensures r.Ok? && limit > 0 ==>
      |r.value| == (if limit < |items| then limit else |items|) && r.value <= MostCommon(items)
    ensures r.Ok? && limit == 0 ==> r.value == MostCommon(items)
    ensures r.Ok? && limit < 0 ==>
      |r.value| == (if -limit < |items| then -limit else |items|)
      && r.value == MostCommon(items)[|items| - |r.value|..]
  {
    if items == [] then Err(EmptyCounter)
    else if limit > 0 then Ok(MostCommon(items)[..if limit < |items| then limit else |items|])
    else Ok(MostCommon(items)[SliceStart(limit, |items|)..])
  }

  /** A positive limit lists the most used commands: nothing left out was
    * used more often than anything listed. */
  lemma CommandStatsTop(items: Tally, limit: int, i: nat, j: nat)
    requires limit > 0 && items != []
    requires i < |CommandStatsView(items, limit).value| <= j < |items|
    ensures CommandStatsView(items, limit).value[i].1 >= MostCommon(items)[j].1
  {
    var all := MostCommon(items);
    assert CommandStatsView(items, limit).value[i] == all[i];
    assert CountKey(all[i]) >= CountKey(all[j]);
  }

  /** A negative limit lists the least used commands: nothing left out was
    * used less often than anything listed. */
  lemma CommandStatsBottom(items: Tally, limit: int, i: nat, j: nat)
    requires limit < 0 && items != []
    requires i < |items| - |CommandStatsView(items, limit).value|
    requires j < |CommandStatsView(items, limit).value|
    ensures MostCommon(items)[i].1 >= CommandStatsView(items, limit).value[j].1
  {
    var all := MostCommon(items);
    var shown := CommandStatsView(items, limit).value;
    var k := |items| - |shown| + j;
    assert shown[j] == all[k];
    assert CountKey(all[i]) >= CountKey(all[k]);
  }

  function RowCount(row: (Option<bool>, int)): int
  {
    row.1
  }

  /** The commands of the day's rows whose outcome is `state`: success is
    * `Some(false)`, failure `Some(true)`, unknown `None`. */
  function CountWithState(rows: seq<(Option<bool>, int)>, state: Option<bool>): int
  {
    if rows == [] then 0
    else CountWithState(rows[..|rows| - 1], state) + (if rows[|rows| - 1].0 == state then rows[|rows| - 1].1 else 0)
  }

  /** Every row falls in exactly one of the three outcomes, so they add up
    * to the day's total. */
  lemma {:induction false} OutcomesPartition(rows: seq<(Option<bool>, int)>)
    ensures CountWithState(rows, Some(false)) + CountWithState(rows, Some(true)) + CountWithState(rows, None)
         == SumBy(rows, RowCount)
    decreases |rows|
  {
    if rows != [] {
      OutcomesPartition(rows[..|rows| - 1]);
      var last := rows[|rows| - 1];
      assert RowCount(last) == last.1;
      match last.0
      case None =>
      case Some(b) =>
        assert b || !b;
    }
  }

  /** The tally loop of `stats_today` (cogs/stats.py:494-503). */
  method StatsToday(rows: seq<(Option<bool>, int)>) returns (success: int, failed: int, unknown: int)
    ensures success == CountWithState(rows, Some(false))
    ensures failed == CountWithState(rows, Some(true))
    ensures unknown == CountWithState(rows, None)
    ensures success + failed + unknown == SumBy(rows, RowCount)
  {
    success, failed, unknown := 0, 0, 0;
    for i := 0 to |rows|
      invariant success == CountWithState(rows[..i], Some(false))
      invariant failed == CountWithState(rows[..i], Some(true))
      invariant unknown == CountWithState(rows[..i], None)
    {
      assert rows[..i + 1][..i] == rows[..i];
      var (state, count) := rows[i];
      match state
      case None =>
        unknown := unknown + count;
      case Some(b) =>
        if b {
          failed := failed + count;
        } else {
          success := success + count;
        }
    }
    assert rows[..|rows|] == rows;
    OutcomesPartition(rows);
  }

  /** `sum(1 for dt in dates if dt > yesterday)` (cogs/stats.py:748-755). */
  function CountAfter(dates: seq<Time>, yesterday: Time): (n: nat)
    ensures n <= |dates|
  {
    if dates == [] then 0
    else CountAfter(dates[..|dates| - 1], yesterday) + (if dates[|dates| - 1] > yesterday then 1 else 0)
  }

  /** The count is exactly the number of strictly later dates: all of them
    * when every date is later, none when none is. */
  lemma {:induction false} CountAfterExtremes(dates: seq<Time>, yesterday: Time)
    ensures (forall i :: 0 <= i < |dates| ==> dates[i] > yesterday) ==> CountAfter(dates, yesterday) == |dates|
    ensures (forall i :: 0 <= i < |dates| ==> dates[i] <= yesterday) ==> CountAfter(dates, yesterday) == 0
    decreases |dates|
  {
    if dates != [] {
      CountAfterExtremes(dates[..|dates| - 1], yesterday);
    }
  }

  /** A later cutoff never counts more. */
  lemma {:induction false} CountAfterMonotone(dates: seq<Time>, early: Time, late: Time)
    requires early <= late
    ensures CountAfter(dates, late) <= CountAfter(dates, early)
    decreases |dates|
  {
    if dates != [] {
      CountAfterMonotone(dates[..|dates| - 1], early, late);
    }
  }

  /** `total_identifies` over the shards' IDENTIFY lists
    * (cogs/stats.py:748-757). */
  function TotalAfter(perShard: seq<seq<Time>>, yesterday: Time): nat
  {
    if perShard == [] then 0
    else TotalAfter(perShard[..|perShard| - 1], yesterday) + CountAfter(perShard[|perShard| - 1], yesterday)
  }

  /** The issues charged for too many IDENTIFYs (cogs/stats.py:764-768):
    * none up to ten per shard, and at least two beyond that. */
  function BaseIssues(totalIdentifies: nat, shardCount: nat): (r: nat)
    ensures r > 0 <==> totalIdentifies > shardCount * 10
    ensures r > 0 ==> r >= 2 && r == 2 + totalIdentifies / 10 - shardCount
  {
    if totalIdentifies > shardCount * 10 then 2 + totalIdentifies / 10 - shardCount else 0
  }

  /** What `gateway` reads off a shard (cogs/stats.py:770-782). */
  datatype ShardState = Running | Closed | TaskFailed | TaskFinished

  predicate Unhealthy(s: ShardState)
  {
    s.Closed? || s.TaskFailed?
  }

  function UnhealthyCount(shards: seq<ShardState>): (n: nat)
    ensures n <= |shards|
    ensures n == 0 <==> forall i :: 0 <= i < |shards| ==> !Unhealthy(shards[i])
  {
    if shards == [] then 0
    else
      var n := UnhealthyCount(shards[..|shards| - 1]) + (if Unhealthy(shards[|shards| - 1]) then 1 else 0);
      assert n == 0 ==> forall i :: 0 <= i < |shards| ==> !Unhealthy(shards[i]) by {
        if n == 0 {
          forall i | 0 <= i < |shards| ensures !Unhealthy(shards[i]) {
            if i < |shards| - 1 {
              assert shards[..|shards| - 1][i] == shards[i];
            }
          }
        }
      }
      n
  }

  /** The issue count of `gateway` (cogs/stats.py:747-782): the base
    * issues of the IDENTIFYs after `yesterday`, plus one per closed shard or
    * shard whose task failed. */
  method GatewayIssues(identifies: seq<seq<Time>>, yesterday: Time, shards: seq<ShardState>) returns (issues: nat)
    ensures issues == BaseIssues(TotalAfter(identifies, yesterday), |shards|) + UnhealthyCount(shards)
    ensures issues == 0 <==>
      TotalAfter(identifies, yesterday) <= |shards| * 10 && forall i :: 0 <= i < |shards| ==> !Unhealthy(shards[i])
  {
    var totalIdentifies := TotalAfter(identifies, yesterday);
    if totalIdentifies > |shards| * 10 {
      issues := 2 + totalIdentifies / 10 - |shards|;
    } else {
      issues := 0;
    }
    for i := 0 to |shards|
      invariant issues == BaseIssues(totalIdentifies, |shards|) + UnhealthyCount(shards[..i])
    {
      assert shards[..i + 1][..i] == shards[..i];
      if shards[i].Closed? {
        issues := issues + 1;
      } else if shards[i].TaskFailed? {
        issues := issues + 1;
      }
    }
    assert shards[..|shards|] == shards;
  }

  datatype Colour = Green | Orange | Red

  /** The embed colours of cogs/stats.py:802-807. */
  function ColourValue(c: Colour): int
  {
    match c
    case Green => 0x43B581
    case Orange => 0xF09E47
    case Red => 0xF04947
  }

  /** The colour of the gateway report (cogs/stats.py:802-807). */
  function GatewayColour(issues: nat, shardCount: nat): (c: Colour)
    ensures c == Green <==> issues == 0
    ensures c == Orange <==> 0 < issues < shardCount / 4
    ensures c == Red <==> 0 < issues && shardCount / 4 <= issues
  {
    if issues == 0 then Green
    else if issues < shardCount / 4 then Orange
    else Red
  }

  /** Orange needs `shards // 4` to exceed one issue, so fewer than eight
    * shards go straight from green to red. */
  lemma OrangeNeedsEightShards(issues: nat, shardCount: nat)
    requires GatewayColour(issues, shardCount) == Orange
    ensures shardCount >= 8
  {
  }

  /** The uses the last record for `name` reports, if any. */
  function LastUses(records: Tally, name: string): Option<int>
  {
    if records == [] then None
    else if records[|records| - 1].0 == name then Some(records[|records| - 1].1)
    else LastUses(records[..|records| - 1], name)
  }

  function UsesOrZero(records: Tally, name: string): int
  {
    match LastUses(records, name)
    case Some(u) => u
    case None => 0
  }

  /** The dict of `command_history_log` before the records are read
    * (cogs/stats.py:948-951): every known command, in first-appearance
    * order, with no uses. */
  method KnownCommands(known: seq<string>) returns (names: seq<string>, uses: map<string, int>)
    ensures names == Dedup(known)
    ensures forall n :: n in names <==> n in known
    ensures forall n :: n in uses <==> n in known
    ensures forall n :: n in uses ==> uses[n] == 0
  {
    names, uses := [], map[];
    for i := 0 to |known|
      invariant names == Dedup(known[..i])
      invariant forall n :: n in names <==> n in known[..i]
      invariant forall n :: n in uses <==> n in known[..i]
      invariant forall n :: n in uses ==> uses[n] == 0
    {
      assert known[..i + 1] == known[..i] + [known[i]];
      if known[i] !in uses {
        names := names + [known[i]];
        uses := uses[known[i] := 0];
      }
    }
    assert known[..|known|] == known;
  }

  /** The usage table of `command_history_log` (cogs/stats.py:948-958):
    * every known command, in first-appearance order, with the uses the
    * records report for it, 0 when none do. Records for unknown commands
    * are ignored. */
  method CommandUsage(known: seq<string>, records: Tally) returns (names: seq<string>, uses: map<string, int>)
    ensures names == Dedup(known)
    ensures NoDuplicates(names)
    ensures forall n :: n in names <==> n in known
    ensures forall n :: n in uses <==> n in known
    ensures forall n :: n in uses ==> uses[n] == UsesOrZero(records, n)
  {
    names, uses := KnownCommands(known);
    for i := 0 to |records|
      invariant forall n :: n in uses <==> n in known
      invariant forall n :: n in uses ==> uses[n] == UsesOrZero(records[..i], n)
    {
      assert records[..i + 1][..i] == records[..i];
      var (name, count) := records[i];
      if name in uses {
        uses := uses[name := count];
      }
    }
    assert records[..|records|] == records;
  }

  /** The pairs `command_history_log` sorts (cogs/stats.py:948-956): each
    * known command once, in first-appearance order, with its uses. */
  function UsageItems(known: seq<string>, records: Tally): Tally
  {
    var names := Dedup(known);
    seq(|names|, k requires 0 <= k < |names| => (names[k], UsesOrZero(records, names[k])))
  }

  /** The names of the commands nobody used, in table order. */
  function UnusedNames(table: Tally): (r: seq<string>)
    ensures |r| <= |table|
    ensures forall n :: n in r <==> exists k :: 0 <= k < |table| && table[k] == (n, 0)
  {
    if table == [] then []
    else
      var init := table[..|table| - 1];
      var last := table[|table| - 1];
      var r := UnusedNames(init) + (if last.1 == 0 then [last.0] else []);
      assert forall k :: 0 <= k < |init| ==> init[k] == table[k];
      r
  }

  /** Listing the unused names distributes over the table: the names keep
    * the table's order. */
  lemma {:induction false} UnusedNamesAppend(a: Tally, b: Tally)
    ensures UnusedNames(a + b) == UnusedNames(a) + UnusedNames(b)
    decreases |b|
  {
    if b == [] {
      assert a + b == a;
    } else {
      assert (a + b)[..|a + b| - 1] == a + b[..|b| - 1];
      UnusedNamesAppend(a, b[..|b| - 1]);
    }
  }

  /** A single row is listed exactly when it has no uses. */
  lemma UnusedNamesSingle(row: (string, int))
    ensures UnusedNames([row]) == if row.1 == 0 then [row.0] else []
  {
    assert [row][..0] == [];
  }

  const TooManyUnused: string := "Way too many..."

  /** The "Unused" field (cogs/stats.py:972-974): the unused names joined
    * by commas, replaced when longer than an embed field allows. */
  function UnusedText(table: Tally): (t: string)
    ensures |t| <= 1024
    ensures |Strings.JoinWith(", ", UnusedNames(table))| <= 1024 ==> t == Strings.JoinWith(", ", UnusedNames(table))
    ensures |Strings.JoinWith(", ", UnusedNames(table))| > 1024 ==> t == TooManyUnused
  {
    var joined := Strings.JoinWith(", ", UnusedNames(table));
    if |joined| > 1024 then TooManyUnused else joined
  }

  /** `command_history_log` without the query and the embed
    * (cogs/stats.py:948-974): the table by uses, most first, and the
    * "Unused" text. */
  method CommandHistoryLog(known: seq<string>, records: Tally) returns (table: Tally, unused: string)
    ensures table == MostCommon(UsageItems(known, records))
    ensures Sorting.SortedDesc(table, CountKey)
    ensures |table| <= |known|
    ensures forall n :: n in known <==> exists i :: 0 <= i < |table| && table[i].0 == n
    ensures forall i :: 0 <= i < |table| ==> table[i].1 == UsesOrZero(records, table[i].0)
    ensures forall i, j :: 0 <= i < j < |table| ==> table[i].0 != table[j].0
    ensures unused == UnusedText(table)
  {
    var names, uses := CommandUsage(known, records);
    var items := ItemsOf(names, uses);
    ItemsOfUsage(known, records, names, uses);
    table := MostCommon(items);
    UsageTableFacts(known, records, table);
    unused := UnusedText(table);
  }

  /** The sorted usage table names every known command once, with its
    * uses. */
  lemma UsageTableFacts(known: seq<string>, records: Tally, table: Tally)
    requires table == MostCommon(UsageItems(known, records))
    ensures |table| <= |known|
    ensures forall n :: n in known <==> exists i :: 0 <= i < |table| && table[i].0 == n
    ensures forall i :: 0 <= i < |table| ==> table[i].1 == UsesOrZero(records, table[i].0)
    ensures forall i, j :: 0 <= i < j < |table| ==> table[i].0 != table[j].0
  {
    var names := Dedup(known);
    var items := UsageItems(known, records);
    TableCoversNames(names, items, table);
    NoDuplicatesBound(names, known);
    DistinctNamesKept(names, items, table);
  }

  /** The pairs built from `CommandUsage`'s result are the ones
    * `UsageItems` describes. */
  lemma ItemsOfUsage(known: seq<string>, records: Tally, names: seq<string>, uses: map<string, int>)
    requires names == Dedup(known)
    requires forall n :: n in names ==> n in uses
    requires forall n :: n in uses ==> uses[n] == UsesOrZero(records, n)
    ensures ItemsOf(names, uses) == UsageItems(known, records)
  {
  }

  /** A reordering of the pairs of `names` holds only those pairs and
    * still names each of the names. */
  lemma TableCoversNames(names: seq<string>, items: Tally, table: Tally)
    requires |items| == |names|
    requires forall k :: 0 <= k < |items| ==> items[k].0 == names[k]
    requires multiset(table) == multiset(items)
    ensures forall i :: 0 <= i < |table| ==> table[i] in items
    ensures forall n :: n in names ==> exists i :: 0 <= i < |table| && table[i].0 == n
  {
    forall i | 0 <= i < |table| ensures table[i] in items {
      assert table[i] in multiset(table);
    }
    forall n | n in names ensures exists i :: 0 <= i < |table| && table[i].0 == n {
      var k :| 0 <= k < |names| && names[k] == n;
      assert items[k] in multiset(table);
      var i :| 0 <= i < |table| && table[i] == items[k];
    }
  }

  /** Reordering the pairs of a table whose names are distinct keeps them
    * distinct. */
  lemma DistinctNamesKept(names: seq<string>, items: Tally, table: Tally)
    requires NoDuplicates(names) && |items| == |names|
    requires forall k :: 0 <= k < |items| ==> items[k].0 == names[k]
    requires multiset(table) == multiset(items)
    ensures forall i, j :: 0 <= i < j < |table| ==> table[i].0 != table[j].0
  {
    forall i, j | 0 <= i < j < |table| ensures table[i].0 != table[j].0 {
      assert table[i] in multiset(items) && table[j] in multiset(items);
      var a :| 0 <= a < |items| && items[a] == table[i];
      var b :| 0 <= b < |items| && items[b] == table[j];
      if a == b {
        MultisetAtLeastTwo(table, i, j);
        assert NoDuplicates(items);
        NoDuplicatesCount(items, table[i]);
      }
    }
  }

  /** A list without repeats drawn from `s` is no longer than `s`. */
  lemma NoDuplicatesBound(names: seq<string>, s: seq<string>)
    requires NoDuplicates(names) && forall n :: n in names ==> n in s
    ensures |names| <= |s|
  {
    var a := set n | n in names;
    var b := set n | n in s;
    assert a <= b;
    DistinctCardinality(names);
    CardinalityBound(s);
    assert b == a + (b - a);
  }

  lemma {:induction false} DistinctCardinality(names: seq<string>)
    requires NoDuplicates(names)
    ensures |set n | n in names| == |names|
    decreases |names|
  {
    if names != [] {
      var t := names[1..];
      DistinctCardinality(t);
      assert (set n | n in names) == (set n | n in t) + {names[0]};
      assert names[0] !in t;
    }
  }

  lemma {:induction false} CardinalityBound(s: seq<string>)
    ensures |set n | n in s| <= |s|
    decreases |s|
  {
    if s != [] {
      CardinalityBound(s[1..]);
      assert (set n | n in s) == (set n | n in s[1..]) + {s[0]};
    }
  }

  /** One row of the per-command success/failure query. */
  datatype UsageRow = UsageRow(command: string, success: int, failed: int, total: int)
  /** One row of the per-cog table. */
  datatype CogRow = CogRow(cog: string, success: int, failed: int, total: int)

  const NoCog: string := "No Cog"

  /** The bucket of a command: its cog's name, or 'No Cog' for a command
    * the bot no longer has or one outside any cog; `cogs` maps each
    * command that has a cog to that cog's name. */
  function CogOf(cogs: map<string, string>, command: string): (bucket: string)
    ensures command !in cogs ==> bucket == NoCog
    ensures command in cogs ==> bucket == cogs[command]
  {
    if command in cogs then cogs[command] else NoCog
  }

  function UsageTotal(r: UsageRow): int { r.total }
  function CogTotal(r: CogRow): int { r.total }

  /** The sum of `f` over the rows in `cog`'s bucket. */
  function BucketSum(records: seq<UsageRow>, cogs: map<string, string>, cog: string, f: UsageRow -> int): int
  {
    if records == [] then 0
    else
      var last := records[|records| - 1];
      BucketSum(records[..|records| - 1], cogs, cog, f) + (if CogOf(cogs, last.command) == cog then f(last) else 0)
  }

  function UsageSuccess(r: UsageRow): int { r.success }
  function UsageFailed(r: UsageRow): int { r.failed }

  /** `row` holds the sums of its cog's bucket. */
  ghost predicate IsBucket(records: seq<UsageRow>, cogs: map<string, string>, row: CogRow)
  {
    && row.success == BucketSum(records, cogs, row.cog, UsageSuccess)
    && row.failed == BucketSum(records, cogs, row.cog, UsageFailed)
    && row.total == BucketSum(records, cogs, row.cog, UsageTotal)
  }

  ghost function CogNames(rows: seq<CogRow>): set<string>
  {
    set k | 0 <= k < |rows| :: rows[k].cog
  }

  ghost function BucketsUsed(records: seq<UsageRow>, cogs: map<string, string>): set<string>
  {
    set j | 0 <= j < |records| :: CogOf(cogs, records[j].command)
  }

  ghost predicate DistinctCogs(rows: seq<CogRow>)
  {
    forall i, j :: 0 <= i < j < |rows| ==> rows[i].cog != rows[j].cog
  }

  /** The position of `cog`'s row, if it has one. */
  function FindCog(rows: seq<CogRow>, cog: string): (r: Option<nat>)
    ensures r.Some? ==> r.value < |rows| && rows[r.value].cog == cog
    ensures r.None? ==> forall k :: 0 <= k < |rows| ==> rows[k].cog != cog
  {
    if rows == [] then None
    else if rows[|rows| - 1].cog == cog then Some(|rows| - 1)
    else FindCog(rows[..|rows| - 1], cog)
  }

  /** A bucket's sums grow by the last record when it is the record's
    * bucket, and stay otherwise. */
  lemma BucketStep(records: seq<UsageRow>, cogs: map<string, string>, row: CogRow)
    requires records != [] && IsBucket(records[..|records| - 1], cogs, row)
    ensures var r := records[|records| - 1];
      if CogOf(cogs, r.command) == row.cog
      then IsBucket(records, cogs, CogRow(row.cog, row.success + r.success, row.failed + r.failed, row.total + r.total))
      else IsBucket(records, cogs, row)
  {
  }

  /** The buckets in use grow by the last record's bucket. */
  lemma BucketsUsedSnoc(records: seq<UsageRow>, cogs: map<string, string>)
    requires records != []
    ensures BucketsUsed(records, cogs)
         == BucketsUsed(records[..|records| - 1], cogs) + {CogOf(cogs, records[|records| - 1].command)}
  {
    var init := records[..|records| - 1];
    var cog := CogOf(cogs, records[|records| - 1].command);
    forall c ensures c in BucketsUsed(records, cogs) <==> c in BucketsUsed(init, cogs) || c == cog {
      if c in BucketsUsed(records, cogs) && c != cog {
        var j :| 0 <= j < |records| && CogOf(cogs, records[j].command) == c;
        assert init[j] == records[j];
      }
      if c in BucketsUsed(init, cogs) {
        var j :| 0 <= j < |init| && CogOf(cogs, init[j].command) == c;
        assert records[j] == init[j];
      }
      if c == cog {
        assert CogOf(cogs, records[|records| - 1].command) == c;
      }
    }
  }

  /** A cog that no record falls in has empty sums. */
  lemma {:induction false} BucketEmpty(records: seq<UsageRow>, cogs: map<string, string>, cog: string, f: UsageRow -> int)
    requires cog !in BucketsUsed(records, cogs)
    ensures BucketSum(records, cogs, cog, f) == 0
    decreases |records|
  {
    if records != [] {
      BucketsUsedSnoc(records, cogs);
      BucketEmpty(records[..|records| - 1], cogs, cog, f);
    }
  }

  /** `data` is the grouping of `records`: one row per bucket in use, each
    * holding its bucket's sums, and together the records' total. */
  ghost predicate Grouped(records: seq<UsageRow>, cogs: map<string, string>, data: seq<CogRow>)
  {
    && (forall k :: 0 <= k < |data| ==> IsBucket(records, cogs, data[k]))
    && DistinctCogs(data)
    && CogNames(data) == BucketsUsed(records, cogs)
    && SumBy(data, CogTotal) == SumBy(records, UsageTotal)
  }

  /** The loop body of `command_history_cog`: add `r` to `cog`'s row,
    * opening the row when the cog has none yet. */
  function Absorb(data: seq<CogRow>, cog: string, r: UsageRow): (d: seq<CogRow>)
    ensures |d| >= |data|
  {
    match FindCog(data, cog)
    case Some(k) => data[k := CogRow(cog, data[k].success + r.success, data[k].failed + r.failed, data[k].total + r.total)]
    case None => data + [CogRow(cog, r.success, r.failed, r.total)]
  }

  lemma CogNamesUpdate(data: seq<CogRow>, k: nat, row: CogRow)
    requires k < |data| && row.cog == data[k].cog
    ensures CogNames(data[k := row]) == CogNames(data)
  {
    var d := data[k := row];
    forall c ensures c in CogNames(d) <==> c in CogNames(data) {
      if c in CogNames(data) {
        var j :| 0 <= j < |data| && data[j].cog == c;
        assert d[j].cog == c;
      }
      if c in CogNames(d) {
        var j :| 0 <= j < |d| && d[j].cog == c;
        assert data[j].cog == c;
      }
    }
  }

  lemma CogNamesSnoc(data: seq<CogRow>, row: CogRow)
    ensures CogNames(data + [row]) == CogNames(data) + {row.cog}
  {
    var d := data + [row];
    forall c ensures c in CogNames(d) <==> c in CogNames(data) || c == row.cog {
      if c in CogNames(data) {
        var j :| 0 <= j < |data| && data[j].cog == c;
        assert d[j].cog == c;
      }
      if c in CogNames(d) && c != row.cog {
        var j :| 0 <= j < |d| && d[j].cog == c;
        assert data[j].cog == c;
      }
      assert d[|data|].cog == row.cog;
    }
  }

  /** The record total grows by the last record's total. */
  lemma UsageTotalSnoc(records: seq<UsageRow>)
    requires records != []
    ensures SumBy(records, UsageTotal) == SumBy(records[..|records| - 1], UsageTotal) + records[|records| - 1].total
  {
  }

  lemma BucketsUpdate(records: seq<UsageRow>, cogs: map<string, string>, data: seq<CogRow>, k: nat)
    requires records != []
    requires forall j :: 0 <= j < |data| ==> IsBucket(records[..|records| - 1], cogs, data[j])
    requires DistinctCogs(data)
    requires k < |data| && data[k].cog == CogOf(cogs, records[|records| - 1].command)
    ensures var r := records[|records| - 1];
      var d := data[k := CogRow(data[k].cog, data[k].success + r.success, data[k].failed + r.failed, data[k].total + r.total)];
      forall j :: 0 <= j < |d| ==> IsBucket(records, cogs, d[j])
  {
    forall j | 0 <= j < |data| {
      BucketStep(records, cogs, data[j]);
    }
  }

  /** Adding the last record to the row its cog already has. */
  lemma GroupedUpdate(records: seq<UsageRow>, cogs: map<string, string>, data: seq<CogRow>, k: nat)
    requires records != []
    requires Grouped(records[..|records| - 1], cogs, data)
    requires k < |data| && data[k].cog == CogOf(cogs, records[|records| - 1].command)
    ensures var r := records[|records| - 1];
      Grouped(records, cogs, data[k := CogRow(data[k].cog, data[k].success + r.success, data[k].failed + r.failed, data[k].total + r.total)])
  {
    var r := records[|records| - 1];
    var row := CogRow(data[k].cog, data[k].success + r.success, data[k].failed + r.failed, data[k].total + r.total);
    BucketsUpdate(records, cogs, data, k);
    NamesUpdate(records, cogs, data, k, row);
    TotalUpdate(records, data, k, row);
    DistinctUpdate(data, k, row);
  }

  lemma DistinctUpdate(data: seq<CogRow>, k: nat, row: CogRow)
    requires DistinctCogs(data) && k < |data| && row.cog == data[k].cog
    ensures DistinctCogs(data[k := row])
  {
    var d := data[k := row];
    assert forall i :: 0 <= i < |d| ==> d[i].cog == data[i].cog;
  }

  lemma NamesUpdate(records: seq<UsageRow>, cogs: map<string, string>, data: seq<CogRow>, k: nat, row: CogRow)
    requires records != [] && CogNames(data) == BucketsUsed(records[..|records| - 1], cogs)
    requires k < |data| && row.cog == data[k].cog == CogOf(cogs, records[|records| - 1].command)
    ensures CogNames(data[k := row]) == BucketsUsed(records, cogs)
  {
    CogNamesUpdate(data, k, row);
    BucketsUsedSnoc(records, cogs);
    assert data[k].cog in CogNames(data);
  }

  lemma TotalUpdate(records: seq<UsageRow>, data: seq<CogRow>, k: nat, row: CogRow)
    requires records != [] && SumBy(data, CogTotal) == SumBy(records[..|records| - 1], UsageTotal)
    requires k < |data| && row.total == data[k].total + records[|records| - 1].total
    ensures SumBy(data[k := row], CogTotal) == SumBy(records, UsageTotal)
  {
    UsageTotalSnoc(records);
    SumByUpdate(data, k, row, CogTotal);
  }

  /** Opening a row for the last record's cog, which had none. */
  lemma GroupedAppend(records: seq<UsageRow>, cogs: map<string, string>, data: seq<CogRow>)
    requires records != []
    requires Grouped(records[..|records| - 1], cogs, data)
    requires forall k :: 0 <= k < |data| ==> data[k].cog != CogOf(cogs, records[|records| - 1].command)
    ensures var r := records[|records| - 1];
      Grouped(records, cogs, data + [CogRow(CogOf(cogs, r.command), r.success, r.failed, r.total)])
  {
    var init := records[..|records| - 1];
    var r := records[|records| - 1];
    var cog := CogOf(cogs, r.command);
    var row := CogRow(cog, r.success, r.failed, r.total);
    var d := data + [row];
    assert cog !in CogNames(data);
    BucketEmpty(init, cogs, cog, UsageSuccess);
    BucketEmpty(init, cogs, cog, UsageFailed);
    BucketEmpty(init, cogs, cog, UsageTotal);
    forall j | 0 <= j < |d| ensures IsBucket(records, cogs, d[j]) {
      if j < |data| {
        BucketStep(records, cogs, data[j]);
      } else {
        BucketStep(records, cogs, CogRow(cog, 0, 0, 0));
      }
    }
    UsageTotalSnoc(records);
    SumByAppend(data, [row], CogTotal);
    assert [row][..0] == [];
    CogNamesSnoc(data, row);
    BucketsUsedSnoc(records, cogs);
  }

  /** One step of the grouping keeps it a grouping of one more record. */
  lemma GroupedStep(records: seq<UsageRow>, cogs: map<string, string>, data: seq<CogRow>)
    requires records != []
    requires Grouped(records[..|records| - 1], cogs, data)
    ensures Grouped(records, cogs, Absorb(data, CogOf(cogs, records[|records| - 1].command), records[|records| - 1]))
  {
    var cog := CogOf(cogs, records[|records| - 1].command);
    match FindCog(data, cog)
    case Some(k) =>
      GroupedUpdate(records, cogs, data, k);
    case None =>
      GroupedAppend(records, cogs, data);
  }

  lemma SortedDistinct(records: seq<UsageRow>, cogs: map<string, string>, data: seq<CogRow>)
    requires forall k :: 0 <= k < |data| ==> IsBucket(records, cogs, data[k])
    requires DistinctCogs(data)
    ensures DistinctCogs(Sorting.SortDesc(data, CogTotal))
  {
    var rows := Sorting.SortDesc(data, CogTotal);
    forall i | 0 <= i < |rows| ensures rows[i] in data {
      assert rows[i] in multiset(rows);
    }
    forall i, j | 0 <= i < j < |rows| ensures rows[i].cog != rows[j].cog {
      if rows[i].cog == rows[j].cog {
        assert rows[i] == rows[j];
        DistinctCogsNoDuplicates(data);
        PermutationNoDuplicates(data, rows);
      }
    }
  }

  /** Sorting a grouping keeps it a grouping. */
  lemma SortedGrouping(records: seq<UsageRow>, cogs: map<string, string>, data: seq<CogRow>)
    requires Grouped(records, cogs, data)
    ensures Grouped(records, cogs, Sorting.SortDesc(data, CogTotal))
  {
    var rows := Sorting.SortDesc(data, CogTotal);
    SumByPermutation(rows, data, CogTotal);
    forall i | 0 <= i < |rows| ensures rows[i] in data {
      assert rows[i] in multiset(rows);
    }
    SortedDistinct(records, cogs, data);
    PermutationCogNames(rows, data);
  }

  /** Reordering the rows keeps the set of cogs. */
  lemma PermutationCogNames(rows: seq<CogRow>, data: seq<CogRow>)
    requires multiset(rows) == multiset(data)
    ensures CogNames(rows) == CogNames(data)
  {
    forall c ensures c in CogNames(rows) <==> c in CogNames(data) {
      if c in CogNames(rows) {
        var j :| 0 <= j < |rows| && rows[j].cog == c;
        assert rows[j] in multiset(data);
        var k :| 0 <= k < |data| && data[k] == rows[j];
      }
      if c in CogNames(data) {
        var k :| 0 <= k < |data| && data[k].cog == c;
        assert data[k] in multiset(rows);
        var j :| 0 <= j < |rows| && rows[j] == data[k];
      }
    }
  }

  /** The `defaultdict` of `command_history_cog` once every record is
    * absorbed (cogs/stats.py:1031-1038), in its insertion order. */
  function GroupAll(records: seq<UsageRow>, cogs: map<string, string>): seq<CogRow>
  {
    if records == [] then []
    else
      var last := records[|records| - 1];
      Absorb(GroupAll(records[..|records| - 1], cogs), CogOf(cogs, last.command), last)
  }

  /** The cog of each row, in row order. */
  function CogColumn(rows: seq<CogRow>): seq<string>
  {
    seq(|rows|, k requires 0 <= k < |rows| => rows[k].cog)
  }

  /** The bucket of each record, in record order. */
  function BucketColumn(records: seq<UsageRow>, cogs: map<string, string>): seq<string>
  {
    seq(|records|, j requires 0 <= j < |records| => CogOf(cogs, records[j].command))
  }

  /** Absorbing every record gives the grouping of the records. */
  lemma {:induction false} GroupAllGrouped(records: seq<UsageRow>, cogs: map<string, string>)
    ensures Grouped(records, cogs, GroupAll(records, cogs))
    decreases |records|
  {
    if records != [] {
      GroupAllGrouped(records[..|records| - 1], cogs);
      GroupedStep(records, cogs, GroupAll(records[..|records| - 1], cogs));
    }
  }

  /** The rows of the dict come in the order in which their cogs first
    * occur among the records' buckets: a dict keeps insertion order. */
  lemma {:induction false} GroupAllFirstSeen(records: seq<UsageRow>, cogs: map<string, string>)
    ensures CogColumn(GroupAll(records, cogs)) == Dedup(BucketColumn(records, cogs))
    decreases |records|
  {
    if records != [] {
      var init := records[..|records| - 1];
      var last := records[|records| - 1];
      var cog := CogOf(cogs, last.command);
      var data := GroupAll(init, cogs);
      GroupAllFirstSeen(init, cogs);
      var column := BucketColumn(records, cogs);
      assert column[..|column| - 1] == BucketColumn(init, cogs);
      var seen := Dedup(BucketColumn(init, cogs));
      assert Dedup(column) == if cog in seen then seen else seen + [cog];
      AbsorbColumn(data, cog, last);
    }
  }

  /** Absorbing a record adds its cog to the column only when the cog has
    * no row yet. */
  lemma AbsorbColumn(data: seq<CogRow>, cog: string, r: UsageRow)
    ensures CogColumn(Absorb(data, cog, r))
         == if cog in CogColumn(data) then CogColumn(data) else CogColumn(data) + [cog]
  {
    match FindCog(data, cog)
    case Some(k) =>
      assert CogColumn(data)[k] == cog;
      CogColumnUpdate(data, k, CogRow(cog, data[k].success + r.success, data[k].failed + r.failed, data[k].total + r.total));
    case None =>
      assert cog !in CogColumn(data);
      CogColumnSnoc(data, CogRow(cog, r.success, r.failed, r.total));
  }

  lemma CogColumnUpdate(rows: seq<CogRow>, k: nat, row: CogRow)
    requires k < |rows| && row.cog == rows[k].cog
    ensures CogColumn(rows[k := row]) == CogColumn(rows)
  {
  }

  lemma CogColumnSnoc(rows: seq<CogRow>, row: CogRow)
    ensures CogColumn(rows + [row]) == CogColumn(rows) + [row.cog]
  {
  }

  /** The grouping of `command_history_cog` (cogs/stats.py:1026-1045): one
    * row per cog that some record falls in, holding that cog's sums, sorted
    * by total, most first; rows with equal totals keep the dict's order,
    * which is the order in which their cogs first occur in the records. */
  method AggregateByCog(records: seq<UsageRow>, cogs: map<string, string>) returns (rows: seq<CogRow>)
    ensures rows == Sorting.SortDesc(GroupAll(records, cogs), CogTotal)
    ensures forall t :: Sorting.WithKey(rows, CogTotal, t) == Sorting.WithKey(GroupAll(records, cogs), CogTotal, t)
    ensures forall i :: 0 <= i < |rows| ==> IsBucket(records, cogs, rows[i])
    ensures DistinctCogs(rows)
    ensures CogNames(rows) == BucketsUsed(records, cogs)
    ensures Sorting.SortedDesc(rows, CogTotal)
    ensures SumBy(rows, CogTotal) == SumBy(records, UsageTotal)
  {
    var data: seq<CogRow> := [];
    for i := 0 to |records|
      invariant data == GroupAll(records[..i], cogs)
    {
      assert records[..i + 1][..i] == records[..i];
      data := Absorb(data, CogOf(cogs, records[i].command), records[i]);
    }
    assert records[..|records|] == records;
    GroupAllGrouped(records, cogs);
    SortedGrouping(records, cogs, data);
    Sorting.SortDescSorted(data, CogTotal);
    Sorting.SortDescStableAll(data, CogTotal);
    rows := Sorting.SortDesc(data, CogTotal);
  }

  lemma DistinctCogsNoDuplicates(rows: seq<CogRow>)
    requires DistinctCogs(rows)
    ensures NoDuplicates(rows)
  {
  }

  /** Replacing one item changes the sum by the difference. */
  lemma SumByUpdate<T>(s: seq<T>, k: nat, x: T, f: T -> int)
    requires k < |s|
    ensures SumBy(s[k := x], f) == SumBy(s, f) - f(s[k]) + f(x)
  {
    assert s == s[..k] + [s[k]] + s[k + 1..];
    assert s[k := x] == s[..k] + [x] + s[k + 1..];
    SumByAppend(s[..k] + [s[k]], s[k + 1..], f);
    SumByAppend(s[..k], [s[k]], f);
    SumByAppend(s[..k] + [x], s[k + 1..], f);
    SumByAppend(s[..k], [x], f);
    assert [s[k]][..0] == [] && [x][..0] == [];
  }

  /** The counter and the batch of `Stats` (cogs/stats.py:71-101,
    * 117-142); the counter lives on the bot in the source. */
  class CommandStats {
    /** The counter's keys in insertion order. */
    var names: seq<string>
    var counts: map<string, int>
    /** Uses waiting for the next `bulk_insert`. */
    var batch: seq<CommandUse>

    ghost predicate Valid()
      reads this
    {
      NoDuplicates(names) && forall n :: n in counts <==> n in names
    }

    constructor ()
      ensures Valid()
      ensures names == [] && counts == map[] && batch == []
    {
      names := [];
      counts := map[];
      batch := [];
    }

    /** The counter's `(name, count)` pairs in insertion order. */
    function Items(): (r: Tally)
      requires Valid()
      reads this
      ensures |r| == |names|
    {
      ItemsOf(names, counts)
    }

    /** `register_command` (cogs/stats.py:117-142): a context without a
      * command is ignored; otherwise its count goes up by one and one use
      * joins the batch. */
    method RegisterCommand(use: Option<CommandUse>)
      requires Valid()
      modifies this`names, this`counts, this`batch
      ensures Valid()
      ensures use.None? ==> names == old(names) && counts == old(counts) && batch == old(batch)
      ensures use.Some? ==>
        var n := use.value.name;
        && counts == old(counts)[n := (if n in old(counts) then old(counts)[n] else 0) + 1]
        && names == (if n in old(counts) then old(names) else old(names) + [n])
        && batch == old(batch) + [use.value]
    {
      if use.None? {
        return;
      }
      var n := use.value.name;
      if n !in counts {
        names := names + [n];
        counts := counts[n := 0];
      }
      counts := counts[n := counts[n] + 1];
      batch := batch + [use.value];
    }

    /** `bulk_insert` (cogs/stats.py:88-101): an empty batch is left alone;
      * otherwise it is written and then cleared. When the write raises
      * (`executeOk` false) the batch stays. */
    method BulkInsert(executeOk: bool) returns (written: seq<CommandUse>)
      requires Valid()
      modifies this`batch
      ensures Valid()
      ensures old(batch) == [] ==> written == [] && batch == []
      ensures old(batch) != [] && executeOk ==> written == old(batch) && batch == []
      ensures old(batch) != [] && !executeOk ==> written == [] && batch == old(batch)
    {
      written := [];
      if batch != [] && executeOk {
        written := batch;
        batch := [];
      }
    }

    /** `commandstats` on the current counter. */
    method CommandStatsNow(limit: int) returns (r: Result<Tally, StatsError>)
      requires Valid()
      ensures r == CommandStatsView(Items(), limit)
    {
      r := CommandStatsView(Items(), limit);
    }
  }
}
