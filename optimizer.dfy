/** ExecutionOptimizer: a result cache with expiry, the split of the requested processes
    into skipped and run, the grouping of the run list into parallel groups, the
    sequential execution of a plan, per-process execution counters and the integer parts
    of the optimisation report. The clock is the parameter `now` (whole seconds). */
module Optimization {
  import opened Wrappers
  import opened Seqs
  import opened Dicts

  /** A 3D position; never inspected here. */
  type Coords = seq<real>

  /** An entry of the location legend: its category, and optionally its command and
      3D coordinates. */
  datatype LegendEntry = LegendEntry(category: string, command: Option<string>, coordinates3d: Option<Coords>)

  /** The optimisation rules of one category. */
  datatype Rules = Rules(cacheDuration: int, skipIfUnchanged: bool, parallelSafe: bool)

  /** The defaults read from a category that has no rules. */
  const NoRules := Rules(0, false, false)

  /** The rules installed by `initialize_optimization_rules`, in their dictionary order. */
  const DefaultRules: Dict<string, Rules> := Dict(
    ["data", "computation", "io", "control", "crypto", "network", "ui", "error"],
    map[
      "data" := Rules(300, true, true),
      "computation" := Rules(600, true, false),
      "io" := Rules(60, false, false),
      "control" := Rules(0, false, false),
      "crypto" := Rules(1800, true, true),
      "network" := Rules(120, false, true),
      "ui" := Rules(30, true, true),
      "error" := Rules(0, false, false)
    ])

  /** `optimization_rules.get(category, {})` */
  function RulesFor(rules: Dict<string, Rules>, category: string): Rules {
    rules.Get(category, NoRules)
  }

  /** Only these categories ever have a result cached; 'control' and 'error' never do. */
  lemma {:induction false} CachedCategories(category: string)
    ensures RulesFor(DefaultRules, category).cacheDuration > 0
        <==> category in {"data", "computation", "io", "crypto", "network", "ui"}
  {
  }

  /** `legend.get(process, {}).get('category', 'general')` */
  function CategoryOf(locations: map<string, LegendEntry>, process: string): string {
    if process in locations then locations[process].category else "general"
  }

  function RulesOf(locations: map<string, LegendEntry>, rules: Dict<string, Rules>, process: string): Rules {
    RulesFor(rules, CategoryOf(locations, process))
  }

  // ---------------------------------------------------------------- cache

  /** What `_execute_single_process` returns (its timing is not modelled). */
  datatype ExecResult = ExecResult(process: string, command: string, output: string, success: bool)

  datatype CacheEntry = CacheEntry(result: ExecResult, timestamp: int, coordinates: Coords)

  /** A cached result that may be served instead of running the process. */
  predicate Fresh(rules: Rules, cache: map<string, CacheEntry>, process: string, now: int) {
    && rules.skipIfUnchanged
    && process in cache
    && rules.cacheDuration != 0
    && now - cache[process].timestamp <= rules.cacheDuration
  }

  /** A cached result that `_can_skip_process` finds too old and deletes. */
  predicate Expired(rules: Rules, cache: map<string, CacheEntry>, process: string, now: int) {
    && rules.skipIfUnchanged
    && process in cache
    && rules.cacheDuration != 0
    && now - cache[process].timestamp > rules.cacheDuration
  }

  /** `process_data.get('command', '')` */
  function CommandOf(locations: map<string, LegendEntry>, process: string): string {
    if process in locations then locations[process].command.GetOr("") else ""
  }

  /** The result of running a process: it only echoes the legend's command. */
  function ResultFor(locations: map<string, LegendEntry>, process: string): ExecResult {
    var command := CommandOf(locations, process);
    ExecResult(process, command, "Executed: " + command, true)
  }

  function CoordinatesFor(locations: map<string, LegendEntry>, process: string): Coords {
    if process in locations then locations[process].coordinates3d.GetOr([0.0, 0.0, 0.0]) else [0.0, 0.0, 0.0]
  }

  /** The cache after running `process` at time `now`: stored only when the category's
      cache duration is positive. */
  function CacheAfterOne(locations: map<string, LegendEntry>, rules: Dict<string, Rules>,
                         cache: map<string, CacheEntry>, process: string, now: int): map<string, CacheEntry>
  {
    if RulesOf(locations, rules, process).cacheDuration > 0
    then cache[process := CacheEntry(ResultFor(locations, process), now, CoordinatesFor(locations, process))]
    else cache
  }

  /** The cache after running `processes` in order at time `now`. */
  function CacheAfter(locations: map<string, LegendEntry>, rules: Dict<string, Rules>,
                      cache: map<string, CacheEntry>, processes: seq<string>, now: int): map<string, CacheEntry>
  {
    if processes == [] then cache
    else CacheAfterOne(locations, rules, CacheAfter(locations, rules, cache, processes[..|processes| - 1], now),
                       processes[|processes| - 1], now)
  }

  /** Running processes only adds or refreshes entries of cacheable processes, each with
      the run's result and timestamp; every other entry is untouched. */
  lemma {:induction false} CacheAfterContents(locations: map<string, LegendEntry>, rules: Dict<string, Rules>,
                                              cache: map<string, CacheEntry>, processes: seq<string>, now: int)
    ensures forall p :: p in CacheAfter(locations, rules, cache, processes, now) <==>
      p in cache || (p in processes && RulesOf(locations, rules, p).cacheDuration > 0)
    ensures forall p :: p in processes && RulesOf(locations, rules, p).cacheDuration > 0 ==>
      CacheAfter(locations, rules, cache, processes, now)[p]
        == CacheEntry(ResultFor(locations, p), now, CoordinatesFor(locations, p))
    ensures forall p :: p in cache && !(p in processes && RulesOf(locations, rules, p).cacheDuration > 0) ==>
      CacheAfter(locations, rules, cache, processes, now)[p] == cache[p]
  {
    if processes != [] {
      CacheAfterContents(locations, rules, cache, processes[..|processes| - 1], now);
      assert processes == processes[..|processes| - 1] + [processes[|processes| - 1]];
    }
  }

  // ---------------------------------------------------------------- planning

  /** The requested processes: a single process or a list. */
  datatype Targets = One(process: string) | Many(processes: seq<string>)

  /** A non-list argument is treated as a one-element list. */
  function AsList(targets: Targets): (r: seq<string>)
    ensures targets.One? ==> r == [targets.process]
    ensures targets.Many? ==> r == targets.processes
  {
    match targets
    case One(p) => [p]
    case Many(ps) => ps
  }

  /** A process the plan runs: known to the legend and without a fresh cached result. */
  function RunsNow(locations: map<string, LegendEntry>, rules: Dict<string, Rules>,
                   cache: map<string, CacheEntry>, now: int): string -> bool
  {
    p => p in locations && !Fresh(RulesOf(locations, rules, p), cache, p, now)
  }

  /** A process the plan skips: known to the legend and with a fresh cached result. */
  function SkipsNow(locations: map<string, LegendEntry>, rules: Dict<string, Rules>,
                    cache: map<string, CacheEntry>, now: int): string -> bool
  {
    p => p in locations && Fresh(RulesOf(locations, rules, p), cache, p, now)
  }

  /** The processes of `path` known to the legend, in order. */
  function KnownOf(locations: map<string, LegendEntry>, path: seq<string>): seq<string> {
    if path == [] then [] else (if path[0] in locations then [path[0]] else []) + KnownOf(locations, path[1..])
  }

  lemma {:induction false} KnownOfConcat(locations: map<string, LegendEntry>, a: seq<string>, b: seq<string>)
    ensures KnownOf(locations, a + b) == KnownOf(locations, a) + KnownOf(locations, b)
  {
    if a == [] {
      assert a + b == b;
    } else {
      assert (a + b)[1..] == a[1..] + b;
      KnownOfConcat(locations, a[1..], b);
    }
  }

  /** The cache after `_can_skip_process` has looked at each known process of `path` in
      order, deleting the expired entries it meets. */
  function Pruned(locations: map<string, LegendEntry>, rules: Dict<string, Rules>,
                  cache: map<string, CacheEntry>, now: int, path: seq<string>): map<string, CacheEntry>
  {
    if path == [] then cache
    else
      var c := Pruned(locations, rules, cache, now, path[..|path| - 1]);
      var p := path[|path| - 1];
      if p in locations && Expired(RulesOf(locations, rules, p), c, p, now) then c - {p} else c
  }

  /** The run list as `optimize_execution_path` builds it, each decision taken on the cache
      as pruned so far. */
  function RunList(locations: map<string, LegendEntry>, rules: Dict<string, Rules>,
                   cache: map<string, CacheEntry>, now: int, path: seq<string>): seq<string>
  {
    if path == [] then []
    else
      var init := path[..|path| - 1];
      var p := path[|path| - 1];
      var c := Pruned(locations, rules, cache, now, init);
      RunList(locations, rules, cache, now, init)
        + (if p in locations && !Fresh(RulesOf(locations, rules, p), c, p, now) then [p] else [])
  }

  /** An entry of `skipped_processes` (its reason is always 'cached_result_available'). */
  datatype Skipped = Skipped(process: string, cachedResult: CacheEntry)

  function ProcessOf(s: Skipped): string {
    s.process
  }

  /** The skipped list as `optimize_execution_path` builds it. */
  function SkippedList(locations: map<string, LegendEntry>, rules: Dict<string, Rules>,
                       cache: map<string, CacheEntry>, now: int, path: seq<string>): seq<Skipped>
  {
    if path == [] then []
    else
      var init := path[..|path| - 1];
      var p := path[|path| - 1];
      var c := Pruned(locations, rules, cache, now, init);
      SkippedList(locations, rules, cache, now, init)
        + (if p in locations && Fresh(RulesOf(locations, rules, p), c, p, now) then [Skipped(p, c[p])] else [])
  }

  /** Deleting expired entries along the way never changes a decision. The cache loses
      exactly the expired entries of the requested known processes, and what it keeps is
      unchanged. */
  lemma {:induction false} PrunedContents(locations: map<string, LegendEntry>, rules: Dict<string, Rules>,
                                          cache: map<string, CacheEntry>, now: int, path: seq<string>)
    ensures forall q :: q in Pruned(locations, rules, cache, now, path) <==>
      q in cache && !(q in path && q in locations && Expired(RulesOf(locations, rules, q), cache, q, now))
    ensures forall q :: q in Pruned(locations, rules, cache, now, path) ==> Pruned(locations, rules, cache, now, path)[q] == cache[q]
  {
    if path != [] {
      PrunedContents(locations, rules, cache, now, path[..|path| - 1]);
      assert path == path[..|path| - 1] + [path[|path| - 1]];
    }
  }

  /** The decision taken on the pruned cache is the one the original cache gives. */
  lemma {:induction false} DecisionUnchanged(locations: map<string, LegendEntry>, rules: Dict<string, Rules>,
                          cache: map<string, CacheEntry>, now: int, init: seq<string>, p: string)
    requires p in locations
    ensures var c := Pruned(locations, rules, cache, now, init);
      && Fresh(RulesOf(locations, rules, p), c, p, now) == Fresh(RulesOf(locations, rules, p), cache, p, now)
      && (Fresh(RulesOf(locations, rules, p), c, p, now) ==> c[p] == cache[p])
  {
    PrunedContents(locations, rules, cache, now, init);
  }

  /** The run list is the requested processes that are known and have no fresh cached
      result, in request order. */
  lemma {:induction false} RunListIsFilter(locations: map<string, LegendEntry>, rules: Dict<string, Rules>,
                                           cache: map<string, CacheEntry>, now: int, path: seq<string>)
    ensures RunList(locations, rules, cache, now, path) == Filter(path, RunsNow(locations, rules, cache, now))
  {
    if path != [] {
      var init := path[..|path| - 1];
      var p := path[|path| - 1];
      RunListIsFilter(locations, rules, cache, now, init);
      FilterLast(path, RunsNow(locations, rules, cache, now));
      if p in locations {
        DecisionUnchanged(locations, rules, cache, now, init, p);
      }
    }
  }

  /** The skipped list names the requested processes that are known and have a fresh
      cached result, in request order. */
  lemma {:induction false} SkippedListIsFilter(locations: map<string, LegendEntry>, rules: Dict<string, Rules>,
                                               cache: map<string, CacheEntry>, now: int, path: seq<string>)
    ensures Map(SkippedList(locations, rules, cache, now, path), ProcessOf) == Filter(path, SkipsNow(locations, rules, cache, now))
  {
    if path != [] {
      var init := path[..|path| - 1];
      var p := path[|path| - 1];
      SkippedListIsFilter(locations, rules, cache, now, init);
      FilterLast(path, SkipsNow(locations, rules, cache, now));
      var skInit := SkippedList(locations, rules, cache, now, init);
      if p in locations {
        DecisionUnchanged(locations, rules, cache, now, init, p);
        var c := Pruned(locations, rules, cache, now, init);
        if Fresh(RulesOf(locations, rules, p), c, p, now) {
          MapSnoc(skInit, Skipped(p, c[p]), ProcessOf);
        }
      }
    }
  }

  /** Each skipped entry carries the entry the cache held for its process. */
  lemma {:induction false} SkippedEntries(locations: map<string, LegendEntry>, rules: Dict<string, Rules>,
                                          cache: map<string, CacheEntry>, now: int, path: seq<string>)
    ensures forall k :: 0 <= k < |SkippedList(locations, rules, cache, now, path)| ==>
      var s := SkippedList(locations, rules, cache, now, path)[k]; s.process in cache && s.cachedResult == cache[s.process]
  {
    if path != [] {
      var init := path[..|path| - 1];
      var p := path[|path| - 1];
      SkippedEntries(locations, rules, cache, now, init);
      if p in locations {
        DecisionUnchanged(locations, rules, cache, now, init, p);
      }
    }
  }

  /** The run and skipped lists together are as long as the known requested processes. */
  lemma {:induction false} PlanPartition(locations: map<string, LegendEntry>, rules: Dict<string, Rules>,
                                         cache: map<string, CacheEntry>, now: int, path: seq<string>)
    ensures |RunList(locations, rules, cache, now, path)| + |SkippedList(locations, rules, cache, now, path)|
         == |KnownOf(locations, path)|
  {
    if path != [] {
      var init := path[..|path| - 1];
      PlanPartition(locations, rules, cache, now, init);
      assert path == init + [path[|path| - 1]];
      KnownOfConcat(locations, init, [path[|path| - 1]]);
    }
  }

  /** Each requested process known to the legend is run or skipped, never both; unknown
      processes are in neither list. */
  lemma {:induction false} PlanMembership(locations: map<string, LegendEntry>, rules: Dict<string, Rules>,
                                          cache: map<string, CacheEntry>, now: int, path: seq<string>)
    ensures var run := RunList(locations, rules, cache, now, path);
      var skipped := Map(SkippedList(locations, rules, cache, now, path), ProcessOf);
      && (forall p :: p in run ==> p in locations && p !in skipped)
      && (forall p :: p in skipped ==> p in locations)
      && (forall i :: 0 <= i < |path| && path[i] in locations ==> path[i] in run || path[i] in skipped)
  {
    var runs := RunsNow(locations, rules, cache, now);
    var skips := SkipsNow(locations, rules, cache, now);
    RunListIsFilter(locations, rules, cache, now, path);
    SkippedListIsFilter(locations, rules, cache, now, path);
    FilterDisjoint(path, runs, skips);
  }

  /** One more requested process: how the run list, the skipped list and the cache grow. */
  lemma {:induction false} PlanStep(locations: map<string, LegendEntry>, rules: Dict<string, Rules>,
                 cache: map<string, CacheEntry>, now: int, path: seq<string>, i: nat)
    requires i < |path|
    ensures var p := path[i];
      var c := Pruned(locations, rules, cache, now, path[..i]);
      && RunList(locations, rules, cache, now, path[..i + 1])
         == RunList(locations, rules, cache, now, path[..i])
          + (if p in locations && !Fresh(RulesOf(locations, rules, p), c, p, now) then [p] else [])
      && SkippedList(locations, rules, cache, now, path[..i + 1])
         == SkippedList(locations, rules, cache, now, path[..i])
          + (if p in locations && Fresh(RulesOf(locations, rules, p), c, p, now) then [Skipped(p, c[p])] else [])
      && Pruned(locations, rules, cache, now, path[..i + 1])
         == if p in locations && Expired(RulesOf(locations, rules, p), c, p, now) then c - {p} else c
  {
    assert path[..i + 1][..i] == path[..i];
  }

  /** An optimisation plan (the time and energy estimates are not modelled). */
  datatype Plan = Plan(
    originalPath: seq<string>,
    optimizedPath: seq<string>,
    skipped: seq<Skipped>,
    cachedResults: Dict<string, CacheEntry>,
    parallelGroups: seq<seq<string>>)

  /** `cached_results[process] = entry` for every skipped process, in order. */
  function CachedResultsOf(skipped: seq<Skipped>): Dict<string, CacheEntry>
  {
    if skipped == [] then Empty()
    else
      var last := skipped[|skipped| - 1];
      CachedResultsOf(skipped[..|skipped| - 1]).Put(last.process, last.cachedResult)
  }

  lemma {:induction false} CachedResultsValid(skipped: seq<Skipped>)
    ensures CachedResultsOf(skipped).Valid()
  {
    if skipped != [] {
      CachedResultsValid(skipped[..|skipped| - 1]);
    }
  }

  // ---------------------------------------------------------------- parallel groups

  predicate ParallelSafe(locations: map<string, LegendEntry>, rules: Dict<string, Rules>, p: string) {
    p in locations && RulesFor(rules, locations[p].category).parallelSafe
  }

  /** `_identify_parallel_groups` from the point where `current` is the open group. */
  function GroupsFrom(locations: map<string, LegendEntry>, rules: Dict<string, Rules>,
                      processes: seq<string>, current: seq<string>): seq<seq<string>>
    decreases |processes|
  {
    if processes == [] then (if current == [] then [] else [current])
    else
      var p := processes[0];
      if p !in locations then GroupsFrom(locations, rules, processes[1..], current)
      else if ParallelSafe(locations, rules, p) then GroupsFrom(locations, rules, processes[1..], current + [p])
      else (if current == [] then [] else [current]) + [[p]] + GroupsFrom(locations, rules, processes[1..], [])
  }

  /** The parallel groups of a run list. */
  function ParallelGroups(locations: map<string, LegendEntry>, rules: Dict<string, Rules>,
                          processes: seq<string>): seq<seq<string>>
  {
    GroupsFrom(locations, rules, processes, [])
  }

  predicate AllSafe(locations: map<string, LegendEntry>, rules: Dict<string, Rules>, g: seq<string>) {
    forall k :: 0 <= k < |g| ==> ParallelSafe(locations, rules, g[k])
  }

  /** A group is a non-empty run of parallel-safe processes, or one known process that is
      not parallel-safe on its own. */
  predicate WellFormedGroup(locations: map<string, LegendEntry>, rules: Dict<string, Rules>, g: seq<string>) {
    && g != []
    && (AllSafe(locations, rules, g) || (|g| == 1 && g[0] in locations && !ParallelSafe(locations, rules, g[0])))
  }

  /** The grouping's guarantees: the groups, concatenated, are the known processes in
      order; every group is well formed; two neighbouring groups are never both
      parallel-safe runs (runs are maximal). */
  predicate GroupingOf(locations: map<string, LegendEntry>, rules: Dict<string, Rules>,
                       groups: seq<seq<string>>, processes: seq<string>)
  {
    && Flatten(groups) == processes
    && (forall i :: 0 <= i < |groups| ==> WellFormedGroup(locations, rules, groups[i]))
    && (forall i :: 0 < i < |groups| ==>
          !(AllSafe(locations, rules, groups[i - 1]) && AllSafe(locations, rules, groups[i])))
  }

  /** Closing the open run and adding a lone process that is not parallel-safe keeps
      the guarantees. */
  lemma {:induction false} GroupingJoin(locations: map<string, LegendEntry>, rules: Dict<string, Rules>,
                     current: seq<string>, p: string, R: seq<seq<string>>, rest: seq<string>)
    requires AllSafe(locations, rules, current)
    requires p in locations && !ParallelSafe(locations, rules, p)
    requires GroupingOf(locations, rules, R, rest)
    ensures GroupingOf(locations, rules, (if current == [] then [] else [current]) + [[p]] + R, current + [p] + rest)
  {
    var head: seq<seq<string>> := if current == [] then [] else [current];
    var G := head + [[p]] + R;
    FlattenConcat(head + [[p]], R);
    FlattenConcat(head, [[p]]);
    assert Flatten([[p]]) == [p];
    assert Flatten(head) == current;
    assert [p][0] == p;
    assert !AllSafe(locations, rules, [p]);
    forall i | 0 < i < |G|
      ensures !(AllSafe(locations, rules, G[i - 1]) && AllSafe(locations, rules, G[i]))
    {
      if i > |head| + 1 {
        assert G[i - 1] == R[i - 2 - |head|] && G[i] == R[i - 1 - |head|];
      } else if i == |head| + 1 {
        assert G[i - 1] == [p];
      } else {
        assert G[i] == [p];
      }
    }
    forall i | 0 <= i < |G|
      ensures WellFormedGroup(locations, rules, G[i])
    {
      if i > |head| {
        assert G[i] == R[i - 1 - |head|];
      }
    }
  }

  lemma {:induction false} GroupsFromCorrect(locations: map<string, LegendEntry>, rules: Dict<string, Rules>,
                                             processes: seq<string>, current: seq<string>)
    requires AllSafe(locations, rules, current)
    ensures GroupingOf(locations, rules, GroupsFrom(locations, rules, processes, current),
                       current + KnownOf(locations, processes))
    decreases |processes|
  {
    if processes == [] {
      assert current + [] == current;
    } else {
      var p := processes[0];
      if p !in locations {
        GroupsFromCorrect(locations, rules, processes[1..], current);
      } else if ParallelSafe(locations, rules, p) {
        GroupsFromCorrect(locations, rules, processes[1..], current + [p]);
        GroupsFromSafe(locations, rules, processes, current);
      } else {
        GroupsFromCorrect(locations, rules, processes[1..], []);
        GroupsFromUnsafe(locations, rules, processes, current);
      }
    }
  }

  /** A parallel-safe process extends the open run. */
  lemma {:induction false} GroupsFromSafe(locations: map<string, LegendEntry>, rules: Dict<string, Rules>,
                       processes: seq<string>, current: seq<string>)
    requires processes != [] && processes[0] in locations && ParallelSafe(locations, rules, processes[0])
    requires GroupingOf(locations, rules, GroupsFrom(locations, rules, processes[1..], current + [processes[0]]),
                        current + [processes[0]] + KnownOf(locations, processes[1..]))
    ensures GroupingOf(locations, rules, GroupsFrom(locations, rules, processes, current),
                       current + KnownOf(locations, processes))
  {
    var known := KnownOf(locations, processes[1..]);
    assert current + ([processes[0]] + known) == (current + [processes[0]]) + known;
  }

  /** A process that is not parallel-safe closes the open run and stands alone. */
  lemma {:induction false} GroupsFromUnsafe(locations: map<string, LegendEntry>, rules: Dict<string, Rules>,
                         processes: seq<string>, current: seq<string>)
    requires AllSafe(locations, rules, current)
    requires processes != [] && processes[0] in locations && !ParallelSafe(locations, rules, processes[0])
    requires GroupingOf(locations, rules, GroupsFrom(locations, rules, processes[1..], []),
                        [] + KnownOf(locations, processes[1..]))
    ensures GroupingOf(locations, rules, GroupsFrom(locations, rules, processes, current),
                       current + KnownOf(locations, processes))
  {
    var p := processes[0];
    var known := KnownOf(locations, processes[1..]);
    assert [] + known == known;
    GroupingJoin(locations, rules, current, p, GroupsFrom(locations, rules, processes[1..], []), known);
    assert current + ([p] + known) == current + [p] + known;
  }

  /** `_identify_parallel_groups` satisfies its guarantees for every input. */
  lemma {:induction false} ParallelGroupsCorrect(locations: map<string, LegendEntry>, rules: Dict<string, Rules>, processes: seq<string>)
    ensures GroupingOf(locations, rules, ParallelGroups(locations, rules, processes), KnownOf(locations, processes))
  {
    GroupsFromCorrect(locations, rules, processes, []);
    assert [] + KnownOf(locations, processes) == KnownOf(locations, processes);
  }

  // ---------------------------------------------------------------- counters and report

  /** Per-process counters (the timing fields are not modelled). */
  datatype Metrics = Metrics(executionCount: nat)

  /** The counters after one `_update_performance_metrics` over results with these keys:
      a new key starts at 0, and each key's count goes up by one. */
  function MetricsAfter(metrics: Dict<string, Metrics>, keys: seq<string>): Dict<string, Metrics> {
    if keys == [] then metrics
    else
      var m := MetricsAfter(metrics, keys[..|keys| - 1]);
      var k := keys[|keys| - 1];
      m.Put(k, Metrics(m.Get(k, Metrics(0)).executionCount + 1))
  }

  /** Counting the first i + 1 keys: count key i once more after the first i. */
  lemma {:induction false} MetricsAfterStep(metrics: Dict<string, Metrics>, keys: seq<string>, i: nat, m: Dict<string, Metrics>)
    requires i < |keys| && m == MetricsAfter(metrics, keys[..i])
    ensures MetricsAfter(metrics, keys[..i + 1]) == m.Put(keys[i], Metrics(m.Get(keys[i], Metrics(0)).executionCount + 1))
  {
    assert keys[..i + 1][..i] == keys[..i];
  }

  lemma {:induction false} MetricsAfterValid(metrics: Dict<string, Metrics>, keys: seq<string>)
    requires metrics.Valid()
    ensures MetricsAfter(metrics, keys).Valid()
  {
    if keys != [] {
      MetricsAfterValid(metrics, keys[..|keys| - 1]);
    }
  }

  /** Each result key's count goes up by exactly one, new keys start from zero, and every
      other counter is unchanged. */
  lemma {:induction false} MetricsAfterCounts(metrics: Dict<string, Metrics>, keys: seq<string>)
    requires Distinct(keys)
    ensures forall k :: k in MetricsAfter(metrics, keys).items <==> k in metrics.items || k in keys
    ensures forall k :: k in keys ==>
      MetricsAfter(metrics, keys).items[k].executionCount == metrics.Get(k, Metrics(0)).executionCount + 1
    ensures forall k :: k in metrics.items && k !in keys ==> MetricsAfter(metrics, keys).items[k] == metrics.items[k]
  {
    if keys != [] {
      var init := keys[..|keys| - 1];
      var last := keys[|keys| - 1];
      assert Distinct(init) by {
        assert forall i :: 0 <= i < |init| ==> init[i] == keys[i];
      }
      MetricsAfterCounts(metrics, init);
      DistinctLast(keys);
      assert keys == init + [last];
    }
  }

  /** The execution count of a tracked process; 0 for one that is not tracked. */
  function CountOf(items: map<string, Metrics>, k: string): nat {
    if k in items then items[k].executionCount else 0
  }

  /** `sum(m['execution_count'] for m in metrics.values())`, over the keys in order. */
  function SumCounts(keys: seq<string>, items: map<string, Metrics>): nat {
    if keys == [] then 0 else SumCounts(keys[..|keys| - 1], items) + CountOf(items, keys[|keys| - 1])
  }

  /** `d.get(k, 0)` on a count dictionary. */
  function ValueOf(items: map<string, nat>, k: string): nat {
    if k in items then items[k] else 0
  }

  /** The sum of the values of a count dictionary, over the keys in order. */
  function SumValues(keys: seq<string>, items: map<string, nat>): nat {
    if keys == [] then 0 else SumValues(keys[..|keys| - 1], items) + ValueOf(items, keys[|keys| - 1])
  }

  /** Changing one listed key's value changes the sum by the difference. */
  lemma {:induction false} SumValuesUpdate(keys: seq<string>, items: map<string, nat>, k: string, v: nat)
    requires Distinct(keys) && k in keys
    ensures SumValues(keys, items[k := v]) + ValueOf(items, k) == SumValues(keys, items) + v
  {
    var init := keys[..|keys| - 1];
    var last := keys[|keys| - 1];
    if last == k {
      DistinctLast(keys);
      SumValuesUnchanged(init, items, k, v);
    } else {
      assert Distinct(init) by {
        assert forall i :: 0 <= i < |init| ==> init[i] == keys[i];
      }
      SumValuesUpdate(init, items, k, v);
    }
  }

  /** Changing the value of a key that is not listed leaves the sum alone. */
  lemma {:induction false} SumValuesUnchanged(keys: seq<string>, items: map<string, nat>, k: string, v: nat)
    requires k !in keys
    ensures SumValues(keys, items[k := v]) == SumValues(keys, items)
  {
    if keys != [] {
      SumValuesUnchanged(keys[..|keys| - 1], items, k, v);
    }
  }

  /** `category_stats[category]['count']`, accumulated over the tracked processes in order. */
  function CategoryCounts(locations: map<string, LegendEntry>, keys: seq<string>, items: map<string, Metrics>): Dict<string, nat>
  {
    if keys == [] then Empty()
    else
      var d := CategoryCounts(locations, keys[..|keys| - 1], items);
      var c := CategoryOf(locations, keys[|keys| - 1]);
      d.Put(c, d.Get(c, 0) + CountOf(items, keys[|keys| - 1]))
  }

  /** The per-category counts add up to the total number of executions. */
  lemma {:induction false} CategoryCountsSum(locations: map<string, LegendEntry>, keys: seq<string>, items: map<string, Metrics>)
    ensures var d := CategoryCounts(locations, keys, items); SumValues(d.keys, d.items) == SumCounts(keys, items)
  {
    if keys != [] {
      var init := keys[..|keys| - 1];
      CategoryCountsSum(locations, init, items);
      CategoryCountsValid(locations, init, items);
      var d := CategoryCounts(locations, init, items);
      var c := CategoryOf(locations, keys[|keys| - 1]);
      var n := CountOf(items, keys[|keys| - 1]);
      CategoryCountsLast(locations, keys, items, d, c, n);
      SumValuesAdd(d, CategoryCounts(locations, keys, items), c, n);
    }
  }

  /** The last process adds its count to its category. */
  lemma {:induction false} CategoryCountsLast(locations: map<string, LegendEntry>, keys: seq<string>, items: map<string, Metrics>,
                                              d: Dict<string, nat>, c: string, n: nat)
    requires keys != [] && d == CategoryCounts(locations, keys[..|keys| - 1], items)
    requires c == CategoryOf(locations, keys[|keys| - 1]) && n == CountOf(items, keys[|keys| - 1])
    ensures CategoryCounts(locations, keys, items) == d.Put(c, d.Get(c, 0) + n)
  {
  }

  /** Adding `n` to one entry of a count dictionary adds `n` to its sum. */
  lemma {:induction false} SumValuesAdd(d: Dict<string, nat>, e: Dict<string, nat>, c: string, n: nat)
    requires d.Valid() && e == d.Put(c, d.Get(c, 0) + n)
    ensures SumValues(e.keys, e.items) == SumValues(d.keys, d.items) + n
  {
    SumValuesPut(d, c, d.Get(c, 0) + n);
  }

  lemma {:induction false} CategoryCountsValid(locations: map<string, LegendEntry>, keys: seq<string>, items: map<string, Metrics>)
    ensures CategoryCounts(locations, keys, items).Valid()
  {
    if keys != [] {
      CategoryCountsValid(locations, keys[..|keys| - 1], items);
    }
  }

  /** Setting one entry of a count dictionary changes its sum by the difference. */
  lemma {:induction false} SumValuesPut(d: Dict<string, nat>, c: string, v: nat)
    requires d.Valid()
    ensures SumValues(d.Put(c, v).keys, d.Put(c, v).items) + d.Get(c, 0) == SumValues(d.keys, d.items) + v
  {
    if c in d.items {
      assert c in d.keys;
      SumValuesUpdate(d.keys, d.items, c, v);
    } else {
      assert (d.keys + [c])[..|d.keys|] == d.keys;
      SumValuesUnchanged(d.keys, d.items, c, v);
    }
  }

  /** An optimisation recommendation (the reason texts are not modelled). */
  datatype Recommendation =
    | IncreaseCacheDuration(process: string, category: string, executionCount: nat,
                            currentCacheDuration: int, suggestedCacheDuration: int)
    | ConsiderParallelization(category: string, processCount: nat)

  function Min(a: int, b: int): int { if a <= b then a else b }

  /** The first kind of recommendation, over the tracked processes in order; `slow` holds
      the processes whose average execution time exceeds one second. */
  function CacheRecommendations(locations: map<string, LegendEntry>, rules: Dict<string, Rules>, slow: set<string>,
                                keys: seq<string>, items: map<string, Metrics>): seq<Recommendation>
  {
    if keys == [] then []
    else
      var init := CacheRecommendations(locations, rules, slow, keys[..|keys| - 1], items);
      var p := keys[|keys| - 1];
      if CountOf(items, p) > 10 && p in slow then
        var category := CategoryOf(locations, p);
        var current := RulesFor(rules, category).cacheDuration;
        init + [IncreaseCacheDuration(p, category, CountOf(items, p), current, Min(1800, current * 2))]
      else init
  }

  /** The number of legend processes of a category. */
  function LegendCount(locations: map<string, LegendEntry>, category: string): nat {
    |set p | p in locations && locations[p].category == category|
  }

  /** The second kind of recommendation, over the rule categories in order. */
  function ParallelRecommendations(locations: map<string, LegendEntry>, rules: Dict<string, Rules>,
                                   categories: seq<string>): seq<Recommendation>
  {
    if categories == [] then []
    else
      var init := ParallelRecommendations(locations, rules, categories[..|categories| - 1]);
      var c := categories[|categories| - 1];
      if !RulesFor(rules, c).parallelSafe && LegendCount(locations, c) > 3
      then init + [ConsiderParallelization(c, LegendCount(locations, c))]
      else init
  }

  /** A cache recommendation is made exactly for a slow process run more than ten times,
      and suggests twice the current duration, capped at 1800 seconds. */
  lemma {:induction false} CacheRecommendationsSound(locations: map<string, LegendEntry>, rules: Dict<string, Rules>, slow: set<string>,
                                                     keys: seq<string>, items: map<string, Metrics>)
    ensures forall r :: r in CacheRecommendations(locations, rules, slow, keys, items) ==>
      && r.IncreaseCacheDuration?
      && r.process in keys && r.process in slow
      && r.executionCount == CountOf(items, r.process) > 10
      && r.category == CategoryOf(locations, r.process)
      && r.currentCacheDuration == RulesFor(rules, r.category).cacheDuration
      && r.suggestedCacheDuration == Min(1800, 2 * r.currentCacheDuration)
    ensures forall k :: k in keys && k in slow && CountOf(items, k) > 10 ==>
      exists r :: r in CacheRecommendations(locations, rules, slow, keys, items) && r.IncreaseCacheDuration? && r.process == k
  {
    if keys != [] {
      CacheRecommendationsSound(locations, rules, slow, keys[..|keys| - 1], items);
      assert keys == keys[..|keys| - 1] + [keys[|keys| - 1]];
    }
  }

  /** A parallelisation recommendation is made exactly for a category that is not
      parallel-safe and has more than three legend processes. */
  lemma {:induction false} ParallelRecommendationsSound(locations: map<string, LegendEntry>, rules: Dict<string, Rules>,
                                                        categories: seq<string>)
    ensures forall r :: r in ParallelRecommendations(locations, rules, categories) ==>
      && r.ConsiderParallelization?
      && r.category in categories
      && !RulesFor(rules, r.category).parallelSafe
      && r.processCount == LegendCount(locations, r.category) > 3
    ensures forall c :: c in categories && !RulesFor(rules, c).parallelSafe && LegendCount(locations, c) > 3 ==>
      ConsiderParallelization(c, LegendCount(locations, c)) in ParallelRecommendations(locations, rules, categories)
  {
    if categories != [] {
      ParallelRecommendationsSound(locations, rules, categories[..|categories| - 1]);
      assert categories == categories[..|categories| - 1] + [categories[|categories| - 1]];
    }
  }

  /** The integer parts of `get_optimization_report`. */
  datatype Report = Report(
    totalProcessesTracked: nat,
    totalExecutions: nat,
    cachedResults: nat,
    categoryCounts: Dict<string, nat>,
    recommendations: seq<Recommendation>)

  /** The result of `execute_optimized_plan` (the timings are not modelled). */
  datatype ExecutionResults = ExecutionResults(
    plan: Plan,
    results: Dict<string, ExecResult>,
    processesExecuted: nat,
    processesSkipped: nat)

  function Elements(s: seq<string>): set<string> {
    set x | x in s
  }

  lemma {:induction false} ElementsLast(s: seq<string>)
    requires s != []
    ensures Elements(s) == Elements(s[..|s| - 1]) + {s[|s| - 1]}
  {
    assert s == s[..|s| - 1] + [s[|s| - 1]];
  }

  lemma {:induction false} ElementsConcat(a: seq<string>, b: seq<string>)
    ensures Elements(a + b) == Elements(a) + Elements(b)
  {
  }

  /** The results of a group run one process after the other: each process with its own
      result, in first-occurrence order. */
  function GroupResults(locations: map<string, LegendEntry>, group: seq<string>): Dict<string, ExecResult> {
    if group == [] then Empty()
    else
      var p := group[|group| - 1];
      GroupResults(locations, group[..|group| - 1]).Put(p, ResultFor(locations, p))
  }

  lemma {:induction false} GroupResultsValid(locations: map<string, LegendEntry>, group: seq<string>)
    ensures GroupResults(locations, group).Valid()
  {
    if group != [] {
      var init := group[..|group| - 1];
      GroupResultsValid(locations, init);
      PutValid(GroupResults(locations, init), group[|group| - 1], ResultFor(locations, group[|group| - 1]));
    }
  }

  /** A group's results hold exactly its members, each with its own result. */
  lemma {:induction false} GroupResultsContents(locations: map<string, LegendEntry>, group: seq<string>)
    ensures GroupResults(locations, group).items.Keys == Elements(group)
    ensures forall p :: p in GroupResults(locations, group).items ==> GroupResults(locations, group).items[p] == ResultFor(locations, p)
  {
    if group != [] {
      var init := group[..|group| - 1];
      GroupResultsContents(locations, init);
      ElementsLast(group);
    }
  }

  /** The cached results a plan starts from, as results. */
  function ResultsOfCached(cached: Dict<string, CacheEntry>): (r: Dict<string, ExecResult>)
    ensures r.keys == cached.keys && r.items.Keys == cached.items.Keys
    ensures forall p :: p in r.items ==> r.items[p] == cached.items[p].result
  {
    Dict(cached.keys, map p | p in cached.items :: cached.items[p].result)
  }

  /** The results after running one group on top of `r`: a lone process is stored
      directly, a larger group is merged in through `update`. */
  function RunGroup(locations: map<string, LegendEntry>, r: Dict<string, ExecResult>, g: seq<string>): Dict<string, ExecResult>
  {
    if |g| == 1 then r.Put(g[0], ResultFor(locations, g[0]))
    else
      GroupResultsValid(locations, g);
      Update(r, GroupResults(locations, g))
  }

  /** Running one group keeps the earlier results in front, adds every member with its
      own result, and leaves the other earlier results alone. */
  lemma {:induction false} RunGroupContents(locations: map<string, LegendEntry>, r: Dict<string, ExecResult>, g: seq<string>)
    ensures r.keys <= RunGroup(locations, r, g).keys
    ensures RunGroup(locations, r, g).items.Keys == r.items.Keys + Elements(g)
    ensures forall p :: p in g ==> RunGroup(locations, r, g).items[p] == ResultFor(locations, p)
    ensures forall p :: p in r.items && p !in g ==> RunGroup(locations, r, g).items[p] == r.items[p]
  {
    if |g| == 1 {
      RunLoneContents(locations, r, g);
    } else {
      RunUpdateContents(locations, r, g);
    }
  }

  lemma {:induction false} RunLoneContents(locations: map<string, LegendEntry>, r: Dict<string, ExecResult>, g: seq<string>)
    requires |g| == 1
    ensures r.keys <= RunGroup(locations, r, g).keys
    ensures RunGroup(locations, r, g).items.Keys == r.items.Keys + Elements(g)
    ensures forall p :: p in g ==> RunGroup(locations, r, g).items[p] == ResultFor(locations, p)
    ensures forall p :: p in r.items && p !in g ==> RunGroup(locations, r, g).items[p] == r.items[p]
  {
    assert Elements(g) == {g[0]};
  }

  lemma {:induction false} RunUpdateContents(locations: map<string, LegendEntry>, r: Dict<string, ExecResult>, g: seq<string>)
    requires |g| != 1
    ensures r.keys <= RunGroup(locations, r, g).keys
    ensures RunGroup(locations, r, g).items.Keys == r.items.Keys + Elements(g)
    ensures forall p :: p in g ==> RunGroup(locations, r, g).items[p] == ResultFor(locations, p)
    ensures forall p :: p in r.items && p !in g ==> RunGroup(locations, r, g).items[p] == r.items[p]
  {
    GroupResultsValid(locations, g);
    GroupResultsContents(locations, g);
  }

  /** Running one group keeps the key list and the map in step. */
  lemma {:induction false} RunGroupValid(locations: map<string, LegendEntry>, r: Dict<string, ExecResult>, g: seq<string>)
    requires r.Valid()
    ensures RunGroup(locations, r, g).Valid()
  {
    if |g| == 1 {
      PutValid(r, g[0], ResultFor(locations, g[0]));
    }
  }

  /** The results after running the groups in order on top of `results`. */
  function RunResults(locations: map<string, LegendEntry>, results: Dict<string, ExecResult>,
                      groups: seq<seq<string>>): Dict<string, ExecResult>
  {
    if groups == [] then results
    else RunGroup(locations, RunResults(locations, results, groups[..|groups| - 1]), groups[|groups| - 1])
  }

  lemma {:induction false} RunResultsValid(locations: map<string, LegendEntry>, results: Dict<string, ExecResult>,
                                           groups: seq<seq<string>>)
    requires results.Valid()
    ensures RunResults(locations, results, groups).Valid()
  {
    if groups != [] {
      var init := groups[..|groups| - 1];
      RunResultsValid(locations, results, init);
      RunGroupValid(locations, RunResults(locations, results, init), groups[|groups| - 1]);
    }
  }

  /** Running the groups keeps the earlier results in front and adds every group member. */
  lemma {:induction false} RunResultsKeys(locations: map<string, LegendEntry>, results: Dict<string, ExecResult>,
                                          groups: seq<seq<string>>)
    ensures results.keys <= RunResults(locations, results, groups).keys
    ensures RunResults(locations, results, groups).items.Keys == results.items.Keys + Elements(Flatten(groups))
  {
    if groups != [] {
      var init := groups[..|groups| - 1];
      var g := groups[|groups| - 1];
      RunResultsKeys(locations, results, init);
      FlattenLast(groups);
      ElementsConcat(Flatten(init), g);
      RunGroupContents(locations, RunResults(locations, results, init), g);
    }
  }

  /** Every group member carries its own result, and the earlier results of the other
      processes are left alone. */
  lemma {:induction false} RunResultsValues(locations: map<string, LegendEntry>, results: Dict<string, ExecResult>,
                                            groups: seq<seq<string>>)
    ensures forall p :: p in Flatten(groups) ==>
      (p in RunResults(locations, results, groups).items &&
       RunResults(locations, results, groups).items[p] == ResultFor(locations, p))
    ensures forall p :: p in results.items && p !in Flatten(groups) ==>
      (p in RunResults(locations, results, groups).items &&
       RunResults(locations, results, groups).items[p] == results.items[p])
  {
    if groups != [] {
      var init := groups[..|groups| - 1];
      var g := groups[|groups| - 1];
      RunResultsValues(locations, results, init);
      FlattenLast(groups);
      RunGroupContents(locations, RunResults(locations, results, init), g);
    }
  }

  /** The optimizer's state. The location legend is fixed; the cache, the counters and
      the rules change. */
  class ExecutionOptimizer {
    const locations: map<string, LegendEntry>
    var executionCache: map<string, CacheEntry>
    var performanceMetrics: Dict<string, Metrics>
    var optimizationRules: Dict<string, Rules>

    ghost predicate Valid()
      reads this`performanceMetrics, this`optimizationRules
    {
      performanceMetrics.Valid() && optimizationRules.Valid()
    }

    constructor (locations: map<string, LegendEntry>)
      ensures Valid()
      ensures this.locations == locations
      ensures executionCache == map[] && performanceMetrics == Empty() && optimizationRules == Empty()
    {
      this.locations := locations;
      executionCache := map[];
      performanceMetrics := Empty();
      optimizationRules := Empty();
    }

    /** `initialize_optimization_rules` */
    method InitializeOptimizationRules()
      requires Valid()
      modifies this`optimizationRules
      ensures Valid() && optimizationRules == DefaultRules
    {
      optimizationRules := DefaultRules;
    }

    /** `_can_skip_process`: true exactly for a fresh cached result; an expired one is
        deleted, and nothing else changes. */
    method CanSkipProcess(process: string, rules: Rules, now: int) returns (skip: bool)
      modifies this`executionCache
      ensures skip == Fresh(rules, old(executionCache), process, now)
      ensures executionCache == if Expired(rules, old(executionCache), process, now)
                                then old(executionCache) - {process} else old(executionCache)
    {
      if !rules.skipIfUnchanged {
        return false;
      }
      if process !in executionCache {
        return false;
      }
      var cached := executionCache[process];
      if rules.cacheDuration == 0 {
        return false;
      }
      var age := now - cached.timestamp;
      if age > rules.cacheDuration {
        executionCache := executionCache - {process};
        return false;
      }
      return true;
    }

    /** `_identify_parallel_groups` */
    method IdentifyParallelGroups(processes: seq<string>) returns (groups: seq<seq<string>>)
      ensures groups == ParallelGroups(locations, optimizationRules, processes)
    {
      groups := [];
      var current: seq<string> := [];
      var i := 0;
      while i < |processes|
        invariant 0 <= i <= |processes|
        invariant groups + GroupsFrom(locations, optimizationRules, processes[i..], current)
               == ParallelGroups(locations, optimizationRules, processes)
      {
        var p := processes[i];
        assert processes[i..][1..] == processes[i + 1..];
        if p in locations {
          var rules := RulesFor(optimizationRules, locations[p].category);
          if rules.parallelSafe {
            current := current + [p];
          } else {
            if current != [] {
              groups := groups + [current];
              current := [];
            }
            groups := groups + [[p]];
          }
        }
        i := i + 1;
      }
      if current != [] {
        groups := groups + [current];
      }
    }

    /** `optimize_execution_path`: the known processes with a fresh cached result are
        skipped and reported with that result, the other known processes are run, in
        request order, grouped for parallel execution; expired entries met on the way
        are deleted from the cache. */
    method OptimizeExecutionPath(targets: Targets, now: int) returns (plan: Plan)
      modifies this`executionCache
      ensures plan.originalPath == AsList(targets)
      ensures plan.optimizedPath == RunList(locations, optimizationRules, old(executionCache), now, AsList(targets))
      ensures plan.skipped == SkippedList(locations, optimizationRules, old(executionCache), now, AsList(targets))
      ensures plan.cachedResults == CachedResultsOf(plan.skipped)
      ensures plan.parallelGroups == ParallelGroups(locations, optimizationRules, plan.optimizedPath)
      ensures executionCache == Pruned(locations, optimizationRules, old(executionCache), now, AsList(targets))
    {
      var path := AsList(targets);
      var optimized: seq<string> := [];
      var skipped: seq<Skipped> := [];
      var cachedResults: Dict<string, CacheEntry> := Empty();
      var i := 0;
      while i < |path|
        invariant 0 <= i <= |path|
        invariant optimized == RunList(locations, optimizationRules, old(executionCache), now, path[..i])
        invariant skipped == SkippedList(locations, optimizationRules, old(executionCache), now, path[..i])
        invariant cachedResults == CachedResultsOf(skipped)
        invariant executionCache == Pruned(locations, optimizationRules, old(executionCache), now, path[..i])
      {
        optimized, skipped, cachedResults := PlanProcess(path, i, now, old(executionCache), optimized, skipped, cachedResults);
        i := i + 1;
      }
      assert path[..i] == path;
      var groups := IdentifyParallelGroups(optimized);
      plan := Plan(path, optimized, skipped, cachedResults, groups);
    }

    /** One iteration of the planning loop: process `path[i]` is skipped, run or ignored. */
    method PlanProcess(path: seq<string>, i: nat, now: int, ghost cache: map<string, CacheEntry>,
                       optimized: seq<string>, skipped: seq<Skipped>, cachedResults: Dict<string, CacheEntry>)
      returns (optimized': seq<string>, skipped': seq<Skipped>, cachedResults': Dict<string, CacheEntry>)
      requires i < |path|
      requires optimized == RunList(locations, optimizationRules, cache, now, path[..i])
      requires skipped == SkippedList(locations, optimizationRules, cache, now, path[..i])
      requires cachedResults == CachedResultsOf(skipped)
      requires executionCache == Pruned(locations, optimizationRules, cache, now, path[..i])
      modifies this`executionCache
      ensures optimized' == RunList(locations, optimizationRules, cache, now, path[..i + 1])
      ensures skipped' == SkippedList(locations, optimizationRules, cache, now, path[..i + 1])
      ensures cachedResults' == CachedResultsOf(skipped')
      ensures executionCache == Pruned(locations, optimizationRules, cache, now, path[..i + 1])
    {
      optimized', skipped', cachedResults' := optimized, skipped, cachedResults;
      var process := path[i];
      PlanStep(locations, optimizationRules, cache, now, path, i);
      if process in locations {
        var rules := RulesOf(locations, optimizationRules, process);
        var skip := CanSkipProcess(process, rules, now);
        if skip {
          var entry := executionCache[process];
          skipped' := skipped + [Skipped(process, entry)];
          assert skipped'[..|skipped'| - 1] == skipped;
          cachedResults' := cachedResults.Put(process, entry);
        } else {
          optimized' := optimized + [process];
        }
      }
    }

    /** `_execute_single_process`: the result echoes the legend's command; it is cached
        with timestamp `now` only when the category's cache duration is positive. */
    method ExecuteSingleProcess(process: string, now: int) returns (result: ExecResult)
      modifies this`executionCache
      ensures result == ResultFor(locations, process)
      ensures executionCache == CacheAfterOne(locations, optimizationRules, old(executionCache), process, now)
    {
      var command := CommandOf(locations, process);
      result := ExecResult(process, command, "Executed: " + command, true);
      var category := CategoryOf(locations, process);
      var rules := RulesFor(optimizationRules, category);
      if rules.cacheDuration > 0 {
        var coordinates := CoordinatesFor(locations, process);
        executionCache := executionCache[process := CacheEntry(result, now, coordinates)];
      }
    }

    /** `_execute_parallel_group`: runs the group one after the other. */
    method ExecuteParallelGroup(group: seq<string>, now: int) returns (results: Dict<string, ExecResult>)
      modifies this`executionCache
      ensures results == GroupResults(locations, group)
      ensures executionCache == CacheAfter(locations, optimizationRules, old(executionCache), group, now)
    {
      results := Empty();
      var i := 0;
      while i < |group|
        invariant 0 <= i <= |group|
        invariant results == GroupResults(locations, group[..i])
        invariant executionCache == CacheAfter(locations, optimizationRules, old(executionCache), group[..i], now)
      {
        assert group[..i + 1][..i] == group[..i];
        var r := ExecuteSingleProcess(group[i], now);
        results := results.Put(group[i], r);
        i := i + 1;
      }
      assert group[..i] == group;
    }

    /** `_update_performance_metrics`: one more execution for every key of the results. */
    method UpdatePerformanceMetrics(results: Dict<string, ExecResult>)
      requires Valid()
      modifies this`performanceMetrics
      ensures Valid()
      ensures performanceMetrics == MetricsAfter(old(performanceMetrics), results.keys)
    {
      var metrics := performanceMetrics;
      var keys := results.keys;
      var i := 0;
      while i < |keys|
        invariant 0 <= i <= |keys|
        invariant metrics == MetricsAfter(old(performanceMetrics), keys[..i])
      {
        MetricsAfterStep(old(performanceMetrics), keys, i, metrics);
        var process := keys[i];
        metrics := metrics.Put(process, Metrics(metrics.Get(process, Metrics(0)).executionCount + 1));
        i := i + 1;
      }
      assert keys[..i] == keys;
      MetricsAfterValid(old(performanceMetrics), keys);
      performanceMetrics := metrics;
    }

    /** `execute_optimized_plan`: cached results are served first, then every group is
        run in order; the counts report every group member as executed and every skipped
        entry as skipped, and each key of the results is counted once more. */
    method ExecuteOptimizedPlan(plan: Plan, now: int) returns (er: ExecutionResults)
      requires Valid()
      modifies this`executionCache, this`performanceMetrics
      ensures Valid()
      ensures er.plan == plan
      ensures er.results == RunResults(locations, ResultsOfCached(plan.cachedResults), plan.parallelGroups)
      ensures er.processesExecuted == TotalLength(plan.parallelGroups)
      ensures er.processesSkipped == |plan.skipped|
      ensures executionCache == CacheAfter(locations, optimizationRules, old(executionCache), Flatten(plan.parallelGroups), now)
      ensures performanceMetrics == MetricsAfter(old(performanceMetrics), er.results.keys)
    {
      var initial := ResultsOfCached(plan.cachedResults);
      var results := initial;
      var executed := 0;
      var g := 0;
      var groups := plan.parallelGroups;
      while g < |groups|
        invariant 0 <= g <= |groups|
        invariant results == RunResults(locations, initial, groups[..g])
        invariant executed == TotalLength(groups[..g])
        invariant executionCache == CacheAfter(locations, optimizationRules, old(executionCache), Flatten(groups[..g]), now)
        invariant performanceMetrics == old(performanceMetrics)
      {
        RunStep(locations, optimizationRules, old(executionCache), now, initial, groups, g);
        var count;
        results, count := ExecuteGroup(groups[g], now, results);
        executed := executed + count;
        g := g + 1;
      }
      assert groups[..g] == groups;
      er := ExecutionResults(plan, results, executed, |plan.skipped|);
      UpdatePerformanceMetrics(results);
    }

    /** One group of `execute_optimized_plan`: a single process runs alone, a larger group
        runs in parallel; either way every member is counted as executed. */
    method ExecuteGroup(group: seq<string>, now: int, results: Dict<string, ExecResult>)
      returns (results': Dict<string, ExecResult>, count: nat)
      modifies this`executionCache
      ensures results' == RunGroup(locations, results, group)
      ensures count == |group|
      ensures executionCache == CacheAfter(locations, optimizationRules, old(executionCache), group, now)
    {
      if |group| == 1 {
        var r := ExecuteSingleProcess(group[0], now);
        assert group[..0] == [];
        results' := results.Put(group[0], r);
        count := 1;
      } else {
        var parallel := ExecuteParallelGroup(group, now);
        GroupResultsValid(locations, group);
        results' := Update(results, parallel);
        count := |group|;
      }
    }

    /** `_generate_optimization_recommendations`; `slow` holds the processes whose average
        execution time exceeds one second. */
    method GenerateOptimizationRecommendations(slow: set<string>) returns (recommendations: seq<Recommendation>)
      requires Valid()
      ensures recommendations
           == CacheRecommendations(locations, optimizationRules, slow, performanceMetrics.keys, performanceMetrics.items)
            + ParallelRecommendations(locations, optimizationRules, optimizationRules.keys)
    {
      var keys := performanceMetrics.keys;
      var items := performanceMetrics.items;
      var cacheRecs: seq<Recommendation> := [];
      var i := 0;
      while i < |keys|
        invariant 0 <= i <= |keys|
        invariant cacheRecs == CacheRecommendations(locations, optimizationRules, slow, keys[..i], items)
      {
        var p := keys[i];
        assert keys[..i + 1][..i] == keys[..i];
        var count := items[p].executionCount;
        if count > 10 && p in slow {
          var category := CategoryOf(locations, p);
          var current := RulesFor(optimizationRules, category).cacheDuration;
          cacheRecs := cacheRecs + [IncreaseCacheDuration(p, category, count, current, Min(1800, current * 2))];
        }
        i := i + 1;
      }
      assert keys[..i] == keys;
      var categories := optimizationRules.keys;
      var parallelRecs: seq<Recommendation> := [];
      var j := 0;
      while j < |categories|
        invariant 0 <= j <= |categories|
        invariant parallelRecs == ParallelRecommendations(locations, optimizationRules, categories[..j])
      {
        var c := categories[j];
        assert categories[..j + 1][..j] == categories[..j];
        if !RulesFor(optimizationRules, c).parallelSafe {
          var count := |set p | p in locations && locations[p].category == c|;
          if count > 3 {
            parallelRecs := parallelRecs + [ConsiderParallelization(c, count)];
          }
        }
        j := j + 1;
      }
      assert categories[..j] == categories;
      recommendations := cacheRecs + parallelRecs;
    }

    /** The integer parts of `get_optimization_report`. */
    method GetOptimizationReport(slow: set<string>) returns (report: Report)
      requires Valid()
      ensures report.totalProcessesTracked == |performanceMetrics.items|
      ensures report.totalExecutions == SumCounts(performanceMetrics.keys, performanceMetrics.items)
      ensures report.cachedResults == |executionCache|
      ensures report.categoryCounts == CategoryCounts(locations, performanceMetrics.keys, performanceMetrics.items)
      ensures SumValues(report.categoryCounts.keys, report.categoryCounts.items) == report.totalExecutions
      ensures report.recommendations
           == CacheRecommendations(locations, optimizationRules, slow, performanceMetrics.keys, performanceMetrics.items)
            + ParallelRecommendations(locations, optimizationRules, optimizationRules.keys)
    {
      var keys := performanceMetrics.keys;
      var items := performanceMetrics.items;
      var total := 0;
      var stats: Dict<string, nat> := Empty();
      var i := 0;
      while i < |keys|
        invariant 0 <= i <= |keys|
        invariant total == SumCounts(keys[..i], items)
        invariant stats == CategoryCounts(locations, keys[..i], items)
      {
        var p := keys[i];
        assert keys[..i + 1][..i] == keys[..i];
        total := total + CountOf(items, p);
        stats := stats.Put(CategoryOf(locations, p), stats.Get(CategoryOf(locations, p), 0) + CountOf(items, p));
        i := i + 1;
      }
      assert keys[..i] == keys;
      CategoryCountsSum(locations, keys, items);
      DistinctKeysCount(performanceMetrics);
      var recommendations := GenerateOptimizationRecommendations(slow);
      report := Report(|keys|, total, |executionCache|, stats, recommendations);
    }
  }

  lemma {:induction false} CacheAfterConcat(locations: map<string, LegendEntry>, rules: Dict<string, Rules>,
                         cache: map<string, CacheEntry>, a: seq<string>, b: seq<string>, now: int)
    ensures CacheAfter(locations, rules, cache, a + b, now)
         == CacheAfter(locations, rules, CacheAfter(locations, rules, cache, a, now), b, now)
    decreases |b|
  {
    if b == [] {
      assert a + b == a;
    } else {
      assert (a + b)[..|a + b| - 1] == a + b[..|b| - 1];
      CacheAfterConcat(locations, rules, cache, a, b[..|b| - 1], now);
    }
  }

  /** One more group: its results, its length and its cache entries follow the earlier ones. */
  lemma {:induction false} RunStep(locations: map<string, LegendEntry>, rules: Dict<string, Rules>, cache: map<string, CacheEntry>,
                now: int, initial: Dict<string, ExecResult>, groups: seq<seq<string>>, g: nat)
    requires g < |groups|
    ensures RunResults(locations, initial, groups[..g + 1])
         == RunGroup(locations, RunResults(locations, initial, groups[..g]), groups[g])
    ensures TotalLength(groups[..g + 1]) == TotalLength(groups[..g]) + |groups[g]|
    ensures CacheAfter(locations, rules, cache, Flatten(groups[..g + 1]), now)
         == CacheAfter(locations, rules, CacheAfter(locations, rules, cache, Flatten(groups[..g]), now), groups[g], now)
  {
    var before := groups[..g];
    assert groups[..g + 1][..g] == before;
    assert groups[..g + 1] == before + [groups[g]];
    FlattenLast(groups[..g + 1]);
    TotalLengthConcat(before, [groups[g]]);
    CacheAfterConcat(locations, rules, cache, Flatten(before), groups[g], now);
  }

  /** A valid dictionary has as many keys listed as mapped. */
  lemma {:induction false} DistinctKeysCount<V>(d: Dict<string, V>)
    requires d.Valid()
    ensures |d.keys| == |d.items|
  {
    DistinctCard(d.keys);
    assert d.items.Keys == set k | k in d.keys;
  }

  lemma {:induction false} DistinctCard(keys: seq<string>)
    requires Distinct(keys)
    ensures |set k | k in keys| == |keys|
  {
    if keys != [] {
      var init := keys[..|keys| - 1];
      assert Distinct(init) by {
        assert forall i :: 0 <= i < |init| ==> init[i] == keys[i];
      }
      DistinctCard(init);
      assert (set k | k in keys) == (set k | k in init) + {keys[|keys| - 1]};
      DistinctLast(keys);
    }
  }
}
