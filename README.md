# DNA-spiral code map: a Dafny model of the Python back end

This project models the Python back end of the DNA-spiral code map:

- the process categorizer, which classifies commands by keyword, derives the dotted-address hierarchy, and groups workflows, subcategories and a process tree;
- the execution optimizer, which keeps a result cache with expiry, plans skips and parallel groups, runs a plan, counts executions, and builds reports and recommendations;
- the DNA spiral generator, which builds the base-pair table, the plain, main and fork spirals, process locations and fork detection;
- the dual-view generator, which builds the 3D spiral view, the 2D bird's-eye view and their synchronisation;
- the view controller, which handles view switching, focus, category filter, selection and saving/restoring state;
- the map generator, which joins workflow entries with traced positions.

The repository's own overview describes it as a browser demo whose execution and optimisation are cosmetic. The Python package under `src/` does implement the behaviour listed above. Where the two differ, this model follows the Python code.

Layout (one module per source file; generic helpers are separate):

| file | module | models |
|---|---|---|
| `wrappers.dfy` | `Wrappers` | `Option` and `dict.get` with a default |
| `strings.dfy` | `Strings` | `str.lower`, substring `in`, `str.count`, `rsplit('.', 1)`, `\d+` search, `int(...)` |
| `dicts.dfy` | `Dicts` | insertion-ordered Python dictionaries (`Dict`: key order plus contents) |
| `seqs.dfy` | `Seqs`, `Groups` | list comprehensions (filter, map), flattening, `defaultdict(list)` grouping |
| `categorizer.dfy` | `Workflows`, `Categorization` | `src/categorization/process_categorizer.py` |
| `optimizer.dfy` | `Optimization` | `src/optimization/execution_optimizer.py` |
| `spiral.dfy` | `Spiral` | `src/geometry/dna_spiral_generator.py` |
| `dual_view.dfy` | `DualView` | `src/visualization/dual_view_generator.py` |
| `view_controller.dfy` | `ViewControl` | `src/visualization/view_controller.py` |
| `map_generator.dfy` | `MapGeneration` | `src/visualization/map_generator.py` |

Objects whose methods update fields in place are Dafny classes: `ProcessCategorizer`, `ExecutionOptimizer`, `DNASpiralGenerator`, `ViewController` and `MapGenerator`. Each loop in the source is a `while` loop, proved against a specification function. The dual-view generator keeps no state besides its fixed view settings, so its operations are module-level methods.

Python dictionaries keep insertion order, and that order shows in the output: the spiral's key list, the legend and the recommendations all depend on it. Those dictionaries are modelled as `Dict`, which holds the key sequence beside the contents. The process tree and the subcategory buckets are plain maps (see "Left out").

## Model

| member | source | states |
|---|---|---|
| Strings.Lower | src/categorization/process_categorizer.py:24 | same length; each upper-case ASCII letter becomes its own lower-case letter ('A'→'a' … 'Z'→'z') and every other character is kept |
| Strings.LastIndexOf | src/categorization/process_categorizer.py:71-72 | None exactly when the character is absent; otherwise a position holding it with no later occurrence |
| Strings.FirstDigitRun | src/geometry/dna_spiral_generator.py:80-81 | None exactly when the string holds no digit; otherwise a non-empty run of digits |
| Strings.FirstDigitRunIsLeftmost | src/geometry/dna_spiral_generator.py:80-81 | the run found starts at the first digit of the id and is the whole run of digits there, as `re.search(r'(\d+)')` finds it |
| Strings.FirstDigitRunAfterLetters | src/geometry/dna_spiral_generator.py:80-82 | after a digit-free prefix, the first digit run of `prefix + str(n)` is `str(n)` |
| Strings.FirstDigitRunBeforeSuffix | src/geometry/dna_spiral_generator.py:80-82 | for a dotted id such as "A1.2" (digit-free prefix, `str(n)`, a suffix not starting with a digit) the first digit run is `str(n)` |
| Strings.ParseNatToString | src/geometry/dna_spiral_generator.py:82 | `int(str(n)) == n` |
| Strings.NatToStringInjective | src/geometry/dna_spiral_generator.py:23 | different numbers print differently |
| Categorization.FirstMatch | src/categorization/process_categorizer.py:27-31 | the first category, in table order, with a keyword in the command; every earlier category has none; None when no category matches |
| Categorization.FirstMatchAt | src/categorization/process_categorizer.py:28-31 | the category at which the loop breaks, matching with no earlier match, is the one FirstMatch finds |
| Categorization.TableShape | src/categorization/process_categorizer.py:8-17 | the eight category names are distinct and none is `general` |
| Categorization.KeywordsDistinct | src/categorization/process_categorizer.py:8-17 | no category's keyword list repeats a keyword |
| Categorization.NameIndexOfName | src/categorization/process_categorizer.py:42-43 | looking a category up by its name finds that category's entry |
| Categorization.ExtractKeywords | src/categorization/process_categorizer.py:40-44 | exactly the category's keywords that occur in the command (both directions); empty for a name outside the table |
| Categorization.ExtractKeywordsInTableOrder | src/categorization/process_categorizer.py:42-43 | the returned keywords appear in the category's keyword list in the same order, and none twice |
| Categorization.KeywordsIffCategorized | src/categorization/process_categorizer.py:22-44 | the extracted keywords are non-empty if and only if the command's category is not `general` |
| Categorization.CategorizeProcess | src/categorization/process_categorizer.py:22-38 | address and command kept; category is the first match on the lower-cased command, else `general`; keywords extracted for that category |
| Categorization.FindParent | src/categorization/process_categorizer.py:69-73 | None exactly when the address has no dot; otherwise the prefix before the last dot |
| Categorization.CalculateDepth | src/categorization/process_categorizer.py:75-77 | the depth is 0 exactly when the address has no parent |
| Categorization.ParentDepth | src/categorization/process_categorizer.py:69-77 | a parent's depth is one less than its child's |
| Categorization.ProcessCategorizer.constructor | src/categorization/process_categorizer.py:7-20 | workflows and subcategories start empty |
| Categorization.ProcessCategorizer.BuildWorkflowMap | src/categorization/process_categorizer.py:46-67 | one categorized entry per workflow item, in order; each address is appended to its category's workflow list |
| Categorization.WorkflowOfCategory | src/categorization/process_categorizer.py:63-65 | after a build, a category's list is its old list followed by the built addresses of that category, in order |
| Categorization.WorkflowsAccumulate | src/categorization/process_categorizer.py:19 | workflow lists are never reset: two builds equal one build of both workflows in sequence |
| Categorization.ProcessCategorizer.GetWorkflowSubcategories | src/categorization/process_categorizer.py:79-96 | memoised: a cached category is returned unchanged; otherwise the category's current list is split and stored, and a missing list is created empty |
| Categorization.SubcategorizeBuckets | src/categorization/process_categorizer.py:83-94 | each bucket lists the addresses of its kind in order; only `primary`, `secondary`, `utility` occur; no bucket is empty |
| Categorization.SubcategorizePlaces | src/categorization/process_categorizer.py:87-92 | every address is in the bucket of its first letter and in no other |
| Categorization.GenerateProcessTree | src/categorization/process_categorizer.py:98-112 | the loop builds exactly the tree of the entries |
| Categorization.ProcessTreeContents | src/categorization/process_categorizer.py:102-110 | each (category, parent key) list holds the addresses of the entries with that category and key, in order; depth 0 files under `root` |
| Categorization.ProcessTreeCategories | src/categorization/process_categorizer.py:100-112 | the tree's categories are exactly the categories of the entries |
| Categorization.FiledOnce | src/categorization/process_categorizer.py:107-110 | with distinct addresses, each address is filed under its own key and no other key of its category |
| Categorization.EntriesDistinct | src/categorization/process_categorizer.py:50-61 | the workflow dictionary's distinct keys stay distinct in the categorized map, as FiledOnce needs |
| Optimization.ExecutionOptimizer.constructor | src/optimization/execution_optimizer.py:8-15 | empty cache, metrics and rules; the location legend is kept |
| Optimization.ExecutionOptimizer.InitializeOptimizationRules | src/optimization/execution_optimizer.py:17-62 | installs the eight-category rule table in order |
| Optimization.CachedCategories | src/optimization/execution_optimizer.py:19-62 | a category's results are ever cached if and only if it is one of data, computation, io, crypto, network, ui |
| Optimization.ExecutionOptimizer.CanSkipProcess | src/optimization/execution_optimizer.py:110-130 | skip exactly when skipping is allowed, a result is cached, the duration is non-zero and the entry is not too old; a too-old entry is deleted and nothing else changes |
| Optimization.AsList | src/optimization/execution_optimizer.py:66-67 | a single target becomes a one-element list; a list is kept |
| Optimization.ExecutionOptimizer.OptimizeExecutionPath | src/optimization/execution_optimizer.py:64-108 | the plan keeps the original path and has the run list, the skipped list, their cached results and the parallel groups of the run list; the cache loses the expired entries met |
| Optimization.ExecutionOptimizer.PlanProcess | src/optimization/execution_optimizer.py:79-98 | one iteration keeps the run list, skipped list, cached results and pruned cache equal to their specifications over one more process: a process with a fresh entry is skipped with that entry, any other known process is run, an expired entry is deleted |
| Optimization.RunListIsFilter | src/optimization/execution_optimizer.py:79-98 | the optimized path is the known targets that cannot be skipped, in order |
| Optimization.SkippedListIsFilter | src/optimization/execution_optimizer.py:79-95 | the skipped processes are the known targets that can be skipped, in order |
| Optimization.SkippedEntries | src/optimization/execution_optimizer.py:89-94 | each skipped entry carries the cache entry the process had |
| Optimization.PlanPartition | src/optimization/execution_optimizer.py:79-98 | run and skipped lists together are as long as the known targets: each known target is planned once |
| Optimization.PlanMembership | src/optimization/execution_optimizer.py:79-98 | a known target is run or skipped and never both; unknown targets are in neither list |
| Optimization.PrunedContents | src/optimization/execution_optimizer.py:124-128 | planning removes exactly the expired entries of known targets and leaves every other entry unchanged |
| Optimization.DecisionUnchanged | src/optimization/execution_optimizer.py:88 | deletions made earlier in the loop never change a later process's skip decision or its cached entry |
| Optimization.CachedResultsValid | src/optimization/execution_optimizer.py:94 | the cached-results dictionary is well formed: its key order lists each key once |
| Optimization.ExecutionOptimizer.IdentifyParallelGroups | src/optimization/execution_optimizer.py:132-159 | the loop computes the grouping of the processes |
| Optimization.ParallelGroupsCorrect | src/optimization/execution_optimizer.py:132-159 | the groups, concatenated, are the known processes in order; each is a run of parallel-safe processes or one unsafe process; no two neighbouring groups are both safe runs |
| Optimization.GroupsFromCorrect | src/optimization/execution_optimizer.py:135-157 | the same guarantees from any point in the loop, with the open group in front |
| Optimization.GroupsFromSafe | src/optimization/execution_optimizer.py:145-146 | appending a parallel-safe process to the open group keeps the guarantees |
| Optimization.GroupsFromUnsafe | src/optimization/execution_optimizer.py:147-153 | closing the open group and adding an unsafe process alone keeps the guarantees |
| Optimization.ExecutionOptimizer.ExecuteSingleProcess | src/optimization/execution_optimizer.py:227-254 | the result echoes the legend's command; the result is cached only when the category's duration is positive |
| Optimization.CacheAfterContents | src/optimization/execution_optimizer.py:244-252 | after running processes, exactly those with a positive duration gain a fresh entry stamped now; all other entries are unchanged |
| Optimization.ExecutionOptimizer.ExecuteParallelGroup | src/optimization/execution_optimizer.py:256-264 | one result per process of the group; the cache as after running them in order |
| Optimization.GroupResultsContents | src/optimization/execution_optimizer.py:258-264 | the group's result keys are exactly its processes, each with its own result |
| Optimization.ExecutionOptimizer.ExecuteOptimizedPlan | src/optimization/execution_optimizer.py:185-225 | results are the cached results overwritten by every group's results; executed count is the total group size; skipped count is the skipped list's length; metrics counted once per result key |
| Optimization.ExecutionOptimizer.ExecuteGroup | src/optimization/execution_optimizer.py:204-214 | a group of one runs alone and a larger group runs in parallel; either way the results gain the group's results, the count grows by the group size, and the cache is the cache after running the group |
| Optimization.ResultsOfCached | src/optimization/execution_optimizer.py:199-201 | the cached results give the same keys, in order, each with its stored result |
| Optimization.RunGroupContents | src/optimization/execution_optimizer.py:204-214 | running a group, alone or in parallel, adds exactly its processes with fresh results and keeps the other results |
| Optimization.RunResultsKeys | src/optimization/execution_optimizer.py:199-214 | the result keys are the cached keys plus every planned process |
| Optimization.RunResultsValues | src/optimization/execution_optimizer.py:204-214 | every planned process has its fresh result; a cached process that was not run keeps its cached result |
| Optimization.ExecutionOptimizer.UpdatePerformanceMetrics | src/optimization/execution_optimizer.py:266-282 | each result key's execution count goes up by one, and a missing entry starts at 0 |
| Optimization.MetricsAfterCounts | src/optimization/execution_optimizer.py:268-278 | tracked processes are the old ones plus the result keys; each result key's count is one more; the others are unchanged |
| Optimization.ExecutionOptimizer.GetOptimizationReport | src/optimization/execution_optimizer.py:284-322 | tracked count, total executions, number of cached results and per-category counts, whose sum is the total executions; the recommendations |
| Optimization.CategoryCountsSum | src/optimization/execution_optimizer.py:305-317 | the per-category execution counts add up to the total number of executions |
| Optimization.ExecutionOptimizer.GenerateOptimizationRecommendations | src/optimization/execution_optimizer.py:324-359 | cache recommendations over tracked processes in order, then parallelisation recommendations over rule categories in order |
| Optimization.CacheRecommendationsSound | src/optimization/execution_optimizer.py:328-341 | a cache recommendation exactly for each slow process run more than 10 times, with its category, current duration and `min(1800, 2 * duration)` |
| Optimization.ParallelRecommendationsSound | src/optimization/execution_optimizer.py:343-357 | a parallelisation recommendation exactly for each sequential rule category with more than 3 legend processes, with that count |
| Spiral.LabelInjective | src/geometry/dna_spiral_generator.py:18-23 | two base labels are equal if and only if their positions are |
| Spiral.DNASpiralGenerator.constructor | src/geometry/dna_spiral_generator.py:7-13 | the base is kept and the pairing table is built from it |
| Spiral.GenerateBasePairs | src/geometry/dna_spiral_generator.py:15-31 | the loop builds exactly the pairing table of the base |
| Spiral.PairsWithKeys | src/geometry/dna_spiral_generator.py:26-29 | after k rounds the keys are, in order, label 0, label base-1, label 1, label base-2, ..., 2k of them with no repeat |
| Spiral.PairsWithValues | src/geometry/dna_spiral_generator.py:27-29 | every key is paired with its mirror label |
| Spiral.PairAt | src/geometry/dna_spiral_generator.py:26-31 | the table has 2·(base/2) keys; key j and its partner are the j-th mirror pair |
| Spiral.PairingInvolution | src/geometry/dna_spiral_generator.py:27-29 | a label's partner is itself a key, and its partner is the label |
| Spiral.PairingNoFixedPoint | src/geometry/dna_spiral_generator.py:27-29 | no label is paired with itself |
| Spiral.EvenBasePairsAll | src/geometry/dna_spiral_generator.py:19-29 | for an even base every label is a key, paired with label base-1-i |
| Spiral.BaseIndex | src/geometry/dna_spiral_generator.py:56-57 | `i % base` lands inside the key list, and equals i below the base |
| Spiral.DNASpiralGenerator.GenerateSpiralCoordinates | src/geometry/dna_spiral_generator.py:33-70 | one entry per process; entry i is the i-th plain spiral point |
| Spiral.DNASpiralGenerator.PlainEntry | src/geometry/dna_spiral_generator.py:37-68 | the entry built for process i is the i-th plain spiral point |
| Spiral.PlainPointLabels | src/geometry/dna_spiral_generator.py:45-67 | entry i is on strand i mod 2; its base is a key whose partner is its complement; below the base it is the i-th key of the table |
| Spiral.DNASpiralGenerator.GetProcessLocation | src/geometry/dna_spiral_generator.py:72-90 | the location of the process id; None from the total up; negative indices count from the end and fail below minus the total |
| Spiral.NamedLocation | src/geometry/dna_spiral_generator.py:76-89 | an id of letters followed by n, with 1 ≤ n ≤ total, gives the entry n-1 |
| Spiral.DottedIndex | src/geometry/dna_spiral_generator.py:76-82 | a dotted id such as "A1.2" gets index n-1 from its first number, like "A1" |
| Spiral.ZeroIdWraps | src/geometry/dna_spiral_generator.py:80-89 | an id ending in 0 gives index -1 and so the last entry |
| Spiral.NoDigitsLocation | src/geometry/dna_spiral_generator.py:83-90 | an id without digits gives entry 0, or None for an empty spiral |
| Spiral.DetectCodeForksMembers | src/geometry/dna_spiral_generator.py:116-130 | every fork comes from a process of a fork type; every such process yields its fork |
| Spiral.DetectCodeForksInOrder | src/geometry/dna_spiral_generator.py:116-130 | the forks are those of the fork-type processes, in order |
| Spiral.ForkSpiral | src/geometry/dna_spiral_generator.py:150-152 | one point per process of the branch; none for a branch index past the branches |
| Spiral.DNASpiralGenerator.GenerateForkSpiralCoordinates | src/geometry/dna_spiral_generator.py:132-190 | the loop builds exactly the branch's fork spiral |
| Spiral.DNASpiralGenerator.ForkEntry | src/geometry/dna_spiral_generator.py:152-188 | the entry built for branch process i is the i-th point of the fork spiral |
| Spiral.ForkSpiralShape | src/geometry/dna_spiral_generator.py:161-188 | the direction is 1 over the first half of the branch and -1 after; parent, fork type and branch index recorded; not a main-spiral point |
| Spiral.DNASpiralGenerator.GenerateMainSpiralCoordinates | src/geometry/dna_spiral_generator.py:192-236 | one entry per process; entry i is the i-th main spiral point |
| Spiral.DNASpiralGenerator.MainEntry | src/geometry/dna_spiral_generator.py:196-234 | the entry built for process i is the i-th main spiral point |
| Spiral.DNASpiralGenerator.GenerateCompleteSpiralSystem | src/geometry/dna_spiral_generator.py:238-268 | the main spiral has one point per main process; the forks are the detected ones; all coordinates are the main spiral and then every branch spiral of forks on the main spiral; the fork spirals are those branch spirals |
| Spiral.MainLookup | src/geometry/dna_spiral_generator.py:244-248 | the lookup's keys are the main ids, and a repeated id maps to the point of its last occurrence |
| Spiral.DNASpiralGenerator.AppendForkSpirals | src/geometry/dna_spiral_generator.py:254-261 | appends the branch spirals of each fork whose process is on the main spiral, fork by fork |
| Spiral.DNASpiralGenerator.AppendBranchSpirals | src/geometry/dna_spiral_generator.py:257-261 | appends the fork's branch spirals in branch order |
| Spiral.DNASpiralGenerator.AppendBranch | src/geometry/dna_spiral_generator.py:258-261 | after the spirals of branches 0..b-1, appending branch b gives those of branches 0..b |
| Spiral.ForkPointsParents | src/geometry/dna_spiral_generator.py:254-261 | every added point is a fork point whose parent is on the main spiral |
| Spiral.BranchSpiralsParent | src/geometry/dna_spiral_generator.py:257-261 | every point of a fork's branch spirals names that fork as parent |
| Spiral.BranchSpiralsLength | src/geometry/dna_spiral_generator.py:257-261 | a fork adds as many points as its branches hold processes |
| Spiral.ForkSpiralsAreForkPoints | src/geometry/dna_spiral_generator.py:263-265 | filtering out main-spiral points leaves exactly the added fork points |
| DualView.CategorySymbolTable | src/visualization/dual_view_generator.py:189-202 | the circle goes exactly to categories outside the eight named ones; the eight get distinct symbols |
| DualView.Nodes3DOf | src/visualization/dual_view_generator.py:43-61 | one 3D node per coordinate; node i is built from entry i and the i-th categorized address, or `P<i>` |
| DualView.Nodes2DOf | src/visualization/dual_view_generator.py:109-128 | one 2D node per coordinate; node i is built from entry i and the i-th categorized address, or `P<i>` |
| DualView.BasePairsOf | src/visualization/dual_view_generator.py:64-74 | there are ⌊n/2⌋ base pairs |
| DualView.BasePairsCover | src/visualization/dual_view_generator.py:64-74 | every node but an odd last one is in exactly the pair i/2, first or second by parity |
| DualView.StrandsPartition | src/visualization/dual_view_generator.py:62 | the two strand lists split the nodes: lengths add up and no node is in both |
| DualView.NodeLinksMembers | src/visualization/dual_view_generator.py:77-84 | a node's connections go to exactly its listed subprocesses that are node ids |
| DualView.LinksUpToMembers | src/visualization/dual_view_generator.py:76-84 | every connection joins two existing nodes; every listed link to an existing node appears |
| DualView.Generate3DSpiralView | src/visualization/dual_view_generator.py:27-86 | node count, nodes, strand lists, base pairs and connections, each as the specification functions give them |
| DualView.Nodes3D | src/visualization/dual_view_generator.py:43-62 | the loop builds the nodes and both strand lists |
| DualView.PairBases | src/visualization/dual_view_generator.py:64-74 | the loop builds exactly the base pairs |
| DualView.LinkSubprocesses | src/visualization/dual_view_generator.py:76-84 | the loop builds exactly the connections |
| DualView.CategoryPositionsContents | src/visualization/dual_view_generator.py:130-133 | a category is a key exactly when some node has it; its list is that category's nodes in order |
| DualView.CategoryPositionsTotal | src/visualization/dual_view_generator.py:130-133 | the category lists together hold every node once |
| DualView.DefaultThenAppend | src/visualization/dual_view_generator.py:131-133 | creating an empty list and then appending equals appending to the list or to an empty one |
| DualView.ClustersOfContents | src/visualization/dual_view_generator.py:135-147 | a cluster exactly for each category with more than one node, listing their ids in order with the count |
| DualView.LegendOfContents | src/visualization/dual_view_generator.py:162-168 | one legend entry per category, in first-seen order, counting its nodes |
| DualView.LegendCountsTotal | src/visualization/dual_view_generator.py:162-168 | the legend counts add up to the number of nodes |
| DualView.FirstWithId | src/visualization/dual_view_generator.py:152 | a node with the id; None exactly when no node has it |
| DualView.FirstWithIdIsFirst | src/visualization/dual_view_generator.py:152 | the node found is the first one carrying the id |
| DualView.NodeArrowsMembers | src/visualization/dual_view_generator.py:150-160 | arrows only to listed links with a node, ending at that node's 2D position; one for every such link |
| DualView.ArrowsUpToMembers | src/visualization/dual_view_generator.py:150-160 | every arrow of the 2D view starts at a node and ends at a node id, so links to unknown ids are dropped; every link naming a node yields an arrow |
| DualView.Generate2DBirdsEyeView | src/visualization/dual_view_generator.py:88-170 | node count, nodes, clusters, arrows and legend, each as the specification functions give them |
| DualView.Nodes2D | src/visualization/dual_view_generator.py:109-133 | the loop builds the nodes and the category lists |
| DualView.Node2DStep | src/visualization/dual_view_generator.py:111-133 | one iteration adds node i and files it under its category |
| DualView.Cluster2D | src/visualization/dual_view_generator.py:135-147 | the loop builds exactly the clusters |
| DualView.FlowArrows | src/visualization/dual_view_generator.py:149-160 | the loop builds exactly the arrows |
| DualView.ArrowsFrom | src/visualization/dual_view_generator.py:151-159 | the inner loop builds exactly the arrows from one node |
| DualView.ArrowTo | src/visualization/dual_view_generator.py:151-159 | one subprocess adds the arrow to the first node with its id, or nothing when no node has it |
| DualView.Legend2D | src/visualization/dual_view_generator.py:162-168 | the loop builds exactly the legend |
| DualView.MappingUpToKeys | src/visualization/dual_view_generator.py:216-224 | the mapping's keys are exactly the 3D node ids that have a 2D node |
| DualView.EveryNodeMapped | src/visualization/dual_view_generator.py:204-224 | since both views name node i alike, every 3D node is mapped |
| DualView.TransitionsOfContents | src/visualization/dual_view_generator.py:226-239 | one transition per mapped node, 1000 ms each way, leaving from and returning to its 3D position |
| DualView.GenerateSynchronizedViews | src/visualization/dual_view_generator.py:204-245 | both views, the node mapping and its transitions |
| DualView.MapNodes | src/visualization/dual_view_generator.py:216-224 | the loop builds exactly the node mapping |
| DualView.MapNode | src/visualization/dual_view_generator.py:217-224 | one 3D node is mapped, with both positions and its category, exactly when a 2D node has its id |
| DualView.Transitions | src/visualization/dual_view_generator.py:226-239 | the loop builds exactly the transitions |
| ViewControl.ViewController.constructor | src/visualization/view_controller.py:4-13 | 3D view, empty history and selection, default filters |
| ViewControl.ViewController.SwitchView | src/visualization/view_controller.py:15-38 | an unknown view is rejected with no change; otherwise the old view joins the history and the report carries the previous view, the new view and the transition data |
| ViewControl.FocusOn | src/visualization/view_controller.py:40-59 | None exactly when the current view has no node with the id; otherwise the first such node's 3D position at distance 20, or its 2D position at zoom 2.0; the node is highlighted |
| ViewControl.ViewController.FocusOnNode | src/visualization/view_controller.py:40-59 | the focus for the current view |
| ViewControl.VisibilityPartition | src/visualization/view_controller.py:61-80 | visible ids are those of nodes of a listed category, in order; hidden ids are the rest, in order; together they split the nodes; with no category listed all are visible |
| ViewControl.ViewController.FilterByCategory | src/visualization/view_controller.py:61-80 | the filter's categories become the given ones; the result is the current view's visibility |
| ViewControl.ViewController.SelectNodes | src/visualization/view_controller.py:82-88 | the selection grows by the ids; selecting ids already selected changes nothing; the count is the selection's size; the listed ids are the selection, each once |
| ViewControl.ViewController.ClearSelection | src/visualization/view_controller.py:90-93 | the selection becomes empty and the count is 0 |
| ViewControl.ListOf | src/visualization/view_controller.py:87 | a list of the set's members, each once |
| ViewControl.ViewController.GetViewState | src/visualization/view_controller.py:95-102 | all four keys present; restoring the saved dictionary gives back the current state |
| ViewControl.ViewController.RestoreViewState | src/visualization/view_controller.py:104-113 | each present key is installed; a missing one takes its initial value |
| ViewControl.RestoreDefaults | src/visualization/view_controller.py:104-113 | restoring an empty dictionary gives the state of a new controller |
| ViewControl.RestoreSaved | src/visualization/view_controller.py:95-113 | restoring a full saved state gives that state back |
| MapGeneration.RecordOf | src/visualization/map_generator.py:12-20 | the record copies address, command, subprocesses and direction; coordinates are the first trace entry's when traced, else `[0, 0, 0]` |
| MapGeneration.Records | src/visualization/map_generator.py:12-20 | one record per workflow entry, in order |
| MapGeneration.MapGenerator.constructor | src/visualization/map_generator.py:5-8 | keeps the workflow and the execution map; the map data starts empty |
| MapGeneration.MapGenerator.GenerateMap | src/visualization/map_generator.py:10-21 | appends this call's records to the existing map data and returns the whole list |
| MapGeneration.AfterCallsContents | src/visualization/map_generator.py:8-21 | the map data is never cleared: k calls leave k copies of the records, one after another |

## Left out

- Floating point. Helix radius, pitch, fork offset, angles, heights, x/y positions, the bird's-eye projection, node sizes, cluster centres, savings estimates, execution times and the cache hit rate are all left out. Spiral points keep only their index, strand, base, complement, direction and fork data. Coordinates pass through the views unchanged as `seq<real>`.
- Spiral.DNASpiralGenerator.GenerateForkSpiralCoordinates: the direction multiplier only shifts the float start position, so it is not modelled.
- `generate_birds_eye_view` (dna_spiral_generator.py:92-114) is a float projection. The 2D view takes it as the `project` parameter.
- Optimization.ExecutionOptimizer.GenerateOptimizationRecommendations: the test "average time above one second" is the parameter `slow`, because execution times are clock readings. `_calculate_savings` (execution_optimizer.py:161-183) is float arithmetic over those times and is left out. The plan carries no savings estimate.
- Clocks: `time.time()` is the parameter `now`, and one plan execution uses one `now`.
- Colours come from the location legend, which is not part of this model. They are the parameter `color`.
- Files and JSON: `save_map` and `save_dual_views` are left out.
- The tracer, the location legend, the process router, the fork visualizer and the entry scripts are not part of this model. The execution map is given as a value.
- Camera and view settings, metadata records and the `reason` strings of plan entries and recommendations are left out. The unused `fork_spirals` field of the spiral generator and `dual_view_generator` field of the controller are left out too.
- Python crashes are preconditions rather than error results:
  - a base of 0, and an odd base whose spiral outruns the key list (`CanLabel`), which raise errors on indexing;
  - a strand outside 0 and 1, which raises KeyError;
  - workflow entries missing `subprocesses` or `direction`, and empty trace lists (`MapGeneration.Complete`, `NonEmptyTraces`).
- Strings.Lower: only ASCII letters are lower-cased, whereas Python lower-cases all of Unicode. `\d` is ASCII digits only, whereas Python also matches other Unicode digits.
- ViewControl.ListOf: the order in which `list(set)` lists members is left open. Only the members and their distinctness are stated.
- ViewControl.ViewController.GetViewState: the saved history list is the controller's own list, and restoring installs the given objects. Aliasing between the two is not modelled; states are values.
- ViewControl.ViewController.RestoreViewState: a `filter_settings` dictionary with some keys missing is not modelled. The filter settings are either present whole or absent.
- Categorization.ProcessCategorizer.BuildWorkflowMap: the workflow dictionary is a sequence of (address, details) items in insertion order, and the returned dictionary is the entry sequence in the same order. Distinct keys are not a precondition of the build. `Workflows.DistinctAddresses` states them where a lemma needs them: `EntriesDistinct` carries them to the entries for `FiledOnce`.
- Categorization.GenerateProcessTree: the tree is a map of maps, so the first-seen order of its categories and of the parent keys within a category is not modelled. The lists of addresses keep their order.
- Categorization.ProcessCategorizer.GetWorkflowSubcategories: the buckets are a map, so the first-seen order of 'primary', 'secondary' and 'utility' is not modelled. Each bucket's list keeps its order.
