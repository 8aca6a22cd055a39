/** The parsed workflow the back end consumes: an insertion-ordered dictionary from a
    process address to its details, written here as a list of (address, details) items. */
module Workflows {
  import opened Wrappers

  /** A workflow entry's details. 'command' is always present; 'subprocesses' and
      'direction' may be missing (None). */
  datatype Details = Details(command: string, subprocesses: Option<seq<string>>, direction: Option<string>)

  datatype WorkflowItem = WorkflowItem(address: string, details: Details)

  /** Dictionary keys are distinct. */
  predicate DistinctAddresses(w: seq<WorkflowItem>) {
    forall i, j :: 0 <= i < j < |w| ==> w[i].address != w[j].address
  }
}

/** ProcessCategorizer: keyword classification of commands, the dotted-address
    hierarchy, workflows grouped by category, their subcategories and the process tree. */
module Categorization {
  import opened Wrappers
  import opened Strings
  import opened Seqs
  import opened Groups
  import opened Workflows

  datatype Category = Category(name: string, keywords: seq<string>)

  /** The keyword table, in the order in which categories are tried. */
  const Categories: seq<Category> := [
    Category("data", ["fetch", "load", "save", "process_data", "transform"]),
    Category("computation", ["calculate", "compute", "analyze", "algorithm"]),
    Category("io", ["read", "write", "print", "input", "output"]),
    Category("control", ["if", "while", "for", "loop", "condition"]),
    Category("crypto", ["encrypt", "decrypt", "hash", "sign", "verify"]),
    Category("network", ["request", "response", "api", "http", "socket"]),
    Category("ui", ["render", "display", "show", "hide", "update"]),
    Category("error", ["try", "catch", "error", "exception", "handle"])
  ]

  /** The category of a command that matches no keyword. */
  const General: string := "general"

  /** `any(keyword in cmd for keyword in cat.keywords)` */
  predicate Matches(cat: Category, cmd: string) {
    exists k :: 0 <= k < |cat.keywords| && Contains(cmd, cat.keywords[k])
  }

  /** The first category of `table` that has a keyword occurring in `cmd`. */
  function FirstMatch(table: seq<Category>, cmd: string): (r: Option<nat>)
    ensures r.Some? ==> r.value < |table| && Matches(table[r.value], cmd)
    ensures r.Some? ==> forall j :: 0 <= j < r.value ==> !Matches(table[j], cmd)
    ensures r.None? ==> forall j :: 0 <= j < |table| ==> !Matches(table[j], cmd)
  {
    if table == [] then None
    else if Matches(table[0], cmd) then Some(0)
    else match FirstMatch(table[1..], cmd)
      case None => None
      case Some(i) => Some(i + 1)
  }

  /** A matching category with no earlier match is the one FirstMatch finds. */
  lemma {:induction false} FirstMatchAt(table: seq<Category>, cmd: string, i: nat)
    requires i < |table| && Matches(table[i], cmd)
    requires forall j :: 0 <= j < i ==> !Matches(table[j], cmd)
    ensures FirstMatch(table, cmd) == Some(i)
  {
  }

  /** The category assigned to an already lower-cased command. */
  function CategoryOf(cmd: string): string {
    match FirstMatch(Categories, cmd)
    case Some(i) => Categories[i].name
    case None => General
  }

  /** The position of `name` in the table (the table is a dictionary keyed by name). */
  function NameIndex(table: seq<Category>, name: string): (r: Option<nat>)
    ensures r.Some? ==> r.value < |table| && table[r.value].name == name
    ensures r.None? ==> forall j :: 0 <= j < |table| ==> table[j].name != name
  {
    if table == [] then None
    else if table[0].name == name then Some(0)
    else match NameIndex(table[1..], name)
      case None => None
      case Some(i) => Some(i + 1)
  }

  predicate DistinctNames(table: seq<Category>) {
    forall i, j :: 0 <= i < j < |table| ==> table[i].name != table[j].name
  }

  lemma {:induction false} NameIndexOfName(table: seq<Category>, i: nat)
    requires DistinctNames(table) && i < |table|
    ensures NameIndex(table, table[i].name) == Some(i)
  {
    if i > 0 {
      NameIndexOfName(table[1..], i - 1);
    }
  }

  /** The category names are distinct and 'general' is not one of them. */
  lemma {:induction false} TableShape()
    ensures DistinctNames(Categories)
    ensures forall j :: 0 <= j < |Categories| ==> Categories[j].name != General
  {
  }

  function ContainsIn(cmd: string): string -> bool {
    kw => Contains(cmd, kw)
  }

  /** `_extract_keywords`: the category's keywords that occur in `cmd`, in table order;
      none for a name that is not in the table. */
  function ExtractKeywords(cmd: string, category: string): (r: seq<string>)
    ensures NameIndex(Categories, category).None? ==> r == []
    ensures NameIndex(Categories, category).Some? ==>
      var kws := Categories[NameIndex(Categories, category).value].keywords;
      && (forall i :: 0 <= i < |r| ==> r[i] in kws && Contains(cmd, r[i]))
      && (forall i :: 0 <= i < |kws| && Contains(cmd, kws[i]) ==> kws[i] in r)
  {
    match NameIndex(Categories, category)
    case None => []
    case Some(i) =>
      FilterMembers(Categories[i].keywords, ContainsIn(cmd));
      Filter(Categories[i].keywords, ContainsIn(cmd))
  }

  /** The table's keyword lists have no repeats. */
  lemma {:induction false} KeywordsDistinct(i: nat)
    requires i < |Categories|
    ensures Distinct(Categories[i].keywords)
  {
  }

  /** `_extract_keywords` keeps the table's order: any two keywords it returns appear in
      the same order in the category's keyword list, and none is returned twice. */
  lemma {:induction false} ExtractKeywordsInTableOrder(cmd: string, category: string)
    ensures NameIndex(Categories, category).Some? ==>
      InOrderOf(ExtractKeywords(cmd, category), Categories[NameIndex(Categories, category).value].keywords)
    ensures Distinct(ExtractKeywords(cmd, category))
  {
    var found := NameIndex(Categories, category);
    var r := ExtractKeywords(cmd, category);
    if found.None? {
      assert r == [];
    } else {
      var kws := Categories[found.value].keywords;
      assert r == Filter(kws, ContainsIn(cmd));
      FilteredInOrder(kws, ContainsIn(cmd));
      KeywordsDistinct(found.value);
      FilterDistinct(kws, ContainsIn(cmd));
    }
  }

  /** The keywords found for a command are non-empty exactly when it is not 'general'. */
  lemma {:induction false} KeywordsIffCategorized(cmd: string)
    ensures ExtractKeywords(cmd, CategoryOf(cmd)) != [] <==> CategoryOf(cmd) != General
  {
    TableShape();
    match FirstMatch(Categories, cmd)
    case None =>
      assert NameIndex(Categories, General).None?;
    case Some(i) =>
      NameIndexOfName(Categories, i);
      var kws := Categories[i].keywords;
      var k :| 0 <= k < |kws| && Contains(cmd, kws[k]);
      assert kws[k] in ExtractKeywords(cmd, CategoryOf(cmd));
  }

  /** The result of `categorize_process`. */
  datatype Categorized = Categorized(address: string, command: string, category: string, keywords: seq<string>)

  /** `categorize_process`: the category is the first table entry with a keyword in the
      lower-cased command, otherwise 'general'; the keywords are those of that category
      found in the lower-cased command. */
  method CategorizeProcess(address: string, command: string) returns (r: Categorized)
    ensures r.address == address && r.command == command
    ensures r.category == CategoryOf(Lower(command))
    ensures r.keywords == ExtractKeywords(Lower(command), r.category)
  {
    var lower := Lower(command);
    var matched := General;
    var i := 0;
    while i < |Categories|
      invariant 0 <= i <= |Categories|
      invariant matched == General
      invariant forall j :: 0 <= j < i ==> !Matches(Categories[j], lower)
    {
      if Matches(Categories[i], lower) {
        matched := Categories[i].name;
        break;
      }
      i := i + 1;
    }
    if i < |Categories| {
      FirstMatchAt(Categories, lower, i);
    }
    r := Categorized(address, command, matched, ExtractKeywords(lower, matched));
  }

  /** `_find_parent`: the part of the address before its last '.', or None. */
  function FindParent(address: string): (r: Option<string>)
    ensures r.None? <==> '.' !in address
    ensures r.Some? ==> && |r.value| < |address|
                        && address[..|r.value|] == r.value
                        && address[|r.value|] == '.'
                        && '.' !in address[|r.value| + 1..]
  {
    match LastIndexOf(address, '.')
    case None => None
    case Some(k) => Some(address[..k])
  }

  /** `_calculate_depth`: the number of '.' in the address; 0 exactly when it has no parent. */
  function CalculateDepth(address: string): (r: nat)
    ensures r == 0 <==> FindParent(address).None?
  {
    CountCharZero(address, '.');
    CountChar(address, '.')
  }

  /** A parent address is one level shallower than its child. */
  lemma {:induction false} ParentDepth(address: string)
    requires FindParent(address).Some?
    ensures CalculateDepth(FindParent(address).value) == CalculateDepth(address) - 1
  {
    var p := FindParent(address).value;
    var rest := address[|p| + 1..];
    assert address == p + (['.'] + rest);
    CountCharConcat(p, ['.'] + rest, '.');
    CountCharConcat(['.'], rest, '.');
    CountCharZero(rest, '.');
  }

  /** An entry of the categorized map that `build_workflow_map` returns. */
  datatype ProcessEntry = ProcessEntry(
    address: string,
    command: string,
    category: string,
    keywords: seq<string>,
    subprocesses: seq<string>,
    direction: Option<string>,
    parent: Option<string>,
    depth: nat)

  /** The categorized entry of one workflow item. */
  function EntryFor(item: WorkflowItem): ProcessEntry {
    var lower := Lower(item.details.command);
    var category := CategoryOf(lower);
    ProcessEntry(item.address, item.details.command, category, ExtractKeywords(lower, category),
                 item.details.subprocesses.GetOr([]), item.details.direction,
                 FindParent(item.address), CalculateDepth(item.address))
  }

  /** The categorized map of a workflow, in the workflow's order. */
  function EntriesFor(workflow: seq<WorkflowItem>): seq<ProcessEntry> {
    Map(workflow, EntryFor)
  }

  function EntryCategory(e: ProcessEntry): string { e.category }
  function EntryAddress(e: ProcessEntry): string { e.address }

  /** `get_workflow_subcategories` bucket of an address. */
  function SubcategoryOf(address: string): string {
    if StartsWith(address, 'A') then "primary"
    else if StartsWith(address, 'B') then "secondary"
    else "utility"
  }

  function Self(s: string): string { s }

  /** The subcategory dictionary built for a list of addresses. */
  function Subcategorize(processes: seq<string>): map<string, seq<string>> {
    GroupInto(map[], processes, SubcategoryOf, Self)
  }

  /** Each bucket lists, in order, the addresses of its kind; there are only the three
      kinds, and a bucket is present only when something fell into it. */
  lemma {:induction false} SubcategorizeBuckets(processes: seq<string>)
    ensures forall b :: Lookup(Subcategorize(processes), b) == Pick(processes, SubcategoryOf, Self, b)
    ensures Subcategorize(processes).Keys <= {"primary", "secondary", "utility"}
    ensures forall b :: b in Subcategorize(processes) ==> Subcategorize(processes)[b] != []
  {
    var sub := Subcategorize(processes);
    GroupIntoContents(map[], processes, SubcategoryOf, Self);
    forall b | b in sub
      ensures sub[b] != [] && b in {"primary", "secondary", "utility"}
    {
      var i :| 0 <= i < |processes| && SubcategoryOf(processes[i]) == b;
      PickMembers(processes, SubcategoryOf, Self, b);
      assert Self(processes[i]) in Pick(processes, SubcategoryOf, Self, b);
    }
  }

  /** Every address lands in the bucket of its own kind and in no other. */
  lemma {:induction false} SubcategorizePlaces(processes: seq<string>, i: nat)
    requires i < |processes|
    ensures processes[i] in Lookup(Subcategorize(processes), SubcategoryOf(processes[i]))
    ensures forall b :: b != SubcategoryOf(processes[i]) ==> processes[i] !in Lookup(Subcategorize(processes), b)
  {
    GroupIntoContents(map[], processes, SubcategoryOf, Self);
    PickMembers(processes, SubcategoryOf, Self, SubcategoryOf(processes[i]));
    assert Self(processes[i]) == processes[i];
    forall b | b != SubcategoryOf(processes[i])
      ensures processes[i] !in Lookup(Subcategorize(processes), b)
    {
      PickMembers(processes, SubcategoryOf, Self, b);
    }
  }

  /** The key a tree entry is filed under: 'root' at depth 0, otherwise the parent. */
  function TreeKey(e: ProcessEntry): Option<string> {
    if e.depth == 0 then Some("root") else e.parent
  }

  function CategoryAndKey(e: ProcessEntry): (string, Option<string>) {
    (e.category, TreeKey(e))
  }

  /** category -> (parent key -> addresses) */
  type Tree = map<string, map<Option<string>, seq<string>>>

  function Branch(t: Tree, category: string): map<Option<string>, seq<string>> {
    if category in t then t[category] else map[]
  }

  /** The tree after filing every entry, in order. */
  function ProcessTree(entries: seq<ProcessEntry>): Tree {
    if entries == [] then map[]
    else
      var t := ProcessTree(entries[..|entries| - 1]);
      var e := entries[|entries| - 1];
      var b := Branch(t, e.category);
      t[e.category := b[TreeKey(e) := Lookup(b, TreeKey(e)) + [e.address]]]
  }

  /** Filing entry i into the tree `t` of the first i entries. */
  lemma {:induction false} ProcessTreeStep(entries: seq<ProcessEntry>, i: nat, t: Tree)
    requires i < |entries| && t == ProcessTree(entries[..i])
    ensures ProcessTree(entries[..i + 1])
         == t[entries[i].category := Branch(t, entries[i].category)[TreeKey(entries[i]) :=
              Lookup(Branch(t, entries[i].category), TreeKey(entries[i])) + [entries[i].address]]]
  {
    assert entries[..i + 1][..i] == entries[..i];
  }

  /** Each (category, key) list holds exactly the addresses of the entries with that
      category and key, in order. */
  lemma {:induction false} ProcessTreeContents(entries: seq<ProcessEntry>)
    ensures forall c, k :: Lookup(Branch(ProcessTree(entries), c), k) == Pick(entries, CategoryAndKey, EntryAddress, (c, k))
  {
    if entries != [] {
      ProcessTreeContents(entries[..|entries| - 1]);
    }
  }

  /** The tree's categories are those of the entries. */
  lemma {:induction false} ProcessTreeCategories(entries: seq<ProcessEntry>)
    ensures forall c :: c in ProcessTree(entries) <==> exists i :: 0 <= i < |entries| && entries[i].category == c
  {
    if entries != [] {
      var init := entries[..|entries| - 1];
      ProcessTreeCategories(init);
      forall c | c in ProcessTree(entries)
        ensures exists i :: 0 <= i < |entries| && entries[i].category == c
      {
        if c != entries[|entries| - 1].category {
          assert c in ProcessTree(init);
          var i :| 0 <= i < |init| && init[i].category == c;
          assert entries[i] == init[i];
        }
      }
      forall c | exists i :: 0 <= i < |entries| && entries[i].category == c
        ensures c in ProcessTree(entries)
      {
        var i :| 0 <= i < |entries| && entries[i].category == c;
        if i < |init| { assert init[i] == entries[i]; }
      }
    }
  }

  predicate DistinctEntryAddresses(entries: seq<ProcessEntry>) {
    forall i, j :: 0 <= i < j < |entries| ==> entries[i].address != entries[j].address
  }

  /** A workflow's distinct addresses stay distinct in its categorized entries. */
  lemma {:induction false} EntriesDistinct(workflow: seq<WorkflowItem>)
    requires DistinctAddresses(workflow)
    ensures DistinctEntryAddresses(EntriesFor(workflow))
  {
    var entries := EntriesFor(workflow);
    forall i, j | 0 <= i < j < |entries|
      ensures entries[i].address != entries[j].address
    {
      assert entries[i].address == workflow[i].address;
      assert entries[j].address == workflow[j].address;
    }
  }

  /** With distinct addresses, every address is filed exactly once within its category:
      under its own key, and under no other. */
  lemma {:induction false} FiledOnce(entries: seq<ProcessEntry>, i: nat)
    requires DistinctEntryAddresses(entries) && i < |entries|
    ensures entries[i].address in Lookup(Branch(ProcessTree(entries), entries[i].category), TreeKey(entries[i]))
    ensures forall k :: k != TreeKey(entries[i]) ==>
      entries[i].address !in Lookup(Branch(ProcessTree(entries), entries[i].category), k)
  {
    var e := entries[i];
    ProcessTreeContents(entries);
    PickMembers(entries, CategoryAndKey, EntryAddress, CategoryAndKey(e));
    forall k | k != TreeKey(e)
      ensures e.address !in Lookup(Branch(ProcessTree(entries), e.category), k)
    {
      PickMembers(entries, CategoryAndKey, EntryAddress, (e.category, k));
    }
  }

  /** `generate_process_tree`: files every entry under its category and tree key. */
  method GenerateProcessTree(categorized: seq<ProcessEntry>) returns (tree: Tree)
    ensures tree == ProcessTree(categorized)
  {
    tree := map[];
    var i := 0;
    while i < |categorized|
      invariant 0 <= i <= |categorized|
      invariant tree == ProcessTree(categorized[..i])
    {
      var e := categorized[i];
      ProcessTreeStep(categorized, i, tree);
      var branch := if e.category in tree then tree[e.category] else map[];
      var key := if e.depth == 0 then Some("root") else e.parent;
      var list := if key in branch then branch[key] else [];
      tree := tree[e.category := branch[key := list + [e.address]]];
      i := i + 1;
    }
    assert categorized[..i] == categorized;
  }

  /** ProcessCategorizer's mutable state: the workflows grouped by category (never reset)
      and the memoised subcategories. */
  class ProcessCategorizer {
    var workflows: map<string, seq<string>>
    var subcategories: map<string, map<string, seq<string>>>

    constructor ()
      ensures workflows == map[] && subcategories == map[]
    {
      workflows := map[];
      subcategories := map[];
    }

    /** `build_workflow_map`: one categorized entry per item, in order; each address is
        appended to the workflow list of its category. */
    method BuildWorkflowMap(workflow: seq<WorkflowItem>) returns (categorized: seq<ProcessEntry>)
      modifies this`workflows
      ensures categorized == EntriesFor(workflow)
      ensures workflows == GroupInto(old(workflows), categorized, EntryCategory, EntryAddress)
    {
      categorized := [];
      var i := 0;
      while i < |workflow|
        invariant 0 <= i <= |workflow|
        invariant categorized == EntriesFor(workflow[..i])
        invariant workflows == GroupInto(old(workflows), categorized, EntryCategory, EntryAddress)
      {
        var item := workflow[i];
        var c := CategorizeProcess(item.address, item.details.command);
        var entry := ProcessEntry(c.address, c.command, c.category, c.keywords,
                                  item.details.subprocesses.GetOr([]), item.details.direction,
                                  FindParent(item.address), CalculateDepth(item.address));
        assert entry == EntryFor(item);
        assert workflow[..i + 1][..i] == workflow[..i];
        assert EntriesFor(workflow[..i + 1]) == EntriesFor(workflow[..i]) + [entry];
        GroupIntoSnoc(old(workflows), categorized, entry, EntryCategory, EntryAddress);
        categorized := categorized + [entry];
        workflows := workflows[c.category := Lookup(workflows, c.category) + [item.address]];
        i := i + 1;
      }
      assert workflow[..i] == workflow;
    }

    /** `get_workflow_subcategories`: computed once per category from the workflow list
        at that time, then returned unchanged. Reading the missing list of a
        `defaultdict` stores an empty one. */
    method GetWorkflowSubcategories(category: string) returns (r: map<string, seq<string>>)
      modifies this
      ensures old(category in subcategories) ==>
        r == old(subcategories[category]) && workflows == old(workflows) && subcategories == old(subcategories)
      ensures old(category !in subcategories) ==>
        && r == Subcategorize(Lookup(old(workflows), category))
        && subcategories == old(subcategories)[category := r]
        && workflows == old(workflows)[category := Lookup(old(workflows), category)]
    {
      if category !in subcategories {
        var processes := Lookup(workflows, category);
        workflows := workflows[category := processes];
        var subcats: map<string, seq<string>> := map[];
        var i := 0;
        while i < |processes|
          invariant 0 <= i <= |processes|
          invariant subcats == GroupInto(map[], processes[..i], SubcategoryOf, Self)
          invariant workflows == old(workflows)[category := processes] && subcategories == old(subcategories)
        {
          var p := processes[i];
          GroupIntoStep(map[], processes, i, SubcategoryOf, Self, subcats);
          var bucket := if StartsWith(p, 'A') then "primary" else if StartsWith(p, 'B') then "secondary" else "utility";
          subcats := subcats[bucket := Lookup(subcats, bucket) + [p]];
          i := i + 1;
        }
        assert processes[..i] == processes;
        subcategories := subcategories[category := subcats];
      }
      r := subcategories[category];
    }
  }

  /** Workflows accumulate across calls: two builds group like one build of both inputs. */
  lemma {:induction false} WorkflowsAccumulate(w: map<string, seq<string>>, first: seq<ProcessEntry>, second: seq<ProcessEntry>)
    ensures GroupInto(GroupInto(w, first, EntryCategory, EntryAddress), second, EntryCategory, EntryAddress)
         == GroupInto(w, first + second, EntryCategory, EntryAddress)
  {
    GroupIntoTwice(w, first, second, EntryCategory, EntryAddress);
  }

  /** After a build, each category's workflow is its old list followed by the built
      addresses of that category, in order. */
  lemma {:induction false} WorkflowOfCategory(w: map<string, seq<string>>, built: seq<ProcessEntry>, category: string)
    ensures Lookup(GroupInto(w, built, EntryCategory, EntryAddress), category)
         == Lookup(w, category) + Pick(built, EntryCategory, EntryAddress, category)
  {
    GroupIntoContents(w, built, EntryCategory, EntryAddress);
  }
}
