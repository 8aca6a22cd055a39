/** The discrete part of the DNA spiral generator: base labels and their complementary
    pairing, the strand/base/complement of every spiral position, parsing a process id
    to a position, fork detection, and the shape of the main, fork and complete spirals.
    Angles, radii, heights and x/y positions are not modelled. */
module Spiral {
  import opened Wrappers
  import opened Seqs
  import opened Strings
  import opened Dicts

  // ---------------------------------------------------------------- labels and pairs

  /** Label i: 'A'..'Z' for the first 26, then "X1", "X2", ... */
  function Label(i: nat): string {
    if i < 26 then [('A' as int + i) as char] else "X" + NatToString(i - 25)
  }

  /** Different positions get different labels. */
  lemma {:induction false} LabelInjective(i: nat, j: nat)
    ensures Label(i) == Label(j) <==> i == j
  {
    if i < 26 && j < 26 {
      assert Label(i)[0] == ('A' as int + i) as char;
    } else if i >= 26 && j >= 26 {
      assert Label(i)[1..] == NatToString(i - 25);
      assert Label(j)[1..] == NatToString(j - 25);
      if Label(i) == Label(j) {
        NatToStringInjective(i - 25, j - 25);
      }
    } else {
      assert |Label(i)| == 1 <==> i < 26;
    }
  }

  /** Every label names one position only. */
  ghost predicate Injective<T>(tag: nat -> T) {
    forall i, j :: tag(i) == tag(j) ==> i == j
  }

  lemma {:induction false} LabelsInjective()
    ensures Injective(Label)
  {
    forall i: nat, j: nat
      ensures Label(i) == Label(j) ==> i == j
    {
      LabelInjective(i, j);
    }
  }

  /** The label index of the j-th key of the pair dictionary: keys are inserted as
      label k, then its partner base-1-k, for k = 0, 1, ... */
  function KeyIndex(base: nat, j: nat): nat
    requires j < 2 * (base / 2)
  {
    if j % 2 == 0 then j / 2 else base - 1 - j / 2
  }

  /** The label index of the partner of the j-th key. */
  function PartnerIndex(base: nat, j: nat): nat
    requires j < 2 * (base / 2)
  {
    if j % 2 == 0 then base - 1 - j / 2 else j / 2
  }

  function KeyAt(base: nat, j: nat): string
    requires j < 2 * (base / 2)
  {
    Label(KeyIndex(base, j))
  }

  function PartnerAt(base: nat, j: nat): string
    requires j < 2 * (base / 2)
  {
    Label(PartnerIndex(base, j))
  }

  /** The pair dictionary after the first k rounds of `_generate_base_pairs`, for any
      naming of the positions. */
  function PairsWith<T(==, !new)>(tag: nat -> T, base: nat, k: nat): Dict<T, T>
    requires k <= base / 2
  {
    if k == 0 then Empty()
    else PairsWith(tag, base, k - 1).Put(tag(k - 1), tag(base - k)).Put(tag(base - k), tag(k - 1))
  }

  /** The complementary pairing `_generate_base_pairs` returns. */
  function BasePairs(base: nat): Dict<string, string> {
    PairsWith(Label, base, base / 2)
  }

  /** The keys after k rounds: label 0, label base-1, label 1, label base-2, ... */
  function KeyList<T>(tag: nat -> T, base: nat, k: nat): (r: seq<T>)
    requires k <= base / 2
    ensures |r| == 2 * k
  {
    if k == 0 then [] else KeyList(tag, base, k - 1) + [tag(k - 1), tag(base - k)]
  }

  /** Key j of the list after k rounds is label KeyIndex(base, j). */
  lemma {:induction false} KeyListIndex<T>(tag: nat -> T, base: nat, k: nat)
    requires k <= base / 2
    ensures forall j :: 0 <= j < 2 * k ==> KeyList(tag, base, k)[j] == tag(KeyIndex(base, j))
  {
    if k > 0 {
      KeyListIndex(tag, base, k - 1);
      KeysAppend(tag, base, k, KeyList(tag, base, k - 1), KeyList(tag, base, k));
    }
  }

  /** After k rounds the keys are label 0, label base-1, label 1, label base-2, ... (2k of
      them, no repeats). */
  lemma {:induction false} PairsWithKeys<T(!new)>(tag: nat -> T, base: nat, k: nat)
    requires k <= base / 2 && Injective(tag)
    ensures PairsWith(tag, base, k).Valid()
    ensures |PairsWith(tag, base, k).keys| == 2 * k
    ensures forall j :: 0 <= j < 2 * k ==> PairsWith(tag, base, k).keys[j] == tag(KeyIndex(base, j))
  {
    PairsWithKeyList(tag, base, k);
    KeyListIndex(tag, base, k);
  }

  lemma {:induction false} PairsWithKeyList<T(!new)>(tag: nat -> T, base: nat, k: nat)
    requires k <= base / 2 && Injective(tag)
    ensures PairsWith(tag, base, k).Valid()
    ensures PairsWith(tag, base, k).keys == KeyList(tag, base, k)
  {
    if k > 0 {
      var d := PairsWith(tag, base, k - 1);
      PairsWithKeyList(tag, base, k - 1);
      FreshLabels(tag, base, k);
      PutPairFresh(d, tag(k - 1), tag(base - k), tag(base - k), tag(k - 1));
    }
  }

  /** Appending labels k-1 and base-k to the keys of round k-1 keeps key j at label KeyIndex(base, j). */
  lemma {:induction false} KeysAppend<T>(tag: nat -> T, base: nat, k: nat, before: seq<T>, after: seq<T>)
    requires 0 < k <= base / 2 && |before| == 2 * (k - 1)
    requires forall j :: 0 <= j < 2 * (k - 1) ==> before[j] == tag(KeyIndex(base, j))
    requires after == before + [tag(k - 1), tag(base - k)]
    ensures forall j :: 0 <= j < 2 * k ==> after[j] == tag(KeyIndex(base, j))
  {
    KeyIndexRound(base, k);
    forall j | 0 <= j < 2 * k
      ensures after[j] == tag(KeyIndex(base, j))
    {
      if j < 2 * k - 2 {
        assert after[j] == before[j];
      }
    }
  }

  /** Round k inserts label k-1 and then label base-k. */
  lemma {:induction false} KeyIndexRound(base: nat, k: nat)
    requires 0 < k <= base / 2
    ensures KeyIndex(base, 2 * k - 2) == k - 1 && KeyIndex(base, 2 * k - 1) == base - k
  {
  }

  /** After k rounds each key is paired with its mirror label. */
  lemma {:induction false} PairsWithValues<T(!new)>(tag: nat -> T, base: nat, k: nat)
    requires k <= base / 2 && Injective(tag)
    ensures forall j :: 0 <= j < 2 * k ==>
      tag(KeyIndex(base, j)) in PairsWith(tag, base, k).items &&
      PairsWith(tag, base, k).items[tag(KeyIndex(base, j))] == tag(PartnerIndex(base, j))
  {
    if k > 0 {
      var d := PairsWith(tag, base, k - 1);
      PairsWithValues(tag, base, k - 1);
      var e := PairsWith(tag, base, k).items;
      assert e == d.items[tag(k - 1) := tag(base - k)][tag(base - k) := tag(k - 1)];
      forall j | 0 <= j < 2 * k
        ensures tag(KeyIndex(base, j)) in e && e[tag(KeyIndex(base, j))] == tag(PartnerIndex(base, j))
      {
        if j < 2 * k - 2 {
          assert KeyIndex(base, j) != k - 1 && KeyIndex(base, j) != base - k;
        }
      }
    }
  }

  /** The two labels of round k are new to the dictionary and differ from each other. */
  lemma {:induction false} FreshLabels<T(!new)>(tag: nat -> T, base: nat, k: nat)
    requires 0 < k <= base / 2 && Injective(tag)
    requires PairsWith(tag, base, k - 1).Valid()
    requires PairsWith(tag, base, k - 1).keys == KeyList(tag, base, k - 1)
    ensures tag(k - 1) !in PairsWith(tag, base, k - 1).items
    ensures tag(base - k) !in PairsWith(tag, base, k - 1).items
    ensures tag(k - 1) != tag(base - k)
  {
    var keys := KeyList(tag, base, k - 1);
    KeyListIndex(tag, base, k - 1);
    forall j | 0 <= j < |keys|
      ensures keys[j] != tag(k - 1) && keys[j] != tag(base - k)
    {
      assert KeyIndex(base, j) != k - 1 && KeyIndex(base, j) != base - k;
    }
  }

  /** The j-th key of the pairing and its partner. */
  lemma {:induction false} PairAt(base: nat, j: nat)
    requires j < 2 * (base / 2)
    ensures BasePairs(base).Valid() && |BasePairs(base).keys| == 2 * (base / 2)
    ensures BasePairs(base).keys[j] == KeyAt(base, j)
    ensures BasePairs(base).items[KeyAt(base, j)] == PartnerAt(base, j)
  {
    LabelsInjective();
    PairsWithKeys(Label, base, base / 2);
    PairsWithValues(Label, base, base / 2);
  }

  /** The pairing is an involution: the partner of a label's partner is the label. */
  lemma {:induction false} PairingInvolution(base: nat, b: string)
    requires b in BasePairs(base).items
    ensures BasePairs(base).items[b] in BasePairs(base).items
    ensures BasePairs(base).items[BasePairs(base).items[b]] == b
  {
    LabelsInjective();
    PairingWithInvolution(Label, base, b);
  }

  lemma {:induction false} PairingWithInvolution<T(!new)>(tag: nat -> T, base: nat, b: T)
    requires Injective(tag) && b in PairsWith(tag, base, base / 2).items
    ensures PairsWith(tag, base, base / 2).items[b] in PairsWith(tag, base, base / 2).items
    ensures PairsWith(tag, base, base / 2).items[PairsWith(tag, base, base / 2).items[b]] == b
  {
    var d := PairsWith(tag, base, base / 2);
    PairsWithKeys(tag, base, base / 2);
    PairsWithValues(tag, base, base / 2);
    var j :| 0 <= j < |d.keys| && d.keys[j] == b;
    var j' := MirrorKey(base, j);
    assert d.items[b] == tag(KeyIndex(base, j'));
  }

  /** The partner of the j-th key is the key next to it, whose partner is the j-th key. */
  lemma {:induction false} MirrorKey(base: nat, j: nat) returns (j': nat)
    requires j < 2 * (base / 2)
    ensures j' < 2 * (base / 2)
    ensures KeyIndex(base, j') == PartnerIndex(base, j) && PartnerIndex(base, j') == KeyIndex(base, j)
  {
    j' := if j % 2 == 0 then j + 1 else j - 1;
  }

  /** No label is paired with itself. */
  lemma {:induction false} PairingNoFixedPoint(base: nat, b: string)
    requires b in BasePairs(base).items
    ensures BasePairs(base).items[b] != b
  {
    LabelsInjective();
    PairingWithNoFixedPoint(Label, base, b);
  }

  lemma {:induction false} PairingWithNoFixedPoint<T(!new)>(tag: nat -> T, base: nat, b: T)
    requires Injective(tag) && b in PairsWith(tag, base, base / 2).items
    ensures PairsWith(tag, base, base / 2).items[b] != b
  {
    var d := PairsWith(tag, base, base / 2);
    PairsWithKeys(tag, base, base / 2);
    PairsWithValues(tag, base, base / 2);
    var j :| 0 <= j < |d.keys| && d.keys[j] == b;
    assert KeyIndex(base, j) != PartnerIndex(base, j);
  }

  /** An even base pairs every one of its labels with its mirror label. */
  lemma {:induction false} EvenBasePairsAll(base: nat, i: nat)
    requires base % 2 == 0 && i < base
    ensures Label(i) in BasePairs(base).items
    ensures BasePairs(base).items[Label(i)] == Label(base - 1 - i)
  {
    EvenBasePosition(base, i);
    PairAt(base, LabelPosition(base, i));
  }

  /** On an even base, label i is key number 2i in the first half and 2(base-1-i)+1 after it. */
  lemma {:induction false} EvenBasePosition(base: nat, i: nat)
    requires base % 2 == 0 && i < base
    ensures LabelPosition(base, i) < 2 * (base / 2)
    ensures KeyIndex(base, LabelPosition(base, i)) == i
    ensures PartnerIndex(base, LabelPosition(base, i)) == base - 1 - i
  {
  }

  function LabelPosition(base: nat, i: nat): nat
    requires i < base
  {
    if i < base / 2 then 2 * i else 2 * (base - 1 - i) + 1
  }

  /** `_generate_base_pairs` */
  method GenerateBasePairs(base: nat) returns (pairs: Dict<string, string>)
    ensures pairs == BasePairs(base)
  {
    var bases: seq<string> := [];
    var i := 0;
    while i < base
      invariant 0 <= i <= base
      invariant |bases| == i && forall k :: 0 <= k < i ==> bases[k] == Label(k)
    {
      if i < 26 {
        bases := bases + [[('A' as int + i) as char]];
      } else {
        bases := bases + ["X" + NatToString(i - 25)];
      }
      i := i + 1;
    }
    pairs := Empty();
    i := 0;
    while i < base / 2
      invariant 0 <= i <= base / 2
      invariant pairs == PairsWith(Label, base, i)
    {
      pairs := pairs.Put(bases[i], bases[base - 1 - i]);
      pairs := pairs.Put(bases[base - 1 - i], bases[i]);
      i := i + 1;
    }
  }

  // ---------------------------------------------------------------- spiral positions

  /** Every position below n can look up its base: the key list has 2 * (base / 2)
      entries and is indexed with i % base (an odd base leaves out its middle label,
      base 0 cannot take a remainder). */
  predicate CanLabel(base: nat, n: nat) {
    n == 0 || (base > 0 && (base % 2 == 0 || n < base))
  }

  /** The key position of spiral entry i: `i % base`, always inside the key list. */
  function BaseIndex(base: nat, i: nat): (j: nat)
    requires CanLabel(base, i + 1)
    ensures j < 2 * (base / 2)
    ensures i < base ==> j == i
  {
    i % base
  }

  /** One spiral entry; the coordinates and the angle are not modelled. */
  datatype SpiralPoint =
    | Plain(index: nat, strand: nat, base: string, complement: string, basePairId: string)
    | Main(index: nat, strand: nat, base: string, complement: string, spiralDirection: int, basePairId: string)
    | ForkPoint(index: nat, processId: string, base: string, complement: string,
                forkParent: string, forkType: string, branchIndex: nat, spiralDirection: int)
  {
    /** `coord.get('is_main_spiral', False)` */
    predicate IsMainSpiral() {
      Main?
    }
  }

  /** Entry i of `generate_spiral_coordinates`. */
  function PlainPoint(base: nat, i: nat): SpiralPoint
    requires CanLabel(base, i + 1)
  {
    var j := BaseIndex(base, i);
    Plain(i, i % 2, KeyAt(base, j), PartnerAt(base, j), KeyAt(base, j) + "-" + PartnerAt(base, j))
  }

  /** Entry i of `generate_main_spiral_coordinates`. */
  function MainPoint(base: nat, direction: string, i: nat): SpiralPoint
    requires CanLabel(base, i + 1)
  {
    var j := BaseIndex(base, i);
    Main(i, i % 2, KeyAt(base, j), PartnerAt(base, j), if direction == "down" then 1 else -1,
         KeyAt(base, j) + "-" + PartnerAt(base, j))
  }

  /** Within the first round of labels, position 2k carries label k and position 2k+1
      carries its mirror label base-1-k; each entry's complement is its base's partner. */
  lemma {:induction false} PlainPointLabels(base: nat, i: nat)
    requires CanLabel(base, i + 1)
    ensures i < base && i % 2 == 0 ==> PlainPoint(base, i).base == Label(i / 2)
    ensures i < base && i % 2 == 1 ==> PlainPoint(base, i).base == Label(base - 1 - i / 2)
    ensures PlainPoint(base, i).base in BasePairs(base).items
    ensures BasePairs(base).items[PlainPoint(base, i).base] == PlainPoint(base, i).complement
    ensures PlainPoint(base, i).strand == i % 2
  {
    PairAt(base, BaseIndex(base, i));
  }

  // ---------------------------------------------------------------- process ids

  /** A process id as `get_process_location` receives it. */
  datatype ProcessId = Named(name: string) | Numbered(number: int)

  /** `int(re.search(r'(\d+)', id).group(1)) - 1`, 0 without digits; a number is used as is. */
  function ProcessIndex(id: ProcessId): int {
    match id
    case Named(s) =>
      (match FirstDigitRun(s)
       case Some(digits) => ParseDecimal(digits) - 1
       case None => 0)
    case Numbered(n) => n
  }

  datatype Location = Found(point: SpiralPoint) | NoLocation | LocationIndexError

  /** The result of `get_process_location`: indices from `total` up give None; negative
      indices count from the end as Python list indexing does, and fail below -total. */
  function LocationOf(base: nat, id: ProcessId, total: nat): Location
    requires CanLabel(base, total)
  {
    var index := ProcessIndex(id);
    if index >= total then NoLocation
    else if index >= 0 then Found(PlainPoint(base, index))
    else if index + total >= 0 then Found(PlainPoint(base, total + index))
    else LocationIndexError
  }

  /** An id made of a letter prefix and the number n (1 <= n <= total) is the n-th
      spiral entry. */
  lemma {:induction false} NamedLocation(base: nat, prefix: string, n: nat, total: nat)
    requires CanLabel(base, total) && 1 <= n <= total
    requires forall i :: 0 <= i < |prefix| ==> !IsDigit(prefix[i])
    ensures LocationOf(base, Named(prefix + NatToString(n)), total) == Found(PlainPoint(base, n - 1))
  {
    FirstDigitRunAfterLetters(prefix, n);
    ParseNatToString(n);
  }

  /** A dotted address such as "A1.2" is indexed by its first number: n - 1, as "A1" is. */
  lemma {:induction false} DottedIndex(prefix: string, n: nat, rest: string)
    requires forall i :: 0 <= i < |prefix| ==> !IsDigit(prefix[i])
    requires rest == [] || !IsDigit(rest[0])
    ensures ProcessIndex(Named(prefix + NatToString(n) + rest)) == n - 1
  {
    FirstDigitRunBeforeSuffix(prefix, n, rest);
    ParseNatToString(n);
  }

  /** An id numbered 0 (such as "A0") gives index -1, which wraps to the last entry. */
  lemma {:induction false} ZeroIdWraps(base: nat, prefix: string, total: nat)
    requires CanLabel(base, total) && total > 0
    requires forall i :: 0 <= i < |prefix| ==> !IsDigit(prefix[i])
    ensures LocationOf(base, Named(prefix + "0"), total) == Found(PlainPoint(base, total - 1))
  {
    assert NatToString(0) == "0";
    FirstDigitRunAfterLetters(prefix, 0);
    ParseNatToString(0);
  }

  /** An id without digits is the first entry, or None on an empty spiral. */
  lemma {:induction false} NoDigitsLocation(base: nat, name: string, total: nat)
    requires CanLabel(base, total)
    requires forall i :: 0 <= i < |name| ==> !IsDigit(name[i])
    ensures LocationOf(base, Named(name), total) == if total == 0 then NoLocation else Found(PlainPoint(base, 0))
  {
  }

  // ---------------------------------------------------------------- forks

  /** An entry of a fork branch; only its optional id is read. */
  datatype BranchProcess = BranchProcess(id: Option<string>)

  /** An entry of the code structure. */
  datatype CodeProcess = CodeProcess(
    id: string,
    kind: Option<string>,
    branches: Option<seq<seq<BranchProcess>>>,
    mergePoint: Option<string>,
    isMain: Option<bool>)

  datatype Fork = Fork(processId: string, forkType: string, branches: seq<seq<BranchProcess>>, mergePoint: Option<string>)

  /** The statement kinds that open a fork. */
  predicate IsForkKind(kind: string) {
    kind in {"if", "while", "for", "function_call", "try"}
  }

  predicate IsFork(p: CodeProcess) {
    p.kind.Some? && IsForkKind(p.kind.value)
  }

  /** The fork record of a process; branches default to none, the merge point to None. */
  function ForkOf(p: CodeProcess): Fork {
    Fork(p.id, p.kind.GetOr(""), p.branches.GetOr([]), p.mergePoint)
  }

  /** `detect_code_forks` */
  function DetectCodeForks(structure: seq<CodeProcess>): seq<Fork> {
    if structure == [] then []
    else (if IsFork(structure[0]) then [ForkOf(structure[0])] else []) + DetectCodeForks(structure[1..])
  }

  /** Every fork comes from a process of a fork kind, and every such process yields one. */
  lemma {:induction false} DetectCodeForksMembers(structure: seq<CodeProcess>)
    ensures |DetectCodeForks(structure)| <= |structure|
    ensures forall f :: f in DetectCodeForks(structure) ==> IsForkKind(f.forkType)
    ensures forall f :: f in DetectCodeForks(structure) ==> exists p :: p in structure && IsFork(p) && f == ForkOf(p)
    ensures forall i :: 0 <= i < |structure| && IsFork(structure[i]) ==> ForkOf(structure[i]) in DetectCodeForks(structure)
  {
    if structure != [] {
      DetectCodeForksMembers(structure[1..]);
      forall i | 0 <= i < |structure| && IsFork(structure[i])
        ensures ForkOf(structure[i]) in DetectCodeForks(structure)
      {
        if i > 0 {
          assert structure[i] == structure[1..][i - 1];
        }
      }
    }
  }

  /** The forks come in the order of their processes: `detect_code_forks` is the fork
      record of each fork process, in turn. */
  lemma {:induction false} DetectCodeForksInOrder(structure: seq<CodeProcess>)
    ensures DetectCodeForks(structure) == Map(Filter(structure, IsFork), ForkOf)
  {
    if structure != [] {
      DetectCodeForksInOrder(structure[1..]);
      var head := if IsFork(structure[0]) then [structure[0]] else [];
      MapConcat(head, Filter(structure[1..], IsFork), ForkOf);
    }
  }

  /** The processes of a branch, or none when the branch index is out of range. */
  function BranchOf(fork: Fork, branchIndex: nat): seq<BranchProcess> {
    if branchIndex < |fork.branches| then fork.branches[branchIndex] else []
  }

  /** Entry i of a fork spiral of n entries: it turns right (1) over the first half of
      the branch and left (-1) after it; an entry without id is named fork_<parent>_<i>. */
  function ForkPointAt(base: nat, fork: Fork, branchIndex: nat, i: nat): SpiralPoint
    requires CanLabel(base, |BranchOf(fork, branchIndex)|) && i < |BranchOf(fork, branchIndex)|
  {
    var n := |BranchOf(fork, branchIndex)|;
    var j := BaseIndex(base, i);
    ForkPoint(i, BranchOf(fork, branchIndex)[i].id.GetOr("fork_" + fork.processId + "_" + NatToString(i)),
              KeyAt(base, j), PartnerAt(base, j), fork.processId, fork.forkType, branchIndex,
              if 2 * i < n then 1 else -1)
  }

  /** The fork spiral of one branch. */
  function ForkSpiral(base: nat, fork: Fork, branchIndex: nat): (r: seq<SpiralPoint>)
    requires CanLabel(base, |BranchOf(fork, branchIndex)|)
    ensures |r| == |BranchOf(fork, branchIndex)|
  {
    seq(|BranchOf(fork, branchIndex)|, i requires 0 <= i < |BranchOf(fork, branchIndex)| =>
      ForkPointAt(base, fork, branchIndex, i))
  }

  /** A fork spiral turns right over the first half of its branch and left over the rest,
      and names every entry's parent, kind and branch. */
  lemma {:induction false} ForkSpiralShape(base: nat, fork: Fork, branchIndex: nat, i: nat)
    requires CanLabel(base, |BranchOf(fork, branchIndex)|) && i < |BranchOf(fork, branchIndex)|
    ensures ForkSpiral(base, fork, branchIndex)[i].spiralDirection == 1 <==> i < |BranchOf(fork, branchIndex)| - i
    ensures ForkSpiral(base, fork, branchIndex)[i].spiralDirection == -1 <==> i >= |BranchOf(fork, branchIndex)| - i
    ensures ForkSpiral(base, fork, branchIndex)[i].forkParent == fork.processId
    ensures ForkSpiral(base, fork, branchIndex)[i].forkType == fork.forkType
    ensures ForkSpiral(base, fork, branchIndex)[i].branchIndex == branchIndex
    ensures !ForkSpiral(base, fork, branchIndex)[i].IsMainSpiral()
  {
  }

  /** The fork spirals of branches 0 .. k-1 of a fork, in order. */
  function BranchSpirals(base: nat, fork: Fork, k: nat): seq<SpiralPoint>
    requires k <= |fork.branches|
    requires forall b :: 0 <= b < |fork.branches| ==> CanLabel(base, |fork.branches[b]|)
  {
    if k == 0 then [] else BranchSpirals(base, fork, k - 1) + ForkSpiral(base, fork, k - 1)
  }

  /** Every branch of every fork whose parent is on the main spiral can be labelled. */
  predicate ForksLabelled(base: nat, mainIds: set<string>, forks: seq<Fork>) {
    forall f, b :: 0 <= f < |forks| && forks[f].processId in mainIds && 0 <= b < |forks[f].branches| ==>
      CanLabel(base, |forks[f].branches[b]|)
  }

  /** The fork entries `generate_complete_spiral_system` adds: every branch of every fork
      whose process is on the main spiral, fork by fork. */
  function ForkPoints(base: nat, mainIds: set<string>, forks: seq<Fork>): seq<SpiralPoint>
    requires ForksLabelled(base, mainIds, forks)
  {
    if forks == [] then []
    else
      var f := forks[|forks| - 1];
      ForkPoints(base, mainIds, forks[..|forks| - 1])
        + (if f.processId in mainIds then BranchSpirals(base, f, |f.branches|) else [])
  }

  /** Fork entries belong to a fork of a main process and are never main entries. */
  lemma {:induction false} ForkPointsParents(base: nat, mainIds: set<string>, forks: seq<Fork>)
    requires ForksLabelled(base, mainIds, forks)
    ensures forall q :: q in ForkPoints(base, mainIds, forks) ==> q.ForkPoint? && q.forkParent in mainIds
  {
    if forks != [] {
      var f := forks[|forks| - 1];
      ForkPointsParents(base, mainIds, forks[..|forks| - 1]);
      if f.processId in mainIds {
        BranchSpiralsParent(base, f, |f.branches|);
      }
    }
  }

  lemma {:induction false} BranchSpiralsParent(base: nat, fork: Fork, k: nat)
    requires k <= |fork.branches|
    requires forall b :: 0 <= b < |fork.branches| ==> CanLabel(base, |fork.branches[b]|)
    ensures forall q :: q in BranchSpirals(base, fork, k) ==> q.ForkPoint? && q.forkParent == fork.processId
  {
    if k > 0 {
      BranchSpiralsParent(base, fork, k - 1);
    }
  }

  /** The number of fork entries is the total length of the branches they come from. */
  lemma {:induction false} BranchSpiralsLength(base: nat, fork: Fork, k: nat)
    requires k <= |fork.branches|
    requires forall b :: 0 <= b < |fork.branches| ==> CanLabel(base, |fork.branches[b]|)
    ensures |BranchSpirals(base, fork, k)| == TotalLength(fork.branches[..k])
  {
    if k > 0 {
      BranchSpiralsLength(base, fork, k - 1);
      assert fork.branches[..k] == fork.branches[..k - 1] + [fork.branches[k - 1]];
      TotalLengthConcat(fork.branches[..k - 1], [fork.branches[k - 1]]);
    }
  }

  /** `[p for p in code_structure if p.get('is_main', True)]` */
  predicate IsMain(p: CodeProcess) {
    p.isMain.GetOr(true)
  }

  function MainIds(mains: seq<CodeProcess>): set<string> {
    set p | p in mains :: p.id
  }

  /** The result of `generate_complete_spiral_system`. */
  datatype SpiralSystem = SpiralSystem(
    mainSpiral: seq<SpiralPoint>,
    forkSpirals: seq<SpiralPoint>,
    allCoordinates: seq<SpiralPoint>,
    forkInfo: seq<Fork>)

  predicate NotMainSpiral(p: SpiralPoint) {
    !p.IsMainSpiral()
  }

  // ---------------------------------------------------------------- the generator

  /** The generator's fixed configuration: the base and the pairing built from it. The
      float parameters (radius, pitch, fork offset) only shape coordinates. */
  class DNASpiralGenerator {
    const base: nat
    const basePairs: Dict<string, string>

    ghost predicate Valid() {
      basePairs == BasePairs(base)
    }

    constructor (base: nat)
      ensures this.base == base && Valid()
    {
      var pairs := GenerateBasePairs(base);
      this.base := base;
      basePairs := pairs;
    }

    /** `generate_spiral_coordinates` */
    method GenerateSpiralCoordinates(processCount: nat) returns (coordinates: seq<SpiralPoint>)
      requires Valid() && CanLabel(base, processCount)
      ensures |coordinates| == processCount
      ensures forall i :: 0 <= i < processCount ==> coordinates[i] == PlainPoint(base, i)
    {
      coordinates := [];
      var i := 0;
      while i < processCount
        invariant 0 <= i <= processCount
        invariant |coordinates| == i && forall k :: 0 <= k < i ==> coordinates[k] == PlainPoint(base, k)
      {
        var point := PlainEntry(i);
        coordinates := coordinates + [point];
        i := i + 1;
      }
    }

    /** One iteration of `generate_spiral_coordinates`: entry i of the plain spiral. */
    method PlainEntry(i: nat) returns (point: SpiralPoint)
      requires Valid() && CanLabel(base, i + 1)
      ensures point == PlainPoint(base, i)
    {
      var baseIndex := BaseIndex(base, i);
      PairAt(base, baseIndex);
      var b := basePairs.keys[baseIndex];
      var complement := basePairs.items[b];
      point := Plain(i, i % 2, b, complement, b + "-" + complement);
    }

    /** `get_process_location` */
    method GetProcessLocation(id: ProcessId, totalProcesses: nat) returns (location: Location)
      requires Valid() && CanLabel(base, totalProcesses)
      ensures location == LocationOf(base, id, totalProcesses)
    {
      var spiral := GenerateSpiralCoordinates(totalProcesses);
      var index := ProcessIndex(id);
      if index < |spiral| {
        if index >= 0 {
          location := Found(spiral[index]);
        } else if index >= -|spiral| {
          location := Found(spiral[|spiral| + index]);
        } else {
          location := LocationIndexError;
        }
      } else {
        location := NoLocation;
      }
    }

    /** `generate_fork_spiral_coordinates`; the parent must be on the main spiral. */
    method GenerateForkSpiralCoordinates(mainCoords: map<string, SpiralPoint>, fork: Fork, branchIndex: nat)
      returns (forkCoordinates: seq<SpiralPoint>)
      requires Valid() && fork.processId in mainCoords
      requires CanLabel(base, |BranchOf(fork, branchIndex)|)
      ensures forkCoordinates == ForkSpiral(base, fork, branchIndex)
    {
      var branch := if branchIndex < |fork.branches| then fork.branches[branchIndex] else [];
      assert branch == BranchOf(fork, branchIndex);
      forkCoordinates := [];
      var i := 0;
      while i < |branch|
        invariant 0 <= i <= |branch|
        invariant |forkCoordinates| == i
        invariant forall k :: 0 <= k < i ==> forkCoordinates[k] == ForkPointAt(base, fork, branchIndex, k)
      {
        var point := ForkEntry(fork, branchIndex, branch, i);
        forkCoordinates := forkCoordinates + [point];
        i := i + 1;
      }
    }

    /** One iteration of `generate_fork_spiral_coordinates`: entry i of the branch. */
    method ForkEntry(fork: Fork, branchIndex: nat, branch: seq<BranchProcess>, i: nat) returns (point: SpiralPoint)
      requires Valid() && branch == BranchOf(fork, branchIndex) && i < |branch|
      requires CanLabel(base, |branch|)
      ensures point == ForkPointAt(base, fork, branchIndex, i)
    {
      var direction := if 2 * i < |branch| then 1 else -1;
      var baseIndex := BaseIndex(base, i);
      PairAt(base, baseIndex);
      var b := basePairs.keys[baseIndex];
      var processId := branch[i].id.GetOr("fork_" + fork.processId + "_" + NatToString(i));
      point := ForkPoint(i, processId, b, basePairs.items[b], fork.processId, fork.forkType, branchIndex, direction);
    }

    /** `generate_main_spiral_coordinates`: right-handed (1) going 'down', left-handed
        (-1) for any other direction. */
    method GenerateMainSpiralCoordinates(processCount: nat, direction: string) returns (coordinates: seq<SpiralPoint>)
      requires Valid() && CanLabel(base, processCount)
      ensures |coordinates| == processCount
      ensures forall i :: 0 <= i < processCount ==> coordinates[i] == MainPoint(base, direction, i)
    {
      coordinates := [];
      var i := 0;
      while i < processCount
        invariant 0 <= i <= processCount
        invariant |coordinates| == i && forall k :: 0 <= k < i ==> coordinates[k] == MainPoint(base, direction, k)
      {
        var point := MainEntry(direction, i);
        coordinates := coordinates + [point];
        i := i + 1;
      }
    }

    /** One iteration of `generate_main_spiral_coordinates`: entry i of the main spiral. */
    method MainEntry(direction: string, i: nat) returns (point: SpiralPoint)
      requires Valid() && CanLabel(base, i + 1)
      ensures point == MainPoint(base, direction, i)
    {
      var multiplier := if direction == "down" then 1 else -1;
      var baseIndex := BaseIndex(base, i);
      PairAt(base, baseIndex);
      var b := basePairs.keys[baseIndex];
      var complement := basePairs.items[b];
      point := Main(i, i % 2, b, complement, multiplier, b + "-" + complement);
    }

    /** `generate_complete_spiral_system`: the main spiral over the main processes,
        followed by the branch spirals of every fork whose process is on it. */
    method GenerateCompleteSpiralSystem(structure: seq<CodeProcess>) returns (system: SpiralSystem)
      requires Valid()
      requires CanLabel(base, |Filter(structure, IsMain)|)
      requires ForksLabelled(base, MainIds(Filter(structure, IsMain)), DetectCodeForks(structure))
      ensures |system.mainSpiral| == |Filter(structure, IsMain)|
      ensures forall i :: 0 <= i < |system.mainSpiral| ==> system.mainSpiral[i] == MainPoint(base, "down", i)
      ensures system.forkInfo == DetectCodeForks(structure)
      ensures system.allCoordinates
           == system.mainSpiral + ForkPoints(base, MainIds(Filter(structure, IsMain)), DetectCodeForks(structure))
      ensures system.forkSpirals == ForkPoints(base, MainIds(Filter(structure, IsMain)), DetectCodeForks(structure))
    {
      var mains := Filter(structure, IsMain);
      var mainCoords := GenerateMainSpiralCoordinates(|mains|, "down");
      var lookup := MainLookup(mains, mainCoords);
      var forks := DetectCodeForks(structure);
      var all := AppendForkSpirals(mainCoords, lookup, forks);
      ForkSpiralsAreForkPoints(base, mainCoords, lookup.Keys, forks);
      system := SpiralSystem(mainCoords, Filter(all, NotMainSpiral), all, forks);
    }

    /** The fork loop of `generate_complete_spiral_system`: every branch of every fork
        whose process is in the lookup, appended fork by fork. */
    method AppendForkSpirals(mainCoords: seq<SpiralPoint>, lookup: map<string, SpiralPoint>, forks: seq<Fork>)
      returns (all: seq<SpiralPoint>)
      requires Valid() && ForksLabelled(base, lookup.Keys, forks)
      ensures all == mainCoords + ForkPoints(base, lookup.Keys, forks)
    {
      all := mainCoords;
      var f := 0;
      while f < |forks|
        invariant 0 <= f <= |forks|
        invariant all == mainCoords + ForkPoints(base, lookup.Keys, forks[..f])
      {
        var fork := forks[f];
        ForkPointsStep(base, lookup.Keys, forks, f);
        if fork.processId in lookup {
          all := AppendBranchSpirals(all, lookup, fork);
        }
        f := f + 1;
      }
      assert forks[..f] == forks;
    }

    /** The branch loop of `generate_complete_spiral_system` for one fork. */
    method AppendBranchSpirals(all: seq<SpiralPoint>, lookup: map<string, SpiralPoint>, fork: Fork)
      returns (extended: seq<SpiralPoint>)
      requires Valid() && fork.processId in lookup
      requires forall b :: 0 <= b < |fork.branches| ==> CanLabel(base, |fork.branches[b]|)
      ensures extended == all + BranchSpirals(base, fork, |fork.branches|)
    {
      extended := all;
      var b := 0;
      while b < |fork.branches|
        invariant 0 <= b <= |fork.branches|
        invariant extended == all + BranchSpirals(base, fork, b)
      {
        extended := AppendBranch(lookup, fork, b, all, extended);
        b := b + 1;
      }
    }

    /** One iteration of the branch loop: branch b's fork spiral is appended. */
    method AppendBranch(lookup: map<string, SpiralPoint>, fork: Fork, b: nat, ghost all: seq<SpiralPoint>,
                        extended: seq<SpiralPoint>) returns (extended': seq<SpiralPoint>)
      requires Valid() && fork.processId in lookup && b < |fork.branches|
      requires forall b :: 0 <= b < |fork.branches| ==> CanLabel(base, |fork.branches[b]|)
      requires extended == all + BranchSpirals(base, fork, b)
      ensures extended' == all + BranchSpirals(base, fork, b + 1)
    {
      assert BranchOf(fork, b) == fork.branches[b];
      var forkCoords := GenerateForkSpiralCoordinates(lookup, fork, b);
      extended' := extended + forkCoords;
    }
  }

  /** The id-to-entry lookup of `generate_complete_spiral_system`: main process i is
      placed at main spiral entry i, a later process overriding an earlier one's id. */
  method MainLookup(mains: seq<CodeProcess>, mainCoords: seq<SpiralPoint>) returns (lookup: map<string, SpiralPoint>)
    requires |mainCoords| == |mains|
    ensures lookup.Keys == MainIds(mains)
    ensures forall x :: x in lookup ==>
      exists k :: 0 <= k < |mains| && mains[k].id == x && lookup[x] == mainCoords[k] &&
                  forall k' :: k < k' < |mains| ==> mains[k'].id != x
  {
    lookup := map[];
    var i := 0;
    while i < |mains|
      invariant 0 <= i <= |mains|
      invariant lookup.Keys == set k | 0 <= k < i :: mains[k].id
      invariant forall x :: x in lookup ==>
        exists k :: 0 <= k < i && mains[k].id == x && lookup[x] == mainCoords[k] &&
                    forall k' :: k < k' < i ==> mains[k'].id != x
    {
      lookup := lookup[mains[i].id := mainCoords[i]];
      i := i + 1;
    }
    MainIdsListed(mains);
  }

  /** The ids gathered by enumerating the main processes. */
  lemma {:induction false} MainIdsListed(mains: seq<CodeProcess>)
    ensures MainIds(mains) == set k | 0 <= k < |mains| :: mains[k].id
  {
    forall x | x in MainIds(mains)
      ensures x in set k | 0 <= k < |mains| :: mains[k].id
    {
      var p :| p in mains && p.id == x;
      var k :| 0 <= k < |mains| && mains[k] == p;
    }
  }

  /** Handling fork f appends its branch spirals when its process is on the main spiral. */
  lemma {:induction false} ForkPointsStep(base: nat, mainIds: set<string>, forks: seq<Fork>, f: nat)
    requires f < |forks| && ForksLabelled(base, mainIds, forks)
    ensures ForksLabelled(base, mainIds, forks[..f]) && ForksLabelled(base, mainIds, forks[..f + 1])
    ensures ForkPoints(base, mainIds, forks[..f + 1])
         == ForkPoints(base, mainIds, forks[..f])
          + (if forks[f].processId in mainIds then BranchSpirals(base, forks[f], |forks[f].branches|) else [])
  {
    assert forks[..f + 1][..f] == forks[..f];
  }

  /** The fork spirals of a system are exactly its fork entries: all coordinates after the
      main spiral, each belonging to a fork of a main process. */
  lemma {:induction false} ForkSpiralsAreForkPoints(base: nat, mainSpiral: seq<SpiralPoint>, mainIds: set<string>, forks: seq<Fork>)
    requires forall i :: 0 <= i < |mainSpiral| ==> mainSpiral[i].IsMainSpiral()
    requires ForksLabelled(base, mainIds, forks)
    ensures Filter(mainSpiral + ForkPoints(base, mainIds, forks), NotMainSpiral) == ForkPoints(base, mainIds, forks)
    ensures forall q :: q in Filter(mainSpiral + ForkPoints(base, mainIds, forks), NotMainSpiral) ==> q.ForkPoint? && q.forkParent in mainIds
  {
    var points := ForkPoints(base, mainIds, forks);
    FilterConcat(mainSpiral, points, NotMainSpiral);
    FilterNone(mainSpiral, NotMainSpiral);
    ForkPointsParents(base, mainIds, forks);
    FilterAll(points, NotMainSpiral);
  }
}
