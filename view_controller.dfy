/** ViewController: which of the two views is shown, the history of switches, the
    selected nodes and the category filter, with focusing, filtering and a saved state
    that can be restored. */
module ViewControl {
  import opened Wrappers
  import opened Seqs
  import opened DualView

  const Spiral3D: string := "3d_spiral"
  const BirdsEye2D: string := "2d_birds_eye"

  /** The views `switch_view` accepts. */
  predicate IsView(v: string) {
    v == Spiral3D || v == BirdsEye2D
  }

  /** `filter_settings`. */
  datatype FilterSettings = FilterSettings(categories: set<string>, showConnections: bool, showLabels: bool)

  const DefaultFilters: FilterSettings := FilterSettings({}, true, true)

  /** `_get_transition_data(target_view)`. */
  datatype TransitionData = TransitionData(
    targetView: string, animationDuration: nat, easing: string,
    preserveSelection: bool, preserveFilters: bool)

  function TransitionFor(target: string): TransitionData {
    TransitionData(target, 1000, "ease-in-out", true, true)
  }

  /** The result of `switch_view`: `False` for an unknown view, else the report. */
  datatype SwitchResult = Rejected | Switched(previousView: string, currentView: string, transition: TransitionData)

  /** The result of `focus_on_node`: a camera for the 3D view, a centre for the 2D view. */
  datatype Focus =
    | Camera(cameraTarget: seq<real>, cameraDistance: nat, highlightNode: string)
    | Center(center: seq<real>, zoomLevel: real, highlightNode: string)

  function Id3D(n: Node3D): string { n.id }

  function Category3D(n: Node3D): string { n.category }

  function Category2D(n: Node2D): string { n.category }

  function WithId3D(id: string): Node3D -> bool {
    (n: Node3D) => n.id == id
  }

  /** `focus_on_node`: the first node of the current view's list with the id, or `None`. */
  function FocusOn(currentView: string, views: SynchronizedViews, id: string): (r: Option<Focus>)
    ensures currentView == Spiral3D ==>
      (r.None? <==> forall n :: n in views.spiral3d.nodes ==> n.id != id)
    ensures currentView != Spiral3D ==>
      (r.None? <==> forall n :: n in views.birdsEye2d.nodes ==> n.id != id)
    ensures r.Some? ==> r.value.highlightNode == id
    ensures r.Some? && currentView == Spiral3D ==>
      r.value.Camera? && r.value.cameraDistance == 20 &&
      exists i :: 0 <= i < |views.spiral3d.nodes| && views.spiral3d.nodes[i].id == id &&
        r.value.cameraTarget == views.spiral3d.nodes[i].position &&
        forall j :: 0 <= j < i ==> views.spiral3d.nodes[j].id != id
    ensures r.Some? && currentView != Spiral3D ==>
      r.value.Center? && r.value.zoomLevel == 2.0 &&
      exists i :: 0 <= i < |views.birdsEye2d.nodes| && views.birdsEye2d.nodes[i].id == id &&
        r.value.center == views.birdsEye2d.nodes[i].position2d &&
        forall j :: 0 <= j < i ==> views.birdsEye2d.nodes[j].id != id
  {
    if currentView == Spiral3D then
      var nodes := views.spiral3d.nodes;
      match FirstIndex(nodes, WithId3D(id))
      case None => None
      case Some(i) => Some(Camera(nodes[i].position, 20, id))
    else
      var nodes := views.birdsEye2d.nodes;
      match FirstIndex(nodes, WithId2D(id))
      case None => None
      case Some(i) => Some(Center(nodes[i].position2d, 2.0, id))
  }

  /** The result of `filter_by_category`. */
  datatype Visibility = Visibility(visibleNodes: seq<string>, hiddenNodes: seq<string>)

  /** `n['category'] in categories or not categories` */
  function Shown<T>(categories: seq<string>, categoryOf: T -> string): T -> bool {
    (n: T) => categoryOf(n) in categories || categories == []
  }

  /** The negation of `Shown`. */
  function Hidden<T>(categories: seq<string>, categoryOf: T -> string): T -> bool {
    (n: T) => !(categoryOf(n) in categories || categories == [])
  }

  /** `n not in filtered_nodes` */
  function NotAmong<T(==)>(filtered: seq<T>): T -> bool {
    (n: T) => n !in filtered
  }

  /** The two lists of `filter_by_category` over one view's nodes. */
  function VisibilityOf<T(==)>(nodes: seq<T>, categories: seq<string>, categoryOf: T -> string, idOf: T -> string): Visibility {
    var filtered := Filter(nodes, Shown(categories, categoryOf));
    Visibility(Map(filtered, idOf), Map(Filter(nodes, NotAmong(filtered)), idOf))
  }

  /** The visible ids are those of the nodes of a listed category, in order, and the
      hidden ids those of the other nodes, in order: together the nodes are split between
      the two. With no category listed, every node is visible and none hidden. */
  lemma {:induction false} VisibilityPartition<T>(nodes: seq<T>, categories: seq<string>,
                                                categoryOf: T -> string, idOf: T -> string)
    ensures VisibilityOf(nodes, categories, categoryOf, idOf).visibleNodes
         == Map(Filter(nodes, Shown(categories, categoryOf)), idOf)
    ensures VisibilityOf(nodes, categories, categoryOf, idOf).hiddenNodes
         == Map(Filter(nodes, Hidden(categories, categoryOf)), idOf)
    ensures multiset(Filter(nodes, Shown(categories, categoryOf))) + multiset(Filter(nodes, Hidden(categories, categoryOf)))
         == multiset(nodes)
    ensures categories == [] ==>
      VisibilityOf(nodes, categories, categoryOf, idOf) == Visibility(Map(nodes, idOf), [])
  {
    var shown := Shown(categories, categoryOf);
    var hidden := Hidden(categories, categoryOf);
    var filtered := Filter(nodes, shown);
    FilterMembers(nodes, shown);
    forall x | x in nodes
      ensures NotAmong(filtered)(x) == hidden(x)
    {
      var i :| 0 <= i < |nodes| && nodes[i] == x;
    }
    FilterCongruent(nodes, NotAmong(filtered), hidden);
    FilterSplit(nodes, shown, hidden);
    if categories == [] {
      FilterAll(nodes, shown);
      FilterNone(nodes, hidden);
    }
  }

  /** The node lists of `filter_by_category` in the given view. */
  function VisibilityIn(currentView: string, views: SynchronizedViews, categories: seq<string>): Visibility {
    if currentView == Spiral3D then VisibilityOf(views.spiral3d.nodes, categories, Category3D, Id3D)
    else VisibilityOf(views.birdsEye2d.nodes, categories, Category2D, IdOf2D)
  }

  /** The controller's state as one value. */
  datatype ViewState = ViewState(
    currentView: string, viewHistory: seq<string>, selectedNodes: set<string>, filterSettings: FilterSettings)

  const InitialState: ViewState := ViewState(Spiral3D, [], {}, DefaultFilters)

  /** The dictionary of `get_view_state` and `restore_view_state`; any key may be missing. */
  datatype SavedState = SavedState(
    currentView: Option<string>, viewHistory: Option<seq<string>>,
    selectedNodes: Option<seq<string>>, filterSettings: Option<FilterSettings>)

  /** `set(xs)` */
  function Elements(xs: seq<string>): set<string> {
    set x | x in xs
  }

  /** The state `restore_view_state` installs: each present key, else the initial value. */
  function Restored(saved: SavedState): ViewState {
    ViewState(
      saved.currentView.GetOr(Spiral3D),
      saved.viewHistory.GetOr([]),
      Elements(saved.selectedNodes.GetOr([])),
      saved.filterSettings.GetOr(DefaultFilters))
  }

  /** Restoring a dictionary with no keys gives the state of a new controller. */
  lemma {:induction false} RestoreDefaults()
    ensures Restored(SavedState(None, None, None, None)) == InitialState
  {
    assert Elements([]) == {};
  }

  /** Restoring what was saved gives back the saved state, whatever order the selection
      was listed in. */
  lemma {:induction false} RestoreSaved(v: ViewState, listed: seq<string>)
    requires forall x :: x in listed <==> x in v.selectedNodes
    ensures Restored(SavedState(Some(v.currentView), Some(v.viewHistory), Some(listed), Some(v.filterSettings))) == v
  {
    assert Elements(listed) == v.selectedNodes;
  }

  /** `list(s)`: every element once, in an order the model leaves open. */
  method ListOf(s: set<string>) returns (xs: seq<string>)
    ensures Distinct(xs)
    ensures forall x :: x in xs <==> x in s
  {
    xs := [];
    var rest := s;
    while rest != {}
      invariant rest !! (set x | x in xs)
      invariant forall x :: x in s <==> x in rest || x in xs
      invariant Distinct(xs)
      decreases |rest|
    {
      var x :| x in rest;
      xs := xs + [x];
      rest := rest - {x};
    }
  }

  class ViewController {
    var currentView: string
    var viewHistory: seq<string>
    var selectedNodes: set<string>
    var filterSettings: FilterSettings

    function State(): ViewState
      reads this
    {
      ViewState(currentView, viewHistory, selectedNodes, filterSettings)
    }

    constructor()
      ensures State() == InitialState
    {
      currentView := Spiral3D;
      viewHistory := [];
      selectedNodes := {};
      filterSettings := DefaultFilters;
    }

    /** `switch_view`: an unknown view is refused and nothing changes; otherwise the
        old view is pushed on the history, even when it is the target itself. */
    method SwitchView(target: string) returns (r: SwitchResult)
      modifies this
      ensures !IsView(target) ==> r == Rejected && State() == old(State())
      ensures IsView(target) ==>
        r == Switched(old(currentView), target, TransitionFor(target)) &&
        State() == old(State()).(currentView := target, viewHistory := old(viewHistory) + [old(currentView)])
    {
      if !IsView(target) {
        return Rejected;
      }
      viewHistory := viewHistory + [currentView];
      currentView := target;
      r := Switched(viewHistory[|viewHistory| - 1], currentView, TransitionFor(target));
    }

    /** `focus_on_node`: a lookup that changes nothing. */
    method FocusOnNode(id: string, views: SynchronizedViews) returns (r: Option<Focus>)
      ensures r == FocusOn(currentView, views, id)
    {
      r := FocusOn(currentView, views, id);
    }

    /** `filter_by_category`: remembers the categories as a set and reports which nodes
        of the current view are visible and which hidden. */
    method FilterByCategory(categories: seq<string>, views: SynchronizedViews) returns (r: Visibility)
      modifies this
      ensures State() == old(State()).(filterSettings := old(filterSettings).(categories := Elements(categories)))
      ensures r == VisibilityIn(currentView, views, categories)
    {
      filterSettings := filterSettings.(categories := Elements(categories));
      r := VisibilityIn(currentView, views, categories);
    }

    /** `select_nodes`: adds the ids to the selection and lists the whole selection.
        Selecting ids that are all selected already changes nothing. */
    method SelectNodes(ids: seq<string>) returns (count: nat, listed: seq<string>)
      modifies this
      ensures State() == old(State()).(selectedNodes := old(selectedNodes) + Elements(ids))
      ensures Elements(ids) <= old(selectedNodes) ==> State() == old(State())
      ensures count == |selectedNodes|
      ensures Distinct(listed) && forall x :: x in listed <==> x in selectedNodes
    {
      selectedNodes := selectedNodes + Elements(ids);
      count := |selectedNodes|;
      listed := ListOf(selectedNodes);
    }

    /** `clear_selection` */
    method ClearSelection() returns (count: nat)
      modifies this
      ensures State() == old(State()).(selectedNodes := {})
      ensures count == 0
    {
      selectedNodes := {};
      count := 0;
    }

    /** `get_view_state`: every key present; restoring the result gives back this state. */
    method GetViewState() returns (saved: SavedState)
      ensures saved.currentView == Some(currentView) && saved.viewHistory == Some(viewHistory)
      ensures saved.filterSettings == Some(filterSettings)
      ensures saved.selectedNodes.Some? && Distinct(saved.selectedNodes.value)
      ensures Restored(saved) == State()
    {
      var listed := ListOf(selectedNodes);
      saved := SavedState(Some(currentView), Some(viewHistory), Some(listed), Some(filterSettings));
      RestoreSaved(State(), listed);
    }

    /** `restore_view_state` */
    method RestoreViewState(saved: SavedState)
      modifies this
      ensures State() == Restored(saved)
    {
      currentView := saved.currentView.GetOr(Spiral3D);
      viewHistory := saved.viewHistory.GetOr([]);
      selectedNodes := Elements(saved.selectedNodes.GetOr([]));
      filterSettings := saved.filterSettings.GetOr(DefaultFilters);
    }
  }
}
