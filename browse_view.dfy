/**
 * The tri-state checkbox logic of the dashboard browser: whether the header
 * ("$all") or a row is selected, partially selected or unselected, given the
 * selection state and the loaded children of each folder; and whether a row of
 * the flattened tree is loaded.
 */
module BrowseView {

  /** `SelectionState`. */
  datatype SelectionState = Unselected | Selected | Mixed

  /** The kinds of a `DashboardViewItem`. */
  datatype Kind = Folder | Dashboard | Panel

  /** A `DashboardViewItem`, reduced to what the selection logic reads. */
  datatype ViewItem = ViewItem(kind: Kind, uid: string)

  /**
   * `DashboardTreeSelection`: one uid map per kind plus the `$all` flag. A uid
   * that is absent reads as `undefined`, which is falsy like `false`.
   */
  datatype Selection = Selection(
    all: bool,
    folder: map<string, bool>,
    dashboard: map<string, bool>,
    panel: map<string, bool>)

  /** `childrenByParentUID`: the loaded items of each parent uid. */
  type ChildrenByParent = map<string, seq<ViewItem>>

  function KindSelection(sel: Selection, kind: Kind): map<string, bool>
  {
    match kind
    case Folder => sel.folder
    case Dashboard => sel.dashboard
    case Panel => sel.panel
  }

  /** `selectedItems[item.kind][item.uid]` is truthy; an absent uid never is. */
  predicate Checked(sel: Selection, item: ViewItem): (r: bool)
    ensures r ==> item.uid in KindSelection(sel, item.kind)
  {
    var m := KindSelection(sel, item.kind);
    item.uid in m && m[item.uid]
  }

  /** Some uid of the map is mapped to true. */
  predicate AnyTrue(m: map<string, bool>)
  {
    exists uid | uid in m :: m[uid]
  }

  /**
   * A rank for every parent that strictly decreases from a parent to each of its
   * children that is itself a parent: the children map has no cycle.
   */
  ghost predicate Ranked(children: ChildrenByParent, rank: map<string, nat>)
  {
    forall p | p in children :: p in rank &&
      forall k | 0 <= k < |children[p]| ::
        children[p][k].uid in children ==> children[p][k].uid in rank && rank[children[p][k].uid] < rank[p]
  }

  ghost function Height(item: ViewItem, children: ChildrenByParent, rank: map<string, nat>): nat
    requires Ranked(children, rank)
  {
    if item.uid in children then rank[item.uid] + 1 else 0
  }

  /**
   * `hasSelectedDescendants`: some loaded child is checked or, failing that, has
   * a checked descendant itself. `rank` only witnesses termination.
   */
  predicate HasSelectedDescendants(item: ViewItem, children: ChildrenByParent, sel: Selection,
                                   ghost rank: map<string, nat>): (r: bool)
    requires Ranked(children, rank)
    ensures r ==> item.uid in children && |children[item.uid]| > 0
    decreases Height(item, children, rank)
  {
    if item.uid !in children then false
    else
      var items := children[item.uid];
      exists i | 0 <= i < |items| ::
        Checked(sel, items[i]) || HasSelectedDescendants(items[i], children, sel, rank)
  }

  /**
   * `path` descends from the parent uid `uid`: its first item is one of that
   * parent's children and each later item is a child of the one before.
   */
  ghost predicate DescendantPath(children: ChildrenByParent, uid: string, path: seq<ViewItem>)
  {
    && |path| >= 1
    && uid in children && path[0] in children[uid]
    && forall k | 0 <= k < |path| - 1 :: path[k].uid in children && path[k + 1] in children[path[k].uid]
  }

  /** Some transitive descendant of `item` is checked. */
  ghost predicate SomeDescendantChecked(item: ViewItem, children: ChildrenByParent, sel: Selection)
  {
    exists path :: DescendantPath(children, item.uid, path) && Checked(sel, path[|path| - 1])
  }

  /** A child of `uid` followed by a path below that child is a path below `uid`. */
  lemma PathCons(children: ChildrenByParent, uid: string, v: ViewItem, path: seq<ViewItem>)
    requires uid in children && v in children[uid]
    requires DescendantPath(children, v.uid, path)
    ensures DescendantPath(children, uid, [v] + path)
    ensures ([v] + path)[|path|] == path[|path| - 1]
  {
    var longer := [v] + path;
    assert forall k | 1 <= k < |longer| :: longer[k] == path[k - 1];
  }

  lemma {:induction false} DescendantsFoundArePaths(item: ViewItem, children: ChildrenByParent, sel: Selection,
                                                    rank: map<string, nat>)
    requires Ranked(children, rank)
    requires HasSelectedDescendants(item, children, sel, rank)
    ensures SomeDescendantChecked(item, children, sel)
    decreases Height(item, children, rank)
  {
    var items := children[item.uid];
    var i :| 0 <= i < |items| && (Checked(sel, items[i]) || HasSelectedDescendants(items[i], children, sel, rank));
    var v := items[i];
    if Checked(sel, v) {
      assert DescendantPath(children, item.uid, [v]);
    } else {
      DescendantsFoundArePaths(v, children, sel, rank);
      var path :| DescendantPath(children, v.uid, path) && Checked(sel, path[|path| - 1]);
      PathCons(children, item.uid, v, path);
    }
  }

  lemma {:induction false} PathsAreFound(item: ViewItem, children: ChildrenByParent, sel: Selection,
                                         rank: map<string, nat>, path: seq<ViewItem>)
    requires Ranked(children, rank)
    requires DescendantPath(children, item.uid, path) && Checked(sel, path[|path| - 1])
    ensures HasSelectedDescendants(item, children, sel, rank)
    decreases |path|
  {
    var items := children[item.uid];
    var v := path[0];
    var i :| 0 <= i < |items| && items[i] == v;
    if |path| > 1 {
      var rest := path[1..];
      assert forall k | 0 <= k < |rest| :: rest[k] == path[k + 1];
      assert DescendantPath(children, v.uid, rest);
      PathsAreFound(v, children, sel, rank, rest);
    }
  }

  /**
   * `hasSelectedDescendants` holds exactly when some item reachable through the
   * children map is checked; in particular never for an item without children.
   */
  lemma HasSelectedDescendantsIffReachable(item: ViewItem, children: ChildrenByParent, sel: Selection,
                                           rank: map<string, nat>)
    requires Ranked(children, rank)
    ensures HasSelectedDescendants(item, children, sel, rank) <==> SomeDescendantChecked(item, children, sel)
    ensures item.uid !in children ==> !HasSelectedDescendants(item, children, sel, rank)
  {
    if HasSelectedDescendants(item, children, sel, rank) {
      DescendantsFoundArePaths(item, children, sel, rank);
    }
    if SomeDescendantChecked(item, children, sel) {
      var path :| DescendantPath(children, item.uid, path) && Checked(sel, path[|path| - 1]);
      PathsAreFound(item, children, sel, rank, path);
    }
  }

  /** What `isSelected` is asked about: the header checkbox or one row. */
  datatype Target = All | Row(item: ViewItem)

  /**
   * `isSelected`: the header is selected when `$all` is, mixed when some uid of
   * any kind is selected, unselected otherwise; a row is selected when it is
   * checked, mixed when it has a selected descendant, unselected otherwise.
   */
  function IsSelected(target: Target, sel: Selection, children: ChildrenByParent,
                      ghost rank: map<string, nat>): (r: SelectionState)
    requires target.Row? && !Checked(sel, target.item) ==> Ranked(children, rank)
    ensures target.All? ==>
      (r == Selected <==> sel.all) &&
      (r == Mixed <==> !sel.all && exists item :: Checked(sel, item))
    ensures target.Row? ==>
      (r == Selected <==> Checked(sel, target.item)) &&
      (r == Mixed <==> !Checked(sel, target.item) && HasSelectedDescendants(target.item, children, sel, rank))
  {
    match target
    case All =>
      if sel.all then Selected
      else if AnyTrue(sel.folder) || AnyTrue(sel.dashboard) || AnyTrue(sel.panel) then
        assert AnyTrue(sel.folder) ==> exists uid | uid in sel.folder :: Checked(sel, ViewItem(Folder, uid));
        assert AnyTrue(sel.dashboard) ==> exists uid | uid in sel.dashboard :: Checked(sel, ViewItem(Dashboard, uid));
        assert AnyTrue(sel.panel) ==> exists uid | uid in sel.panel :: Checked(sel, ViewItem(Panel, uid));
        Mixed
      else
        assert forall item :: !Checked(sel, item) by {
          forall item ensures !Checked(sel, item) {
            var m := KindSelection(sel, item.kind);
            if item.uid in m {
              assert !m[item.uid];
            }
          }
        }
        Unselected
    case Row(item) =>
      if Checked(sel, item) then Selected
      else if HasSelectedDescendants(item, children, sel, rank) then Mixed
      else Unselected
  }

  /** A row is mixed exactly when it is not checked but a reachable item is. */
  lemma RowMixedIffDescendantChecked(item: ViewItem, sel: Selection, children: ChildrenByParent,
                                     rank: map<string, nat>)
    requires Ranked(children, rank)
    ensures IsSelected(Row(item), sel, children, rank) == Mixed <==>
      !Checked(sel, item) && SomeDescendantChecked(item, children, sel)
    ensures IsSelected(Row(item), sel, children, rank) == Unselected <==>
      !Checked(sel, item) && !SomeDescendantChecked(item, children, sel)
  {
    HasSelectedDescendantsIffReachable(item, children, sel, rank);
  }

  // ---------------------------------------------------------------------------
  // The flattened tree

  /** A row's item: a dashboard view item, or a UI placeholder of some `uiKind`. */
  datatype TreeEntry = View(item: ViewItem) | UI(uiKind: string)

  /** A row of the flattened tree. */
  datatype TreeItem = TreeItem(entry: TreeEntry, level: nat, isOpen: bool)

  const PaginationPlaceholder: string := "pagination-placeholder"

  /**
   * `isItemLoaded`: there is a row at `itemIndex` and it is not a pagination
   * placeholder.
   */
  function IsItemLoaded(flatTree: seq<TreeItem>, itemIndex: int): (loaded: bool)
    ensures !(0 <= itemIndex < |flatTree|) ==> !loaded
    ensures 0 <= itemIndex < |flatTree| && flatTree[itemIndex].entry.View? ==> loaded
    ensures 0 <= itemIndex < |flatTree| && flatTree[itemIndex].entry.UI? ==>
      (loaded <==> flatTree[itemIndex].entry.uiKind != PaginationPlaceholder)
  {
    if !(0 <= itemIndex < |flatTree|) then false
    else
      var entry := flatTree[itemIndex].entry;
      !(entry.UI? && entry.uiKind == PaginationPlaceholder)
  }
}
