/**
 * The dashboard store of the web client: the widget list, the layout per
 * screen breakpoint and the filters, changed in place by named mutations,
 * and the actions that commit those mutations and persist the result in
 * the browser's local storage.
 */
module DashboardStore {
  import opened Common

  datatype Widget = Widget(id: string, name: string, icon: string, enabled: bool)

  /** One widget's place in a grid layout; `i` is the widget id. */
  datatype LayoutItem = LayoutItem(i: string, x: int, y: int, w: int, h: int)

  /** The layouts by breakpoint name (lg, md, sm, xs). */
  type Layout = map<string, seq<LayoutItem>>

  type Filters = map<string, string>

  /** The mutations the store defines, by name. */
  const MutationNames: set<string> :=
    {"SET_ACTIVE_WIDGETS", "UPDATE_WIDGET_LAYOUT", "UPDATE_FILTERS", "TOGGLE_WIDGET",
     "SET_LOADING", "SET_ERROR", "INIT_DASHBOARD"}

  function DefaultWidgets(): seq<Widget> {
    [ Widget("coverage-map", "Carte de couverture", "map-marked-alt", true),
      Widget("performance-metrics", "Métriques de performance", "chart-line", true),
      Widget("recent-simulations", "Dernières simulations", "history", true),
      Widget("usage-statistics", "Statistiques", "chart-pie", true) ]
  }

  /** Four widgets in two columns of the given width, 8 rows high. */
  function TwoColumns(width: int): seq<LayoutItem> {
    [ LayoutItem("coverage-map", 0, 0, width, 8),
      LayoutItem("performance-metrics", width, 0, width, 8),
      LayoutItem("recent-simulations", 0, 8, width, 8),
      LayoutItem("usage-statistics", width, 8, width, 8) ]
  }

  /** The layout the store starts with, and the one `resetLayout` restores. */
  function DefaultLayout(): Layout {
    map[
      "lg" := TwoColumns(6),
      "md" := TwoColumns(6),
      "sm" := TwoColumns(2),
      "xs" := [ LayoutItem("coverage-map", 0, 0, 1, 8),
                LayoutItem("performance-metrics", 0, 8, 1, 8),
                LayoutItem("recent-simulations", 0, 16, 1, 8),
                LayoutItem("usage-statistics", 0, 24, 1, 8) ]
    ]
  }

  function DefaultFilters(): Filters {
    map["period" := "7days", "technology" := "all", "areaType" := "all"]
  }

  /** `widgets.find(w => w.id === id)`, as the index of the first match. */
  function FindIndex(widgets: seq<Widget>, id: string): (r: Option<nat>)
    ensures r.None? <==> forall k :: 0 <= k < |widgets| ==> widgets[k].id != id
    ensures r.Some? ==> r.value < |widgets| && widgets[r.value].id == id
                        && forall k :: 0 <= k < r.value ==> widgets[k].id != id
  {
    if widgets == [] then None
    else if widgets[0].id == id then Some(0)
    else
      match FindIndex(widgets[1..], id)
      case None => None
      case Some(k) => Some(k + 1)
  }

  /** The widget list after TOGGLE_WIDGET: the first widget with the id flips `enabled`. */
  function Toggled(widgets: seq<Widget>, id: string): seq<Widget> {
    match FindIndex(widgets, id)
    case None => widgets
    case Some(k) => widgets[k := widgets[k].(enabled := !widgets[k].enabled)]
  }

  /**
   * Toggling flips exactly one flag: that of the first widget with the id.
   * Every other widget, and every other field, stays as it was; with an
   * unknown id nothing changes.
   */
  lemma ToggleFlipsOnlyTarget(widgets: seq<Widget>, id: string)
    ensures |Toggled(widgets, id)| == |widgets|
    ensures forall k :: 0 <= k < |widgets| ==>
      var before, after := widgets[k], Toggled(widgets, id)[k];
      && after.id == before.id && after.name == before.name && after.icon == before.icon
      && (after.enabled != before.enabled <==> FindIndex(widgets, id) == Some(k))
    ensures (forall k :: 0 <= k < |widgets| ==> widgets[k].id != id) ==> Toggled(widgets, id) == widgets
  {
  }

  /** Toggling the same widget twice restores the list. */
  lemma ToggleTwiceRestores(widgets: seq<Widget>, id: string)
    ensures Toggled(Toggled(widgets, id), id) == widgets
  {
    match FindIndex(widgets, id)
    case None =>
    case Some(k) =>
      var once := Toggled(widgets, id);
      assert forall j :: 0 <= j < |once| ==> once[j].id == widgets[j].id;
      assert FindIndex(once, id) == Some(k);
  }

  /** `.filter(w => w.enabled).map(w => w.id)`. */
  function EnabledIds(widgets: seq<Widget>): (r: seq<string>)
    ensures |r| <= |widgets|
    ensures forall id :: id in r <==> exists k :: 0 <= k < |widgets| && widgets[k].id == id && widgets[k].enabled
  {
    if widgets == [] then []
    else
      var rest := EnabledIds(widgets[1..]);
      assert forall k :: 1 <= k < |widgets| ==> widgets[k] == widgets[1..][k - 1];
      assert forall k :: 0 <= k < |widgets| - 1 ==> widgets[1..][k] == widgets[k + 1];
      if widgets[0].enabled then [widgets[0].id] + rest else rest
  }

  /**
   * The enabled ids keep the widgets' order: the ids of a concatenation are
   * the ids of each part in turn, and one widget contributes its id exactly
   * when it is enabled. Together these fix the whole list.
   */
  lemma {:induction false} EnabledIdsAppend(a: seq<Widget>, b: seq<Widget>)
    ensures EnabledIds(a + b) == EnabledIds(a) + EnabledIds(b)
  {
    if a == [] {
      assert a + b == b;
    } else {
      assert (a + b)[1..] == a[1..] + b;
      EnabledIdsAppend(a[1..], b);
    }
  }

  /** One widget contributes its id exactly when it is enabled. */
  lemma EnabledIdsOfOne(w: Widget)
    ensures EnabledIds([w]) == (if w.enabled then [w.id] else [])
  {
    assert [w][1..] == [];
  }

  /** The saved enabled list applied to the widgets: `enabled` iff the id is saved. */
  function ApplySaved(widgets: seq<Widget>, saved: seq<string>): (r: seq<Widget>)
    ensures |r| == |widgets|
    ensures forall k :: 0 <= k < |widgets| ==> r[k] == widgets[k].(enabled := widgets[k].id in saved)
  {
    if widgets == [] then []
    else [widgets[0].(enabled := widgets[0].id in saved)] + ApplySaved(widgets[1..], saved)
  }

  /**
   * Restoring a saved list enables exactly the saved widgets: the enabled
   * ids afterwards are the widget ids that appear in the list.
   */
  lemma RestoredEnabledIds(widgets: seq<Widget>, saved: seq<string>)
    ensures forall id :: id in EnabledIds(ApplySaved(widgets, saved)) <==>
      id in saved && exists k :: 0 <= k < |widgets| && widgets[k].id == id
  {
    var applied := ApplySaved(widgets, saved);
    forall id | id in saved && exists k :: 0 <= k < |widgets| && widgets[k].id == id
      ensures id in EnabledIds(applied)
    {
      var k :| 0 <= k < |widgets| && widgets[k].id == id;
      assert applied[k].id == id && applied[k].enabled;
    }
  }

  /** What the browser's local storage holds, already parsed; `None` where a key is unset. */
  class Storage {
    var layout: Option<Layout>
    var filters: Option<Filters>
    var enabledWidgets: Option<seq<string>>

    constructor()
      ensures layout.None? && filters.None? && enabledWidgets.None?
    {
      layout, filters, enabledWidgets := None, None, None;
    }
  }

  /** The store's state. */
  class DashboardState {
    var activeWidgets: seq<string>
    var availableWidgets: seq<Widget>
    var dashboardLayout: Layout
    var filters: Filters

    constructor()
      ensures activeWidgets == [] && availableWidgets == DefaultWidgets()
      ensures dashboardLayout == DefaultLayout() && filters == DefaultFilters()
    {
      activeWidgets := [];
      availableWidgets := DefaultWidgets();
      dashboardLayout := DefaultLayout();
      filters := DefaultFilters();
    }

    /** SET_ACTIVE_WIDGETS. */
    method SetActiveWidgets(widgets: seq<string>)
      modifies this
      ensures activeWidgets == widgets
      ensures availableWidgets == old(availableWidgets) && dashboardLayout == old(dashboardLayout) && filters == old(filters)
    {
      activeWidgets := widgets;
    }

    /** UPDATE_WIDGET_LAYOUT: replaces the layout of one breakpoint. */
    method UpdateWidgetLayout(breakpoint: string, layout: seq<LayoutItem>)
      modifies this
      ensures dashboardLayout == old(dashboardLayout)[breakpoint := layout]
      ensures forall b :: b in old(dashboardLayout) && b != breakpoint ==>
        b in dashboardLayout && dashboardLayout[b] == old(dashboardLayout)[b]
      ensures activeWidgets == old(activeWidgets) && availableWidgets == old(availableWidgets) && filters == old(filters)
    {
      dashboardLayout := dashboardLayout[breakpoint := layout];
    }

    /** UPDATE_FILTERS: `{ ...state.filters, ...filters }`. */
    method UpdateFilters(incoming: Filters)
      modifies this
      ensures filters == old(filters) + incoming
      ensures filters.Keys == old(filters).Keys + incoming.Keys
      ensures forall k :: k in incoming ==> filters[k] == incoming[k]
      ensures forall k :: k in old(filters) && k !in incoming ==> filters[k] == old(filters)[k]
      ensures activeWidgets == old(activeWidgets) && availableWidgets == old(availableWidgets)
      ensures dashboardLayout == old(dashboardLayout)
    {
      filters := filters + incoming;
    }

    /** TOGGLE_WIDGET: flips the first widget with the id; an unknown id is a no-op. */
    method ToggleWidget(widgetId: string)
      modifies this
      ensures availableWidgets == Toggled(old(availableWidgets), widgetId)
      ensures activeWidgets == old(activeWidgets) && dashboardLayout == old(dashboardLayout) && filters == old(filters)
    {
      var found := FindIndex(availableWidgets, widgetId);
      if found.Some? {
        var k := found.value;
        availableWidgets := availableWidgets[k := availableWidgets[k].(enabled := !availableWidgets[k].enabled)];
      }
    }

    /**
     * INIT_DASHBOARD: takes each saved item that is set, then derives the
     * active widgets from the enabled flags, in widget order.
     */
    method InitDashboard(storage: Storage)
      modifies this
      ensures dashboardLayout == (if storage.layout.Some? then storage.layout.value else old(dashboardLayout))
      ensures filters == (if storage.filters.Some? then storage.filters.value else old(filters))
      ensures availableWidgets ==
        (if storage.enabledWidgets.Some? then ApplySaved(old(availableWidgets), storage.enabledWidgets.value)
         else old(availableWidgets))
      ensures activeWidgets == EnabledIds(availableWidgets)
    {
      if storage.layout.Some? {
        dashboardLayout := storage.layout.value;
      }
      if storage.filters.Some? {
        filters := storage.filters.value;
      }
      if storage.enabledWidgets.Some? {
        availableWidgets := ApplySaved(availableWidgets, storage.enabledWidgets.value);
      }
      activeWidgets := EnabledIds(availableWidgets);
    }

    /**
     * The `toggleWidget` action: toggle, recompute the active widgets and
     * persist the same list.
     */
    method ToggleWidgetAction(storage: Storage, widgetId: string)
      modifies this, storage
      ensures availableWidgets == Toggled(old(availableWidgets), widgetId)
      ensures activeWidgets == EnabledIds(availableWidgets)
      ensures storage.enabledWidgets == Some(activeWidgets)
      ensures storage.layout == old(storage.layout) && storage.filters == old(storage.filters)
      ensures dashboardLayout == old(dashboardLayout) && filters == old(filters)
    {
      ToggleWidget(widgetId);
      var active := EnabledIds(availableWidgets);
      SetActiveWidgets(active);
      var enabled := EnabledIds(availableWidgets);
      storage.enabledWidgets := Some(enabled);
    }

    /** The `resetFilters` action: merge the default filters and persist them. */
    method ResetFiltersAction(storage: Storage)
      modifies this, storage
      ensures "period" in filters && filters["period"] == "7days"
      ensures "technology" in filters && filters["technology"] == "all"
      ensures "areaType" in filters && filters["areaType"] == "all"
      ensures filters == old(filters) + DefaultFilters()
      ensures filters.Keys == old(filters).Keys + DefaultFilters().Keys
      ensures storage.filters == Some(DefaultFilters())
      ensures storage.layout == old(storage.layout) && storage.enabledWidgets == old(storage.enabledWidgets)
      ensures activeWidgets == old(activeWidgets) && availableWidgets == old(availableWidgets)
      ensures dashboardLayout == old(dashboardLayout)
    {
      var defaults := DefaultFilters();
      UpdateFilters(defaults);
      storage.filters := Some(defaults);
    }

    /**
     * The `resetLayout` action as written: it commits "SET_LAYOUT", which is
     * not a mutation of the store, so the store ignores it; only the stored
     * layout is reset.
     */
    method ResetLayoutAction(storage: Storage)
      modifies this, storage
      ensures "SET_LAYOUT" !in MutationNames
      ensures dashboardLayout == old(dashboardLayout)
      ensures activeWidgets == old(activeWidgets) && availableWidgets == old(availableWidgets) && filters == old(filters)
      ensures storage.layout == Some(DefaultLayout())
      ensures storage.filters == old(storage.filters) && storage.enabledWidgets == old(storage.enabledWidgets)
    {
      var defaultLayout := DefaultLayout();
      // commit('SET_LAYOUT', ...) finds no such mutation and changes nothing.
      storage.layout := Some(defaultLayout);
    }

    /** A SET_LAYOUT mutation that replaces the whole layout. */
    method SetLayout(layout: Layout)
      modifies this
      ensures dashboardLayout == layout
      ensures activeWidgets == old(activeWidgets) && availableWidgets == old(availableWidgets) && filters == old(filters)
    {
      dashboardLayout := layout;
    }

    /** `resetLayout` with the mutation it means to commit: store and storage both hold the default. */
    method ResetLayoutFixed(storage: Storage)
      modifies this, storage
      ensures dashboardLayout == DefaultLayout()
      ensures storage.layout == Some(dashboardLayout)
      ensures activeWidgets == old(activeWidgets) && availableWidgets == old(availableWidgets) && filters == old(filters)
      ensures storage.filters == old(storage.filters) && storage.enabledWidgets == old(storage.enabledWidgets)
    {
      var defaultLayout := DefaultLayout();
      SetLayout(defaultLayout);
      storage.layout := Some(defaultLayout);
    }
  }

  /**
   * A user who moved the widgets on a large screen and then resets the
   * layout keeps seeing the moved widgets, while the stored layout is the
   * default.
   */
  method ResetLayoutKeepsCustomLayout() returns (shown: Layout, stored: Option<Layout>)
    ensures stored == Some(DefaultLayout())
    ensures shown != DefaultLayout()
    ensures "lg" in shown && shown["lg"] == []
  {
    var state := new DashboardState();
    var storage := new Storage();
    state.UpdateWidgetLayout("lg", []);
    state.ResetLayoutAction(storage);
    shown, stored := state.dashboardLayout, storage.layout;
    assert DefaultLayout()["lg"] != [];
  }

  /** The same session with the corrected action: what is shown is what is stored, the default. */
  method ResetLayoutFixedRestoresDefault() returns (shown: Layout, stored: Option<Layout>)
    ensures shown == DefaultLayout()
    ensures stored == Some(shown)
  {
    var state := new DashboardState();
    var storage := new Storage();
    state.UpdateWidgetLayout("lg", []);
    state.ResetLayoutFixed(storage);
    shown, stored := state.dashboardLayout, storage.layout;
  }
}
