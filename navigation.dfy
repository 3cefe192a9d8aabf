/** The application shell: one piece of state, the id of the active view, which the
    sidebar replaces and from which the page picks the screen to mount. */
module Navigation {

  /** What the page mounts for a view id. Only three screens are mounted; the other
      menu entries show an "under construction" notice. */
  datatype Screen =
    | DashboardScreen
    | ClientsScreen
    | ServiceCallsScreen
    | UnderConstruction(notice: string)

  /** The eight menu ids of the sidebar. */
  const MenuIds: seq<string> :=
    ["dashboard", "clients", "service-calls", "hour-banks", "equipment", "reports", "invoices", "settings"]

  /** The ids whose screens are not mounted. */
  predicate IsPlaceholderId(id: string)
  {
    id == "hour-banks" || id == "equipment" || id == "reports" || id == "invoices" || id == "settings"
  }

  /** `renderView`: total over all strings; an id it does not know falls back to the dashboard. */
  function RenderView(id: string): (s: Screen)
    ensures s == ClientsScreen <==> id == "clients"
    ensures s == ServiceCallsScreen <==> id == "service-calls"
    ensures s.UnderConstruction? <==> IsPlaceholderId(id)
    ensures s == DashboardScreen <==> id == "dashboard" || !(id in MenuIds)
  {
    match id
    case "dashboard" => DashboardScreen
    case "clients" => ClientsScreen
    case "service-calls" => ServiceCallsScreen
    case "hour-banks" => UnderConstruction("מודול בנקי שעות בבנייה...")
    case "equipment" => UnderConstruction("מודול ציוד וספקים בבנייה...")
    case "reports" => UnderConstruction("מודול דוחות בבנייה...")
    case "invoices" => UnderConstruction("מודול חשבוניות בבנייה...")
    case "settings" => UnderConstruction("מודול הגדרות בבנייה...")
    case _ => DashboardScreen
  }

  /** Each of the five placeholder entries shows its own notice, so no two menu entries
      show the same thing except the dashboard and an unknown id. */
  lemma MenuEntriesDistinct(i: nat, j: nat)
    requires i < |MenuIds| && j < |MenuIds| && i != j
    ensures RenderView(MenuIds[i]) != RenderView(MenuIds[j])
  {
  }

  /** `Index`: the page component and its `activeView` state. */
  class Shell {
    var activeView: string

    /** `useState('dashboard')`. */
    constructor ()
      ensures activeView == "dashboard"
      ensures Current() == DashboardScreen
    {
      activeView := "dashboard";
    }

    /** The screen the page shows now: a placeholder notice exactly for the five
        unbuilt menu entries, and the dashboard for its own id or any id off the menu. */
    function Current(): (c: Screen)
      reads this
      ensures c.UnderConstruction? <==> IsPlaceholderId(activeView)
      ensures c == DashboardScreen <==> activeView == "dashboard" || !(activeView in MenuIds)
    {
      RenderView(activeView)
    }

    /** `onViewChange = setActiveView`: the new id replaces the old one, whatever it was,
        so every view is one step away from every other. */
    method OnViewChange(id: string)
      modifies this
      ensures activeView == id
      ensures Current() == RenderView(id)
    {
      activeView := id;
    }
  }

  /** The sidebar highlights the entry whose id is the active view: exactly one entry for
      an id of the menu, none otherwise. */
  function Highlighted(activeView: string): (r: seq<bool>)
    ensures |r| == |MenuIds|
    ensures forall k :: 0 <= k < |MenuIds| ==> (r[k] <==> MenuIds[k] == activeView)
  {
    seq(|MenuIds|, k requires 0 <= k < |MenuIds| => MenuIds[k] == activeView)
  }

  /** No two menu entries share an id, so at most one entry is highlighted. */
  lemma AtMostOneHighlighted(activeView: string, i: nat, j: nat)
    requires i < |MenuIds| && j < |MenuIds|
    requires Highlighted(activeView)[i] && Highlighted(activeView)[j]
    ensures i == j
  {
  }
}
