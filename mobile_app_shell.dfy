/**
 * The mobile app shell: the bottom-tab selection and the overlay view
 * (main screen, property picker sheet, property hub) with the controls that
 * move between them.
 */
module MobileAppShell {

  datatype Tab = Home | Search | Favorites | Messages | Profile

  datatype View = Main | Picker | PropertyHub

  datatype Shell = Shell(activeTab: Tab, view: View)

  const Initial := Shell(Home, Main)

  /** What the user can do; drag offsets and velocities are in pixels and pixels per second. */
  datatype ShellEvent =
    | OpenFab
    | Backdrop
    | DragEnd(offsetY: real, velocityY: real)
    | PickerSelect
    | PickerClose
    | CloseFab
    | HubBack
    | TabClick(tab: Tab)

  /** A drag of the picker sheet dismisses it when it went far enough or fast enough. */
  predicate Dismisses(offsetY: real, velocityY: real) {
    offsetY > 100.0 || velocityY > 500.0
  }

  /** The control behind an event is on screen: the open button on the main view, the sheet's controls on the picker, the back button on the hub; the tab bar always. */
  predicate Offered(v: View, e: ShellEvent) {
    match e
    case OpenFab => v == Main
    case Backdrop => v == Picker
    case DragEnd(_, _) => v == Picker
    case PickerSelect => v == Picker
    case PickerClose => v == Picker
    case CloseFab => v == Picker
    case HubBack => v == PropertyHub
    case TabClick(_) => true
  }

  /** The shell after an event; an event whose control is not on screen changes nothing. */
  function Step(s: Shell, e: ShellEvent): Shell {
    if !Offered(s.view, e) then s
    else match e
      case OpenFab => s.(view := Picker)
      case Backdrop => s.(view := Main)
      case DragEnd(dy, vy) => if Dismisses(dy, vy) then s.(view := Main) else s
      case PickerSelect => s.(view := PropertyHub)
      case PickerClose => s.(view := Main)
      case CloseFab => s.(view := Main)
      case HubBack => s.(view := Picker)
      case TabClick(t) => s.(activeTab := t)
  }

  function Run(s: Shell, es: seq<ShellEvent>): Shell
    decreases |es|
  {
    if es == [] then s else Run(Step(s, es[0]), es[1..])
  }

  /** Tab clicks change only the tab; every other event changes only the view. */
  lemma StepSeparatesTabAndView(s: Shell, e: ShellEvent)
    ensures e.TabClick? ==> Step(s, e).view == s.view && Step(s, e).activeTab == e.tab
    ensures !e.TabClick? ==> Step(s, e).activeTab == s.activeTab
  {
  }

  /** The hub is entered only from the picker, and left only back to the picker. */
  lemma HubAdjacentToPickerOnly(s: Shell, e: ShellEvent)
    ensures Step(s, e).view == PropertyHub && s.view != PropertyHub ==> s.view == Picker
    ensures s.view == PropertyHub ==> Step(s, e).view != Main
  {
  }

  /** Without tab clicks, navigation never changes the tab. */
  lemma {:induction false} ViewsKeepTab(s: Shell, es: seq<ShellEvent>)
    requires forall i :: 0 <= i < |es| ==> !es[i].TabClick?
    ensures Run(s, es).activeTab == s.activeTab
    decreases |es|
  {
    if es != [] {
      ViewsKeepTab(Step(s, es[0]), es[1..]);
    }
  }

  /** The picker's controls other than selecting a property all lead to the main view (a short, slow drag excepted). */
  lemma PickerExits(s: Shell, e: ShellEvent)
    requires s.view == Picker && (e.Backdrop? || e.DragEnd? || e.PickerClose? || e.CloseFab?)
    ensures Step(s, e).view == Main || (e.DragEnd? && !Dismisses(e.offsetY, e.velocityY) && Step(s, e) == s)
  {
  }

  /** The bottom navigation slides into place only on the main view. */
  predicate NavShown(s: Shell) {
    s.view == Main
  }

  class AppShell {
    var activeTab: Tab
    var view: View

    constructor ()
      ensures activeTab == Home && view == Main
    {
      activeTab := Home;
      view := Main;
    }

    /** The handler of the control behind `e`, if that control is on screen. */
    method Handle(e: ShellEvent)
      modifies this
      ensures Shell(activeTab, view) == Step(old(Shell(activeTab, view)), e)
    {
      if !Offered(view, e) {
        return;
      }
      match e {
        case OpenFab => view := Picker;
        case Backdrop => view := Main;
        case DragEnd(dy, vy) =>
          if dy > 100.0 || vy > 500.0 {
            view := Main;
          }
        case PickerSelect => view := PropertyHub;
        case PickerClose => view := Main;
        case CloseFab => view := Main;
        case HubBack => view := Picker;
        case TabClick(t) => activeTab := t;
      }
    }
  }
}
