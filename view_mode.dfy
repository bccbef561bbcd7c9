/**
 * The view-mode state machine shared by the two toolbars that have a
 * "main" view and specialised views: the `viewId` of the mobile toolbar and
 * the `mobileView` of the simple editor.  Both are React state cells that a
 * click handler sets and that an effect resets to `main` when the viewport
 * stops being mobile.  One render cycle is: the handler runs (or none), then
 * the reset effect runs with the current viewport class.
 */
module ViewMode {

  datatype ViewId = Main | Highlighter | Link

  /** What a click handler asks for in one render cycle. */
  datatype Action = NoAction | Open(id: ViewId) | Back

  /** One render cycle: the action, and whether the viewport is mobile when the effect runs. */
  datatype Cycle = Cycle(action: Action, isMobile: bool)

  /** The state setter the handler calls: `showView(id)` sets exactly `id`, back sets main. */
  function Apply(view: ViewId, action: Action): ViewId
  {
    match action
    case NoAction => view
    case Open(id) => id
    case Back => Main
  }

  /** The effect `if (!isMobile && view !== 'main') setView('main')`. */
  function Reset(view: ViewId, isMobile: bool): (r: ViewId)
    ensures !isMobile ==> r == Main
    ensures isMobile ==> r == view
  {
    if !isMobile && view != Main then Main else view
  }

  function Step(view: ViewId, c: Cycle): ViewId
  {
    Reset(Apply(view, c.action), c.isMobile)
  }

  /** The view after a sequence of render cycles. */
  function Run(view: ViewId, cycles: seq<Cycle>): ViewId
    decreases |cycles|
  {
    if cycles == [] then view
    else Step(Run(view, cycles[..|cycles| - 1]), cycles[|cycles| - 1])
  }

  /**
   * A specialised view is only reached by explicitly opening it, and it
   * survives only while every later cycle is on a mobile viewport: if the
   * machine starts in main and ends in view `v != Main`, some cycle opened
   * `v`, and that cycle and every later one ran on mobile.
   */
  lemma {:induction false} SpecializedOnlyByOpen(cycles: seq<Cycle>)
    requires Run(Main, cycles) != Main
    ensures exists k :: 0 <= k < |cycles| && cycles[k].action == Open(Run(Main, cycles))
                        && forall j :: k <= j < |cycles| ==> cycles[j].isMobile
  {
    var n := |cycles|;
    var v := Run(Main, cycles);
    var prev := Run(Main, cycles[..n - 1]);
    var last := cycles[n - 1];
    assert last.isMobile;
    if last.action.Open? {
      assert cycles[n - 1].action == Open(v);
    } else {
      assert prev == v;
      var before := cycles[..n - 1];
      SpecializedOnlyByOpen(before);
      var k :| 0 <= k < n - 1 && before[k].action == Open(prev)
               && forall j :: k <= j < n - 1 ==> before[j].isMobile;
      assert cycles[k].action == Open(v);
      forall j | k <= j < n ensures cycles[j].isMobile {
        if j < n - 1 { assert before[j] == cycles[j]; }
      }
    }
  }

  /**
   * Whatever happened before, a cycle that runs on a non-mobile viewport
   * leaves the machine in main; in particular opening a view and then
   * leaving the mobile layout ends in main.
   */
  lemma {:induction false} DesktopCycleEndsInMain(view: ViewId, cycles: seq<Cycle>, later: seq<Cycle>)
    requires |cycles| > 0 && !cycles[|cycles| - 1].isMobile
    requires forall j :: 0 <= j < |later| ==> later[j].action != Open(Highlighter) && later[j].action != Open(Link)
    ensures Run(view, cycles + later) == Main
    decreases |later|
  {
    if later == [] {
      assert cycles + later == cycles;
    } else {
      var m := |later| - 1;
      assert (cycles + later)[..|cycles + later| - 1] == cycles + later[..m];
      DesktopCycleEndsInMain(view, cycles, later[..m]);
      assert later[m].action != Open(Highlighter) && later[m].action != Open(Link);
    }
  }
}
