/**
 * The simple editor template (simple-editor.tsx): the `mobileView` state of
 * `SimpleEditor`, the toolbar content chosen from it, and the editor content
 * area's guard and cursor.
 */
module SimpleEditorTemplate {
  import opened Wrappers
  import opened Editor
  import opened ViewMode

  /** A click the toolbar can deliver in one render cycle. */
  datatype Click = NoClick | HighlighterClick | LinkClick | BackClick

  /** The view-machine action each click handler performs. */
  function ClickAction(click: Click): (a: Action)
    ensures a != Open(Main)
  {
    match click
    case NoClick => NoAction
    case HighlighterClick => Open(Highlighter)
    case LinkClick => Open(Link)
    case BackClick => Back
  }

  class SimpleEditor {
    /** `const [mobileView, setMobileView] = React.useState('main')`. */
    var mobileView: ViewId

    constructor ()
      ensures mobileView == Main
    {
      mobileView := Main;
    }

    /** `onHighlighterClick`. */
    method OnHighlighterClick()
      modifies this
      ensures mobileView == Highlighter
    {
      mobileView := Highlighter;
    }

    /** `onLinkClick`. */
    method OnLinkClick()
      modifies this
      ensures mobileView == Link
    {
      mobileView := Link;
    }

    /** `onBack`. */
    method OnBack()
      modifies this
      ensures mobileView == Main
    {
      mobileView := Main;
    }

    /** The effect on `[isMobile, mobileView]`. */
    method ResetEffect(isMobile: bool)
      modifies this
      ensures mobileView == Reset(old(mobileView), isMobile)
    {
      if !isMobile && mobileView != Main {
        mobileView := Main;
      }
    }

    /** One render cycle: the click, if any, then the reset effect. */
    method RunCycle(click: Click, isMobile: bool)
      modifies this
      ensures mobileView == Step(old(mobileView), Cycle(ClickAction(click), isMobile))
    {
      match click {
        case NoClick =>
        case HighlighterClick => OnHighlighterClick();
        case LinkClick => OnLinkClick();
        case BackClick => OnBack();
      }
      ResetEffect(isMobile);
    }
  }

  // ---------------------------------------------------------------------------
  // The toolbar's content
  // ---------------------------------------------------------------------------

  /** The highlighter or link control of the main toolbar. */
  datatype Control =
    | ViewButton(click: Click)   // a button whose click opens a specialised view
    | Popover                    // the desktop popover, which opens no view

  /** The parts of the main toolbar content that depend on the viewport. */
  datatype MainControls = MainControls(highlighter: Control, link: Control, separatorBeforeTheme: bool)

  function MainToolbarContent(isMobile: bool): (m: MainControls)
    // specialised views are opened only on mobile; the desktop uses popovers
    ensures isMobile ==>
              && m.highlighter.ViewButton? && ClickAction(m.highlighter.click) == Open(Highlighter)
              && m.link.ViewButton? && ClickAction(m.link.click) == Open(Link)
    ensures !isMobile ==> m.highlighter == Popover && m.link == Popover
    ensures m.separatorBeforeTheme <==> isMobile
  {
    MainControls(
      if isMobile then ViewButton(HighlighterClick) else Popover,
      if isMobile then ViewButton(LinkClick) else Popover,
      isMobile)
  }

  datatype SpecializedType = HighlighterType | LinkType

  datatype Icon = HighlighterIcon | LinkIcon

  datatype Panel = HighlightPanel | LinkPanel

  /** `MobileToolbarContent`: the back button (arrow plus the view's icon), then the view's panel. */
  datatype SpecializedContent = SpecializedContent(backClick: Click, icon: Icon, panel: Panel)

  function MobileToolbarContent(kind: SpecializedType): (c: SpecializedContent)
    ensures ClickAction(c.backClick) == Back
    ensures c.icon == HighlighterIcon <==> kind == HighlighterType
    ensures c.panel == HighlightPanel <==> kind == HighlighterType
  {
    SpecializedContent(BackClick,
                       if kind == HighlighterType then HighlighterIcon else LinkIcon,
                       if kind == HighlighterType then HighlightPanel else LinkPanel)
  }

  datatype ToolbarContent = MainContent(controls: MainControls) | Specialized(kind: SpecializedType, content: SpecializedContent)

  /** The toolbar: `bottom` is the CSS offset `height - rect.y`, when set. */
  datatype Toolbar = Toolbar(bottom: Option<real>, content: ToolbarContent)

  function ToolbarRender(mobileView: ViewId, isMobile: bool, height: real, cursorY: real): (t: Toolbar)
    ensures t.bottom == (if isMobile then Some(height - cursorY) else None)
    ensures t.content.MainContent? <==> mobileView == Main
    ensures mobileView != Main ==> (t.content.kind == HighlighterType <==> mobileView == Highlighter)
  {
    var bottom := if isMobile then Some(height - cursorY) else None;
    if mobileView == Main then Toolbar(bottom, MainContent(MainToolbarContent(isMobile)))
    else
      var kind := if mobileView == Highlighter then HighlighterType else LinkType;
      Toolbar(bottom, Specialized(kind, MobileToolbarContent(kind)))
  }

  /**
   * The specialised content always shows the icon and the panel of the view
   * the state names, and its back button returns to the main content.
   */
  lemma SpecializedContentMatchesView(mobileView: ViewId, isMobile: bool, height: real, cursorY: real)
    requires mobileView != Main
    ensures var t := ToolbarRender(mobileView, isMobile, height, cursorY);
            && t.content.Specialized?
            && (t.content.content.icon == HighlighterIcon <==> mobileView == Highlighter)
            && (t.content.content.panel == LinkPanel <==> mobileView == Link)
            && ToolbarRender(Apply(mobileView, ClickAction(t.content.content.backClick)), isMobile, height, cursorY).content.MainContent?
  {
  }

  /**
   * On a desktop viewport the toolbar shows the main content after every
   * render cycle, whatever the previous view and the click.
   */
  lemma DesktopShowsMainContent(view: ViewId, click: Click, height: real, cursorY: real)
    ensures ToolbarRender(Step(view, Cycle(ClickAction(click), false)), false, height, cursorY).content
            == MainContent(MainControls(Popover, Popover, false))
  {
  }

  // ---------------------------------------------------------------------------
  // EditorContentArea
  // ---------------------------------------------------------------------------

  datatype Cursor = Grabbing | Auto

  /** `EditorContentArea`: `None` is `return null`; otherwise the content's cursor style. */
  function EditorContentArea(editor: Option<EditorSnapshot>): (r: Option<Cursor>)
    ensures r == None <==> editor == None
    ensures r != None ==> (r.value == Grabbing <==> editor.value.dragging)
  {
    match editor
    case None => None
    case Some(e) => Some(if e.dragging then Grabbing else Auto)
  }
}
