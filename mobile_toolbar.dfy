/**
 * The mobile formatting toolbar (notion-like-editor-mobile-toolbar.tsx): its
 * view state (`useToolbarState`), the registry of specialised views, the
 * content it shows in each view, its render guard and the viewport transform
 * that keeps it above the on-screen keyboard.
 */
module MobileToolbar {
  import opened Wrappers
  import opened Editor
  import opened ViewMode

  // ---------------------------------------------------------------------------
  // useToolbarState
  // ---------------------------------------------------------------------------

  /** The state cell of `useToolbarState`, its setters and its reset effect. */
  class ToolbarState {
    var viewId: ViewId

    constructor ()
      ensures viewId == Main
    {
      viewId := Main;
    }

    /** `isMainView`. */
    function IsMainView(): (r: bool)
      reads this
      ensures r <==> viewId == Main
    {
      viewId == Main
    }

    /** `showMainView`. */
    method ShowMainView()
      modifies this
      ensures viewId == Main
    {
      viewId := Main;
    }

    /** `showView(id)`: sets exactly the id it is given; no id is rejected. */
    method ShowView(id: ViewId)
      modifies this
      ensures viewId == id
    {
      viewId := id;
    }

    /** The effect on `[isMobile, viewId]`. */
    method ResetEffect(isMobile: bool)
      modifies this
      ensures viewId == Reset(old(viewId), isMobile)
      ensures !isMobile ==> viewId == Main
      ensures isMobile ==> viewId == old(viewId)
    {
      if !isMobile && viewId != Main {
        viewId := Main;
      }
    }

    /** One render cycle: the handler the user triggered, then the reset effect. */
    method RunCycle(c: Cycle)
      modifies this
      ensures viewId == Step(old(viewId), c)
    {
      match c.action {
        case NoAction =>
        case Open(id) => ShowView(id);
        case Back => ShowMainView();
      }
      ResetEffect(c.isMobile);
    }
  }

  // ---------------------------------------------------------------------------
  // hasTextSelection
  // ---------------------------------------------------------------------------

  /** `hasTextSelection`: a present, editable editor with a non-empty selection. */
  function HasTextSelection(editor: Option<EditorSnapshot>): (r: bool)
    ensures editor == None ==> !r
    ensures editor != None && !editor.value.isEditable ==> !r
    ensures editor != None && editor.value.isEditable ==> (r <==> !editor.value.selection.empty)
  {
    if !(editor != None && editor.value.isEditable) then false
    else !editor.value.selection.empty
  }

  // ---------------------------------------------------------------------------
  // The view registry
  // ---------------------------------------------------------------------------

  /** The components a view entry is made of. */
  datatype Widget =
    | HighlighterIcon | LinkIcon
    | HighlightPanel | LinkPanel               // the view's `content`
    | HighlightPopoverButton | LinkButton      // what `mobileButton` builds
    | HighlightPopover | LinkPopover           // `desktopComponent`

  /** A `ToolbarViewType` entry. */
  datatype ToolbarView = ToolbarView(
    id: ViewId,
    title: string,
    icon: Widget,
    content: Widget,
    mobileButton: Option<Widget>,
    desktopComponent: Option<Widget>
  )

  /** The registry, as its entries in insertion order (the order `Object.values` lists them). */
  type Registry = seq<ToolbarView>

  function CreateToolbarViewRegistry(): (reg: Registry)
    // one entry per specialised view, highlighter first, each with both widgets
    ensures |reg| == 2 && reg[0].id == Highlighter && reg[1].id == Link
    ensures forall k :: 0 <= k < |reg| ==> reg[k].mobileButton != None && reg[k].desktopComponent != None
  {
    [ ToolbarView(Highlighter, "Text Highlighter", HighlighterIcon, HighlightPanel,
                  Some(HighlightPopoverButton), Some(HighlightPopover)),
      ToolbarView(Link, "Link Editor", LinkIcon, LinkPanel, Some(LinkButton), Some(LinkPopover)) ]
  }

  /** `toolbarViews[id]`: the entry registered under `id`, if any. */
  function Lookup(registry: Registry, id: ViewId): (r: Option<ToolbarView>)
    ensures r != None ==> r.value in registry && r.value.id == id
    ensures r == None ==> forall v :: v in registry ==> v.id != id
    decreases |registry|
  {
    if registry == [] then None
    else if registry[0].id == id then Some(registry[0])
    else Lookup(registry[1..], id)
  }

  /**
   * The created registry has exactly one entry per specialised view, under
   * its own id, each with a mobile button and a desktop component, listed
   * highlighter first.
   */
  lemma RegistryCoversSpecializedViews(id: ViewId)
    ensures Lookup(CreateToolbarViewRegistry(), id) != None <==> id != Main
    ensures id != Main ==>
              var v := Lookup(CreateToolbarViewRegistry(), id).value;
              v.id == id && v.mobileButton != None && v.desktopComponent != None
    ensures |CreateToolbarViewRegistry()| == 2
            && CreateToolbarViewRegistry()[0].id == Highlighter && CreateToolbarViewRegistry()[1].id == Link
  {
    var reg := CreateToolbarViewRegistry();
    assert reg[1..] == [reg[1]];
  }

  // ---------------------------------------------------------------------------
  // The toolbar's content
  // ---------------------------------------------------------------------------

  /** What `ToolbarViewButton` renders; `requests` is the id its click passes to `onViewChange`. */
  datatype ViewButton =
    | MobileButton(widget: Widget, requests: ViewId)   // `view.mobileButton(onClick)`
    | IconButton(icon: Widget, requests: ViewId)       // the fallback `<Button>{view.icon}</Button>`
    | DesktopComponent(widget: Widget)
    | NoButton

  function ToolbarViewButton(view: ToolbarView, isMobile: bool): (b: ViewButton)
    // on mobile the button opens its own view; on desktop it opens no view
    ensures isMobile ==> (b.MobileButton? || b.IconButton?) && b.requests == view.id
    ensures !isMobile ==> (b.DesktopComponent? <==> view.desktopComponent != None) && !b.MobileButton? && !b.IconButton?
    // the view's own mobile button when it has one, its icon in a plain button otherwise
    ensures isMobile ==>
              b == (if view.mobileButton.Some? then MobileButton(view.mobileButton.value, view.id) else IconButton(view.icon, view.id))
    // on desktop, the view's own desktop component, if any
    ensures !isMobile ==>
              b == (if view.desktopComponent.Some? then DesktopComponent(view.desktopComponent.value) else NoButton)
  {
    if isMobile then
      match view.mobileButton
      case Some(w) => MobileButton(w, view.id)
      case None => IconButton(view.icon, view.id)
    else
      match view.desktopComponent
      case Some(w) => DesktopComponent(w)
      case None => NoButton
  }

  /** `ToolbarViewsGroup`: one button per registry entry, in order. */
  function ToolbarViewsGroup(registry: Registry, isMobile: bool): (bs: seq<ViewButton>)
    ensures |bs| == |registry|
    ensures forall k :: 0 <= k < |bs| ==> bs[k] == ToolbarViewButton(registry[k], isMobile)
  {
    seq(|registry|, k requires 0 <= k < |registry| => ToolbarViewButton(registry[k], isMobile))
  }

  /** A group of the main toolbar (separators are kept as their own entries). */
  datatype MainGroup =
    | SlashAndMoreActions
    | MoveNode
    | ToolbarSeparator
    | Formatting
    | Views(buttons: seq<ViewButton>)
    | Script
    | Alignment
    | ImageUpload

  function MainToolbarContent(editor: Option<EditorSnapshot>, isMobile: bool, registry: Registry): (gs: seq<MainGroup>)
    // the leading groups are always there, and nothing follows them without a text selection
    ensures |gs| >= 3 && gs[..3] == [SlashAndMoreActions, ToolbarSeparator, MoveNode]
    ensures |gs| == 3 <==> !HasTextSelection(editor)
  {
    [SlashAndMoreActions, ToolbarSeparator, MoveNode]
    + if HasTextSelection(editor) then
        [ ToolbarSeparator, Formatting, ToolbarSeparator, Views(ToolbarViewsGroup(registry, isMobile)),
          ToolbarSeparator, Script, ToolbarSeparator, Alignment, ToolbarSeparator, ImageUpload ]
      else []
  }

  /**
   * The slash trigger, more-actions and move controls are always there; the
   * formatting, view, script, alignment and image groups are there iff the
   * editor has a text selection.
   */
  lemma MainContentGroups(editor: Option<EditorSnapshot>, isMobile: bool, registry: Registry)
    ensures var gs := MainToolbarContent(editor, isMobile, registry);
            && gs[..3] == [SlashAndMoreActions, ToolbarSeparator, MoveNode]
            && (Formatting in gs <==> HasTextSelection(editor))
            && (Script in gs <==> HasTextSelection(editor))
            && (Alignment in gs <==> HasTextSelection(editor))
            && (ImageUpload in gs <==> HasTextSelection(editor))
            && ((exists g :: g in gs && g.Views?) <==> HasTextSelection(editor))
  {
    var gs := MainToolbarContent(editor, isMobile, registry);
    if HasTextSelection(editor) {
      assert gs[6] == Views(ToolbarViewsGroup(registry, isMobile));
    }
  }

  /** What the toolbar holds. */
  datatype ToolbarContent =
    | MainContent(groups: seq<MainGroup>)
    | SpecializedContent(view: ToolbarView)   // the back button with the view's icon, then its `content`
    | NoContent                               // a non-main view with no registry entry

  /** The rendered toolbar: `bottom` is the CSS `bottom` offset `height - rect.y`, when set. */
  datatype Toolbar = Toolbar(bottom: Option<real>, content: ToolbarContent)

  /**
   * `MobileToolbar`'s render for the current view: `height` is the window
   * height and `cursorY` the `y` of the rectangle `useCursorVisibility` returns.
   */
  function MobileToolbarRender(viewId: ViewId, editor: Option<EditorSnapshot>, isMobile: bool,
                               height: real, cursorY: real, registry: Registry): (r: Option<Toolbar>)
    // nothing at all unless mobile with an editable editor, whatever the view
    ensures r == None <==> !(isMobile && editor != None && editor.value.isEditable)
    ensures r != None ==> r.value.bottom == Some(height - cursorY)
    ensures r != None && viewId == Main ==> r.value.content == MainContent(MainToolbarContent(editor, isMobile, registry))
    ensures r != None && viewId != Main ==>
              match Lookup(registry, viewId)
              case Some(v) => r.value.content == SpecializedContent(v)
              case None => r.value.content == NoContent
  {
    var currentView := if viewId == Main then None else Lookup(registry, viewId);
    if !(isMobile && editor != None && editor.value.isEditable) then None
    else
      var content :=
        if viewId == Main then MainContent(MainToolbarContent(editor, isMobile, registry))
        else match currentView
             case Some(v) => SpecializedContent(v)
             case None => NoContent;
      Some(Toolbar(if isMobile then Some(height - cursorY) else None, content))
  }

  /**
   * With the registry the component creates, a specialised view always shows
   * its own entry: the content is never empty, and its panel is the view's.
   */
  lemma SpecializedViewShowsItsEntry(viewId: ViewId, editor: Option<EditorSnapshot>, height: real, cursorY: real)
    requires viewId != Main && editor != None && editor.value.isEditable
    ensures var r := MobileToolbarRender(viewId, editor, true, height, cursorY, CreateToolbarViewRegistry());
            r != None && r.value.content.SpecializedContent? && r.value.content.view.id == viewId
            && r.value.content.view.content == (if viewId == Highlighter then HighlightPanel else LinkPanel)
  {
    RegistryCoversSpecializedViews(viewId);
    var reg := CreateToolbarViewRegistry();
    assert reg[1..] == [reg[1]];
  }

  // ---------------------------------------------------------------------------
  // useViewportTransform
  // ---------------------------------------------------------------------------

  /** The visual viewport as `useWindowSize` reports it. */
  datatype Viewport = Viewport(height: real, offsetTop: real, offsetLeft: real)

  /** The CSS `transform`: `'none'`, or a translation (the `scale(1 / vp.scale)` part is not modelled). */
  datatype Transform = NoTransform | Translate(x: real, y: real)

  class ViewportTransform {
    var transform: Transform

    constructor ()
      ensures transform == NoTransform
    {
      transform := NoTransform;
    }

    /**
     * The effect. `hasDocument` is `typeof document !== 'undefined'`;
     * `reading` is the viewport, or `None` when computing the transform threw.
     */
    method Update(hasDocument: bool, reading: Option<Viewport>, bodyHeight: real)
      modifies this
      ensures !hasDocument ==> transform == old(transform)
      ensures hasDocument && reading == None ==> transform == NoTransform
      // the body is shifted right by the viewport's left offset and down so
      // that its bottom edge sits on the bottom edge of the visual viewport
      ensures hasDocument && reading != None ==>
                transform.Translate?
                && transform.x == reading.value.offsetLeft
                && transform.y + bodyHeight == reading.value.offsetTop + reading.value.height
    {
      if !hasDocument {
        return;
      }
      match reading {
        case None =>
          transform := NoTransform;
        case Some(vp) =>
          var transformOffsetTop := vp.height - bodyHeight + vp.offsetTop;
          transform := Translate(vp.offsetLeft, transformOffsetTop);
      }
    }
  }
}
