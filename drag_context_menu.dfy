/**
 * The block drag handle and its context menu (drag-context-menu.tsx): the
 * component's state (`open`, `node`, `nodePos`) and the commands it sends to
 * the editor, the handle's offset rule, its hide rule, the ordered list of
 * "turn into" actions, and the sections of the menu.
 */
module DragContextMenu {
  import opened Wrappers
  import opened Editor

  /** A document node, seen only through its type name. */
  datatype Node = Node(typeName: string)

  /** What the drag-handle extension reports when the hovered block changes. */
  datatype NodeChangeData = NodeChangeData(node: Option<Node>, pos: int)

  /** The editor commands the component issues. */
  datatype Command =
    | SetLockDragHandle(locked: bool)        // editor.commands.setLockDragHandle
    | SetMeta(key: string, value: bool)      // editor.commands.setMeta
    | SetNodeSelection(pos: int)             // editor.commands.setNodeSelection

  /** A piece of editor state the commands set: the drag-handle lock, or a meta key. */
  datatype Setting = Lock | Meta(key: string)

  /** The value `c` gives to `s`, if `c` sets `s` at all. */
  function SetsTo(c: Command, s: Setting): Option<bool>
  {
    match c
    case SetLockDragHandle(b) => if s == Lock then Some(b) else None
    case SetMeta(k, b) => if s == Meta(k) then Some(b) else None
    case SetNodeSelection(_) => None
  }

  /** The value the last command in `issued` that sets `s` gave it; `None` if none did. */
  function LastSetting(issued: seq<Command>, s: Setting): (r: Option<bool>)
    ensures r == None <==> forall k :: 0 <= k < |issued| ==> SetsTo(issued[k], s) == None
    decreases |issued|
  {
    if issued == [] then None
    else
      var n := |issued| - 1;
      match SetsTo(issued[n], s)
      case Some(b) => Some(b)
      case None =>
        var r := LastSetting(issued[..n], s);
        assert forall k :: 0 <= k < n ==> issued[..n][k] == issued[k];
        r
  }

  /** Commands issued later override earlier ones for the settings they touch, and only for those. */
  lemma {:induction false} LastSettingAppend(issued: seq<Command>, more: seq<Command>, s: Setting)
    ensures LastSetting(issued + more, s)
            == if LastSetting(more, s) != None then LastSetting(more, s) else LastSetting(issued, s)
    decreases |more|
  {
    if more == [] {
      assert issued + more == issued;
    } else {
      var m := |more| - 1;
      assert (issued + more)[..|issued + more| - 1] == issued + more[..m];
      assert (issued + more)[|issued + more| - 1] == more[m];
      LastSettingAppend(issued, more[..m], s);
    }
  }

  class DragContextMenuState {
    /** `const [open, setOpen] = React.useState(false)`. */
    var open: bool
    /** `const [node, setNode] = React.useState(null)`. */
    var node: Option<Node>
    /** `const [nodePos, setNodePos] = React.useState(-1)`. */
    var nodePos: int
    /** The commands sent to the editor so far, oldest first. */
    var issued: seq<Command>

    constructor ()
      ensures !open && node == None && nodePos == -1 && issued == []
    {
      open := false;
      node := None;
      nodePos := -1;
      issued := [];
    }

    /** The drag-handle lock and the `lockDragHandle` meta both last set to `open`. */
    predicate LockMirrorsOpen()
      reads this
    {
      LastSetting(issued, Lock) == Some(open) && LastSetting(issued, Meta("lockDragHandle")) == Some(open)
    }

    /** `handleNodeChange`: the position always follows; the node only when one is reported. */
    method HandleNodeChange(data: NodeChangeData)
      modifies this
      ensures nodePos == data.pos
      ensures node == if data.node != None then data.node else old(node)
      ensures open == old(open) && issued == old(issued)
    {
      if data.node != None {
        node := data.node;
      }
      nodePos := data.pos;
    }

    /** The effect on `[editor, open]`: mirror `open` into the lock and its meta. */
    method LockEffect(editorPresent: bool)
      modifies this
      ensures issued == old(issued) + if editorPresent then [SetLockDragHandle(open), SetMeta("lockDragHandle", open)] else []
      ensures open == old(open) && node == old(node) && nodePos == old(nodePos)
      ensures editorPresent ==> LockMirrorsOpen()
    {
      if !editorPresent {
        return;
      }
      var added := [SetLockDragHandle(open), SetMeta("lockDragHandle", open)];
      LastSettingAppend(issued, added, Lock);
      LastSettingAppend(issued, added, Meta("lockDragHandle"));
      assert added[..1][..0] == [];
      issued := issued + added;
    }

    /**
     * The menu's `onOpenChange` (`setOpen`); React re-runs the effect only
     * when the value changed.
     */
    method OnOpenChange(newOpen: bool, editorPresent: bool)
      modifies this
      ensures open == newOpen && node == old(node) && nodePos == old(nodePos)
      ensures newOpen == old(open) ==> issued == old(issued)
      ensures newOpen != old(open) ==>
                issued == old(issued) + if editorPresent then [SetLockDragHandle(open), SetMeta("lockDragHandle", open)] else []
      ensures editorPresent && old(LockMirrorsOpen()) ==> LockMirrorsOpen()
      ensures editorPresent && newOpen != old(open) ==> LockMirrorsOpen()
    {
      if newOpen != open {
        open := newOpen;
        LockEffect(editorPresent);
      }
    }

    /** `handleOnMenuClose`: ask the extension to hide the handle. */
    method OnMenuClose(editorPresent: bool)
      modifies this
      ensures issued == old(issued) + if editorPresent then [SetMeta("hideDragHandle", true)] else []
      ensures open == old(open) && node == old(node) && nodePos == old(nodePos)
      ensures old(LockMirrorsOpen()) ==> LockMirrorsOpen()
    {
      if editorPresent {
        var added := [SetMeta("hideDragHandle", true)];
        LastSettingAppend(issued, added, Lock);
        LastSettingAppend(issued, added, Meta("lockDragHandle"));
        assert added[..0] == [];
        issued := issued + added;
      }
    }

    /** The grip's `onMouseDown`: select the node the handle is on. */
    method OnGripMouseDown(editorPresent: bool)
      modifies this
      ensures issued == old(issued) + if editorPresent then [SetNodeSelection(nodePos)] else []
      ensures open == old(open) && node == old(node) && nodePos == old(nodePos)
      ensures old(LockMirrorsOpen()) ==> LockMirrorsOpen()
    {
      if editorPresent {
        var added := [SetNodeSelection(nodePos)];
        LastSettingAppend(issued, added, Lock);
        LastSettingAppend(issued, added, Meta("lockDragHandle"));
        assert added[..0] == [];
        issued := issued + added;
      }
    }
  }

  // ---------------------------------------------------------------------------
  // The offset middleware
  // ---------------------------------------------------------------------------

  const DragHandleHeight: real := 32.0

  datatype Offset = Offset(mainAxis: real, crossAxis: real)

  /** The `offset` middleware, from the height of the block the handle is on. */
  function DragHandleOffset(nodeHeight: real): (o: Offset)
    ensures o.mainAxis == 16.0
    // a tall block (likely a block node) keeps the handle at its top edge
    ensures nodeHeight > 40.0 ==> o.crossAxis == 0.0
    // a short one centres the handle on it
    ensures nodeHeight <= 40.0 ==> o.crossAxis + DragHandleHeight / 2.0 == nodeHeight / 2.0
    ensures 0.0 <= nodeHeight <= 40.0 ==> -16.0 <= o.crossAxis <= 4.0
  {
    var crossAxis := nodeHeight / 2.0 - DragHandleHeight / 2.0;
    Offset(16.0, if nodeHeight > 40.0 then 0.0 else crossAxis)
  }

  // ---------------------------------------------------------------------------
  // useNodeTransformActions
  // ---------------------------------------------------------------------------

  datatype ListKind = BulletList | OrderedList | TaskList

  /** The block types the "Turn into" submenu offers. */
  datatype BlockKind = Text | Heading(level: nat) | List(kind: ListKind) | Blockquote | CodeBlock

  /** What one of the block hooks (`useText`, `useHeading`, ...) reports. */
  datatype HookState = HookState(title: string, canToggle: bool, isActive: bool)

  /** One entry of the submenu. */
  datatype TurnIntoEntry = TurnIntoEntry(kind: BlockKind, title: string, disabled: bool, isActive: bool)

  /** The order the submenu lists its entries in. */
  const TurnIntoOrder: seq<BlockKind> :=
    [Text, Heading(1), Heading(2), Heading(3), List(BulletList), List(OrderedList), List(TaskList), Blockquote, CodeBlock]

  /** `mapper`: an entry is disabled exactly when its hook cannot toggle. */
  function Mapper(kind: BlockKind, action: HookState): (e: TurnIntoEntry)
    ensures e.kind == kind && e.title == action.title
    ensures e.disabled <==> !action.canToggle
    ensures e.isActive == action.isActive
  {
    TurnIntoEntry(kind, action.title, !action.canToggle, action.isActive)
  }

  /** `useNodeTransformActions`; `hooks(k)` is what the hook for block kind `k` reports. */
  function NodeTransformActions(hooks: BlockKind -> HookState): (es: seq<TurnIntoEntry>)
    // entry `k` is the mapped hook of the `k`-th block kind of the order
    ensures |es| == |TurnIntoOrder|
    ensures forall k :: 0 <= k < |es| ==> es[k] == Mapper(TurnIntoOrder[k], hooks(TurnIntoOrder[k]))
  {
    var es :=
      [Mapper(Text, hooks(Text))]
      + seq(3, i requires 0 <= i < 3 => Mapper(Heading(i + 1), hooks(Heading(i + 1))))
      + [ Mapper(List(BulletList), hooks(List(BulletList))),
          Mapper(List(OrderedList), hooks(List(OrderedList))),
          Mapper(List(TaskList), hooks(List(TaskList))),
          Mapper(Blockquote, hooks(Blockquote)),
          Mapper(CodeBlock, hooks(CodeBlock)) ];
    assert es[1] == Mapper(Heading(1), hooks(Heading(1)));
    assert es[2] == Mapper(Heading(2), hooks(Heading(2)));
    assert es[3] == Mapper(Heading(3), hooks(Heading(3)));
    es
  }

  /**
   * The submenu has exactly nine entries in the fixed order, each carrying
   * its own hook's label and active flag and disabled iff it cannot toggle;
   * no block kind is offered twice.
   */
  lemma TurnIntoEntriesInOrder(hooks: BlockKind -> HookState)
    ensures var es := NodeTransformActions(hooks);
            && |es| == |TurnIntoOrder| == 9
            && (forall k :: 0 <= k < 9 ==>
                  es[k].kind == TurnIntoOrder[k]
                  && es[k].title == hooks(TurnIntoOrder[k]).title
                  && (es[k].disabled <==> !hooks(TurnIntoOrder[k]).canToggle)
                  && es[k].isActive == hooks(TurnIntoOrder[k]).isActive)
            && (forall a, b :: 0 <= a < b < 9 ==> es[a].kind != es[b].kind)
  {
    var es := NodeTransformActions(hooks);
    OrderIsDistinct();
    forall a, b | 0 <= a < b < 9
      ensures es[a].kind != es[b].kind
    {
      assert es[a].kind == TurnIntoOrder[a] && es[b].kind == TurnIntoOrder[b];
    }
  }

  /** No block kind appears twice in the order. */
  lemma OrderIsDistinct()
    ensures forall a, b :: 0 <= a < b < |TurnIntoOrder| ==> TurnIntoOrder[a] != TurnIntoOrder[b]
  {
  }

  // ---------------------------------------------------------------------------
  // The rendered handle and menu
  // ---------------------------------------------------------------------------

  /** What `useMenuActionVisibility` reports for the current editor. */
  datatype ActionVisibility = ActionVisibility(
    hasAnyActionGroups: bool,
    hasColorActions: bool,
    hasTransformActions: bool,
    hasResetFormatting: bool,
    hasImage: bool
  )

  /** A node-specific group of the menu's first section. */
  datatype NodeGroup = ColorActions | TransformActions(entries: seq<TurnIntoEntry>) | ResetFormatting | ImageActions

  /** A section of the menu's list. */
  datatype MenuSection =
    | NodeActions(displayName: string, groups: seq<NodeGroup>)
    | ActionsSeparator
    | CoreActions
    | AiActions
    | DeleteAction

  /** `AIActionGroup`: nothing unless the AI can be asked. */
  function AiActionGroup(canAiAsk: bool): (r: seq<MenuSection>)
    ensures r == [] <==> !canAiAsk
    ensures r != [] ==> r == [AiActions]
  {
    if !canAiAsk then [] else [AiActions]
  }

  /** The menu's list, top to bottom. */
  function MenuSections(displayName: string, vis: ActionVisibility, transformEntries: seq<TurnIntoEntry>, canAiAsk: bool)
    : (ms: seq<MenuSection>)
    // the node section, the core actions and the delete action are always there, in that order
    ensures |ms| == 3 + (if vis.hasAnyActionGroups then 1 else 0) + (if canAiAsk then 1 else 0)
    ensures ms[0].NodeActions? && ms[0].displayName == displayName
    ensures ms[|ms| - 1] == DeleteAction
  {
    var groups :=
      (if vis.hasColorActions then [ColorActions] else [])
      + (if vis.hasTransformActions then [TransformActions(transformEntries)] else [])
      + (if vis.hasResetFormatting then [ResetFormatting] else [])
      + (if vis.hasImage then [ImageActions] else []);
    [NodeActions(displayName, groups)]
    + (if vis.hasAnyActionGroups then [ActionsSeparator] else [])
    + [CoreActions]
    + AiActionGroup(canAiAsk)
    + [DeleteAction]
  }

  /**
   * Each node-specific group is present iff its flag holds, the separator iff
   * `hasAnyActionGroups`, the AI group iff `canAiAsk`; the node section comes
   * first, the core actions always, and the delete action always last.
   */
  lemma MenuSectionsPresence(displayName: string, vis: ActionVisibility, entries: seq<TurnIntoEntry>, canAiAsk: bool)
    ensures var ms := MenuSections(displayName, vis, entries, canAiAsk);
            && ms[0].NodeActions? && ms[0].displayName == displayName
            && (ColorActions in ms[0].groups <==> vis.hasColorActions)
            && (TransformActions(entries) in ms[0].groups <==> vis.hasTransformActions)
            && (ResetFormatting in ms[0].groups <==> vis.hasResetFormatting)
            && (ImageActions in ms[0].groups <==> vis.hasImage)
            && (ActionsSeparator in ms <==> vis.hasAnyActionGroups)
            && (AiActions in ms <==> canAiAsk)
            && CoreActions in ms
            && ms[|ms| - 1] == DeleteAction
  {
  }

  /** The component's props that the model keeps; an absent prop takes its default. */
  datatype Props = Props(withSlashCommandTrigger: Option<bool>, mobileBreakpoint: Option<int>)

  /** The breakpoint `useIsMobile` is called with. */
  function MobileBreakpoint(props: Props): (b: int)
    ensures props.mobileBreakpoint == None ==> b == 768
    ensures props.mobileBreakpoint != None ==> b == props.mobileBreakpoint.value
  {
    props.mobileBreakpoint.GetOr(768)
  }

  /** The handle's buttons are invisible and inert during AI generation, on mobile, or over a text selection. */
  function HandleButtonsHidden(aiGenerationActive: bool, isMobile: bool, e: EditorSnapshot): (hidden: bool)
    // during an AI generation or on mobile the buttons are hidden whatever the selection
    ensures aiGenerationActive || isMobile ==> hidden
    // otherwise they are visible exactly when no text selection is valid
    ensures !aiGenerationActive && !isMobile ==> (hidden <==> e.textSelectionValid)
  {
    aiGenerationActive || isMobile || e.textSelectionValid
  }

  /** The slash-command trigger button, with the node and position it acts on. */
  datatype SlashTrigger = SlashTrigger(node: Option<Node>, nodePos: int)

  datatype DragHandleView = DragHandleView(
    buttonsHidden: bool,                 // opacity 0 and no pointer events
    slashTrigger: Option<SlashTrigger>,
    gripPointerEventsNone: bool,
    offset: Offset,
    menu: seq<MenuSection>
  )

  /**
   * The render of `DragContextMenu` for the state (`open`, `node`,
   * `nodePos`), the editor and the hook results.
   */
  function Render(editor: Option<EditorSnapshot>, props: Props, ui: UiEditorState, isMobile: bool,
                  open: bool, node: Option<Node>, nodePos: int, nodeHeight: real,
                  vis: ActionVisibility, hooks: BlockKind -> HookState, canAiAsk: bool, displayName: string)
    : (r: Option<DragHandleView>)
    ensures r == None <==> editor == None
    ensures r != None ==>
              && (r.value.buttonsHidden <==> ui.aiGenerationActive || isMobile || editor.value.textSelectionValid)
              && (r.value.slashTrigger != None <==> props.withSlashCommandTrigger != Some(false))
              && (r.value.slashTrigger != None ==> r.value.slashTrigger.value == SlashTrigger(node, nodePos))
              && (r.value.gripPointerEventsNone <==> open)
              && r.value.offset == DragHandleOffset(nodeHeight)
              && r.value.menu == MenuSections(displayName, vis, NodeTransformActions(hooks), canAiAsk)
  {
    match editor
    case None => None
    case Some(e) =>
      Some(DragHandleView(
        HandleButtonsHidden(ui.aiGenerationActive, isMobile, e),
        if props.withSlashCommandTrigger.GetOr(true) then Some(SlashTrigger(node, nodePos)) else None,
        open,
        DragHandleOffset(nodeHeight),
        MenuSections(displayName, vis, NodeTransformActions(hooks), canAiAsk)))
  }
}
