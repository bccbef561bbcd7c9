# Toolbar and menu decision logic of a Tiptap editor UI

This project models the decision logic inside a React user interface built on
the Tiptap rich-text editor (the "notion-like" and "simple" editor
templates). The logic decides what UI may be shown, in which view, and where
it is placed. The editor engine is not modelled. Each editor query the
components make is an uninterpreted field of an `EditorSnapshot` value:
`isEditable`, the selection, `isSelectionValid`, `isTextSelectionValid`,
`isActive`, `canToggleMark`, `canSetTextAlign` and `view.dragging`.

The modelled pieces are:

- **Slash-command menu `List`** (`SlashMenu`). The filtered suggestion items
  are rendered either flat, or grouped by each item's `group` label.
  - Groups come in first-occurrence order, with a separator between
    consecutive groups.
  - A labelled group becomes one labelled block. The unlabelled group's rows
    are spliced in inline.
  - A row is selected when its original index is the menu's `selectedIndex`.
  - The rendering pass is an imperative method (`RenderList`, with
    `GroupItems` for the grouping dictionary). Each is proved equal to a
    specification function, and the promised properties are proved about
    that function.
- **Floating toolbar** (`FloatingToolbar`). Covers the `shouldShow` state of
  `NotionToolbarFloating`, and `canMoreOptions`, `shouldShowMoreOptions` and
  the `show` state of `MoreOptions`.
  - Each component is a class: the effect is `Setup`, the `selectionUpdate`
    listener is `SelectionUpdate`, and the render guard is `Render`.
- **View-mode machine** (`ViewMode`). The main ↔ highlighter/link state shared
  by the mobile toolbar's `useToolbarState` and the simple editor's
  `mobileView`, together with the reset to `main` when the viewport stops
  being mobile.
- **Mobile toolbar** (`MobileToolbar`). The view state class,
  `hasTextSelection`, the view registry and lookup, the view buttons, the main
  content, the render guard and view choice, and the viewport transform.
- **Simple editor template** (`SimpleEditorTemplate`). The `mobileView` class
  and its click handlers, the toolbar content chosen from the view, and the
  editor content area's guard and cursor.
- **Drag-handle context menu** (`DragContextMenu`). Covers:
  - the `open`/`node`/`nodePos` state;
  - the log of editor commands the component issues (lock, meta, node
    selection), and the invariant that the drag-handle lock and the
    `lockDragHandle` meta mirror `open`;
  - the offset rule and the handle hide rule;
  - the ordered "turn into" list and the menu sections.

Behaviour of the code worth noting (the model follows the code):

- `showView` sets whatever view id it is given. No id is rejected. A view
  with no registry entry simply renders nothing inside the toolbar.
- `NotionToolbarFloating` does not itself check `isEditable` or
  `lockDragHandle` when it computes `shouldShow`.
  - With no editor, the effect returns early and `shouldShow` keeps its
    previous value.
  - `lockDragHandle` hides the toolbar in the render guard instead.
- `shouldShowMoreOptions` consults capability availability only when
  `hideWhenUnavailable` holds and the code mark is not active. Otherwise it
  follows `isEditable`.
- The viewport transform has no special case for a zero-height body or for
  non-finite values. The only fallback to `'none'` is the exception path.

## Model

| member | source | states |
|---|---|---|
| SlashMenu.ShowGroups | components/tiptap-ui/slash-dropdown-menu/slash-dropdown-menu.tsx:105 | grouping is off exactly when a configuration is given whose `showGroups` is exactly `false`; a missing configuration or option means grouped |
| SlashMenu.GroupItems | components/tiptap-ui/slash-dropdown-menu/slash-dropdown-menu.tsx:121-132 | the grouping pass creates one record per label, in first-occurrence order; each record holds exactly the items with that label and their original indices |
| SlashMenu.RenderList | components/tiptap-ui/slash-dropdown-menu/slash-dropdown-menu.tsx:103-166 | the rows pushed by the flat or the grouped pass are exactly the rendering the specification function describes |
| SlashMenu.RenderFlat | components/tiptap-ui/slash-dropdown-menu/slash-dropdown-menu.tsx:107-119 | with grouping off, the rows pushed are one inline row per item, in input order, selected exactly at the selected index |
| SlashMenu.RenderGrouped | components/tiptap-ui/slash-dropdown-menu/slash-dropdown-menu.tsx:121-165 | with grouping on, the rows pushed are the groups in creation order, a separator before all but the first, labelled groups as blocks and the unlabelled group inline |
| SlashMenu.List | components/tiptap-ui/slash-dropdown-menu/slash-dropdown-menu.tsx:97-182 | the card is absent exactly when there are no items; otherwise it holds the rendered rows |
| SlashMenu.FlatListInOrder | components/tiptap-ui/slash-dropdown-menu/slash-dropdown-menu.tsx:107-118 | flat mode renders one row per item, in input order; row i carries item i and is selected iff i is the selected index; there are no separators |
| SlashMenu.RowsArePermutationOfItems | components/tiptap-ui/slash-dropdown-menu/slash-dropdown-menu.tsx:103-163 | in both modes the original indices of the rows are a permutation of 0..n-1 (every item exactly once); each row carries its own item and is selected iff its original index is the selected index |
| SlashMenu.SelectionIsUnique | components/tiptap-ui/slash-dropdown-menu/slash-dropdown-menu.tsx:141-151 | at most one row is selected, and exactly one iff 0 <= selectedIndex < number of items |
| SlashMenu.SeparatorsBetweenGroups | components/tiptap-ui/slash-dropdown-menu/slash-dropdown-menu.tsx:134-139 | grouped mode emits one separator fewer than there are groups |
| SlashMenu.GroupOrderLabels | components/tiptap-ui/slash-dropdown-menu/slash-dropdown-menu.tsx:125-129 | each label gets one group, and a group exists exactly for the labels some item carries (a missing label counting as the empty label) |
| SlashMenu.GroupOrderIsFirstOccurrence | components/tiptap-ui/slash-dropdown-menu/slash-dropdown-menu.tsx:125-134 | groups come in order of first occurrence: every item of a later group is preceded by an item of each earlier group |
| SlashMenu.GroupIndicesIncrease | components/tiptap-ui/slash-dropdown-menu/slash-dropdown-menu.tsx:130-131 | within a group, all items carry the group's label and their original indices strictly increase |
| SlashMenu.GroupIndicesCount | components/tiptap-ui/slash-dropdown-menu/slash-dropdown-menu.tsx:125-132 | a group's index list holds each index once if that item carries the label, and never otherwise |
| SlashMenu.UngroupedIsFlat | components/tiptap-ui/slash-dropdown-menu/slash-dropdown-menu.tsx:153-162 | when no item has a label, the grouped rendering equals the flat rendering |
| SlashMenu.RenderedEmptyIff | components/tiptap-ui/slash-dropdown-menu/slash-dropdown-menu.tsx:168-170 | the rendering is empty exactly when there are no items, in both modes |
| SlashMenu.AsWrittenThrowsIff | components/tiptap-ui/slash-dropdown-menu/slash-dropdown-menu.tsx:121-132 | the pass over a plain object throws exactly when some label names an inherited `Object.prototype` member; otherwise it creates the same groups, in the same order, as the corrected pass |
| SlashMenu.GroupKeysAsWritten | components/tiptap-ui/slash-dropdown-menu/slash-dropdown-menu.tsx:121-132 | the grouping pass over a plain object; when it completes, the keys it created are distinct and none names an inherited member (when it throws is in `AsWrittenThrowsIff`) |
| SlashMenu.ConstructorLabelThrows | components/tiptap-ui/slash-dropdown-menu/slash-dropdown-menu.tsx:126-130 | a single item labelled "constructor" makes the pass as written throw, while the corrected rendering shows it as one labelled, selected group |
| FloatingToolbar.FloatingShouldShow | components/tiptap-templates/simple/notion-like-editor-toolbar-floating.tsx:48-63 | a comment input or an AI generation always hides the toolbar; otherwise it shows iff the selection is valid and is not a node selection, or selects an image |
| FloatingToolbar.NotionToolbarFloating.constructor | components/tiptap-templates/simple/notion-like-editor-toolbar-floating.tsx:43 | `shouldShow` starts false, with no listener |
| FloatingToolbar.NotionToolbarFloating.Setup | components/tiptap-templates/simple/notion-like-editor-toolbar-floating.tsx:45-72 | with an editor, evaluates the decision once and subscribes the handler with the current flags; without one, leaves `shouldShow` as it was and subscribes nothing |
| FloatingToolbar.NotionToolbarFloating.SelectionUpdate | components/tiptap-templates/simple/notion-like-editor-toolbar-floating.tsx:48-63 | a selection update re-evaluates the same decision with the flags the listener closed over; without a listener nothing changes |
| FloatingToolbar.NotionToolbarFloating.Render | components/tiptap-templates/simple/notion-like-editor-toolbar-floating.tsx:74-79 | nothing is rendered iff the drag handle is locked or the viewport is mobile, whatever `shouldShow` is; otherwise the floating element gets `shouldShow` |
| FloatingToolbar.CanMoreOptions | components/tiptap-templates/simple/notion-like-editor-toolbar-floating.tsx:112-126 | false without an editor; otherwise true iff superscript or subscript can be toggled or some alignment can be set |
| FloatingToolbar.ShouldShowMoreOptions | components/tiptap-templates/simple/notion-like-editor-toolbar-floating.tsx:128-143 | no editor gives false; `hideWhenUnavailable` outside a code mark gives `canMoreOptions`; otherwise editability |
| FloatingToolbar.MoreOptions.constructor | components/tiptap-templates/simple/notion-like-editor-toolbar-floating.tsx:163 | `show` starts false, with no listener |
| FloatingToolbar.MoreOptions.Setup | components/tiptap-templates/simple/notion-like-editor-toolbar-floating.tsx:157-184 | with an editor, `show` becomes `shouldShowMoreOptions` with `hideWhenUnavailable` defaulting to false, and the handler is subscribed |
| FloatingToolbar.MoreOptions.SelectionUpdate | components/tiptap-templates/simple/notion-like-editor-toolbar-floating.tsx:168-175 | a selection update re-evaluates `shouldShowMoreOptions` with the closed-over flag |
| FloatingToolbar.MoreOptions.Render | components/tiptap-templates/simple/notion-like-editor-toolbar-floating.tsx:186-188 | the dropdown renders iff `show` holds and the editor is present and editable |
| FloatingToolbar.MoreOptionsDefaultFollowsEditable | components/tiptap-templates/simple/notion-like-editor-toolbar-floating.tsx:138-159 | with the default flag the dropdown follows editability; inside a code mark it follows editability too; otherwise, when shown with the flag set, some secondary option is available |
| ViewMode.Reset | components/tiptap-templates/simple/notion-like-editor-mobile-toolbar.tsx:120-124 | off mobile the view becomes main; on mobile it is unchanged |
| ViewMode.SpecializedOnlyByOpen | components/tiptap-templates/simple/notion-like-editor-mobile-toolbar.tsx:117-133 | starting in main, a specialised view is reached only by a cycle that opened it, and it survives only while every later cycle runs on mobile |
| ViewMode.DesktopCycleEndsInMain | components/tiptap-templates/simple/simple-editor.tsx:291-295 | after a cycle on a desktop viewport, the machine stays in main until a specialised view is opened again |
| MobileToolbar.ToolbarState.constructor | components/tiptap-templates/simple/notion-like-editor-mobile-toolbar.tsx:118 | the view starts as main |
| MobileToolbar.ToolbarState.IsMainView | components/tiptap-templates/simple/notion-like-editor-mobile-toolbar.tsx:129 | `isMainView` holds iff the view is main |
| MobileToolbar.ToolbarState.ShowMainView | components/tiptap-templates/simple/notion-like-editor-mobile-toolbar.tsx:130 | `showMainView` yields main |
| MobileToolbar.ToolbarState.ShowView | components/tiptap-templates/simple/notion-like-editor-mobile-toolbar.tsx:131 | `showView(id)` yields exactly `id`; no id is rejected |
| MobileToolbar.ToolbarState.ResetEffect | components/tiptap-templates/simple/notion-like-editor-mobile-toolbar.tsx:120-124 | off mobile the view is reset to main; on mobile it is unchanged |
| MobileToolbar.ToolbarState.RunCycle | components/tiptap-templates/simple/notion-like-editor-mobile-toolbar.tsx:117-133 | a handler call followed by the reset effect is one step of the view-mode machine |
| MobileToolbar.HasTextSelection | components/tiptap-templates/simple/notion-like-editor-mobile-toolbar.tsx:135-140 | false without an editor or when it is read-only; otherwise true iff the selection is not empty |
| MobileToolbar.Lookup | components/tiptap-templates/simple/notion-like-editor-mobile-toolbar.tsx:626-630 | a found entry is in the registry under the requested id; nothing is found only when no entry has that id |
| MobileToolbar.CreateToolbarViewRegistry | components/tiptap-templates/simple/notion-like-editor-mobile-toolbar.tsx:169-190 | the registry has exactly two entries, highlighter then link, and each has both a mobile button and a desktop component (lookup behaviour in `RegistryCoversSpecializedViews`) |
| MobileToolbar.RegistryCoversSpecializedViews | components/tiptap-templates/simple/notion-like-editor-mobile-toolbar.tsx:169-190 | the created registry lists highlighter then link; lookup succeeds iff the id is not main, and each entry has a mobile button and a desktop component |
| MobileToolbar.ToolbarViewButton | components/tiptap-templates/simple/notion-like-editor-mobile-toolbar.tsx:464-489 | on mobile, the view's own mobile button if it has one, otherwise its icon in a plain button, either requesting the view's id; on desktop, the view's own desktop component, or nothing, requesting no view |
| MobileToolbar.ToolbarViewsGroup | components/tiptap-templates/simple/notion-like-editor-mobile-toolbar.tsx:497-514 | one button per registry entry, in registry order |
| MobileToolbar.MainToolbarContent | components/tiptap-templates/simple/notion-like-editor-mobile-toolbar.tsx:527-580 | the slash/more-actions, separator and move groups always lead, and nothing follows them exactly when there is no text selection (the presence of each later group is in `MainContentGroups`) |
| MobileToolbar.MainContentGroups | components/tiptap-templates/simple/notion-like-editor-mobile-toolbar.tsx:527-580 | the slash/more-actions and move groups always lead; the formatting, views, script, alignment and image groups are present iff there is a text selection |
| MobileToolbar.MobileToolbarRender | components/tiptap-templates/simple/notion-like-editor-mobile-toolbar.tsx:619-670 | nothing unless mobile with an editable editor, whatever the view; main content in main view; otherwise the registry entry for the view, or no content when there is none; bottom offset is height minus the cursor's y |
| MobileToolbar.SpecializedViewShowsItsEntry | components/tiptap-templates/simple/notion-like-editor-mobile-toolbar.tsx:626-667 | with the created registry, a specialised view always shows its own entry and panel |
| MobileToolbar.ViewportTransform.constructor | components/tiptap-templates/simple/notion-like-editor-mobile-toolbar.tsx:146 | the transform starts as none |
| MobileToolbar.ViewportTransform.Update | components/tiptap-templates/simple/notion-like-editor-mobile-toolbar.tsx:148-160 | with no document nothing changes; a throwing computation gives none; otherwise the body is shifted right by the viewport's left offset and down so that its bottom edge meets the visual viewport's bottom edge |
| SimpleEditorTemplate.ClickAction | components/tiptap-templates/simple/simple-editor.tsx:313-318 | no click handler opens main as a specialised view |
| SimpleEditorTemplate.SimpleEditor.constructor | components/tiptap-templates/simple/simple-editor.tsx:227-229 | the view starts as main |
| SimpleEditorTemplate.SimpleEditor.OnHighlighterClick | components/tiptap-templates/simple/simple-editor.tsx:313 | the highlighter click sets the highlighter view |
| SimpleEditorTemplate.SimpleEditor.OnLinkClick | components/tiptap-templates/simple/simple-editor.tsx:314 | the link click sets the link view |
| SimpleEditorTemplate.SimpleEditor.OnBack | components/tiptap-templates/simple/simple-editor.tsx:318 | back sets main |
| SimpleEditorTemplate.SimpleEditor.ResetEffect | components/tiptap-templates/simple/simple-editor.tsx:291-295 | off mobile the view is reset to main; on mobile it is unchanged |
| SimpleEditorTemplate.SimpleEditor.RunCycle | components/tiptap-templates/simple/simple-editor.tsx:291-321 | a click followed by the reset effect is one step of the view-mode machine |
| SimpleEditorTemplate.MainToolbarContent | components/tiptap-templates/simple/simple-editor.tsx:119-151 | on mobile the highlighter and link controls are buttons that open their views; on desktop they are popovers; the separator before the theme toggle appears only on mobile |
| SimpleEditorTemplate.MobileToolbarContent | components/tiptap-templates/simple/simple-editor.tsx:160-187 | the back button returns to main; the highlighter icon and panel are shown iff the type is highlighter, the link ones otherwise |
| SimpleEditorTemplate.ToolbarRender | components/tiptap-templates/simple/simple-editor.tsx:300-321 | main content iff the view is main; otherwise the type is highlighter iff the view is highlighter; the bottom offset is set only on mobile |
| SimpleEditorTemplate.SpecializedContentMatchesView | components/tiptap-templates/simple/simple-editor.tsx:310-321 | a specialised view shows its own icon and panel, and its back button leads to the main content |
| SimpleEditorTemplate.DesktopShowsMainContent | components/tiptap-templates/simple/simple-editor.tsx:291-321 | on a desktop viewport every render cycle ends with the main content and popover controls |
| SimpleEditorTemplate.EditorContentArea | components/tiptap-templates/simple/simple-editor.tsx:192-210 | nothing without an editor; otherwise the cursor is grabbing iff the view is dragging |
| DragContextMenu.LastSetting | components/tiptap-ui/drag-context-menu/drag-context-menu.tsx:457-461 | a setting has no last value exactly when no issued command sets it |
| DragContextMenu.LastSettingAppend | components/tiptap-ui/drag-context-menu/drag-context-menu.tsx:457-461 | later commands override earlier ones only for the settings they touch |
| DragContextMenu.DragContextMenuState.constructor | components/tiptap-ui/drag-context-menu/drag-context-menu.tsx:448-450 | the menu starts closed, with no node and position -1 |
| DragContextMenu.DragContextMenuState.HandleNodeChange | components/tiptap-ui/drag-context-menu/drag-context-menu.tsx:452-455 | the position is always replaced; the node only when one is reported, else the previous node is kept |
| DragContextMenu.DragContextMenuState.LockEffect | components/tiptap-ui/drag-context-menu/drag-context-menu.tsx:457-461 | with an editor, the lock and then the `lockDragHandle` meta are set to `open`, after which both mirror `open`; without one, nothing is issued |
| DragContextMenu.DragContextMenuState.OnOpenChange | components/tiptap-ui/drag-context-menu/drag-context-menu.tsx:521-523 | the menu's open state follows the request; a change re-runs the lock effect, so the lock and meta mirror `open` afterwards |
| DragContextMenu.DragContextMenuState.OnMenuClose | components/tiptap-ui/drag-context-menu/drag-context-menu.tsx:490-494 | closing sets the `hideDragHandle` meta to true and keeps the lock mirroring `open` |
| DragContextMenu.DragContextMenuState.OnGripMouseDown | components/tiptap-ui/drag-context-menu/drag-context-menu.tsx:531-534 | mouse-down on the grip selects the node at `nodePos` and keeps the lock mirroring `open` |
| DragContextMenu.DragHandleOffset | components/tiptap-ui/drag-context-menu/drag-context-menu.tsx:471-488 | mainAxis is 16; a block taller than 40 gets crossAxis 0; a shorter one is centred on the 32-high handle, so crossAxis lies between -16 and 4 |
| DragContextMenu.Mapper | components/tiptap-ui/drag-context-menu/drag-context-menu.tsx:111-125 | an entry carries its hook's label and active flag and is disabled iff the hook cannot toggle |
| DragContextMenu.NodeTransformActions | components/tiptap-ui/drag-context-menu/drag-context-menu.tsx:100-136 | nine entries, entry `k` being the mapped hook of the `k`-th kind of the fixed order (distinctness in `TurnIntoEntriesInOrder`) |
| DragContextMenu.TurnIntoEntriesInOrder | components/tiptap-ui/drag-context-menu/drag-context-menu.tsx:127-135 | exactly nine entries: text, heading 1-3, bullet, ordered and task list, blockquote, code block, each from its own hook, none repeated |
| DragContextMenu.AiActionGroup | components/tiptap-ui/drag-context-menu/drag-context-menu.tsx:400-421 | the AI group renders nothing unless the AI can be asked |
| DragContextMenu.MenuSections | components/tiptap-ui/drag-context-menu/drag-context-menu.tsx:559-576 | the node section first and the delete action last; one more section for the separator iff `hasAnyActionGroups` and one for the AI group iff `canAiAsk` (presence of each in `MenuSectionsPresence`) |
| DragContextMenu.MenuSectionsPresence | components/tiptap-ui/drag-context-menu/drag-context-menu.tsx:559-576 | each node-specific group is present iff its flag holds; the separator iff `hasAnyActionGroups`; the AI group iff `canAiAsk`; the core actions always; delete always last |
| DragContextMenu.MobileBreakpoint | components/tiptap-ui/drag-context-menu/drag-context-menu.tsx:442 | the mobile breakpoint defaults to 768 |
| DragContextMenu.HandleButtonsHidden | components/tiptap-ui/drag-context-menu/drag-context-menu.tsx:508-510 | the handle buttons are hidden whenever an AI generation runs or the viewport is mobile; otherwise exactly when a text selection is valid |
| DragContextMenu.Render | components/tiptap-ui/drag-context-menu/drag-context-menu.tsx:496-582 | nothing without an editor; the buttons are hidden iff an AI generation runs, the viewport is mobile or a text selection is valid; the slash trigger is present unless switched off, on the current node and position; the grip ignores pointer events iff the menu is open |

## Findings

| source | as written | input that shows it | evidently intended | confidence | as-written member | corrected member |
|---|---|---|---|---|---|---|
| components/tiptap-ui/slash-dropdown-menu/slash-dropdown-menu.tsx:121-131 | `groups` is a plain object literal. For a label naming an inherited member, `!groups[groupLabel]` is false, so no record is created and `groups[groupLabel].items.push` is a call on `undefined`, which throws a TypeError | one suggestion item with `group: "constructor"` (likewise `"toString"`, `"__proto__"`, ...) in grouped mode | every label gets its own group, as for any other string | not executed | SlashMenu.ConstructorLabelThrows | SlashMenu.GroupItems |

## Left out

- The items pipeline of `SlashDropdownMenu` (`getSlashMenuItems`, `filterSuggestionItems`) is not part of this model, because its bodies are in files the model does not cover. `List` receives the already filtered items as its input.
- Key order of `Object.entries`: JavaScript lists integer-like keys (such as "1" or "42") first, in ascending order. With numeric group labels, the groups would therefore not come out in first-occurrence order. The model uses first-occurrence order, which is what the code intends for all other labels.
- `isSelectionValid`, `isTextSelectionValid`, `canToggleMark`, `canSetTextAlign`, `useMenuActionVisibility`, `useUiEditorState`, `useIsMobile`, `useCursorVisibility`, `useWindowSize`, `getNodeDisplayName` and the block hooks (`useText`, `useHeading`, ...) are inputs. Their answers are fields or parameters, because their bodies are not part of this model.
- The recent-colours state (`useRecentColors`) and the colour submenus are not part of this model, because their behaviour lives in files the model does not cover.
- MobileToolbar.ViewportTransform.Update: the `scale(1 / vp.scale)` part and the CSS string formatting are not modelled. They are floating-point presentation. Offsets are reals.
- The React lifecycle is not modelled. That covers effect scheduling, listener registration and removal, re-render batching, refs, and the scroll-into-view and overflow detection of the slash `Item`. Each handler or effect call is one synchronous method call.
- Markup, icons, styles, extension configuration and image upload in the templates are not modelled. Neither is the `onSelect` callback of slash rows, which only forwards the row's item.
- The header, the mode switcher and the character-count button are not part of this model. They hold static layout, a theme ternary and extension storage reads.
