/**
 * The rich-text engine as the UI core sees it: a read-only snapshot of the
 * answers to the queries the components make.  The engine itself (selection
 * model, schema, transactions) is not part of this model; each query the
 * components call on it is a field here, left uninterpreted.
 */
module Editor {

  datatype Mark = Bold | Italic | Strike | Code | Underline | Superscript | Subscript

  datatype TextAlign = Left | Center | Right | Justify

  /** `editor.state.selection`: `empty` is a caret; `node` is the selected node's type name for a node selection. */
  datatype Selection = Selection(empty: bool, node: NodeSelection)

  datatype NodeSelection = NotNodeSelection | NodeSelected(typeName: string)

  datatype EditorSnapshot = EditorSnapshot(
    isEditable: bool,              // editor.isEditable
    selection: Selection,          // editor.state.selection
    selectionValid: bool,          // isSelectionValid(editor, selection)
    textSelectionValid: bool,      // isTextSelectionValid(editor)
    activeMarks: set<Mark>,        // editor.isActive(mark)
    toggleableMarks: set<Mark>,    // canToggleMark(editor, mark)
    alignable: set<TextAlign>,     // canSetTextAlign(editor, align)
    dragging: bool                 // editor.view.dragging
  )

  /** The UI-state extension's flags (`useUiEditorState`). */
  datatype UiEditorState = UiEditorState(
    lockDragHandle: bool,
    aiGenerationActive: bool,
    commentInputVisible: bool
  )

  /** JavaScript's `xs.some(p)`. */
  function Any<T>(xs: seq<T>, p: T -> bool): (r: bool)
    ensures r <==> exists k :: 0 <= k < |xs| && p(xs[k])
  {
    if xs == [] then false
    else p(xs[0]) || Any(xs[1..], p)
  }
}
