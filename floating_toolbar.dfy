/**
 * The desktop floating toolbar (notion-like-editor-toolbar-floating.tsx): when
 * the floating formatting toolbar is shown, and when its "more options"
 * dropdown is offered.
 *
 * Each component's `useState` is a field of a class. Its `useEffect` is the
 * `Setup` method: it runs the `selectionUpdate` handler once and subscribes
 * it, or unsubscribes when there is no editor. The handler is the
 * `SelectionUpdate` method. The handler remembers the props it closed over
 * (`subscribed`), because the effect re-subscribes only when those change.
 */
module FloatingToolbar {
  import opened Wrappers
  import opened Editor

  // ---------------------------------------------------------------------------
  // NotionToolbarFloating
  // ---------------------------------------------------------------------------

  /** What the `selectionUpdate` handler of `NotionToolbarFloating` sets `shouldShow` to. */
  function FloatingShouldShow(e: EditorSnapshot, ui: UiEditorState): (r: bool)
    // a comment being typed or an AI generation running always hides the toolbar
    ensures ui.commentInputVisible || ui.aiGenerationActive ==> !r
    // otherwise: a valid selection that is not a node selection, or selects an image
    ensures !ui.commentInputVisible && !ui.aiGenerationActive ==>
              (r <==> e.selectionValid && (e.selection.node == NotNodeSelection || e.selection.node == NodeSelected("image")))
  {
    var validSelection :=
      e.selectionValid
      && (!e.selection.node.NodeSelected? || (e.selection.node.NodeSelected? && e.selection.node.typeName == "image"));
    if ui.commentInputVisible || ui.aiGenerationActive then false
    else validSelection
  }

  class NotionToolbarFloating {
    /** `const [shouldShow, setShouldShow] = React.useState(false)`. */
    var shouldShow: bool
    /** The UI flags the subscribed `selectionUpdate` handler closed over, if one is subscribed. */
    var subscribed: Option<UiEditorState>

    constructor ()
      ensures !shouldShow && subscribed == None
    {
      shouldShow := false;
      subscribed := None;
    }

    /** The effect, run for the current editor and UI flags. */
    method Setup(editor: Option<EditorSnapshot>, ui: UiEditorState)
      modifies this
      ensures editor == None ==> shouldShow == old(shouldShow) && subscribed == None
      ensures editor != None ==> shouldShow == FloatingShouldShow(editor.value, ui) && subscribed == Some(ui)
    {
      // the previous run's cleanup has already removed its handler
      subscribed := None;
      if editor == None {
        return;
      }
      shouldShow := FloatingShouldShow(editor.value, ui);
      subscribed := Some(ui);
    }

    /** The engine fires `selectionUpdate`; without a subscribed handler nothing happens. */
    method SelectionUpdate(e: EditorSnapshot)
      modifies this
      ensures subscribed == old(subscribed)
      ensures subscribed == None ==> shouldShow == old(shouldShow)
      ensures subscribed != None ==> shouldShow == FloatingShouldShow(e, subscribed.value)
    {
      if subscribed != None {
        shouldShow := FloatingShouldShow(e, subscribed.value);
      }
    }

    /**
     * The render: `None` is `return null`; `Some(s)` is the floating element
     * with `shouldShow={s}`.
     */
    function Render(isMobile: bool, ui: UiEditorState): (r: Option<bool>)
      reads this
      ensures r == None <==> ui.lockDragHandle || isMobile
      ensures r != None ==> r.value == shouldShow
    {
      if ui.lockDragHandle || isMobile then None
      else Some(shouldShow)
    }
  }

  // ---------------------------------------------------------------------------
  // MoreOptions
  // ---------------------------------------------------------------------------

  /** `canMoreOptions`: is any alignment settable or any of superscript/subscript toggleable. */
  function CanMoreOptions(editor: Option<EditorSnapshot>): (r: bool)
    ensures editor == None ==> !r
    ensures editor != None ==>
              (r <==> Superscript in editor.value.toggleableMarks || Subscript in editor.value.toggleableMarks
                      || editor.value.alignable != {})
  {
    if editor == None then false
    else
      var e := editor.value;
      var canTextAlignAny := Any([Left, Center, Right, Justify], (a: TextAlign) => a in e.alignable);
      var canMarkAny := Any([Superscript, Subscript], (m: Mark) => m in e.toggleableMarks);
      assert e.alignable != {} ==> canTextAlignAny by {
        if e.alignable != {} {
          var a :| a in e.alignable;
          var k := if a == Left then 0 else if a == Center then 1 else if a == Right then 2 else 3;
          assert [Left, Center, Right, Justify][k] == a;
        }
      }
      canMarkAny || canTextAlignAny
  }

  /** `shouldShowMoreOptions`. */
  function ShouldShowMoreOptions(editor: Option<EditorSnapshot>, hideWhenUnavailable: bool): (r: bool)
    ensures editor == None ==> !r
    // an editor with nothing to offer hides the dropdown only when asked to and not inside code
    ensures editor != None && hideWhenUnavailable && Code !in editor.value.activeMarks ==> (r <==> CanMoreOptions(editor))
    ensures editor != None && !(hideWhenUnavailable && Code !in editor.value.activeMarks) ==> (r <==> editor.value.isEditable)
  {
    if editor == None then false
    else if hideWhenUnavailable && Code !in editor.value.activeMarks then CanMoreOptions(editor)
    else editor.value.isEditable
  }

  class MoreOptions {
    /** `const [show, setShow] = React.useState(false)`. */
    var show: bool
    /** The `hideWhenUnavailable` the subscribed handler closed over, if one is subscribed. */
    var subscribed: Option<bool>

    constructor ()
      ensures !show && subscribed == None
    {
      show := false;
      subscribed := None;
    }

    /** The effect; an absent `hideWhenUnavailable` prop is `false`. */
    method Setup(editor: Option<EditorSnapshot>, hideWhenUnavailable: Option<bool>)
      modifies this
      ensures editor == None ==> show == old(show) && subscribed == None
      ensures editor != None ==>
                show == ShouldShowMoreOptions(editor, hideWhenUnavailable.GetOr(false))
                && subscribed == Some(hideWhenUnavailable.GetOr(false))
    {
      var hideIfNone := hideWhenUnavailable.GetOr(false);
      subscribed := None;
      if editor == None {
        return;
      }
      show := ShouldShowMoreOptions(editor, hideIfNone);
      subscribed := Some(hideIfNone);
    }

    method SelectionUpdate(e: EditorSnapshot)
      modifies this
      ensures subscribed == old(subscribed)
      ensures subscribed == None ==> show == old(show)
      ensures subscribed != None ==> show == ShouldShowMoreOptions(Some(e), subscribed.value)
    {
      if subscribed != None {
        show := ShouldShowMoreOptions(Some(e), subscribed.value);
      }
    }

    /** The render guard: the dropdown exists only for a shown, present, editable editor. */
    function Render(editor: Option<EditorSnapshot>): (visible: bool)
      reads this
      // a present, editable editor is necessary; `show` decides among those
      ensures editor == None || !editor.value.isEditable ==> !visible
      ensures editor != None && editor.value.isEditable ==> (visible <==> show)
    {
      show && editor != None && editor.value.isEditable
    }
  }

  /**
   * With the default `hideWhenUnavailable` the dropdown follows editability
   * alone; with it set, inside a code mark it still follows editability, and
   * elsewhere it needs something to offer.
   */
  lemma MoreOptionsDefaultFollowsEditable(e: EditorSnapshot)
    ensures ShouldShowMoreOptions(Some(e), Option<bool>.None.GetOr(false)) == e.isEditable
    ensures Code in e.activeMarks ==> ShouldShowMoreOptions(Some(e), true) == e.isEditable
    ensures Code !in e.activeMarks && ShouldShowMoreOptions(Some(e), true) ==>
              Superscript in e.toggleableMarks || Subscript in e.toggleableMarks || e.alignable != {}
  {
  }
}
