// The TextField helper (_textfield.py): writing into a text field and
// clearing it, with the clear button, with a hardware keyboard (select all,
// then backspace) or with the on-screen keyboard (backspace one character at
// a time from the end). The field's editing is modelled as it answers keys:
// typing replaces the selection, backspace deletes the selection or the
// character before the cursor, End moves the cursor to the end.
module TextField {
  import opened Gestures

  /**
   * The field's text with its selection [selStart, selEnd); the cursor sits
   * at selEnd, and there is no selection when the two are equal.
   */
  datatype Editor = Editor(text: string, selStart: nat, selEnd: nat)

  predicate ValidEditor(e: Editor)
  {
    e.selStart <= e.selEnd <= |e.text|
  }

  /** selectedText. */
  function Selected(e: Editor): (s: string)
    requires ValidEditor(e)
    ensures |s| <= |e.text|
  {
    e.text[e.selStart..e.selEnd]
  }

  /** The End key: cursor at the end, nothing selected. */
  function End(e: Editor): (r: Editor)
    ensures ValidEditor(r) && r.text == e.text && r.selEnd == |e.text| && Selected(r) == []
  {
    Editor(e.text, |e.text|, |e.text|)
  }

  /** Backspace: the selection goes, or else the character before the cursor. */
  function Backspace(e: Editor): (r: Editor)
    requires ValidEditor(e)
    ensures ValidEditor(r) && r.selStart == r.selEnd
    ensures e.selStart < e.selEnd ==> |r.text| == |e.text| - (e.selEnd - e.selStart)
    ensures e.selStart == e.selEnd ==> |r.text| == if e.selEnd == 0 then |e.text| else |e.text| - 1
  {
    if e.selStart < e.selEnd then
      Editor(e.text[..e.selStart] + e.text[e.selEnd..], e.selStart, e.selStart)
    else if e.selEnd == 0 then e
    else Editor(e.text[..e.selEnd - 1] + e.text[e.selEnd..], e.selEnd - 1, e.selEnd - 1)
  }

  /** Typing: the text replaces the selection and the cursor follows it. */
  function TypeText(e: Editor, t: string): (r: Editor)
    requires ValidEditor(e)
    ensures ValidEditor(r) && r.selStart == r.selEnd == e.selStart + |t|
    ensures |r.text| == |e.text| - (e.selEnd - e.selStart) + |t|
  {
    Editor(e.text[..e.selStart] + t + e.text[e.selEnd..], e.selStart + |t|, e.selStart + |t|)
  }

  /** The context menu's Select All. */
  function SelectAllOf(e: Editor): (r: Editor)
    ensures ValidEditor(r) && r.text == e.text && Selected(r) == e.text
  {
    Editor(e.text, 0, |e.text|)
  }

  /** The whole text is selected exactly when the selection spans it. */
  lemma AllSelected(e: Editor)
    requires ValidEditor(e)
    ensures Selected(e) == e.text <==> e.selEnd - e.selStart == |e.text|
  {
  }

  /** Backspace right after typing one character takes it back. */
  lemma {:induction false} TypeThenBackspace(e: Editor, c: char)
    requires ValidEditor(e) && e.selStart == e.selEnd
    ensures Backspace(TypeText(e, [c])) == e
  {
    var k := e.selStart;
    var typed := TypeText(e, [c]);
    assert typed.text[..k] == e.text[..k];
    assert typed.text[k + 1..] == e.text[k..];
    assert e.text[..k] + e.text[k..] == e.text;
  }

  /** At the end of the text, typing appends... */
  lemma TypeAtEnd(e: Editor, t: string)
    requires ValidEditor(e) && e.selStart == e.selEnd == |e.text|
    ensures TypeText(e, t).text == e.text + t
  {
    assert e.text[e.selEnd..] == [];
  }

  /** ...and backspace drops the last character. */
  lemma BackspaceAtEnd(e: Editor)
    requires ValidEditor(e) && e.selStart == e.selEnd == |e.text| && e.text != []
    ensures Backspace(e) == End(Editor(e.text[..|e.text| - 1], 0, 0))
  {
    assert e.text[e.selEnd..] == [];
  }

  /** With everything selected, backspace empties the field. */
  lemma BackspaceAll(e: Editor)
    requires ValidEditor(e) && Selected(e) == e.text
    ensures Backspace(e).text == []
  {
    AllSelected(e);
  }

  /** The message _delete_one_character_using_osk raises. */
  /** The click _ensure_focused makes on a field focused or not. */
  function FocusTrace(focused: bool): seq<Gesture>
  {
    if focused then [] else [Click("TextField")]
  }

  /**
   * The gestures clear makes, once focused, on a field showing e: nothing
   * for an empty field, the clear button when the field has one (after a
   * click on the field when the button is hidden), and otherwise the keys of
   * the keyboard in use, as ClickClearButton and ClearWithKeys make them.
   */
  function ClearingTrace(e: Editor, clearButton: bool, buttonVisible: bool, onScreen: bool, ro: bool): seq<Gesture>
    requires ValidEditor(e)
  {
    if e.text == [] then []
    else if clearButton then (if buttonVisible then [] else [Click("TextField")]) + [Click("clear_button")]
    else if onScreen then [Press("End")] + Repeat(Press("backspace"), if ro then 1 else |e.text|)
    else (if Selected(e) == e.text then [] else [RightClick("TextField"), Click("Select All")]) + [Press("BackSpace")]
  }

  /** A non-empty field is cleared through its clear button exactly when it has one; an empty one gets no gesture. */
  lemma ClearingChoice(e: Editor, clearButton: bool, buttonVisible: bool, onScreen: bool, ro: bool)
    requires ValidEditor(e)
    ensures e.text == [] ==> ClearingTrace(e, clearButton, buttonVisible, onScreen, ro) == []
    ensures e.text != [] ==> (Click("clear_button") in ClearingTrace(e, clearButton, buttonVisible, onScreen, ro) <==> clearButton)
    ensures e.text != [] && clearButton ==>
      ClearingTrace(e, clearButton, buttonVisible, onScreen, ro)[|ClearingTrace(e, clearButton, buttonVisible, onScreen, ro)| - 1] == Click("clear_button")
  {
    var tr := ClearingTrace(e, clearButton, buttonVisible, onScreen, ro);
    if e.text != [] && !clearButton && onScreen {
      var n := if ro then 1 else |e.text|;
      assert tr == [Press("End")] + Repeat(Press("backspace"), n);
      assert forall i :: 0 <= i < |tr| ==> tr[i].Press?;
    }
  }

  const DeleteFailed := "Failed to delete one character."
  /** The message _clear_with_keys raises. */
  const ClearFailed := "Failed to clear the text field."

  class TextField {
    var editor: Editor
    const readOnly: bool
    const hasClearButton: bool
    var clearButtonVisible: bool
    var focus: bool
    /** Whether the keyboard is the on-screen one. */
    const osk: bool
    var gestures: seq<Gesture>

    predicate Valid()
      reads this
    {
      ValidEditor(editor)
    }

    constructor (e: Editor, ro: bool, clearButton: bool, buttonVisible: bool, focused: bool, onScreen: bool)
      requires ValidEditor(e)
      ensures Valid()
      ensures editor == e && readOnly == ro && hasClearButton == clearButton
      ensures clearButtonVisible == buttonVisible && focus == focused && osk == onScreen && gestures == []
    {
      editor, readOnly, hasClearButton := e, ro, clearButton;
      clearButtonVisible, focus, osk, gestures := buttonVisible, focused, onScreen, [];
    }

    /** The keys the application answers; a read-only field ignores edits. */
    method PressBackspace(key: string)
      requires Valid()
      modifies this`editor, this`gestures
      ensures Valid()
      ensures editor == if readOnly then old(editor) else Backspace(old(editor))
      ensures gestures == old(gestures) + [Press(key)]
    {
      gestures := gestures + [Press(key)];
      if !readOnly {
        editor := Backspace(editor);
      }
    }

    /** _ensure_focused: a click only when unfocused, after which the field has focus. */
    method EnsureFocused()
      modifies this`focus, this`gestures
      ensures focus
      ensures gestures == old(gestures) + (if old(focus) then [] else [Click("TextField")])
    {
      if !focus {
        gestures := gestures + [Click("TextField")];
        focus := true;
      }
    }

    /** _go_to_end: the End key, from a hardware keyboard with either keyboard. */
    method GoToEnd()
      modifies this`editor, this`gestures
      ensures Valid() && editor == End(old(editor))
      ensures gestures == old(gestures) + [Press("End")]
    {
      gestures := gestures + [Press("End")];
      editor := End(editor);
    }

    /** _delete_one_character_using_osk: raises unless the text lost exactly one character. */
    method DeleteOneCharacterUsingOsk() returns (r: Outcome)
      requires Valid()
      modifies this`editor, this`gestures
      ensures Valid()
      ensures editor == if readOnly then old(editor) else Backspace(old(editor))
      ensures r == (if |editor.text| == |old(editor).text| - 1 then Done else Raised(DeleteFailed))
      ensures gestures == old(gestures) + [Press("backspace")]
    {
      var original := editor.text;
      PressBackspace("backspace");
      r := if |editor.text| == |original| - 1 then Done else Raised(DeleteFailed);
    }

    /** _select_all: the context menu only when not all the text is selected. */
    method SelectAll()
      requires Valid()
      modifies this`editor, this`gestures
      ensures Valid() && editor.text == old(editor).text && Selected(editor) == editor.text
      ensures Selected(old(editor)) == old(editor).text ==> editor == old(editor) && gestures == old(gestures)
      ensures Selected(old(editor)) != old(editor).text ==>
        editor == SelectAllOf(old(editor)) && gestures == old(gestures) + [RightClick("TextField"), Click("Select All")]
    {
      if Selected(editor) != editor.text {
        gestures := gestures + [RightClick("TextField"), Click("Select All")];
        editor := SelectAllOf(editor);
      }
    }

    /**
     * _clear_with_keys: with the on-screen keyboard, End and then one backspace
     * at a time while text remains; otherwise Select All and one BackSpace.
     * An editable field ends empty; a read-only non-empty one raises.
     */
    method ClearWithKeys() returns (r: Outcome)
      requires Valid()
      modifies this`editor, this`gestures
      ensures Valid()
      ensures !readOnly ==> r == Done && editor == Editor([], 0, 0)
      ensures readOnly ==> editor.text == old(editor).text
      ensures readOnly && old(editor).text != [] ==> r == Raised(if osk then DeleteFailed else ClearFailed)
      ensures readOnly && old(editor).text == [] ==> r == Done
      ensures osk && readOnly ==> editor == End(old(editor))
      ensures !osk && readOnly ==> editor == SelectAllOf(old(editor))
      ensures osk ==>
        gestures == old(gestures) + [Press("End")] +
                    Repeat(Press("backspace"), if readOnly && old(editor).text != [] then 1 else |old(editor).text|)
      ensures !osk ==>
        gestures == old(gestures) +
                    (if Selected(old(editor)) == old(editor).text then [] else [RightClick("TextField"), Click("Select All")]) +
                    [Press("BackSpace")]
    {
      if osk {
        GoToEnd();
        ghost var deleted: nat := 0;
        while editor.text != []
          invariant Valid() && editor.selStart == editor.selEnd == |editor.text|
          invariant readOnly ==> editor == End(old(editor)) && deleted == 0
          invariant !readOnly ==> |editor.text| + deleted == |old(editor).text| && editor.text == old(editor).text[..|editor.text|]
          invariant gestures == old(gestures) + [Press("End")] + Repeat(Press("backspace"), deleted)
          decreases |editor.text|
        {
          if !readOnly {
            BackspaceAtEnd(editor);
          }
          r := DeleteOneCharacterUsingOsk();
          if r != Done {
            return;
          }
          deleted := deleted + 1;
        }
      } else {
        SelectAll();
        if !readOnly {
          BackspaceAll(editor);
        }
        PressBackspace("BackSpace");
      }
      r := if editor.text != [] then Raised(ClearFailed) else Done;
    }

    /** _click_clear_button: a click on the field first brings up a hidden clear button. */
    method ClickClearButton()
      requires Valid()
      modifies this`editor, this`clearButtonVisible, this`focus, this`gestures
      ensures Valid() && editor == Editor([], 0, 0) && clearButtonVisible
      ensures old(focus) || !old(clearButtonVisible) ==> focus
      ensures gestures == old(gestures) +
        (if old(clearButtonVisible) then [] else [Click("TextField")]) + [Click("clear_button")]
    {
      if !clearButtonVisible {
        gestures := gestures + [Click("TextField")];
        focus, clearButtonVisible := true, true;
      }
      gestures := gestures + [Click("clear_button")];
      editor := Editor([], 0, 0);
    }

    /**
     * clear: focuses the field; an empty field is left alone; otherwise the
     * clear button or the keys clear it, and the field must then show no text.
     */
    method Clear() returns (r: Outcome)
      requires Valid()
      modifies this`editor, this`clearButtonVisible, this`focus, this`gestures
      ensures Valid() && focus
      ensures old(editor).text == [] ==> editor == old(editor)
      ensures old(editor).text != [] && (hasClearButton || !readOnly) ==> r == Done && editor.text == []
      ensures old(editor).text != [] && !hasClearButton && readOnly ==>
        r == Raised(if osk then DeleteFailed else ClearFailed) && editor.text == old(editor).text
      ensures r == Done ==> editor.text == []
      ensures gestures == old(gestures) + FocusTrace(old(focus)) +
        ClearingTrace(old(editor), hasClearButton, old(clearButtonVisible), osk, readOnly)
    {
      EnsureFocused();
      r := Done;
      if editor.text != [] {
        if hasClearButton {
          ClickClearButton();
        } else {
          r := ClearWithKeys();
          if r != Done {
            return;
          }
        }
        // displayText.wait_for(''): by now the text is empty.
        if editor.text != [] {
          r := TimedOut;
        }
      }
    }

    /**
     * write: focuses, then clears (the default) or moves to the end of a
     * non-empty text, then types. An editable field that clears without
     * raising shows exactly the text; appended to, it shows the old text
     * followed by the new.
     */
    method Write(t: string, clear: bool) returns (r: Outcome)
      requires Valid()
      modifies this`editor, this`clearButtonVisible, this`focus, this`gestures
      ensures Valid() && focus
      ensures clear && r == Done && !readOnly ==> editor.text == t
      ensures !clear ==> r == Done
      ensures !clear && !readOnly ==> editor.text == old(editor).text + t
      ensures readOnly && !(clear && hasClearButton) ==> editor.text == old(editor).text
      ensures clear ==>
        gestures == old(gestures) + FocusTrace(old(focus)) + ClearingTrace(old(editor), hasClearButton, old(clearButtonVisible), osk, readOnly) +
                    (if r == Done then [Type(t)] else [])
      ensures !clear ==>
        gestures == old(gestures) + FocusTrace(old(focus)) +
                    (if old(editor).text != [] then [Press("End")] else []) + [Type(t)]
    {
      EnsureFocused();
      ghost var focused := gestures;
      r := Done;
      if clear {
        r := Clear();
        assert gestures == focused + ClearingTrace(old(editor), hasClearButton, old(clearButtonVisible), osk, readOnly);
        if r != Done {
          return;
        }
      } else if editor.text != [] {
        GoToEnd();
      }
      if !readOnly {
        TypeAtEnd(editor, t);
      }
      gestures := gestures + [Type(t)];
      if !readOnly {
        editor := TypeText(editor, t);
      }
    }
  }

  /** Appending to "ab" with the cursor at its start types after the b. */
  method AppendAfterGoingToEnd() returns (shown: string, r: Outcome)
    ensures shown == "abc" && r == Done
  {
    var field := new TextField(Editor("ab", 0, 0), false, false, false, false, true);
    r := field.Write("c", false);
    shown := field.editor.text;
  }
}
