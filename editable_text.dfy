/** `EditableText`: a text shown as a button that turns into an input on
    click, and hands the trimmed text to its owner on blur when it is a real
    change. */
module EditableTextField {
  import opened Common
  import opened JsString

  /** The text a blur hands to `onTextChanged`, if any: the trimmed input,
      unless it is empty where empty text is not allowed, or it is the text
      already shown. */
  function Commit(value: string, text: string, canBeEmpty: bool): (r: Option<string>)
    ensures r.Some? <==> (canBeEmpty || Trim(value) != "") && Trim(value) != text
    ensures r.Some? ==> r.value == Trim(value)
  {
    var newText := Trim(value);
    if !canBeEmpty && newText == "" then None
    else if newText == text then None
    else Some(newText)
  }

  /** What is emitted never starts or ends with white space, is never the
      text already shown, and is empty only where empty text is allowed. */
  lemma CommittedTextIsClean(value: string, text: string, canBeEmpty: bool)
    requires Commit(value, text, canBeEmpty).Some?
    ensures var e := Commit(value, text, canBeEmpty).value;
      IsTrimmed(e) && Trim(e) == e && e != text && (e == "" ==> canBeEmpty)
  {
    TrimIdempotent(value);
  }

  /** Input made only of white space is never emitted where empty text is
      not allowed. */
  lemma WhiteSpaceNotCommitted(value: string, text: string)
    requires AllWhiteSpace(value)
    ensures Commit(value, text, false) == None
  {
    TrimEmptyIff(value);
  }

  /** Once the owner shows the emitted text, blurring again with that text,
      or with the same input, emits nothing. */
  lemma CommitIdempotent(value: string, text: string, canBeEmpty: bool)
    requires Commit(value, text, canBeEmpty).Some?
    ensures var e := Commit(value, text, canBeEmpty).value;
      Commit(e, e, canBeEmpty) == None && Commit(value, e, canBeEmpty) == None
  {
    TrimIdempotent(value);
  }

  /** What the component shows. */
  datatype View =
    | Editor(defaultValue: string)  // an input holding the current text
    | EmptyLabel                    // the italic "Empty" label
    | Label(text: string)           // the text itself

  function ViewOf(isEditingText: bool, text: string): (v: View)
    ensures v.EmptyLabel? <==> !isEditingText && text == ""
    ensures v.Label? ==> v.text == text && text != ""
    ensures v.Editor? <==> isEditingText
  {
    if isEditingText then Editor(text)
    else if text == "" then EmptyLabel
    else Label(text)
  }

  class EditableText {
    /** The `text` prop. */
    var text: string
    /** The `canBeEmpty` prop; an absent prop reads as false. */
    var canBeEmpty: bool
    var isEditingText: bool

    constructor (text: string, canBeEmpty: bool)
      ensures this.text == text && this.canBeEmpty == canBeEmpty && !isEditingText
    {
      this.text := text;
      this.canBeEmpty := canBeEmpty;
      isEditingText := false;
    }

    function Shown(): View
      reads this
    {
      ViewOf(isEditingText, text)
    }

    /** A re-render with new `text` and `canBeEmpty` props keeps the edit
        mode. */
    method ReceiveProps(text: string, canBeEmpty: bool)
      modifies this`text, this`canBeEmpty
      ensures this.text == text && this.canBeEmpty == canBeEmpty
    {
      this.text := text;
      this.canBeEmpty := canBeEmpty;
    }

    /** A click on the shown text opens the input, filled with the text. */
    method Click()
      modifies this`isEditingText
      ensures isEditingText && Shown() == Editor(text)
    {
      isEditingText := true;
    }

    /** Blur of the input: always back to showing the text; the result is the
        one call made to `onTextChanged`, if any. */
    method UpdateText(value: string) returns (changed: Option<string>)
      modifies this`isEditingText
      ensures !isEditingText && !Shown().Editor?
      ensures changed == Commit(value, text, canBeEmpty)
    {
      isEditingText := false;
      var newText := Trim(value);
      if !canBeEmpty && newText == "" {
        return None;
      }
      if newText == text {
        return None;
      }
      changed := Some(newText);
    }
  }
}
