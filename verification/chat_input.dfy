/**
 The chat input box: a text buffer, a send action that passes the trimmed
 text to the page and clears the buffer, and the Enter key and Send button
 that trigger it.
 */
module ChatInput {
  import opened Wrappers
  import opened Text

  /** The buffer after an action and the text handed to `onSend`, if any. */
  datatype Sent = Sent(buffer: string, sent: Option<string>)

  /** `handleSend`: sends when input is enabled and the buffer holds a
      character `trim` keeps. The text sent is the buffer without its
      surrounding white space, and the buffer is then cleared; otherwise
      nothing is sent and the buffer is kept. */
  function HandleSend(buffer: string, disabled: bool): (r: Sent)
    ensures r.sent.Some? <==> !disabled && HasVisible(buffer)
    ensures r.sent.Some? ==>
      && r.buffer == ""
      && r.sent.value != "" && Trimmed(r.sent.value)
      && exists i, j :: 0 <= i <= j <= |buffer| && r.sent.value == buffer[i..j]
                        && SpaceBetween(buffer, 0, i) && SpaceBetween(buffer, j, |buffer|)
    ensures r.sent.None? ==> r.buffer == buffer
  {
    var text := Trim(buffer);
    if text != "" && !disabled then Sent("", Some(text)) else Sent(buffer, None)
  }

  /** The Send button's `disabled` attribute. */
  predicate ButtonDisabled(buffer: string, disabled: bool)
  {
    disabled || Trim(buffer) == ""
  }

  /** Clicking the button sends exactly when it is enabled: the button's
      condition and the guard in `handleSend` agree. */
  lemma ButtonMatchesGuard(buffer: string, disabled: bool)
    ensures !ButtonDisabled(buffer, disabled) <==> HandleSend(buffer, disabled).sent.Some?
  {
  }

  datatype KeyEvent = KeyEvent(key: string, shiftKey: bool)

  /** The outcome of a key press: buffer, sent text, and whether the
      default (inserting a newline) was prevented. */
  datatype KeyResult = KeyResult(buffer: string, sent: Option<string>, preventDefault: bool)

  /** `handleKeyDown`: Enter without Shift is taken over and attempts a
      send; Shift+Enter and every other key are left to the text area. */
  function HandleKeyDown(e: KeyEvent, buffer: string, disabled: bool): (r: KeyResult)
    ensures r.preventDefault <==> e.key == "Enter" && !e.shiftKey
    ensures !r.preventDefault ==> r.sent.None? && r.buffer == buffer
    ensures r.preventDefault ==>
      r.sent == HandleSend(buffer, disabled).sent && r.buffer == HandleSend(buffer, disabled).buffer
  {
    if e.key == "Enter" && !e.shiftKey then
      var s := HandleSend(buffer, disabled);
      KeyResult(s.buffer, s.sent, true)
    else KeyResult(buffer, None, false)
  }

  /** A send leaves nothing to send again: a second attempt right after it
      sends nothing. */
  lemma NoDoubleSend(buffer: string, disabled: bool)
    requires HandleSend(buffer, disabled).sent.Some?
    ensures HandleSend(HandleSend(buffer, disabled).buffer, disabled).sent.None?
  {
  }

  /** The text sent is already trimmed: trimming it again changes nothing. */
  lemma SentTextIsTrimmed(buffer: string, disabled: bool)
    requires HandleSend(buffer, disabled).sent.Some?
    ensures Trim(HandleSend(buffer, disabled).sent.value) == HandleSend(buffer, disabled).sent.value
  {
    TrimIdempotent(buffer);
  }
}
