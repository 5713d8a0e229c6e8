/** The chat column (src/components/ChatColumn.tsx): the text box with its
    send rule, the Enter-key rule, the upload picker, and which controls
    are disabled. The text box is the one piece of state the column owns. */
module ChatColumn {
  import opened Types
  import opened Text

  /** `!input.trim()`: the input has nothing but whitespace. */
  predicate IsBlank(input: string)
  {
    Trim(input) == ""
  }

  /** What `handleSend` passes to `onSendMessage`: nothing when the input is
      blank or a send is in flight, and otherwise the input as typed,
      untrimmed. Image processing is not part of the guard. */
  function SendRequest(input: string, isSending: bool): (r: Option<string>)
    ensures r.Some? <==> !AllWhitespace(input) && !isSending
    ensures r.Some? ==> r.value == input
  {
    TrimEmptyIffBlank(input);
    if IsBlank(input) || isSending then None else Some(input)
  }

  /** The key that submits: Enter without Shift. */
  predicate IsSubmitKey(key: string, shift: bool)
  {
    key == "Enter" && !shift
  }

  /** The `disabled` state of the column's three controls. */
  datatype Controls = Controls(inputDisabled: bool, sendDisabled: bool, uploadDisabled: bool)

  function ChatControls(input: string, isSending: bool, isProcessingImage: bool): (c: Controls)
    ensures c.inputDisabled <==> isSending || isProcessingImage
    ensures c.sendDisabled <==> AllWhitespace(input) || isSending || isProcessingImage
    ensures c.uploadDisabled <==> isProcessingImage
  {
    TrimEmptyIffBlank(input);
    Controls(isSending || isProcessingImage, IsBlank(input) || isSending || isProcessingImage, isProcessingImage)
  }

  /** An enabled send button always sends; a click on it is never dropped
      by `handleSend`'s guard. */
  lemma EnabledSendButtonSends(input: string, isSending: bool, isProcessingImage: bool)
    ensures !ChatControls(input, isSending, isProcessingImage).sendDisabled ==>
      SendRequest(input, isSending) == Some(input)
  {
  }

  /** The guard in `handleSend` does not look at image processing: with a
      non-blank input and no send in flight it sends even while an image is
      processed, when the button itself is disabled. */
  lemma GuardIgnoresImageProcessing(input: string)
    requires !AllWhitespace(input)
    ensures ChatControls(input, false, true).sendDisabled
    ensures SendRequest(input, false) == Some(input)
  {
  }

  /** While the text box takes keys, Enter sends exactly when the send
      button is enabled. */
  lemma EnterMatchesSendButton(input: string, isSending: bool, isProcessingImage: bool)
    requires !ChatControls(input, isSending, isProcessingImage).inputDisabled
    ensures SendRequest(input, isSending).Some? <==> !ChatControls(input, isSending, isProcessingImage).sendDisabled
  {
  }

  /** The file `handleFileChange` passes on: the first chosen file, if the
      list exists and is not empty. */
  function ChosenFile<F>(files: Option<seq<F>>): (r: Option<F>)
    ensures r.Some? <==> files.Some? && |files.value| > 0
    ensures r.Some? ==> r.value == files.value[0]
  {
    match files
    case None => None
    case Some(fs) => if |fs| > 0 then Some(fs[0]) else None
  }

  /** The column's own state: the text box. */
  class ChatInput {
    var input: string

    /** The box starts empty. */
    constructor()
      ensures input == ""
    {
      input := "";
    }

    /** The box's `onChange`: the input becomes what was typed. */
    method Edit(value: string)
      modifies this
      ensures input == value
    {
      input := value;
    }

    /** `handleSend`: when the guard lets it through, hand the input to the
        dashboard and clear the box; otherwise do nothing. */
    method HandleSend(isSending: bool) returns (sent: Option<string>)
      modifies this
      ensures sent == SendRequest(old(input), isSending)
      ensures input == if sent.Some? then "" else old(input)
    {
      sent := SendRequest(input, isSending);
      if sent.Some? {
        input := "";
      }
    }

    /** `handleKeyDown`: Enter without Shift suppresses the key's default
        action and runs `handleSend`; any other key leaves everything to the
        box. */
    method HandleKeyDown(key: string, shift: bool, isSending: bool) returns (sent: Option<string>, prevented: bool)
      modifies this
      ensures prevented <==> IsSubmitKey(key, shift)
      ensures prevented ==> sent == SendRequest(old(input), isSending)
      ensures !prevented ==> sent == None
      ensures input == if sent.Some? then "" else old(input)
    {
      prevented := IsSubmitKey(key, shift);
      if prevented {
        sent := HandleSend(isSending);
      } else {
        sent := None;
      }
    }
  }
}
