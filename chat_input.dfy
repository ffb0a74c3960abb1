/** The message box of the chat page
    (client/src/components/chat-page/ChatInput.tsx): the typed text, the
    selected attachments, and when they are handed to the page. */
module ChatInput {
  import opened Js

  /** A call of the page's `handleSendMessage(message, files?)`. */
  datatype Send = Send(message: string, files: Option<seq<File>>)

  /** The send guard: `message.trim() || selectedFiles.length > 0`. */
  predicate ShouldSend(message: string, files: seq<File>) {
    Trim(message) != "" || |files| > 0
  }

  /** A send happens exactly when the text has a character that is not white
      space, or a file is selected. */
  lemma ShouldSendIff(message: string, files: seq<File>)
    ensures ShouldSend(message, files) <==>
      (exists i :: 0 <= i < |message| && !IsJsWhitespace(message[i])) || |files| > 0
  {
    TrimEmptyIffAllWhitespace(message);
  }

  /** `prev.filter((_, i) => i !== index)`. */
  function WithoutIndex(files: seq<File>, index: int): seq<File> {
    if |files| == 0 then []
    else (if index == 0 then [] else [files[0]]) + WithoutIndex(files[1..], index - 1)
  }

  /** Removing deletes exactly the element at `index` and keeps the rest in
      order; an index outside the list removes nothing. */
  lemma {:induction false} WithoutIndexDeletesOne(files: seq<File>, index: int)
    ensures 0 <= index < |files| ==> WithoutIndex(files, index) == files[..index] + files[index + 1..]
    ensures !(0 <= index < |files|) ==> WithoutIndex(files, index) == files
  {
    if |files| > 0 {
      WithoutIndexDeletesOne(files[1..], index - 1);
      if 0 < index < |files| {
        assert files[1..][..index - 1] == files[1..index];
        assert files[1..][index..] == files[index + 1..];
        assert [files[0]] + files[1..index] == files[..index];
      } else if index != 0 {
        assert [files[0]] + files[1..] == files;
      }
    }
  }

  /** The three quick buttons send fixed commands, without files. */
  const QuickCommands: seq<string> := ["@Show Home List", "@Show Dashboard", "@Show Status Bar"]

  /** Button 0 (Home), 1 (Dashboard) and 2 (Status Bar), left to right. */
  function QuickCommand(button: nat): (s: Send)
    requires button < |QuickCommands|
    ensures s.files.None?
    ensures button == 0 ==> s.message == "@Show Home List"
    ensures button == 1 ==> s.message == "@Show Dashboard"
    ensures button == 2 ==> s.message == "@Show Status Bar"
    ensures StartsWith(s.message, "@Show ")
  {
    Send(QuickCommands[button], None)
  }

  class ChatInputBox {
    var message: string
    var selectedFiles: seq<File>

    constructor()
      ensures message == "" && selectedFiles == []
    {
      message := "";
      selectedFiles := [];
    }

    /** The text field's `onChange`. */
    method SetMessage(text: string)
      modifies this
      ensures message == text && selectedFiles == old(selectedFiles)
    {
      message := text;
    }

    /** `handleSend`: when the guard holds, hand the text and the files to
        the page and clear both; otherwise change nothing. */
    method HandleSend() returns (sent: Option<Send>)
      modifies this
      ensures ShouldSend(old(message), old(selectedFiles)) ==>
        sent == Some(Send(old(message), Some(old(selectedFiles)))) && message == "" && selectedFiles == []
      ensures !ShouldSend(old(message), old(selectedFiles)) ==>
        sent == None && message == old(message) && selectedFiles == old(selectedFiles)
    {
      if Trim(message) != "" || |selectedFiles| > 0 {
        sent := Some(Send(message, Some(selectedFiles)));
        message := "";
        selectedFiles := [];
      } else {
        sent := None;
      }
    }

    /** The send button, which is disabled while the page is loading. */
    method ClickSend(isLoading: bool) returns (sent: Option<Send>)
      modifies this
      ensures isLoading ==> sent == None && message == old(message) && selectedFiles == old(selectedFiles)
      ensures !isLoading && ShouldSend(old(message), old(selectedFiles)) ==>
        sent == Some(Send(old(message), Some(old(selectedFiles)))) && message == "" && selectedFiles == []
      ensures !isLoading && !ShouldSend(old(message), old(selectedFiles)) ==>
        sent == None && message == old(message) && selectedFiles == old(selectedFiles)
    {
      if isLoading {
        sent := None;
      } else {
        sent := HandleSend();
      }
    }

    /** `handleKeyDown`: Enter without Shift attempts a send, whatever the
        loading state; any other key does nothing here. */
    method HandleKeyDown(key: string, shiftKey: bool) returns (sent: Option<Send>)
      modifies this
      ensures key == "Enter" && !shiftKey && ShouldSend(old(message), old(selectedFiles)) ==>
        sent == Some(Send(old(message), Some(old(selectedFiles)))) && message == "" && selectedFiles == []
      ensures !(key == "Enter" && !shiftKey && ShouldSend(old(message), old(selectedFiles))) ==>
        sent == None && message == old(message) && selectedFiles == old(selectedFiles)
    {
      if key == "Enter" && !shiftKey {
        sent := HandleSend();
      } else {
        sent := None;
      }
    }

    /** `handleFileChange`: a non-empty selection is appended after the files
        already chosen; a missing or empty one changes nothing. */
    method HandleFileChange(chosen: Option<seq<File>>)
      modifies this
      ensures chosen.Some? && |chosen.value| > 0 ==> selectedFiles == old(selectedFiles) + chosen.value
      ensures !(chosen.Some? && |chosen.value| > 0) ==> selectedFiles == old(selectedFiles)
      ensures message == old(message)
    {
      if chosen.Some? && |chosen.value| > 0 {
        selectedFiles := selectedFiles + chosen.value;
      }
    }

    /** `handleFileRemove(index)`. */
    method HandleFileRemove(index: int)
      modifies this
      ensures selectedFiles == WithoutIndex(old(selectedFiles), index)
      ensures message == old(message)
    {
      selectedFiles := WithoutIndex(selectedFiles, index);
    }
  }
}
