/**
  The "Create New Novel" dialog (`NovelNameModal.tsx`). Its parent owns
  whether it is open; the dialog reports what it asks of the parent as a
  list of events, in order.
*/
module NovelName {
  import opened Text
  import Validation

  /** The input's `maxLength`. */
  const MaxNameLength: nat := 100

  datatype DialogEvent = Confirm(name: string) | Close

  /** The Create button is enabled iff the trimmed name is non-empty. */
  predicate SubmitEnabled(name: string): (enabled: bool)
    ensures enabled <==> exists i :: 0 <= i < |name| && !IsWhitespace(name[i])
  {
    Trim(name) != []
  }

  /** handleSubmit: a name that is blank once trimmed does nothing; any other
      name is confirmed trimmed, and then the dialog asks to close. */
  function SubmitEvents(name: string): (events: seq<DialogEvent>)
    ensures !SubmitEnabled(name) ==> events == []
    ensures SubmitEnabled(name) ==> events == [Confirm(Trim(name)), Close]
  {
    if Trim(name) != [] then [Confirm(Trim(name)), Close] else []
  }

  /** A confirmed name is never blank and has no surrounding whitespace. */
  lemma ConfirmedNameIsTrimmed(name: string)
    requires SubmitEnabled(name)
    ensures var n := SubmitEvents(name)[0].name;
      n != [] && Trim(n) == n && |n| <= |name|
  {
    TrimIdempotent(name);
  }

  /** handleKeyDown. */
  function KeyDownEvents(key: string): (events: seq<DialogEvent>)
    ensures key == "Escape" ==> events == [Close]
    ensures key != "Escape" ==> events == []
  {
    if key == "Escape" then [Close] else []
  }

  /** Escape never confirms. */
  lemma EscapeNeverConfirms(key: string)
    ensures forall e :: e in KeyDownEvents(key) ==> e == Close
  {
  }

  class NovelNameDialog {
    var isOpen: bool
    var novelName: string

    constructor ()
      ensures !isOpen && novelName == ""
    {
      isOpen := false;
      novelName := "";
    }

    /** A new `isOpen` prop: the effect runs when it changes, and opening
        clears the name. */
    method OpenChanged(open: bool)
      modifies this
      ensures isOpen == open
      ensures open && !old(isOpen) ==> novelName == ""
      ensures !(open && !old(isOpen)) ==> novelName == old(novelName)
    {
      if open && !isOpen {
        novelName := "";
      }
      isOpen := open;
    }

    /** Typing: the input holds at most 100 characters. */
    method Input(value: string)
      modifies this
      requires isOpen
      ensures novelName == Validation.Prefix(value, MaxNameLength)
      ensures |novelName| <= MaxNameLength && isOpen
    {
      novelName := Validation.Prefix(value, MaxNameLength);
    }

    method Submit() returns (events: seq<DialogEvent>)
      requires isOpen
      ensures events == SubmitEvents(novelName)
    {
      var trimmed := Trim(novelName);
      if trimmed != [] {
        events := [Confirm(trimmed), Close];
      } else {
        events := [];
      }
    }

    method KeyDown(key: string) returns (events: seq<DialogEvent>)
      requires isOpen
      ensures events == KeyDownEvents(key)
    {
      events := if key == "Escape" then [Close] else [];
    }

    /** The overlay, the × button and Cancel all only ask to close. */
    method Cancel() returns (events: seq<DialogEvent>)
      requires isOpen
      ensures events == [Close]
    {
      events := [Close];
    }
  }
}
