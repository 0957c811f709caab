/**
 * The chat form's submit handler: validation of the name and the message, the
 * message record it builds, and the in-place append to the session's history list.
 * The clock is a parameter; saving the history to the JSON file is not modelled.
 */
module Chat {
  import opened Wrappers
  import opened PyValues

  /** A stored chat message: a dictionary from field names to strings. */
  type Message = map<string, string>

  /** The uploaded file, as far as the handler looks at it. */
  datatype Attachment = Attachment(name: string, contentType: string)

  /** What one press of "Send" does. */
  datatype SubmitOutcome =
    | RejectedNoName  // a warning is shown, nothing is stored
    | IgnoredEmpty    // silently nothing: no text and no file
    | Appended        // the record is appended to the history

  const UserKey := "user"
  const MessageKey := "message"
  const TimestampKey := "timestamp"
  const AttachmentNameKey := "attachment_name"
  const AttachmentTypeKey := "attachment_type"

  /**
   * The decision taken on submit. A name that is empty or whitespace only is always
   * rejected, whatever was typed or attached; otherwise the message is stored when the
   * text is non-empty (whitespace counts) or a file is attached, and ignored when neither.
   */
  function Decide(username: string, text: string, attachment: Option<Attachment>): (o: SubmitOutcome)
    ensures o == RejectedNoName <==> AllSpace(username)
    ensures o == IgnoredEmpty <==> !AllSpace(username) && text == "" && attachment.None?
    ensures o == Appended <==> !AllSpace(username) && (text != "" || attachment.Some?)
  {
    if Strip(username) == "" then RejectedNoName
    else if text != "" || attachment.Some? then Appended
    else IgnoredEmpty
  }

  /**
   * The record built for an accepted message. It always has user, message and
   * timestamp, with the name exactly as entered (not stripped); it has the two
   * attachment fields exactly when a file was attached, and no other field.
   */
  function NewMessage(username: string, text: string, attachment: Option<Attachment>, timestamp: string): (m: Message)
    ensures m.Keys == {UserKey, MessageKey, TimestampKey}
                      + (if attachment.Some? then {AttachmentNameKey, AttachmentTypeKey} else {})
    ensures m[UserKey] == username && m[MessageKey] == text && m[TimestampKey] == timestamp
    ensures attachment.Some? ==>
              m[AttachmentNameKey] == attachment.value.name && m[AttachmentTypeKey] == attachment.value.contentType
  {
    var msg := map[UserKey := username, MessageKey := text, TimestampKey := timestamp];
    match attachment
    case None => msg
    case Some(a) => msg[AttachmentNameKey := a.name][AttachmentTypeKey := a.contentType]
  }

  /**
   * The history after one submission: one new record at the end when the submission
   * is accepted, and otherwise the same history. Earlier entries never change.
   */
  function AfterSubmit(history: seq<Message>, username: string, text: string,
                       attachment: Option<Attachment>, timestamp: string): (h: seq<Message>)
    ensures Decide(username, text, attachment) != Appended ==> h == history
    ensures Decide(username, text, attachment) == Appended ==>
              |h| == |history| + 1 && h[..|history|] == history
              && h[|history|] == NewMessage(username, text, attachment, timestamp)
  {
    if Decide(username, text, attachment) == Appended then
      history + [NewMessage(username, text, attachment, timestamp)]
    else
      history
  }

  /** The per-session state: the list of messages the page shows and appends to. */
  class Session {
    var messages: seq<Message>

    /** A session whose history is the log loaded at start (empty when there is none). */
    constructor (loaded: seq<Message>)
      ensures messages == loaded
    {
      messages := loaded;
    }

    /** Handles one press of "Send", appending to `messages` in place when accepted. */
    method Submit(username: string, text: string, attachment: Option<Attachment>, timestamp: string)
      returns (outcome: SubmitOutcome)
      modifies this
      ensures outcome == Decide(username, text, attachment)
      ensures messages == AfterSubmit(old(messages), username, text, attachment, timestamp)
    {
      if Strip(username) == "" {
        outcome := RejectedNoName;
      } else if text != "" || attachment.Some? {
        var msg := map[UserKey := username, MessageKey := text, TimestampKey := timestamp];
        if attachment.Some? {
          msg := msg[AttachmentNameKey := attachment.value.name];
          msg := msg[AttachmentTypeKey := attachment.value.contentType];
        }
        messages := messages + [msg];
        outcome := Appended;
      } else {
        outcome := IgnoredEmpty;
      }
    }
  }

  /** A blank name leaves the history as it was, whatever the text and the attachment. */
  lemma BlankNameChangesNothing(history: seq<Message>, username: string, text: string,
                                attachment: Option<Attachment>, timestamp: string)
    requires AllSpace(username)
    ensures Decide(username, text, attachment) == RejectedNoName
    ensures AfterSubmit(history, username, text, attachment, timestamp) == history
  {
  }

  /** A file alone is enough: empty text with an attachment is stored, with an empty message. */
  lemma AttachmentWithoutText(history: seq<Message>, username: string, a: Attachment, timestamp: string)
    requires !AllSpace(username)
    ensures var h := AfterSubmit(history, username, "", Some(a), timestamp);
      |h| == |history| + 1 && h[|history|][MessageKey] == ""
      && h[|history|][AttachmentNameKey] == a.name
  {
  }

  /** The text is not stripped: a message of spaces only is stored as typed. */
  lemma WhitespaceTextIsStored(history: seq<Message>, username: string, text: string, timestamp: string)
    requires !AllSpace(username) && text != "" && AllSpace(text)
    ensures var h := AfterSubmit(history, username, text, None, timestamp);
      |h| == |history| + 1 && h[|history|][MessageKey] == text
  {
  }

  /**
   * Every record the handler ever appends satisfies the message invariant: a
   * non-blank author and a non-empty text or an attachment.
   */
  ghost predicate WellFormed(m: Message)
  {
    && UserKey in m && MessageKey in m && TimestampKey in m
    && !AllSpace(m[UserKey])
    && (m[MessageKey] != "" || AttachmentNameKey in m)
    && (AttachmentNameKey in m <==> AttachmentTypeKey in m)
  }

  /** Submitting keeps a history of well-formed records well-formed. */
  lemma SubmitPreservesWellFormed(history: seq<Message>, username: string, text: string,
                                   attachment: Option<Attachment>, timestamp: string)
    requires forall i :: 0 <= i < |history| ==> WellFormed(history[i])
    ensures var h := AfterSubmit(history, username, text, attachment, timestamp);
      forall i :: 0 <= i < |h| ==> WellFormed(h[i])
  {
  }
}
