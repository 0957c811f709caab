/**
 * The display loop at the bottom of the page: one Markdown line per stored message,
 * with defaults for missing fields and an attachment note when the message names a
 * file. Lines are collected in order instead of being sent to the page.
 */
module Display {
  import opened Wrappers
  import opened Chat

  /** The outcome of formatting one message: a line, or the KeyError it raises. */
  datatype Rendered = Line(text: string) | KeyError(key: string)

  const Paperclip := "\U{1F4CE}"

  /** `m.get(key, default)`. */
  function Get(m: Message, key: string, default: string): string
  {
    if key in m then m[key] else default
  }

  /** The note shown after the text of a message with a file. */
  function AttachmentNote(name: string, contentType: string): string
  {
    Paperclip + " " + name + " (" + contentType + ")"
  }

  /** The part of a line before the attachment note: `**user [timestamp]:** text ` (with the trailing space). */
  function Header(user: string, timestamp: string, text: string): string
  {
    "**" + user + " [" + timestamp + "]:** " + text + " "
  }

  /**
   * The line for one message: `**user [timestamp]:** text note`, where a missing user
   * reads "Unknown", a missing text or timestamp reads as empty, and the note is the
   * paperclip with the file name and type when the message has an attachment name and
   * empty otherwise. A message with an attachment name but no attachment type raises
   * KeyError on the type, since the type is read with plain indexing.
   */
  function RenderMessage(m: Message): (r: Rendered)
    ensures r.KeyError? <==> AttachmentNameKey in m && AttachmentTypeKey !in m
    ensures r.KeyError? ==> r.key == AttachmentTypeKey
    ensures r.Line? ==> |r.text| > 0 && (r.text[|r.text| - 1] == ')' <==> AttachmentNameKey in m)
    ensures r.Line? && AttachmentNameKey !in m ==> r.text[|r.text| - 1] == ' '
  {
    var user := Get(m, UserKey, "Unknown");
    var text := Get(m, MessageKey, "");
    var timestamp := Get(m, TimestampKey, "");
    if AttachmentNameKey in m && AttachmentTypeKey !in m then
      KeyError(AttachmentTypeKey)
    else
      var info := if AttachmentNameKey in m then AttachmentNote(m[AttachmentNameKey], m[AttachmentTypeKey]) else "";
      Line(Header(user, timestamp, text) + info)
  }

  /** The message with each missing display field filled in with the default it shows as. */
  function WithDefaults(m: Message): (d: Message)
  {
    m[UserKey := Get(m, UserKey, "Unknown")]
     [MessageKey := Get(m, MessageKey, "")]
     [TimestampKey := Get(m, TimestampKey, "")]
  }

  /** Missing fields render exactly as if they held their defaults. */
  lemma MissingFieldsRenderAsDefaults(m: Message)
    ensures RenderMessage(m) == RenderMessage(WithDefaults(m))
  {
  }

  /** A message with no fields at all still renders: an unknown user and empty fields. */
  lemma EmptyMessageLine()
    ensures RenderMessage(map[]) == Line("**Unknown []:**  ")
  {
  }

  /**
   * The attachment note is a pure suffix: a message with a file renders as the same
   * message without the two attachment fields, followed by the note.
   */
  lemma AttachmentNoteIsSuffix(m: Message)
    requires AttachmentNameKey in m && AttachmentTypeKey in m
    ensures var bare := m - {AttachmentNameKey, AttachmentTypeKey};
      RenderMessage(m) == Line(RenderMessage(bare).text + AttachmentNote(m[AttachmentNameKey], m[AttachmentTypeKey]))
  {
  }

  /**
   * A record built by the submit handler renders without error, showing the name as
   * entered, the timestamp, the text and, for a file, its note.
   */
  lemma SubmittedMessageLine(username: string, text: string, attachment: Option<Attachment>, timestamp: string)
    ensures RenderMessage(NewMessage(username, text, attachment, timestamp))
            == Line("**" + username + " [" + timestamp + "]:** " + text + " "
                    + (if attachment.Some? then AttachmentNote(attachment.value.name, attachment.value.contentType) else ""))
  {
  }

  /** Every well-formed record, in particular every one the handler appends, renders. */
  lemma WellFormedRenders(m: Message)
    requires WellFormed(m)
    ensures RenderMessage(m).Line?
  {
  }

  /**
   * The display loop. The lines are those of the messages in order; the first message
   * that raises stops the loop, and the lines before it stay on the page. The loop
   * runs to the end exactly when no message raises.
   */
  method Display(messages: seq<Message>) returns (lines: seq<string>, failure: Option<string>)
    ensures failure.None? <==> forall i :: 0 <= i < |messages| ==> RenderMessage(messages[i]).Line?
    ensures failure.None? ==> |lines| == |messages|
    ensures failure.Some? ==> |lines| < |messages| && RenderMessage(messages[|lines|]) == KeyError(failure.value)
    ensures forall i :: 0 <= i < |lines| ==> RenderMessage(messages[i]) == Line(lines[i])
  {
    lines := [];
    failure := None;
    var i := 0;
    while i < |messages|
      invariant 0 <= i <= |messages| && |lines| == i
      invariant forall k :: 0 <= k < i ==> RenderMessage(messages[k]) == Line(lines[k])
    {
      var r := RenderMessage(messages[i]);
      if r.KeyError? {
        failure := Some(r.key);
        return;
      }
      lines := lines + [r.text];
      i := i + 1;
    }
  }
}
