/**
 * The message record every component of the chat front end passes around,
 * and JavaScript truthiness for its optional string fields.
 */
module ChatRecords {

  import opened Wrappers

  /** One source entry of an assistant reply; `number` is optional on the wire. */
  datatype Citation = Citation(number: Option<int>, title: string, url: string)

  /**
   * A message of the conversation. Records created locally fill only some
   * fields; records restored from the backend may carry the alternate text
   * fields `content` and `message`. A missing field is `None`.
   */
  datatype Record = Record(
    id: int,
    role: string,
    text: Option<string>,
    content: Option<string>,
    message: Option<string>,
    timestamp: Option<string>,
    citations: Option<seq<Citation>>,
    isError: bool)

  /** An instant as `Date.prototype.toISOString` writes it; never the empty string. */
  type IsoTimestamp = s: string | s != [] witness "1970-01-01T00:00:00.000Z"

  const UserRole: string := "user"
  const AssistantRole: string := "assistant"

  /** Shown, and substituted on hydration, when a record has no text. */
  const ContentPlaceholder: string := "Message content not available"

  /** The text of the synthetic reply that reports a failed send. */
  const ErrorReply: string := "Sorry, I encountered an error. Please try again."

  /** JavaScript truthiness of an optional string: present and not empty. */
  predicate Truthy(v: Option<string>) {
    v.Some? && v.value != []
  }
}
