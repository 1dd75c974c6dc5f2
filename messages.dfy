/** Identifiers, optional values and the outbound chat traffic shared by every
    component of the assignment bot. Sending is foreign I/O; the model records
    each send as an entry of an outbound log instead. */
module Messages {

  datatype Option<+T> = None | Some(value: T)

  /** Telegram chat and user identifiers are integers. */
  type ChatId = int
  type UserId = int

  /** Telegram's opaque handle of an uploaded file (a document's `file_id`). */
  type FileId = string

  /** The store-assigned record id (a MongoDB `_id`), kept abstract. */
  type AssignmentId = nat

  /** An uploaded document as the bot sees it. */
  datatype Document = Document(fileId: FileId)

  /** One inline-keyboard button: its caption and its callback data. */
  datatype Button = Button(caption: string, data: AssignmentId)

  /** What the bot sends. `Notice` is one broadcast attempt, with whether the
      transport accepted it. */
  datatype Outbound =
    | Reply(chat: ChatId, text: string)
    | Keyboard(chat: ChatId, text: string, buttons: seq<Button>)
    | SendDocument(chat: ChatId, file: FileId)
    | Notice(chat: ChatId, text: string, delivered: bool)
}
