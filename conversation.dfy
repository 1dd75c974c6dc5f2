/** The assignment-intake conversation: its two states, the transition table
    that routes an update to a handler (main.py:212-219), the state each
    handler returns, and the fixed texts the handlers reply with
    (main.py:152-197). */
module Conversation {
  import opened Messages
  import Text

  /** `ASK_TITLE, ASK_DOCUMENT = range(2)`; having no phase is the END state. */
  datatype Phase = AskTitle | AskDocument

  /** What a handler returns: `ConversationHandler.END` or a state. */
  datatype ConvResult = End | Goto(phase: Phase)

  /** An incoming message, classified as the handlers' filters see it:
      a `/command` with its arguments, text that is not a command, a message
      carrying a document, or anything else. */
  datatype Kind =
    | CommandMsg(name: string, args: seq<string>)
    | PlainText(text: string)
    | DocumentMsg(document: Document)
    | OtherMsg

  /** One update: the chat it came from, its sender, and its message. */
  datatype Incoming = Incoming(chat: ChatId, sender: UserId, kind: Kind)

  /** The handlers of the conversation. */
  datatype Route = Entry | TitleStep | DocumentStep | Fallback

  const EntryCommand := "addassignment"
  const CancelCommand := "cancel"

  const DenialText := "You are not authorized to add assignments."
  const TitlePrompt := "Please enter the title of the assignment:"
  const DocumentPrompt := "Now, please upload the document for the assignment:"
  const NoDocumentText := "No document uploaded. Assignment addition canceled."
  const CancelText := "Assignment creation canceled."

  /** The confirmation sent to the uploader. */
  function ConfirmationText(title: string): string
  {
    "Assignment '" + title + "' added successfully."
  }

  predicate IsCommand(kind: Kind, name: string)
  {
    kind.CommandMsg? && kind.name == name
  }

  /** The transition table: outside a conversation only `/addassignment` is
      handled; in `AskTitle` plain text goes to the title step, in
      `AskDocument` a document goes to the document step, and in either
      state `/cancel` goes to the fallback. Everything else is not handled. */
  function RouteFor(current: Option<Phase>, kind: Kind): Option<Route>
  {
    match current
    case None => if IsCommand(kind, EntryCommand) then Some(Entry) else None
    case Some(p) =>
      if p == AskTitle && kind.PlainText? then Some(TitleStep)
      else if p == AskDocument && kind.DocumentMsg? then Some(DocumentStep)
      else if IsCommand(kind, CancelCommand) then Some(Fallback)
      else None
  }

  /** The conversation state after a handler returned `r`. */
  function Apply(r: ConvResult): Option<Phase>
  {
    match r
    case End => None
    case Goto(p) => Some(p)
  }

  /** What `addassignment_start` returns. */
  function EntryResult(isAdmin: bool): ConvResult
  {
    if isAdmin then Goto(AskTitle) else End
  }

  /** The conversation state after one update, given whether its sender is an
      admin and whether a title is pending for the sender. A document step
      without a pending title raises, which leaves the state as it was. */
  function Successor(current: Option<Phase>, kind: Kind, isAdmin: bool, titlePending: bool): (next: Option<Phase>)
    // A non-admin never enters the conversation.
    ensures current.None? && !isAdmin ==> next.None?
    // `AskTitle` is entered only by an admin's `/addassignment` from outside.
    ensures next == Some(AskTitle) ==>
              (current.None? && isAdmin && IsCommand(kind, EntryCommand)) || current == Some(AskTitle)
    // `AskDocument` is entered only from `AskTitle` on plain text.
    ensures next == Some(AskDocument) ==>
              (current == Some(AskTitle) && kind.PlainText?) || current == Some(AskDocument)
    // Plain text in `AskTitle` always moves on to `AskDocument`.
    ensures current == Some(AskTitle) && kind.PlainText? ==> next == Some(AskDocument)
    // An admin's `/addassignment` from outside always opens the conversation.
    ensures current.None? && isAdmin && IsCommand(kind, EntryCommand) ==> next == Some(AskTitle)
    // `/cancel` ends any conversation, and so does a handled document.
    ensures current.Some? && IsCommand(kind, CancelCommand) ==> next.None?
    ensures current == Some(AskDocument) && kind.DocumentMsg? && titlePending ==> next.None?
    // A document that finds no pending title raises and changes nothing.
    ensures current == Some(AskDocument) && kind.DocumentMsg? && !titlePending ==> next == current
    // An update the table does not route leaves the state alone.
    ensures RouteFor(current, kind).None? ==> next == current
  {
    match RouteFor(current, kind)
    case None => current
    case Some(Entry) => Apply(EntryResult(isAdmin))
    case Some(TitleStep) => Some(AskDocument)
    case Some(DocumentStep) => if titlePending then None else current
    case Some(Fallback) => None
  }

  /** The confirmation names the saved title. */
  lemma ConfirmationMentionsTitle(title: string)
    ensures Text.Mentions(ConfirmationText(title), title)
  {
    assert Text.OccursAt(ConfirmationText(title), title, 12);
  }
}
