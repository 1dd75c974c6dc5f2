# Assignment bot — a Dafny model

This project models the core of a Telegram bot that hands out class assignments
(`main.py`). In the bot:

- students register with `/start`;
- `/works` lists the stored assignments as buttons, and pressing a button sends that file;
- `/timetable [day]` shows a fixed weekly timetable;
- an admin adds an assignment through a two-step conversation: `/addassignment`, then a title, then a document.
  Saving the document notifies every registered user.

The model replaces Telegram and MongoDB with in-memory state. The class
`Bot.AssignmentBot` holds:

- `users`: the user roster;
- `assignments`: the assignment store;
- `conversations`: the conversation state per (chat, user);
- `titles`: each user's scratch data, which is `context.user_data['assignment_title']`;
- `sent`: a log of everything the bot sends.

Each handler is a method of that class. The pure parts are functions with lemmas about them:

- the sort and the buttons of the listing;
- lookup by id;
- capitalisation, strip, join and the timetable text;
- the conversation's transition table.

Modules, leaves first:

- `Messages` (messages.dfy): ids, `Option`, documents, buttons and outbound log entries.
- `Text` (text.dfy): Python's `capitalize`, `strip`, `join` and `split`.
- `Timetable` (timetable.dfy): the table and the `/timetable` reply.
- `Roster` (roster.dfy): user records, insert-if-absent registration and the greeting.
- `AssignmentStore` (store.dfy): assignment records, newest-first listing and retrieval by id.
- `Broadcast` (broadcast.dfy): the notice text and the shape of one broadcast in the log.
- `Conversation` (conversation.dfy): the states `AskTitle` and `AskDocument`, the transition table and the handlers' fixed texts.
- `Bot` (bot.dfy): the class with all handlers, and two client methods that run whole conversations.

Modelling choices:

- Conversation state is keyed by (chat, user), as the conversation handler's default key is. Scratch data is keyed by user only, as `context.user_data` is.
  So a user with conversations in two chats shares one pending title between them. If one of those conversations saves, the other's title is gone. A later document then reaches `save_assignment` with no title, and `context.user_data['assignment_title']` raises `KeyError`.
  The model has this path as `SaveOutcome.TitleMissing`: nothing changes and nothing is sent. The conversation state also stays as it was, because a handler that raises returns no new state.
- A broadcast send can succeed or fail. `TrySend` picks the outcome nondeterministically. The outcomes come back to the caller as `delivered`; the source only prints the failures.
- When timestamps tie, the MongoDB sort promises no order. The model keeps insertion order, and no contract depends on it.

## Model

| member | source | states |
|---|---|---|
| `Text.Capitalize` | main.py:141 | the result has the argument's length, its first character in upper case and every later character in lower case |
| `Text.CapitalizeIdempotent` | main.py:141 | capitalising twice is capitalising once, for every string |
| `Text.CapitalizeIgnoresCase` | main.py:141 | two arguments capitalise alike exactly when they agree up to letter case (both directions) |
| `Text.Strip` | main.py:97 | the result is a contiguous part of the input, with only white space cut from either end, and neither starts nor ends with white space |
| `Text.StripTrailingSpace` | main.py:97 | a trailing white-space character does not change the result of `strip()` |
| `Text.SplitJoin` | main.py:147 | `Text.Join` models `"\n".join`; splitting a join of lines without line breaks at `'\n'` gives back exactly those lines |
| `Timetable.TableShape` | main.py:32-78 | every day in the table has at least one slot, is already capitalised, and neither the day name nor any slot contains a line break |
| `Timetable.DayTextLines` | main.py:145-149 | `Timetable.Entries` (`timetable.get(day, [])`) and `Timetable.DayText` build the reply; for a day in the table, the reply's lines are `"<Day>'s timetable:"` followed by exactly that day's slots; for any other day the reply is `"No timetable available for <Day>."` |
| `Timetable.AnyCaseNamesTheDay` | main.py:140-143 | `Timetable.RequestedDay` picks the capitalised first argument, or today's name when there is none; an argument equal to a table day up to letter case selects that day |
| `Roster.FindUser` | main.py:89 | finds a record exactly when some record has the id, and a found record is in the roster and has that id |
| `Roster.Register` | main.py:85-95 | the roster is unchanged if the id is already registered; otherwise exactly one record is appended, built from the sender by `Roster.RecordFor`, with `Roster.OrEmpty` turning a missing last name or username into `''` |
| `Roster.RegisterLeavesOneRecord` | main.py:88-95 | registration keeps user ids unique and leaves exactly one record with the sender's id |
| `Roster.RegisterTwice` | main.py:85-95 | a second registration with the same id changes nothing, so the stored record keeps the first call's fields, with a missing last name or username stored as `''` |
| `Roster.FullNameWithoutLastName` | main.py:85-97 | `Roster.FullName` is `f"{first_name} {last_name}".strip()`; with no last name it is just the stripped first name |
| `Roster.WelcomeNamesUser` | main.py:97-98 | the greeting `Roster.WelcomeText` addresses the sender by `Roster.FullName` |
| `AssignmentStore.SortByRecency` | main.py:111 | the listing order is a permutation of the store, in non-increasing timestamp order |
| `AssignmentStore.Lookup` | main.py:130 | a found record is in the store and has the requested id; if nothing is found, no record has that id |
| `AssignmentStore.ListingReplyShape` | main.py:111-122 | `AssignmentStore.ListingReply`, with one button per record from `AssignmentStore.Buttons`: an empty store gets `"No files available."`; a non-empty one gets `"Select a file to download:"` with the buttons of a newest-first permutation of the store |
| `AssignmentStore.ListingCoversStore` | main.py:115-118 | the listing has one button per record; each record's button carries its title and id, and each button belongs to some record |
| `AssignmentStore.RetrievalReplyShape` | main.py:129-137 | `AssignmentStore.RetrievalReply`: with distinct ids, an existing id sends exactly that record's `file_url`; an unknown id gets only the "could not be found" reply |
| `AssignmentStore.ListThenRetrieve` | main.py:116-135 | pressing any listed button sends the file of the record whose title is written on that button |
| `Broadcast.NoticeMentionsTitle` | main.py:186 | the text `Broadcast.NoticeText` builds for the broadcast contains the new title |
| `Broadcast.EveryUserNotifiedOnce` | main.py:183-188 | `Broadcast.NoticeLog` is what one broadcast leaves in the log: one attempt per roster record, in roster order; every user is reached, no user twice, and each attempt mentions the title, whatever the outcomes |
| `Conversation.Successor` | main.py:152-219 | `Conversation.RouteFor` is the transition table and `Conversation.EntryResult` the admin gate's result. A non-admin never enters the conversation. From outside a conversation, `ASK_TITLE` is reached exactly when an admin sends `/addassignment`, and it is entered in no other way. `ASK_DOCUMENT` is entered only from `ASK_TITLE`, on plain text. `/cancel` and a handled document end the conversation. A document with no pending title raises and leaves the state as it was. An update the table does not route changes nothing |
| `Conversation.ConfirmationMentionsTitle` | main.py:180 | the confirmation `Conversation.ConfirmationText` builds names the saved title |
| `Bot.AssignmentBot.Start` | main.py:81-99 | the roster becomes `Register(old roster, sender)`, one greeting is sent, and nothing else changes |
| `Bot.AssignmentBot.ListAssignments` | main.py:110-122 | sends exactly the listing reply for the current store |
| `Bot.AssignmentBot.SendAssignmentFile` | main.py:124-137 | sends exactly the retrieval reply for the requested id |
| `Bot.AssignmentBot.TimetableCommand` | main.py:139-150 | sends `Timetable.CommandText`: the reply for the capitalised first argument, or for today when there is no argument |
| `Bot.AssignmentBot.AddAssignmentStart` | main.py:152-160 | a non-admin gets the denial text and END; an admin gets the title prompt and `ASK_TITLE` |
| `Bot.AssignmentBot.AskDocument` | main.py:162-165 | the text becomes the pending title verbatim, the document prompt is sent, and `ASK_DOCUMENT` is returned |
| `Bot.AssignmentBot.TrySend` | main.py:185-188 | logs exactly one attempt to the chat with the text and its outcome |
| `Bot.AssignmentBot.NotifyAll` | main.py:183-188 | the loop attempts every roster user once, in order; a failure does not stop it |
| `Bot.AssignmentBot.SaveAssignment` | main.py:167-193 | with a document: exactly one record (stored title, `file_id`, sender, timestamp) is appended, existing records are unchanged, the confirmation and then the broadcast are sent, the scratch data is cleared and END is returned; without a document: nothing is stored or broadcast, the scratch data is cleared and END is returned; with no pending title: `KeyError` and no change |
| `Bot.AssignmentBot.Cancel` | main.py:195-197 | sends the cancellation text and returns END, leaving the scratch data alone |
| `Bot.AssignmentBot.HandleConversation` | main.py:212-219 | the conversation state after an update is exactly what `Conversation.Successor` says. On the document step with a pending title, one record is appended, the id advances by one, and the confirmation and then one notice per roster user are sent. On the document step with no pending title, store, id and log stay the same. Only the title step and the document step touch the scratch data. The entry, title and cancel steps send their one reply; an unrouted update sends nothing |
| `Bot.AdminIntake` | main.py:152-193 | an admin's `/addassignment`, title and document add exactly one record with that title, file id, uploader and time. The id advances by one. The log gains the title prompt, the document prompt, the confirmation naming the title, and then one notice naming the title per roster user. No conversation or scratch data is left behind: every other conversation is unchanged, and only the admin's scratch data is removed |
| `Bot.NonAdminEntry` | main.py:155-157 | a non-admin's `/addassignment` leaves conversations, roster, store, id counter and scratch data unchanged and sends only the denial |

## Left out

- Telegram transport, `await` and async scheduling: each send is one entry in the `sent` log.
  `query.answer()` (main.py:126) acknowledges a button press to Telegram only and is not logged.
- The conversation library's routing and filters: `filters.TEXT & ~filters.COMMAND` and `filters.Document.ALL` are abstracted by the `Kind` of an update.
  Only the transition table at main.py:212-219 is encoded. Re-entry is not allowed, which is the library's default: `/addassignment` inside a conversation is not handled.
  The application also has command handlers outside the conversation (`/start`, `/works`, `/timetable`); how they are ordered against it is not modelled.
- MongoDB: the stores are sequences and ids are abstract numbers handed out in order.
  `ObjectId` parsing and its exception on a malformed id are not modelled, so callback data is taken to be an id.
  `count_documents` is taken to be the length of the store.
- Clocks: `datetime.now` (main.py:143, main.py:178) becomes the parameters `today` and `now`.
- `Text.Capitalize`: maps ASCII letters only; Python's Unicode title-casing and lower-casing of other letters are not modelled.
- The listing's keyboard layout: `AssignmentStore.ListingReply` gives the buttons as one flat sequence in listing order. It does not record that main.py:115-118 puts each button on a row of its own.
- `help_command` (main.py:101-108) is a fixed text not in this model.
- Process setup: `keep_alive`, `load_dotenv`, `os.getenv`, the `print` logging of failed sends, and the `__main__` block (main.py:200-223) apart from the transition table.
