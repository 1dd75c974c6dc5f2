/** The bot's state and its handlers (main.py:81-197), with the stores held in
    memory: the user roster, the assignment store, the state of each
    conversation, each user's scratch data and the log of everything sent. */
module Bot {
  import opened Messages
  import opened Roster
  import opened AssignmentStore
  import opened Conversation
  import Broadcast
  import Timetable

  /** The hard-coded admin ids. */
  const Admins: seq<UserId> := [1293507674, 5061560776]

  /** Conversation state is kept per chat and per user. */
  datatype ConvKey = ConvKey(chat: ChatId, user: UserId)

  /** How `save_assignment` finished: it returned a state, or it raised
      `KeyError` because no title was pending for the sender. */
  datatype SaveOutcome = Returned(result: ConvResult) | TitleMissing

  function PhaseAt(m: map<ConvKey, Phase>, k: ConvKey): Option<Phase>
  {
    if k in m then Some(m[k]) else None
  }

  /** The conversation map with `k` set to `p`, or removed when `p` is END. */
  function WithPhase(m: map<ConvKey, Phase>, k: ConvKey, p: Option<Phase>): map<ConvKey, Phase>
  {
    match p
    case None => m - {k}
    case Some(q) => m[k := q]
  }

  class AssignmentBot {
    /** `users_collection`, in insertion order. */
    var users: seq<UserRecord>
    /** `assignment_collection`, in insertion order. */
    var assignments: seq<Assignment>
    /** The next id the store hands out; ids below it are taken. */
    var nextId: AssignmentId
    /** The `ConversationHandler`'s state per (chat, user); absent is END. */
    var conversations: map<ConvKey, Phase>
    /** `context.user_data['assignment_title']` per user. */
    var titles: map<UserId, string>
    /** Everything the bot has sent, oldest first. */
    var sent: seq<Outbound>

    ghost predicate Valid()
      reads this
    {
      UniqueIds(users) && DistinctIds(assignments) && IdsBelow(assignments, nextId)
    }

    constructor ()
      ensures Valid()
      ensures users == [] && assignments == [] && nextId == 0
      ensures conversations == map[] && titles == map[] && sent == []
    {
      users, assignments, nextId := [], [], 0;
      conversations, titles, sent := map[], map[], [];
    }

    /** `/start`: registers the sender if no record has their id, then greets
        them. */
    method Start(chat: ChatId, from: TgUser)
      requires Valid()
      modifies this
      ensures Valid()
      ensures users == Register(old(users), from)
      ensures sent == old(sent) + [Reply(chat, WelcomeText(from))]
      ensures assignments == old(assignments) && nextId == old(nextId)
      ensures conversations == old(conversations) && titles == old(titles)
    {
      RegisterLeavesOneRecord(users, from);
      if FindUser(users, from.id).None? {
        users := users + [RecordFor(from)];
      }
      sent := sent + [Reply(chat, WelcomeText(from))];
    }

    /** `/works`: lists the store newest first, one button per record. */
    method ListAssignments(chat: ChatId)
      modifies this`sent
      ensures sent == old(sent) + [ListingReply(chat, assignments)]
    {
      sent := sent + [ListingReply(chat, assignments)];
    }

    /** A button press carrying `id`: sends that record's file, or says it
        could not be found. */
    method SendAssignmentFile(chat: ChatId, id: AssignmentId)
      modifies this`sent
      ensures sent == old(sent) + [RetrievalReply(chat, assignments, id)]
    {
      var reply;
      match Lookup(assignments, id) {
        case Some(a) => reply := SendDocument(chat, a.fileUrl);
        case None => reply := Reply(chat, NotFoundText);
      }
      sent := sent + [reply];
    }

    /** `/timetable [day]`; `today` is the weekday name of the current date. */
    method TimetableCommand(chat: ChatId, args: seq<string>, today: string)
      modifies this`sent
      ensures sent == old(sent) + [Reply(chat, Timetable.CommandText(args, today))]
    {
      sent := sent + [Reply(chat, Timetable.CommandText(args, today))];
    }

    /** `addassignment_start`: the admin gate. */
    method AddAssignmentStart(chat: ChatId, user: UserId) returns (next: ConvResult)
      modifies this`sent
      ensures next == EntryResult(user in Admins)
      ensures user !in Admins ==> sent == old(sent) + [Reply(chat, DenialText)]
      ensures user in Admins ==> sent == old(sent) + [Reply(chat, TitlePrompt)]
    {
      if user !in Admins {
        sent := sent + [Reply(chat, DenialText)];
        return End;
      }
      sent := sent + [Reply(chat, TitlePrompt)];
      return Goto(AskTitle);
    }

    /** `ask_document`: stores the text verbatim as the pending title. */
    method AskDocument(chat: ChatId, user: UserId, text: string) returns (next: ConvResult)
      modifies this`titles, this`sent
      ensures titles == old(titles)[user := text]
      ensures sent == old(sent) + [Reply(chat, DocumentPrompt)]
      ensures next == Goto(Conversation.AskDocument)
    {
      titles := titles[user := text];
      sent := sent + [Reply(chat, DocumentPrompt)];
      return Goto(Conversation.AskDocument);
    }

    /** One `send_message` through the transport, which may accept or fail;
        a failure is caught and reported as `delivered == false`. */
    method TrySend(chat: ChatId, text: string) returns (delivered: bool)
      modifies this`sent
      ensures sent == old(sent) + [Notice(chat, text, delivered)]
    {
      delivered := *;
      sent := sent + [Notice(chat, text, delivered)];
    }

    /** The broadcast loop: one attempt per roster record, in roster order;
        a failed attempt does not stop the loop. */
    method NotifyAll(text: string) returns (delivered: seq<bool>)
      modifies this`sent
      ensures |delivered| == |users|
      ensures sent == old(sent) + Broadcast.NoticeLog(users, text, delivered)
    {
      delivered := [];
      var i := 0;
      while i < |users|
        invariant 0 <= i <= |users|
        invariant |delivered| == i
        invariant sent == old(sent) + Broadcast.NoticeLog(users[..i], text, delivered)
      {
        var got := TrySend(users[i].userId, text);
        Broadcast.NoticeLogStep(users[..i], text, delivered, users[i], got);
        assert users[..i + 1] == users[..i] + [users[i]];
        delivered := delivered + [got];
        i := i + 1;
      }
      assert users[..i] == users;
    }

    /** `save_assignment`: with a document, appends exactly one record,
        confirms and broadcasts; without one, says so. Either way the sender's
        scratch data is cleared and the conversation ends. With no pending
        title it raises before doing anything. */
    method SaveAssignment(chat: ChatId, user: UserId, document: Option<Document>, now: int)
      returns (outcome: SaveOutcome, delivered: seq<bool>)
      requires Valid()
      modifies this
      ensures Valid()
      ensures users == old(users) && conversations == old(conversations)
      ensures user !in old(titles) ==>
        && outcome == TitleMissing && delivered == []
        && assignments == old(assignments) && nextId == old(nextId)
        && titles == old(titles) && sent == old(sent)
      ensures user in old(titles) ==> outcome == Returned(End) && titles == old(titles) - {user}
      ensures user in old(titles) && document.Some? ==>
        var title := old(titles)[user];
        && assignments == old(assignments) + [Assignment(old(nextId), title, document.value.fileId, user, now)]
        && nextId == old(nextId) + 1
        && |delivered| == |users|
        && sent == old(sent) + [Reply(chat, ConfirmationText(title))]
                  + Broadcast.NoticeLog(users, Broadcast.NoticeText(title), delivered)
      ensures user in old(titles) && document.None? ==>
        && assignments == old(assignments) && nextId == old(nextId) && delivered == []
        && sent == old(sent) + [Reply(chat, NoDocumentText)]
    {
      if user !in titles {
        return TitleMissing, [];
      }
      var title := titles[user];
      delivered := [];
      if document.Some? {
        assignments := assignments + [Assignment(nextId, title, document.value.fileId, user, now)];
        nextId := nextId + 1;
        sent := sent + [Reply(chat, ConfirmationText(title))];
        delivered := NotifyAll(Broadcast.NoticeText(title));
      } else {
        sent := sent + [Reply(chat, NoDocumentText)];
      }
      titles := titles - {user};
      return Returned(End), delivered;
    }

    /** `cancel`: the fallback; it leaves the scratch data alone. */
    method Cancel(chat: ChatId) returns (next: ConvResult)
      modifies this`sent
      ensures next == End
      ensures sent == old(sent) + [Reply(chat, CancelText)]
    {
      sent := sent + [Reply(chat, CancelText)];
      return End;
    }

    /** One update offered to the conversation: the transition table picks the
        handler, and the state it returns becomes the conversation's state.
        `delivered` holds the broadcast's outcomes when a document was saved. */
    method HandleConversation(upd: Incoming, now: int) returns (delivered: seq<bool>)
      requires Valid()
      modifies this
      ensures Valid()
      ensures var key := ConvKey(upd.chat, upd.sender);
        conversations == WithPhase(old(conversations), key,
          Successor(PhaseAt(old(conversations), key), upd.kind, upd.sender in Admins, upd.sender in old(titles)))
      ensures users == old(users)
      ensures var route := RouteFor(PhaseAt(old(conversations), ConvKey(upd.chat, upd.sender)), upd.kind);
        && (route != Some(DocumentStep) ==> assignments == old(assignments) && nextId == old(nextId))
        && (route != Some(DocumentStep) ==> delivered == [])
        && (route == Some(DocumentStep) && upd.sender in old(titles) ==>
              var title := old(titles)[upd.sender];
              && assignments == old(assignments)
                   + [Assignment(old(nextId), title, upd.kind.document.fileId, upd.sender, now)]
              && nextId == old(nextId) + 1
              && |delivered| == |users|
              && sent == old(sent) + [Reply(upd.chat, ConfirmationText(title))]
                         + Broadcast.NoticeLog(users, Broadcast.NoticeText(title), delivered))
        && (route == Some(DocumentStep) && upd.sender !in old(titles) ==>
              assignments == old(assignments) && nextId == old(nextId) && sent == old(sent) && delivered == [])
        && (route == Some(TitleStep) ==> titles == old(titles)[upd.sender := upd.kind.text])
        && (route == Some(DocumentStep) ==> titles == old(titles) - {upd.sender})
        && (route != Some(TitleStep) && route != Some(DocumentStep) ==> titles == old(titles))
        && (route.None? ==> sent == old(sent))
        && (route == Some(Entry) ==>
              sent == old(sent) + [Reply(upd.chat, if upd.sender in Admins then TitlePrompt else DenialText)])
        && (route == Some(TitleStep) ==> sent == old(sent) + [Reply(upd.chat, DocumentPrompt)])
        && (route == Some(Fallback) ==> sent == old(sent) + [Reply(upd.chat, CancelText)])
    {
      var key := ConvKey(upd.chat, upd.sender);
      var current := PhaseAt(conversations, key);
      delivered := [];
      match RouteFor(current, upd.kind) {
        case None =>
        case Some(Entry) =>
          var r := AddAssignmentStart(upd.chat, upd.sender);
          conversations := WithPhase(conversations, key, Apply(r));
        case Some(TitleStep) =>
          var r := AskDocument(upd.chat, upd.sender, upd.kind.text);
          conversations := WithPhase(conversations, key, Apply(r));
        case Some(DocumentStep) =>
          var outcome;
          outcome, delivered := SaveAssignment(upd.chat, upd.sender, Some(upd.kind.document), now);
          if outcome.Returned? {
            conversations := WithPhase(conversations, key, Apply(outcome.result));
          }
        case Some(Fallback) =>
          var r := Cancel(upd.chat);
          conversations := WithPhase(conversations, key, Apply(r));
      }
    }
  }

  /** A whole intake by an admin from outside any conversation:
      `/addassignment`, then a title, then a document. Exactly one record is
      added, carrying that title, the document's file id, the admin's id and
      the time of the upload, and the conversation is over afterwards. The
      admin sees the two prompts and the confirmation, and every registered
      user is then sent one notice naming the title. */
  method AdminIntake(bot: AssignmentBot, chat: ChatId, admin: UserId, title: string, doc: Document, now: int)
    returns (delivered: seq<bool>)
    requires bot.Valid() && admin in Admins
    requires ConvKey(chat, admin) !in bot.conversations
    modifies bot
    ensures bot.Valid()
    ensures bot.assignments == old(bot.assignments) + [Assignment(old(bot.nextId), title, doc.fileId, admin, now)]
    ensures bot.nextId == old(bot.nextId) + 1
    ensures |delivered| == |bot.users|
    ensures bot.sent == old(bot.sent)
                        + [Reply(chat, TitlePrompt), Reply(chat, DocumentPrompt), Reply(chat, ConfirmationText(title))]
                        + Broadcast.NoticeLog(bot.users, Broadcast.NoticeText(title), delivered)
    ensures ConvKey(chat, admin) !in bot.conversations
    ensures admin !in bot.titles
    ensures bot.conversations == old(bot.conversations)
    ensures bot.titles == old(bot.titles) - {admin}
    ensures bot.users == old(bot.users)
  {
    var key := ConvKey(chat, admin);
    var _ := bot.HandleConversation(Incoming(chat, admin, CommandMsg(EntryCommand, [])), now);
    assert PhaseAt(bot.conversations, key) == Some(AskTitle);
    var _ := bot.HandleConversation(Incoming(chat, admin, PlainText(title)), now);
    assert PhaseAt(bot.conversations, key) == Some(AskDocument);
    assert bot.titles[admin] == title;
    delivered := bot.HandleConversation(Incoming(chat, admin, DocumentMsg(doc)), now);
  }

  /** A non-admin's `/addassignment` outside a conversation starts nothing:
      no conversation state, no record, no scratch data, only the denial. */
  method NonAdminEntry(bot: AssignmentBot, chat: ChatId, user: UserId, args: seq<string>, now: int)
    requires bot.Valid() && user !in Admins
    requires ConvKey(chat, user) !in bot.conversations
    modifies bot
    ensures bot.Valid()
    ensures bot.conversations == old(bot.conversations)
    ensures bot.assignments == old(bot.assignments) && bot.titles == old(bot.titles)
    ensures bot.users == old(bot.users) && bot.nextId == old(bot.nextId)
    ensures bot.sent == old(bot.sent) + [Reply(chat, DenialText)]
  {
    var _ := bot.HandleConversation(Incoming(chat, user, CommandMsg(EntryCommand, args)), now);
  }
}
