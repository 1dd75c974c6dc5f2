/** The assignment store and its two read-only queries: the `/works` listing,
    newest first, as one button per record (main.py:110-122), and retrieval of
    one record's file by id (main.py:124-137). */
module AssignmentStore {
  import opened Messages

  /** One stored assignment: `_id`, `title`, `file_url`, `uploaded_by` and
      `timestamp` (an abstract UTC instant). */
  datatype Assignment = Assignment(id: AssignmentId, title: string, fileUrl: FileId, uploadedBy: UserId, timestamp: int)

  const ListingPrompt := "Select a file to download:"
  const EmptyListingText := "No files available."
  const NotFoundText := "Sorry, the assignment could not be found."

  /** No two records share an id. */
  ghost predicate DistinctIds(store: seq<Assignment>)
  {
    forall j, k :: 0 <= j < k < |store| ==> store[j].id != store[k].id
  }

  /** Every id is below `bound`: ids from `bound` on are still unused. */
  ghost predicate IdsBelow(store: seq<Assignment>, bound: nat)
  {
    forall k :: 0 <= k < |store| ==> store[k].id < bound
  }

  /** Non-increasing `timestamp` order. */
  ghost predicate NewestFirst(s: seq<Assignment>)
  {
    forall i, j :: 0 <= i < j < |s| ==> s[i].timestamp >= s[j].timestamp
  }

  /** `a` placed in front of the first record of `s` that is not newer than it. */
  function InsertByRecency(a: Assignment, s: seq<Assignment>): seq<Assignment>
  {
    if s == [] || a.timestamp >= s[0].timestamp then [a] + s
    else [s[0]] + InsertByRecency(a, s[1..])
  }

  /** Insertion adds exactly `a` to the records. */
  lemma {:induction false} InsertAddsOne(a: Assignment, s: seq<Assignment>)
    ensures multiset(InsertByRecency(a, s)) == multiset(s) + multiset{a}
  {
    if s != [] && a.timestamp < s[0].timestamp {
      InsertAddsOne(a, s[1..]);
      assert s == [s[0]] + s[1..];
    }
  }

  /** Insertion introduces no timestamp above a bound that `a` and every
      record of `s` respect. */
  lemma {:induction false} InsertBelow(a: Assignment, s: seq<Assignment>, bound: int)
    requires a.timestamp <= bound
    requires forall k :: 0 <= k < |s| ==> s[k].timestamp <= bound
    ensures forall k :: 0 <= k < |InsertByRecency(a, s)| ==> InsertByRecency(a, s)[k].timestamp <= bound
  {
    if s != [] && a.timestamp < s[0].timestamp {
      InsertBelow(a, s[1..], bound);
    }
  }

  /** Insertion into a newest-first sequence keeps it newest first. */
  lemma {:induction false} InsertKeepsOrder(a: Assignment, s: seq<Assignment>)
    requires NewestFirst(s)
    ensures NewestFirst(InsertByRecency(a, s))
  {
    if s != [] && a.timestamp < s[0].timestamp {
      var rest := InsertByRecency(a, s[1..]);
      InsertKeepsOrder(a, s[1..]);
      InsertBelow(a, s[1..], s[0].timestamp);
      assert InsertByRecency(a, s) == [s[0]] + rest;
    }
  }

  /** `find().sort('timestamp', -1)`: the store's records, newest first. Among
      records with equal timestamps the store promises no order; this one keeps
      insertion order. */
  function SortByRecency(s: seq<Assignment>): (r: seq<Assignment>)
    ensures multiset(r) == multiset(s)
    ensures NewestFirst(r)
  {
    if s == [] then []
    else
      assert s == [s[0]] + s[1..];
      var rest := SortByRecency(s[1..]);
      InsertAddsOne(s[0], rest);
      InsertKeepsOrder(s[0], rest);
      InsertByRecency(s[0], rest)
  }

  /** One button per record, captioned with its title and carrying its id. */
  function Buttons(s: seq<Assignment>): seq<Button>
  {
    seq(|s|, i requires 0 <= i < |s| => Button(s[i].title, s[i].id))
  }

  /** The reply to `/works` in `chat`. */
  function ListingReply(chat: ChatId, store: seq<Assignment>): Outbound
  {
    if |store| > 0 then Keyboard(chat, ListingPrompt, Buttons(SortByRecency(store)))
    else Reply(chat, EmptyListingText)
  }

  /** `find_one({"_id": id})`: the record with that id, if any. */
  function Lookup(store: seq<Assignment>, id: AssignmentId): (r: Option<Assignment>)
    ensures r.Some? ==> r.value in store && r.value.id == id
    ensures r.None? ==> forall k :: 0 <= k < |store| ==> store[k].id != id
  {
    if store == [] then None
    else if store[0].id == id then Some(store[0])
    else
      var r := Lookup(store[1..], id);
      assert forall k :: 1 <= k < |store| ==> store[k] == store[1..][k - 1];
      r
  }

  /** The reply to pressing a button whose callback data is `id`. */
  function RetrievalReply(chat: ChatId, store: seq<Assignment>, id: AssignmentId): Outbound
  {
    match Lookup(store, id)
    case Some(a) => SendDocument(chat, a.fileUrl)
    case None => Reply(chat, NotFoundText)
  }

  /** An empty store is answered with the fixed "No files available." text; a
      non-empty one with one button per record, in non-increasing timestamp
      order, each captioned with its record's title and carrying its id. */
  lemma ListingReplyShape(chat: ChatId, store: seq<Assignment>)
    ensures store == [] ==> ListingReply(chat, store) == Reply(chat, EmptyListingText)
    ensures store != [] ==>
      var reply := ListingReply(chat, store);
      && reply.Keyboard? && reply.chat == chat && reply.text == ListingPrompt
      && exists order: seq<Assignment> ::
           && multiset(order) == multiset(store)
           && NewestFirst(order)
           && reply.buttons == Buttons(order)
  {
    if store != [] {
      var order := SortByRecency(store);
      assert multiset(order) == multiset(store) && NewestFirst(order);
    }
  }

  /** Every record of the store has its button in the listing, and every
      button of the listing belongs to a record of the store. */
  lemma ListingCoversStore(chat: ChatId, store: seq<Assignment>)
    requires store != []
    ensures |ListingReply(chat, store).buttons| == |store|
    ensures forall a :: a in store ==> Button(a.title, a.id) in ListingReply(chat, store).buttons
    ensures forall b :: b in ListingReply(chat, store).buttons ==>
              exists a :: a in store && b == Button(a.title, a.id)
  {
    var order := SortByRecency(store);
    var buttons := Buttons(order);
    assert |order| == |multiset(order)| == |multiset(store)| == |store|;
    forall a | a in store ensures Button(a.title, a.id) in buttons {
      assert a in multiset(store);
      assert a in order;
      var i :| 0 <= i < |order| && order[i] == a;
      assert buttons[i] == Button(a.title, a.id);
    }
    forall b | b in buttons ensures exists a :: a in store && b == Button(a.title, a.id) {
      var i :| 0 <= i < |buttons| && buttons[i] == b;
      assert order[i] in multiset(order);
      assert order[i] in store;
    }
  }

  /** Retrieval sends exactly the `file_url` of the record with the requested
      id; an id no record carries gets only the fixed "could not be found" reply. */
  lemma RetrievalReplyShape(chat: ChatId, store: seq<Assignment>, id: AssignmentId)
    requires DistinctIds(store)
    ensures forall k :: 0 <= k < |store| && store[k].id == id ==>
              RetrievalReply(chat, store, id) == SendDocument(chat, store[k].fileUrl)
    ensures (forall k :: 0 <= k < |store| ==> store[k].id != id) ==>
              RetrievalReply(chat, store, id) == Reply(chat, NotFoundText)
  {
    match Lookup(store, id)
    case Some(a) =>
      var j :| 0 <= j < |store| && store[j] == a;
      assert forall k :: 0 <= k < |store| && store[k].id == id ==> k == j;
    case None =>
  }

  /** Pressing any button of a listing sends the file of the record that the
      button was captioned for. */
  lemma ListThenRetrieve(chat: ChatId, store: seq<Assignment>, i: nat)
    requires DistinctIds(store)
    requires store != [] && i < |ListingReply(chat, store).buttons|
    ensures var b := ListingReply(chat, store).buttons[i];
            exists a :: a in store && b.caption == a.title
                        && RetrievalReply(chat, store, b.data) == SendDocument(chat, a.fileUrl)
  {
    var b := ListingReply(chat, store).buttons[i];
    ListingCoversStore(chat, store);
    assert b in ListingReply(chat, store).buttons;
    var a :| a in store && b == Button(a.title, a.id);
    var k :| 0 <= k < |store| && store[k] == a;
    RetrievalReplyShape(chat, store, a.id);
  }
}
