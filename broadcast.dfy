/** The notice sent to the whole roster after an assignment is saved
    (main.py:182-188), and the shape of the outbound traffic one broadcast
    leaves behind. */
module Broadcast {
  import opened Messages
  import opened Roster
  import Text

  const NoticePrefix := "Admin uploaded a new assignment: "
  const NoticeSuffix := " Please check the /works for more details."

  /** The text each user receives about a new assignment. */
  function NoticeText(title: string): string
  {
    NoticePrefix + title + NoticeSuffix
  }

  /** The notice names the new assignment's title. */
  lemma NoticeMentionsTitle(title: string)
    ensures Text.Mentions(NoticeText(title), title)
  {
    var text := NoticeText(title);
    assert text[|NoticePrefix|..|NoticePrefix| + |title|] == title;
    assert Text.OccursAt(text, title, |NoticePrefix|);
  }

  /** One send attempt of `text` per roster record, in roster order, each with
      whether the transport delivered it. */
  function NoticeLog(users: seq<UserRecord>, text: string, delivered: seq<bool>): seq<Outbound>
    requires |delivered| == |users|
  {
    seq(|users|, k requires 0 <= k < |users| => Notice(users[k].userId, text, delivered[k]))
  }

  lemma NoticeLogStep(users: seq<UserRecord>, text: string, delivered: seq<bool>, u: UserRecord, got: bool)
    requires |delivered| == |users|
    ensures NoticeLog(users + [u], text, delivered + [got])
         == NoticeLog(users, text, delivered) + [Notice(u.userId, text, got)]
  {
  }

  /** However the individual sends turn out, a broadcast makes exactly one
      attempt per registered user: the attempts follow the roster, reach every
      user, never reach one user twice, and each mentions the title. */
  lemma EveryUserNotifiedOnce(users: seq<UserRecord>, title: string, delivered: seq<bool>)
    requires |delivered| == |users|
    requires UniqueIds(users)
    ensures var log := NoticeLog(users, NoticeText(title), delivered);
      && |log| == |users|
      && (forall k :: 0 <= k < |log| ==>
            log[k].Notice? && log[k].chat == users[k].userId
            && Text.Mentions(log[k].text, title))
      && (forall u :: u in users ==> exists k :: 0 <= k < |log| && log[k].chat == u.userId)
      && (forall j, k :: 0 <= j < k < |log| ==> log[j].chat != log[k].chat)
  {
    NoticeMentionsTitle(title);
    var log := NoticeLog(users, NoticeText(title), delivered);
    forall u | u in users ensures exists k :: 0 <= k < |log| && log[k].chat == u.userId {
      var k :| 0 <= k < |users| && users[k] == u;
      assert log[k].chat == u.userId;
    }
  }
}
