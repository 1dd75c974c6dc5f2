/** The user roster kept by `/start` (main.py:81-99): a record per chat user,
    inserted on first contact and never updated afterwards. */
module Roster {
  import opened Messages
  import Text

  /** The sender of an update as Telegram describes it; last name and
      username are optional. */
  datatype TgUser = TgUser(id: UserId, firstName: string, lastName: Option<string>, username: Option<string>)

  /** A stored roster record. */
  datatype UserRecord = UserRecord(userId: UserId, firstName: string, lastName: string, username: string)

  /** Python's `x or ''` for an optional string. */
  function OrEmpty(o: Option<string>): string
  {
    match o
    case Some(v) => v
    case None => ""
  }

  /** The record `/start` inserts for a new user. */
  function RecordFor(u: TgUser): UserRecord
  {
    UserRecord(u.id, u.firstName, OrEmpty(u.lastName), OrEmpty(u.username))
  }

  ghost predicate Registered(users: seq<UserRecord>, id: UserId)
  {
    exists k :: 0 <= k < |users| && users[k].userId == id
  }

  /** No two records share a `user_id`. */
  ghost predicate UniqueIds(users: seq<UserRecord>)
  {
    forall j, k :: 0 <= j < k < |users| ==> users[j].userId != users[k].userId
  }

  /** `users_collection.find_one({"user_id": id})`: the first record with that id. */
  function FindUser(users: seq<UserRecord>, id: UserId): (r: Option<UserRecord>)
    ensures r.Some? <==> Registered(users, id)
    ensures r.Some? ==> r.value in users && r.value.userId == id
  {
    if users == [] then None
    else if users[0].userId == id then Some(users[0])
    else
      var r := FindUser(users[1..], id);
      assert forall k :: 1 <= k < |users| ==> users[k] == users[1..][k - 1];
      r
  }

  /** The roster after `/start` from `u`: unchanged when a record with `u`'s id
      exists, otherwise extended by one record built from `u`. */
  function Register(users: seq<UserRecord>, u: TgUser): (r: seq<UserRecord>)
    ensures Registered(users, u.id) ==> r == users
    ensures !Registered(users, u.id) ==> r == users + [RecordFor(u)]
  {
    if FindUser(users, u.id).Some? then users else users + [RecordFor(u)]
  }

  /** The number of records with the given id. */
  function Occurrences(users: seq<UserRecord>, id: UserId): nat
  {
    if users == [] then 0
    else (if users[0].userId == id then 1 else 0) + Occurrences(users[1..], id)
  }

  lemma {:induction false} OccurrencesAppend(users: seq<UserRecord>, x: UserRecord, id: UserId)
    ensures Occurrences(users + [x], id) == Occurrences(users, id) + (if x.userId == id then 1 else 0)
  {
    if users != [] {
      assert (users + [x])[1..] == users[1..] + [x];
      OccurrencesAppend(users[1..], x, id);
    }
  }

  lemma {:induction false} OccurrencesAbsent(users: seq<UserRecord>, id: UserId)
    requires !Registered(users, id)
    ensures Occurrences(users, id) == 0
  {
    if users != [] {
      assert !Registered(users[1..], id) by {
        forall k | 0 <= k < |users[1..]| ensures users[1..][k].userId != id {
          assert users[1..][k] == users[k + 1];
        }
      }
      OccurrencesAbsent(users[1..], id);
    }
  }

  lemma {:induction false} OccurrencesUnique(users: seq<UserRecord>, id: UserId)
    requires UniqueIds(users) && Registered(users, id)
    ensures Occurrences(users, id) == 1
  {
    if users[0].userId == id {
      assert !Registered(users[1..], id) by {
        forall k | 0 <= k < |users[1..]| ensures users[1..][k].userId != id {
          assert users[1..][k] == users[k + 1];
        }
      }
      OccurrencesAbsent(users[1..], id);
    } else {
      var k :| 0 <= k < |users| && users[k].userId == id;
      assert users[1..][k - 1] == users[k];
      OccurrencesUnique(users[1..], id);
    }
  }

  /** Registration keeps ids unique and leaves exactly one record for the
      registering user. */
  lemma RegisterLeavesOneRecord(users: seq<UserRecord>, u: TgUser)
    requires UniqueIds(users)
    ensures UniqueIds(Register(users, u))
    ensures Occurrences(Register(users, u), u.id) == 1
  {
    if Registered(users, u.id) {
      OccurrencesUnique(users, u.id);
    } else {
      OccurrencesAbsent(users, u.id);
      OccurrencesAppend(users, RecordFor(u), u.id);
    }
  }

  lemma {:induction false} FindAppended(users: seq<UserRecord>, x: UserRecord)
    requires !Registered(users, x.userId)
    ensures FindUser(users + [x], x.userId) == Some(x)
  {
    if users != [] {
      assert (users + [x])[1..] == users[1..] + [x];
      assert !Registered(users[1..], x.userId) by {
        forall k | 0 <= k < |users[1..]| ensures users[1..][k].userId != x.userId {
          assert users[1..][k] == users[k + 1];
        }
      }
      FindAppended(users[1..], x);
    }
  }

  /** Registering is idempotent: a second `/start` with the same id changes
      nothing, so the stored record keeps the fields of the first call, with a
      missing last name or username stored as "". */
  lemma RegisterTwice(users: seq<UserRecord>, first: TgUser, second: TgUser)
    requires first.id == second.id
    ensures Register(Register(users, first), second) == Register(users, first)
    ensures !Registered(users, first.id) ==>
      FindUser(Register(Register(users, first), second), first.id)
        == Some(UserRecord(first.id, first.firstName, OrEmpty(first.lastName), OrEmpty(first.username)))
  {
    var once := Register(users, first);
    assert Registered(once, first.id) by {
      if !Registered(users, first.id) {
        assert once[|users|] == RecordFor(first);
      }
    }
    if !Registered(users, first.id) {
      FindAppended(users, RecordFor(first));
    }
  }

  /** `f"{first_name} {last_name}".strip()`. */
  function FullName(u: TgUser): string
  {
    Text.Strip(u.firstName + " " + OrEmpty(u.lastName))
  }

  /** Without a last name the greeting uses the stripped first name alone:
      the separating space does not survive `strip()`. */
  lemma FullNameWithoutLastName(u: TgUser)
    requires u.lastName == None || u.lastName == Some("")
    ensures FullName(u) == Text.Strip(u.firstName)
  {
    assert u.firstName + " " + OrEmpty(u.lastName) == u.firstName + [' '];
    Text.StripTrailingSpace(u.firstName, ' ');
  }

  const WelcomePrefix := "Welcome to the Assignment Bot, "
  const WelcomeSuffix := "! Use /help to see available commands."

  /** The greeting `/start` replies with. */
  function WelcomeText(u: TgUser): string
  {
    WelcomePrefix + FullName(u) + WelcomeSuffix
  }

  /** The greeting addresses the sender by their full name. */
  lemma WelcomeNamesUser(u: TgUser)
    ensures Text.Mentions(WelcomeText(u), FullName(u))
  {
    var text := WelcomeText(u);
    assert text[|WelcomePrefix|..|WelcomePrefix| + |FullName(u)|] == FullName(u);
    assert Text.OccursAt(text, FullName(u), |WelcomePrefix|);
  }
}
