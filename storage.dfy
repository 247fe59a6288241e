/**
 * The browser-local persistence layer: four independent keys (the users
 * list, the current-user pointer, the feeding logs and the journal), each
 * holding a serialised value. Every key is abstracted as a `Slot`: nothing
 * stored, a blob that does not parse, or a parsed value. Readers fail soft:
 * a missing or unparseable blob reads as the empty collection (or as no
 * current user). Writers overwrite the whole value of their key.
 */
module Storage {
  import opened Types

  /** The state of one storage key. */
  datatype Slot<T> = Absent | Corrupt | Present(value: T)

  /** The two errors the authentication routines raise. */
  datatype AuthError = UserAlreadyExists | UserNotFound

  datatype Result<T> = Ok(value: T) | Err(error: AuthError)

  /** All emails in `users` are pairwise distinct (exact comparison). */
  ghost predicate DistinctEmails(users: seq<User>)
  {
    forall i, j :: 0 <= i < j < |users| ==> users[i].email != users[j].email
  }

  /**
   * The index of the first user whose email equals `email` exactly,
   * as `users.find(u => u.email === email)` locates it.
   */
  function FindByEmail(users: seq<User>, email: string): (r: Option<nat>)
    ensures r.Some? ==> r.value < |users| && users[r.value].email == email
    ensures r.Some? ==> forall j :: 0 <= j < r.value ==> users[j].email != email
    ensures r.None? <==> forall j :: 0 <= j < |users| ==> users[j].email != email
  {
    if |users| == 0 then None
    else if users[0].email == email then Some(0)
    else match FindByEmail(users[1..], email)
      case None => None
      case Some(k) => Some(k + 1)
  }

  /** Appending a user whose email is not yet stored keeps the emails distinct. */
  lemma AppendKeepsDistinct(users: seq<User>, user: User)
    requires DistinctEmails(users)
    requires FindByEmail(users, user.email).None?
    ensures DistinctEmails(users + [user])
  {
  }

  class Store {
    var users: Slot<seq<User>>
    var current: Slot<User>
    var logs: Slot<seq<FeedLog>>
    var journal: Slot<seq<JournalEntry>>

    /** A store holding whatever the browser profile already contains. */
    constructor (users: Slot<seq<User>>, current: Slot<User>,
                 logs: Slot<seq<FeedLog>>, journal: Slot<seq<JournalEntry>>)
      ensures this.users == users && this.current == current
      ensures this.logs == logs && this.journal == journal
    {
      this.users := users;
      this.current := current;
      this.logs := logs;
      this.journal := journal;
    }

    // The fail-soft readers: a missing or unparseable blob reads as empty.

    function GetStoredUsers(): (r: seq<User>)
      reads this`users
      ensures users.Present? ==> r == users.value
      ensures users == Absent || users == Corrupt ==> r == []
    {
      if users.Present? then users.value else []
    }

    function GetCurrentUser(): (r: Option<User>)
      reads this`current
      ensures current.Present? ==> r == Some(current.value)
      ensures current == Absent || current == Corrupt ==> r == None
    {
      if current.Present? then Some(current.value) else None
    }

    function GetFeedingLogs(): (r: seq<FeedLog>)
      reads this`logs
      ensures logs.Present? ==> r == logs.value
      ensures logs == Absent || logs == Corrupt ==> r == []
    {
      if logs.Present? then logs.value else []
    }

    function GetJournalEntries(): (r: seq<JournalEntry>)
      reads this`journal
      ensures journal.Present? ==> r == journal.value
      ensures journal == Absent || journal == Corrupt ==> r == []
    {
      if journal.Present? then journal.value else []
    }

    /**
     * Registration: refuses an email that is already stored; otherwise
     * appends the user to the (fail-soft read) users list, writes it back
     * and makes the user current.
     */
    method SaveUser(user: User) returns (r: Result<User>)
      modifies this
      ensures r.Err? <==> exists i :: 0 <= i < |old(GetStoredUsers())| && old(GetStoredUsers())[i].email == user.email
      ensures r.Err? ==> r.error == UserAlreadyExists && unchanged(this)
      ensures r.Ok? ==> r.value == user
      ensures r.Ok? ==> users == Present(old(GetStoredUsers()) + [user]) && current == Present(user)
      ensures r.Ok? ==> GetCurrentUser() == Some(user)
      ensures logs == old(logs) && journal == old(journal)
      ensures DistinctEmails(old(GetStoredUsers())) ==> DistinctEmails(GetStoredUsers())
    {
      var stored := GetStoredUsers();
      if FindByEmail(stored, user.email).Some? {
        return Err(UserAlreadyExists);
      }
      if DistinctEmails(stored) {
        AppendKeepsDistinct(stored, user);
      }
      users := Present(stored + [user]);
      current := Present(user);
      r := Ok(user);
    }

    /**
     * Login: looks the user up by email alone; the password is never
     * compared. The first matching stored record becomes current.
     */
    method LoginUser(email: string, password: string) returns (r: Result<User>)
      modifies this`current
      ensures r.Err? <==> forall i :: 0 <= i < |GetStoredUsers()| ==> GetStoredUsers()[i].email != email
      ensures r.Err? ==> r.error == UserNotFound && current == old(current)
      ensures r.Ok? ==> exists k :: 0 <= k < |GetStoredUsers()| && r.value == GetStoredUsers()[k] &&
                          r.value.email == email &&
                          forall j :: 0 <= j < k ==> GetStoredUsers()[j].email != email
      ensures r.Ok? ==> current == Present(r.value) && GetCurrentUser() == Some(r.value)
    {
      var stored := GetStoredUsers();
      match FindByEmail(stored, email)
      case None =>
        r := Err(UserNotFound);
      case Some(k) =>
        current := Present(stored[k]);
        r := Ok(stored[k]);
        assert GetStoredUsers()[k].email == email;
    }

    /** Logout removes the current-user key, whatever it held. */
    method LogoutUser()
      modifies this`current
      ensures current == Absent && GetCurrentUser() == None
      ensures old(current) == Absent ==> unchanged(this)
    {
      current := Absent;
    }

    /** Prepends `log` to the (fail-soft read) logs and writes them back. */
    method SaveFeedingLog(log: FeedLog) returns (r: seq<FeedLog>)
      modifies this`logs
      ensures r == [log] + old(GetFeedingLogs())
      ensures |r| == |old(GetFeedingLogs())| + 1 && r[0] == log && r[1..] == old(GetFeedingLogs())
      ensures logs == Present(r) && GetFeedingLogs() == r
    {
      r := [log] + GetFeedingLogs();
      logs := Present(r);
    }

    /** Prepends `entry` to the (fail-soft read) journal and writes it back. */
    method SaveJournalEntry(entry: JournalEntry) returns (r: seq<JournalEntry>)
      modifies this`journal
      ensures r == [entry] + old(GetJournalEntries())
      ensures |r| == |old(GetJournalEntries())| + 1 && r[0] == entry && r[1..] == old(GetJournalEntries())
      ensures journal == Present(r) && GetJournalEntries() == r
    {
      r := [entry] + GetJournalEntries();
      journal := Present(r);
    }
  }
}
