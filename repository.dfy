/**
 * The in-memory user store of the authentication package
 * (InMemoryUserRepository, backend/pkg/auth/handler.go). One map holds every user
 * twice, under its id and under its email, so ids and emails share one key space,
 * and the map holds references: both keys reach the same user object.
 */
module Repository {
  import opened Wrappers
  import opened Accounts

  datatype RepoError = UserNotFound | DuplicateEmail

  /** A slice expression with bounds out of order or negative: the Go runtime panics. */
  datatype ListFault = SlicePanic

  const AdminEmail := "admin@zaigo.local"
  const AdminName := "管理者"
  const AdminPassword := "admin123"

  /** The ids occurring in a sequence of users. */
  ghost function IdsOf(s: seq<UserRecord>): set<string>
  {
    if |s| == 0 then {} else IdsOf(s[..|s| - 1]) + {s[|s| - 1].id}
  }

  lemma {:induction false} IdsOfAppend(s: seq<UserRecord>, u: UserRecord)
    ensures IdsOf(s + [u]) == IdsOf(s) + {u.id}
    ensures forall i :: 0 <= i < |s| ==> s[i].id in IdsOf(s)
  {
    assert (s + [u])[..|s|] == s;
    if |s| > 0 {
      IdsOfAppend(s[..|s| - 1], s[|s| - 1]);
      assert s[..|s| - 1] + [s[|s| - 1]] == s;
    }
  }

  /** The ids of the users filed under the keys in `keys`. */
  ghost function Image(view: map<string, UserRecord>, keys: set<string>): set<string>
  {
    set k | k in keys && k in view :: view[k].id
  }

  lemma ImageAdd(view: map<string, UserRecord>, keys: set<string>, k: string)
    requires k in view
    ensures Image(view, keys + {k}) == Image(view, keys) + {view[k].id}
  {
  }

  /**
   * The state of List's loop after visiting the keys `done` of `view`: `seen` holds their
   * ids, and `all` one copy per id, each taken from the key at the same place in `from`.
   */
  ghost predicate Collected(view: map<string, UserRecord>, done: set<string>, seen: set<string>,
                            all: seq<UserRecord>, from: seq<string>)
  {
    && seen == Image(view, done)
    && seen == IdsOf(all)
    && |all| == |seen|
    && (forall i, j :: 0 <= i < j < |all| ==> all[i].id != all[j].id)
    && |from| == |all|
    && (forall i :: 0 <= i < |all| ==> from[i] in view && all[i] == view[from[i]])
  }

  lemma CollectStep(view: map<string, UserRecord>, done: set<string>, seen: set<string>,
                    all: seq<UserRecord>, from: seq<string>, k: string)
    requires Collected(view, done, seen, all, from)
    requires k in view
    ensures view[k].id in seen ==> Collected(view, done + {k}, seen, all, from)
    ensures view[k].id !in seen ==>
      Collected(view, done + {k}, seen + {view[k].id}, all + [view[k]], from + [k])
  {
    ImageAdd(view, done, k);
    IdsOfAppend(all, view[k]);
  }

  lemma CollectDone(view: map<string, UserRecord>, seen: set<string>, all: seq<UserRecord>, from: seq<string>)
    requires Collected(view, view.Keys, seen, all, from)
    ensures IdsOf(all) == Image(view, view.Keys) && |all| == |Image(view, view.Keys)|
    ensures forall i, j :: 0 <= i < j < |all| ==> all[i].id != all[j].id
    ensures forall i :: 0 <= i < |all| ==> all[i] in view.Values
  {
    forall i | 0 <= i < |all| ensures all[i] in view.Values {
      assert view[from[i]] in view.Values;
    }
  }

  class InMemoryUserRepository {
    var users: map<string, User>

    /** The store as values: every key with the current fields of the object it reaches. */
    ghost function View(): map<string, UserRecord>
      reads this, users.Values
    {
      map k | k in users :: users[k].Snapshot()
    }

    /** The distinct ids of the stored objects. */
    ghost function Ids(): set<string>
      reads this, users.Values
    {
      set k | k in users :: users[k].id
    }

    lemma IdsOfView()
      ensures Image(View(), View().Keys) == Ids()
    {
      forall x | x in Ids() ensures x in Image(View(), View().Keys) {
        var k :| k in users && users[k].id == x;
        assert View()[k].id == x;
      }
    }

    /**
     * NewInMemoryUserRepository: a store seeded with the administrator, filed under its
     * id and its email. `adminId` is the drawn UUID and `adminHash` the bcrypt hash of
     * the seed password.
     */
    constructor (adminId: string, adminHash: string)
      ensures users.Keys == {adminId, AdminEmail}
      ensures users[adminId] == users[AdminEmail] && fresh(users[adminId])
      ensures View()[adminId] ==
        UserRecord(adminId, AdminEmail, AdminName, adminHash, RoleName(SystemAdmin), None, true)
    {
      var admin := new User(UserRecord(adminId, AdminEmail, AdminName, adminHash, RoleName(SystemAdmin), None, true));
      users := map[adminId := admin, AdminEmail := admin];
    }

    /** Create: refused when the email is already a key; otherwise filed under id and email. */
    method Create(user: User) returns (err: Option<RepoError>)
      modifies this
      ensures user.email in old(users) ==> err == Some(DuplicateEmail) && users == old(users)
      ensures user.email !in old(users) ==> err == None && users == old(users)[user.id := user][user.email := user]
    {
      if user.email in users {
        return Some(DuplicateEmail);
      }
      users := users[user.id := user];
      users := users[user.email := user];
      return None;
    }

    /** GetByID: the object under `id`. Any key matches, an email as well. */
    method GetByID(id: string) returns (r: Result<User, RepoError>)
      ensures r.Success? <==> id in users
      ensures r.Success? ==> r.value == users[id]
      ensures r.Failure? ==> r.error == UserNotFound
    {
      if id !in users {
        return Failure(UserNotFound);
      }
      return Success(users[id]);
    }

    /** GetByEmail: the object under `email`. Any key matches, an id as well. */
    method GetByEmail(email: string) returns (r: Result<User, RepoError>)
      ensures r.Success? <==> email in users
      ensures r.Success? ==> r.value == users[email]
      ensures r.Failure? ==> r.error == UserNotFound
    {
      if email !in users {
        return Failure(UserNotFound);
      }
      return Success(users[email]);
    }

    /**
     * Update: refused when the user's id is not a key; otherwise the id key and the
     * user's current email key are (re)bound to it. No other key is touched, so a key
     * for an email the user had before stays in the map.
     */
    method Update(user: User) returns (err: Option<RepoError>)
      modifies this
      ensures user.id !in old(users) ==> err == Some(UserNotFound) && users == old(users)
      ensures user.id in old(users) ==> err == None && users == old(users)[user.id := user][user.email := user]
      ensures forall k :: k in old(users) && k != user.id && k != user.email ==> k in users && users[k] == old(users)[k]
    {
      if user.id !in users {
        return Some(UserNotFound);
      }
      users := users[user.id := user];
      users := users[user.email := user];
      return None;
    }

    /**
     * Delete: refused when `id` is not a key; otherwise the stored object's id key and
     * its current email key are removed, and nothing else.
     */
    method Delete(id: string) returns (err: Option<RepoError>)
      modifies this
      ensures id !in old(users) ==> err == Some(UserNotFound) && users == old(users)
      ensures id in old(users) ==>
        err == None && users == old(users) - {old(users)[id].id, old(users)[id].email}
    {
      if id !in users {
        return Some(UserNotFound);
      }
      var user := users[id];
      users := users - {user.id};
      users := users - {user.email};
      return None;
    }

    /**
     * The loop at the head of List: one copy of every distinct stored user, the first
     * object met for each id, in the map's unspecified iteration order.
     */
    method CollectDistinct() returns (all: seq<UserRecord>)
      ensures IdsOf(all) == Ids() && |all| == |Ids()|
      ensures forall i, j :: 0 <= i < j < |all| ==> all[i].id != all[j].id
      ensures forall i :: 0 <= i < |all| ==> all[i] in View().Values
    {
      ghost var view := View();
      ghost var done: set<string> := {};
      ghost var from: seq<string> := [];
      all := [];
      var seen: set<string> := {};
      var remaining := users.Keys;
      while remaining != {}
        invariant remaining <= users.Keys && done == users.Keys - remaining
        invariant Collected(view, done, seen, all, from)
        decreases remaining
      {
        var k :| k in remaining;
        remaining := remaining - {k};
        var user := users[k];
        assert view[k] == user.Snapshot();
        CollectStep(view, done, seen, all, from, k);
        done := done + {k};
        if user.id !in seen {
          seen := seen + {user.id};
          all := all + [user.Snapshot()];
          from := from + [k];
        }
      }
      assert done == view.Keys;
      IdsOfView();
      CollectDone(view, seen, all, from);
    }

    /**
     * List: the distinct stored users, then the window [offset, offset + limit) of that
     * sequence. An offset at or past the end gives an empty page; a negative offset, or
     * a negative limit before the end, makes the slice expression panic.
     */
    method List(offset: int, limit: int) returns (r: Result<seq<UserRecord>, ListFault>)
      ensures offset < 0 ==> r == Failure(SlicePanic)
      ensures 0 <= offset && |Ids()| <= offset ==> r == Success([])
      ensures 0 <= offset < |Ids()| && limit < 0 ==> r == Failure(SlicePanic)
      ensures 0 <= offset < |Ids()| && 0 <= limit ==>
        r.Success? && |r.value| == if limit < |Ids()| - offset then limit else |Ids()| - offset
      ensures r.Success? ==> forall i, j :: 0 <= i < j < |r.value| ==> r.value[i].id != r.value[j].id
      ensures r.Success? ==> forall i :: 0 <= i < |r.value| ==> r.value[i] in View().Values
      ensures r.Success? && offset == 0 && |Ids()| <= limit ==> IdsOf(r.value) == Ids()
    {
      var all := CollectDistinct();
      if offset >= |all| {
        return Success([]);
      }
      var end := offset + limit;
      if end > |all| {
        end := |all|;
      }
      if offset < 0 || end < offset {
        return Failure(SlicePanic);
      }
      if offset == 0 && end == |all| {
        assert all[offset..end] == all;
      }
      return Success(all[offset..end]);
    }
  }
}
