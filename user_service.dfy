/** `UserService`: profile lookup, partial update and deletion over the users table. */
module Users {
  import opened Wrappers
  import opened Seqs
  import Auth

  /** `UpdateUserRequest`: an absent field means "leave as is". */
  datatype UpdateUserRequest = UpdateUserRequest(fullName: Option<string>, phone: Option<string>)

  datatype UserError = UserNotFound

  /** The effect of `updateUser` on the record: each given field overwrites, the others stay. */
  function Patch(u: Auth.UserRecord, req: UpdateUserRequest): Auth.UserRecord
  {
    var withName := if req.fullName.Some? then u.(fullName := req.fullName.value) else u;
    if req.phone.Some? then withName.(phone := req.phone) else withName
  }

  /** Only the full name and the phone can change: id, email, password, role and verification stay. */
  lemma PatchTouchesOnlyProfileFields(u: Auth.UserRecord, req: UpdateUserRequest)
    ensures Patch(u, req) == u.(fullName := Patch(u, req).fullName, phone := Patch(u, req).phone)
    ensures Auth.WellFormed(u) ==> Auth.WellFormed(Patch(u, req))
  {
  }

  /** A given field is written, an absent field keeps its old value. */
  lemma PatchWritesGivenFields(u: Auth.UserRecord, req: UpdateUserRequest)
    ensures Patch(u, req).fullName == (match req.fullName case Some(n) => n case None => u.fullName)
    ensures Patch(u, req).phone == (match req.phone case Some(_) => req.phone case None => u.phone)
  {
  }

  /** A request with both fields absent leaves the record unchanged. */
  lemma EmptyPatchIsIdentity(u: Auth.UserRecord)
    ensures Patch(u, UpdateUserRequest(None, None)) == u
  {
  }

  /** Applying the same request twice is the same as applying it once. */
  lemma PatchIsIdempotent(u: Auth.UserRecord, req: UpdateUserRequest)
    ensures Patch(Patch(u, req), req) == Patch(u, req)
  {
  }

  /** The field-wise merge of two requests, the later one winning. */
  function Then(first: UpdateUserRequest, second: UpdateUserRequest): UpdateUserRequest
  {
    UpdateUserRequest(if second.fullName.Some? then second.fullName else first.fullName,
                      if second.phone.Some? then second.phone else first.phone)
  }

  /** Two updates in a row act like the single merged update. */
  lemma PatchesCompose(u: Auth.UserRecord, first: UpdateUserRequest, second: UpdateUserRequest)
    ensures Patch(Patch(u, first), second) == Patch(u, Then(first, second))
  {
  }

  /** `findById`: the index of the user with this id. */
  function FindById(users: seq<Auth.UserRecord>, id: nat): Option<nat>
  {
    FirstIndex(users, (u: Auth.UserRecord) => u.id, id)
  }

  /** Keeps every user whose id differs from `id`. */
  function HasOtherId(id: nat): Auth.UserRecord -> bool
  {
    (u: Auth.UserRecord) => u.id != id
  }

  class UserService {
    /** The users table. */
    var users: seq<Auth.UserRecord>

    /** User ids are distinct. */
    ghost predicate Valid()
      reads this
    {
      forall a, b :: 0 <= a < b < |users| ==> users[a].id != users[b].id
    }

    constructor (users: seq<Auth.UserRecord>)
      requires forall a, b :: 0 <= a < b < |users| ==> users[a].id != users[b].id
      ensures Valid() && this.users == users
    {
      this.users := users;
    }

    /** `getUserById`. */
    method GetUserById(userId: nat) returns (r: Result<Auth.UserRecord, UserError>)
      ensures r.Ok? ==> r.value in users && r.value.id == userId
      ensures r.Err? <==> forall u :: u in users ==> u.id != userId
    {
      var found := FindById(users, userId);
      if found.None? {
        return Err(UserNotFound);
      }
      r := Ok(users[found.value]);
    }

    /** `updateUser`: the stored record is patched with the given fields. */
    method UpdateUser(userId: nat, req: UpdateUserRequest) returns (r: Result<Auth.UserRecord, UserError>)
      requires Valid()
      modifies this
      ensures Valid()
      ensures match FindById(old(users), userId)
        case None => r == Err(UserNotFound) && users == old(users)
        case Some(i) => r == Ok(Patch(old(users)[i], req)) && users == old(users)[i := r.value]
    {
      var found := FindById(users, userId);
      if found.None? {
        return Err(UserNotFound);
      }
      var i := found.value;
      var u := users[i];
      if req.fullName.Some? {
        u := u.(fullName := req.fullName.value);
      }
      if req.phone.Some? {
        u := u.(phone := req.phone);
      }
      users := users[i := u];
      r := Ok(u);
    }

    /** `deleteUser`: fails for an unknown id; otherwise the user is gone and everyone else stays, in order. */
    method DeleteUser(userId: nat) returns (r: Outcome<UserError>)
      requires Valid()
      modifies this
      ensures Valid()
      ensures (forall u :: u in old(users) ==> u.id != userId) ==> r == Fail(UserNotFound) && users == old(users)
      ensures (exists u :: u in old(users) && u.id == userId) ==> r == Pass && users == Filter(old(users), HasOtherId(userId))
      ensures forall u :: u in users ==> u.id != userId
    {
      if FindById(users, userId).None? {
        return Fail(UserNotFound);
      }
      FilterIsSubsequence(users, HasOtherId(userId));
      SubsequenceKeepsDistinctIds(Filter(users, HasOtherId(userId)), users);
      users := Filter(users, HasOtherId(userId));
      r := Pass;
    }
  }

  /** A subsequence of a table with distinct ids has distinct ids. */
  lemma {:induction false} SubsequenceKeepsDistinctIds(a: seq<Auth.UserRecord>, b: seq<Auth.UserRecord>)
    requires IsSubsequence(a, b)
    requires forall i, j :: 0 <= i < j < |b| ==> b[i].id != b[j].id
    ensures forall i, j :: 0 <= i < j < |a| ==> a[i].id != a[j].id
    decreases |b|
  {
    if a != [] {
      assert b != [];
      if a[0] == b[0] && IsSubsequence(a[1..], b[1..]) {
        SubsequenceKeepsDistinctIds(a[1..], b[1..]);
        SubsequenceElements(a[1..], b[1..]);
        forall i, j | 0 <= i < j < |a| ensures a[i].id != a[j].id {
          if i == 0 {
            assert a[j] == a[1..][j - 1];
            assert a[j] in b[1..];
          } else {
            assert a[i] == a[1..][i - 1] && a[j] == a[1..][j - 1];
          }
        }
      } else {
        SubsequenceKeepsDistinctIds(a, b[1..]);
      }
    }
  }
}
