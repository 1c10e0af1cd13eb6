/** The users service: the user table and the follower table held by one
    store object, whose methods perform the service's check-then-write
    operations and whose functions are its reads. */
module Users {
  import opened Common
  import opened Follow

  /** A row of the user table; the nullable columns are Options. */
  datatype User = User(
    id: UserId,
    email: string,
    username: Option<string>,
    firstname: Option<string>,
    avatar: Option<string>,
    bio: Option<string>,
    deletedAt: Option<Time>)

  /** What getUser, updateUsername and updateFirstname return. */
  datatype AuthUser = AuthUser(
    email: string,
    firstname: Option<string>,
    id: UserId,
    username: Option<string>,
    avatar: Option<string>)

  /** What updateUserAvatar and the profile search return. */
  datatype Profile = Profile(
    id: UserId,
    firstname: Option<string>,
    username: Option<string>,
    avatar: Option<string>)

  /** The part of getProfileAndFinds' answer this model covers (finds are left out). */
  datatype UserProfile = UserProfile(
    id: UserId,
    username: Option<string>,
    avatar: Option<string>,
    firstname: Option<string>,
    followers: nat,
    following: nat,
    bio: Option<string>)

  const UserNotFound := "User not found"
  const FollowerNotFound := "Follower not found"
  const UserAlreadyExists := "User already exists"
  const UsernameTooShort := "Username must be at least 3 characters"
  const UsernameTooLong := "Username must be at most 15 characters"
  const UsernameBadCharacters := "Username can only contain letters, numbers, underscores, dashes and dots"
  const UsernameAlreadyTaken := "Username already taken"
  /** The store's refusal of an update whose `where: { id }` matches no row. */
  const RecordToUpdateNotFound := "Record to update not found."

  const MinUsernameLength := 3
  const MaxUsernameLength := 15

  function AsAuthUser(u: User): AuthUser
  {
    AuthUser(u.email, u.firstname, u.id, u.username, u.avatar)
  }

  function AsProfile(u: User): Profile
  {
    Profile(u.id, u.firstname, u.username, u.avatar)
  }

  /** The row `user.create({ data: { email } })` inserts: every optional column null. */
  function NewUser(id: UserId, email: string): User
  {
    User(id, email, None, None, None, None, None)
  }

  /** A member of the character class `[a-zA-Z0-9_.-]`. */
  predicate IsUsernameChar(c: char)
  {
    ('a' <= c <= 'z') || ('A' <= c <= 'Z') || ('0' <= c <= '9') || c == '_' || c == '.' || c == '-'
  }

  /** `/^[a-zA-Z0-9_.-]*$/.test(s)`, scanning the string left to right. */
  function MatchesUsernamePattern(s: string): (r: bool)
    ensures r <==> forall i :: 0 <= i < |s| ==> IsUsernameChar(s[i])
  {
    s == [] || (IsUsernameChar(s[0]) && MatchesUsernamePattern(s[1..]))
  }

  /** A string's `length` in JavaScript: the number of UTF-16 code units,
      two for every character beyond the Basic Multilingual Plane. */
  function Utf16Length(s: string): (n: nat)
    ensures |s| <= n <= 2 * |s|
    ensures n == |s| <==> forall i :: 0 <= i < |s| ==> s[i] as int <= 0xFFFF
  {
    if s == [] then 0
    else (if s[0] as int <= 0xFFFF then 1 else 2) + Utf16Length(s[1..])
  }

  /** The format checks of updateUsername, in the order the service makes
      them: the first one that fails decides the Conflict message, and None
      means all pass. Lengths are JavaScript lengths. */
  function CheckUsername(username: string): (r: Option<Error>)
    ensures r.None? <==> MinUsernameLength <= Utf16Length(username) <= MaxUsernameLength
                         && forall i :: 0 <= i < |username| ==> IsUsernameChar(username[i])
    ensures r.None? ==> MinUsernameLength <= |username| <= MaxUsernameLength
    ensures r.Some? ==> r.value.Conflict?
    ensures Utf16Length(username) < MinUsernameLength ==> r == Some(Conflict(UsernameTooShort))
    ensures Utf16Length(username) > MaxUsernameLength ==> r == Some(Conflict(UsernameTooLong))
    ensures MinUsernameLength <= Utf16Length(username) <= MaxUsernameLength
            && (exists i :: 0 <= i < |username| && !IsUsernameChar(username[i]))
            ==> r == Some(Conflict(UsernameBadCharacters))
  {
    var length := Utf16Length(username);
    if length < MinUsernameLength then Some(Conflict(UsernameTooShort))
    else if length > MaxUsernameLength then Some(Conflict(UsernameTooLong))
    else if !MatchesUsernamePattern(username) then Some(Conflict(UsernameBadCharacters))
    else None
  }

  /** The JavaScript length of a concatenation is the sum of the lengths. */
  lemma {:induction false} Utf16LengthConcat(a: string, b: string)
    ensures Utf16Length(a + b) == Utf16Length(a) + Utf16Length(b)
  {
    if a != [] {
      assert (a + b)[1..] == a[1..] + b;
      Utf16LengthConcat(a[1..], b);
    } else {
      assert a + b == b;
    }
  }

  /** A character beyond the Basic Multilingual Plane counts twice: a letter
      followed by an emoji has three code units, so the name is refused for
      its characters rather than for being shorter than three. */
  lemma AstralCharacterNotTooShort(first: char, astral: char)
    requires IsUsernameChar(first) && astral as int > 0xFFFF
    ensures |[first, astral]| < MinUsernameLength
    ensures CheckUsername([first, astral]) == Some(Conflict(UsernameBadCharacters))
  {
    var name := [first, astral];
    assert name[1..] == [astral] && name[1..][1..] == [];
    assert Utf16Length(name) == 3;
    assert !IsUsernameChar(name[1]);
  }

  /** Fourteen allowed characters and an emoji have sixteen code units, so
      the name is refused as too long rather than for its characters. */
  lemma AstralCharacterTooLong(letters: string, astral: char)
    requires |letters| == MaxUsernameLength - 1
    requires forall i :: 0 <= i < |letters| ==> IsUsernameChar(letters[i])
    requires astral as int > 0xFFFF
    ensures |letters + [astral]| == MaxUsernameLength
    ensures CheckUsername(letters + [astral]) == Some(Conflict(UsernameTooLong))
  {
    assert [astral][1..] == [];
    assert forall i :: 0 <= i < |letters| ==> letters[i] as int <= 0xFFFF;
    Utf16LengthConcat(letters, [astral]);
  }

  /** Some user already has this email. */
  predicate EmailTaken(users: map<UserId, User>, email: string)
  {
    exists k :: k in users && users[k].email == email
  }

  /** Some user already holds this username. */
  predicate UsernameHeld(users: map<UserId, User>, username: string)
  {
    exists k :: k in users && users[k].username == Some(username)
  }

  ghost predicate IdsMatchKeys(users: map<UserId, User>)
  {
    forall k :: k in users ==> users[k].id == k
  }

  /** The email column is unique. */
  ghost predicate UniqueEmails(users: map<UserId, User>)
  {
    forall a, b :: a in users && b in users && users[a].email == users[b].email ==> a == b
  }

  /** The username column is unique among the rows that have one. */
  ghost predicate UniqueUsernames(users: map<UserId, User>)
  {
    forall a, b :: a in users && b in users && users[a].username.Some? && users[a].username == users[b].username ==> a == b
  }

  /** The user and follower tables. Users are added, and their columns
      updated, but never removed; follow edges likewise. */
  class UserStore {
    var users: map<UserId, User>
    var edges: seq<FollowEdge>

    ghost predicate Valid()
      reads this
    {
      IdsMatchKeys(users) && UniqueEmails(users) && UniqueUsernames(users)
      && UniquePairs(edges) && NumberedByPosition(edges)
      && (forall i :: 0 <= i < |edges| ==> edges[i].followerId in users && edges[i].followingId in users)
    }

    constructor ()
      ensures Valid()
      ensures users == map[] && edges == []
    {
      users := map[];
      edges := [];
    }

    /** getFollowStatus(userId, followerId): does `followerId` follow `userId`? */
    function GetFollowStatus(userId: UserId, followerId: UserId): (r: bool)
      reads this
      requires Valid()
      ensures r <==> exists i :: 0 <= i < |edges| && Links(edges[i], followerId, userId) && edges[i].deletedAt.None?
    {
      FollowStatus(edges, followerId, userId)
    }

    /** followUser(userId, followerId): `followerId` follows or unfollows `userId`. */
    method FollowUser(userId: UserId, followerId: UserId, now: Time) returns (r: Result<FollowDto>)
      requires Valid()
      modifies this
      ensures Valid()
      ensures users == old(users)
      ensures userId !in users ==> r == Failure(NotFound(UserNotFound))
      ensures userId in users && followerId !in users ==> r == Failure(NotFound(FollowerNotFound))
      ensures r.Success? <==> userId in users && followerId in users
      ensures r.Failure? ==> edges == old(edges)
      ensures r.Success? ==> edges == Toggle(old(edges), followerId, userId, now)
      ensures r.Success? ==> GetFollowStatus(userId, followerId) == !old(GetFollowStatus(userId, followerId))
      ensures r.Success? ==> FindEdge(edges, followerId, userId).Some?
                             && r.value == AsFollowDto(edges[FindEdge(edges, followerId, userId).value])
    {
      if userId !in users {
        return Failure(NotFound(UserNotFound));
      }
      if followerId !in users {
        return Failure(NotFound(FollowerNotFound));
      }
      ToggleKeepsInvariant(edges, followerId, userId, now);
      ToggleLocatesEdge(edges, followerId, userId, now);
      ToggleFlipsStatus(edges, followerId, userId, now);
      var written: FollowEdge;
      match FindEdge(edges, followerId, userId) {
        case Some(i) =>
          if edges[i].deletedAt.Some? {
            written := edges[i].(deletedAt := None);
          } else {
            written := edges[i].(deletedAt := Some(now));
          }
          edges := edges[i := written];
        case None =>
          written := FollowEdge(|edges|, followerId, userId, now, now, None);
          edges := edges + [written];
      }
      r := Success(AsFollowDto(written));
    }

    /** getUser: an empty id is refused before any lookup; otherwise the user's row. */
    function GetUser(userId: UserId): (r: Result<AuthUser>)
      reads this
      ensures userId == "" ==> r == Failure(NotFound(UserNotFound))
      ensures r.Success? <==> userId != "" && userId in users
      ensures r.Failure? ==> r.error == NotFound(UserNotFound)
      ensures r.Success? ==> r.value == AsAuthUser(users[userId])
    {
      if userId == "" then Failure(NotFound(UserNotFound))
      else if userId !in users then Failure(NotFound(UserNotFound))
      else Success(AsAuthUser(users[userId]))
    }

    /** create({ email }): refused when the email is taken, otherwise a new
        user row under `newId`, the identifier the store generates. */
    method Create(email: string, newId: UserId) returns (r: Result<User>)
      requires Valid()
      requires newId !in users
      modifies this
      ensures Valid()
      ensures edges == old(edges)
      ensures r.Failure? <==> EmailTaken(old(users), email)
      ensures r.Failure? ==> r.error == Conflict(UserAlreadyExists) && users == old(users)
      ensures r.Success? ==> r.value == NewUser(newId, email) && users == old(users)[newId := r.value]
    {
      if EmailTaken(users, email) {
        return Failure(Conflict(UserAlreadyExists));
      }
      var u := NewUser(newId, email);
      users := users[newId := u];
      r := Success(u);
    }

    /** updateUsername: the format checks, then uniqueness, then the update. */
    method UpdateUsername(username: string, userId: UserId) returns (r: Result<AuthUser>)
      requires Valid()
      modifies this
      ensures Valid()
      ensures edges == old(edges)
      ensures CheckUsername(username).Some? ==> r == Failure(CheckUsername(username).value)
      ensures CheckUsername(username).None? && UsernameHeld(old(users), username)
              ==> r == Failure(Conflict(UsernameAlreadyTaken))
      ensures CheckUsername(username).None? && !UsernameHeld(old(users), username) && userId !in old(users)
              ==> r == Failure(StorageFailure(RecordToUpdateNotFound))
      ensures r.Success? <==> CheckUsername(username).None? && !UsernameHeld(old(users), username) && userId in old(users)
      ensures r.Failure? ==> users == old(users)
      ensures r.Success? ==> users == old(users)[userId := old(users)[userId].(username := Some(username))]
      ensures r.Success? ==> r.value == AsAuthUser(users[userId]) && r.value.username == Some(username)
    {
      var invalid := CheckUsername(username);
      if invalid.Some? {
        return Failure(invalid.value);
      }
      if UsernameHeld(users, username) {
        return Failure(Conflict(UsernameAlreadyTaken));
      }
      if userId !in users {
        return Failure(StorageFailure(RecordToUpdateNotFound));
      }
      var u := users[userId].(username := Some(username));
      users := users[userId := u];
      r := Success(AsAuthUser(u));
    }

    /** updateFirstname: sets the user's first name; no validation. */
    method UpdateFirstname(firstname: string, userId: UserId) returns (r: Result<AuthUser>)
      requires Valid()
      modifies this
      ensures Valid()
      ensures edges == old(edges)
      ensures r.Success? <==> userId in old(users)
      ensures r.Failure? ==> r.error == StorageFailure(RecordToUpdateNotFound) && users == old(users)
      ensures r.Success? ==> users == old(users)[userId := old(users)[userId].(firstname := Some(firstname))]
      ensures r.Success? ==> r.value == AsAuthUser(users[userId])
    {
      if userId !in users {
        return Failure(StorageFailure(RecordToUpdateNotFound));
      }
      var u := users[userId].(firstname := Some(firstname));
      users := users[userId := u];
      r := Success(AsAuthUser(u));
    }

    /** updateUserAvatar: sets the user's avatar; no validation. */
    method UpdateUserAvatar(avatar: string, userId: UserId) returns (r: Result<Profile>)
      requires Valid()
      modifies this
      ensures Valid()
      ensures edges == old(edges)
      ensures r.Success? <==> userId in old(users)
      ensures r.Failure? ==> r.error == StorageFailure(RecordToUpdateNotFound) && users == old(users)
      ensures r.Success? ==> users == old(users)[userId := old(users)[userId].(avatar := Some(avatar))]
      ensures r.Success? ==> r.value == AsProfile(users[userId])
    {
      if userId !in users {
        return Failure(StorageFailure(RecordToUpdateNotFound));
      }
      var u := users[userId].(avatar := Some(avatar));
      users := users[userId := u];
      r := Success(AsProfile(u));
    }

    /** The profile fields and follow counts of getProfileAndFinds; None
        (the service's `null`) for an unknown user. The counts are the
        lengths of the follower relations, soft-deleted edges included. */
    function GetProfile(userId: UserId): (r: Option<UserProfile>)
      reads this
      requires Valid()
      ensures r.Some? <==> userId in users
      ensures r.Some? ==> r.value.id == userId && r.value.username == users[userId].username
                          && r.value.firstname == users[userId].firstname
                          && r.value.avatar == users[userId].avatar && r.value.bio == users[userId].bio
      ensures r.Some? ==> r.value.followers == FollowerCount(edges, userId)
                          && r.value.following == FollowingCount(edges, userId)
      ensures r.Some? ==> r.value.followers >= ActiveFollowerCount(edges, userId)
                          && r.value.following >= ActiveFollowingCount(edges, userId)
      ensures r.Some? && (exists f :: GetFollowStatus(userId, f)) ==> r.value.followers > 0
    {
      if userId !in users then None
      else
        var u := users[userId];
        Some(UserProfile(u.id, u.username, u.avatar, u.firstname,
                         FollowerCount(edges, userId), FollowingCount(edges, userId), u.bio))
    }
  }
}
