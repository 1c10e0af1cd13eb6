/** The follower table of the users service: one edge record per
    (followerId, followingId) pair whose nullable deletedAt is a soft-delete
    mark, the lookup `findFirst` performs on it, the follow status read from
    it, and Toggle, the change followUser makes to it. */
module Follow {
  import opened Common

  type UserId = string

  /** A row of the follower table. `id` is assigned by the store. */
  datatype FollowEdge = FollowEdge(
    id: nat,
    followerId: UserId,
    followingId: UserId,
    createdAt: Time,
    updatedAt: Time,
    deletedAt: Option<Time>)

  /** What followUser returns: the six columns of the row it wrote. */
  datatype FollowDto = FollowDto(
    id: nat,
    followerId: UserId,
    followingId: UserId,
    createdAt: Time,
    deletedAt: Option<Time>,
    updatedAt: Time)

  function AsFollowDto(e: FollowEdge): (d: FollowDto)
  {
    FollowDto(e.id, e.followerId, e.followingId, e.createdAt, e.deletedAt, e.updatedAt)
  }

  /** `e` is the edge in which `followerId` follows `followingId`. */
  predicate Links(e: FollowEdge, followerId: UserId, followingId: UserId)
  {
    e.followerId == followerId && e.followingId == followingId
  }

  /** The table holds at most one edge per (follower, following) pair. */
  ghost predicate UniquePairs(edges: seq<FollowEdge>)
  {
    forall i, j ::
      0 <= i < |edges| && 0 <= j < |edges| && Links(edges[i], edges[j].followerId, edges[j].followingId)
      ==> i == j
  }

  /** Store-assigned ids: the n-th row created has id n. */
  ghost predicate NumberedByPosition(edges: seq<FollowEdge>)
  {
    forall i :: 0 <= i < |edges| ==> edges[i].id == i
  }

  /** Some edge for the pair exists and carries no deletion mark. */
  ghost predicate IsActive(edges: seq<FollowEdge>, followerId: UserId, followingId: UserId)
  {
    exists i :: 0 <= i < |edges| && Links(edges[i], followerId, followingId) && edges[i].deletedAt.None?
  }

  /** `findFirst({ where: { followerId, followingId } })`: the position of the
      first edge for the pair, or None when there is none. */
  function FindEdge(edges: seq<FollowEdge>, followerId: UserId, followingId: UserId): (r: Option<nat>)
    ensures r.Some? ==> r.value < |edges| && Links(edges[r.value], followerId, followingId)
    ensures r.Some? ==> forall j :: 0 <= j < r.value ==> !Links(edges[j], followerId, followingId)
    ensures r.None? <==> forall j :: 0 <= j < |edges| ==> !Links(edges[j], followerId, followingId)
  {
    if edges == [] then None
    else if Links(edges[0], followerId, followingId) then Some(0)
    else match FindEdge(edges[1..], followerId, followingId)
      case None => None
      case Some(k) => Some(k + 1)
  }

  /** getFollowStatus: true exactly when the pair's edge exists and is
      unmarked; a missing edge is "not following", never an error. */
  function FollowStatus(edges: seq<FollowEdge>, followerId: UserId, followingId: UserId): (r: bool)
    ensures r ==> IsActive(edges, followerId, followingId)
    ensures UniquePairs(edges) && IsActive(edges, followerId, followingId) ==> r
  {
    match FindEdge(edges, followerId, followingId)
    case None => false
    case Some(i) => edges[i].deletedAt.None?
  }

  /** The update followUser writes to an existing edge: a marked edge is
      unmarked (refollow), an unmarked one is marked with `now` (unfollow). */
  function Flip(e: FollowEdge, now: Time): (r: FollowEdge)
    ensures r.deletedAt.None? <==> e.deletedAt.Some?
    ensures e.deletedAt.None? ==> r.deletedAt == Some(now)
    ensures r == e.(deletedAt := r.deletedAt)
  {
    if e.deletedAt.Some? then e.(deletedAt := None) else e.(deletedAt := Some(now))
  }

  /** The row `follower.create` inserts: a fresh id, both timestamps `now`, no mark. */
  function NewEdge(edges: seq<FollowEdge>, followerId: UserId, followingId: UserId, now: Time): FollowEdge
  {
    FollowEdge(|edges|, followerId, followingId, now, now, None)
  }

  /** The follower table after a successful followUser: the pair's edge is
      created when missing and flipped otherwise. Nothing is ever removed,
      and every edge of another pair is left as it was. */
  function Toggle(edges: seq<FollowEdge>, followerId: UserId, followingId: UserId, now: Time): (r: seq<FollowEdge>)
    ensures |r| == |edges| + (if FindEdge(edges, followerId, followingId).None? then 1 else 0)
    ensures forall i :: 0 <= i < |edges| && !Links(edges[i], followerId, followingId) ==> r[i] == edges[i]
    ensures forall i :: 0 <= i < |edges| ==> r[i] == edges[i].(deletedAt := r[i].deletedAt)
  {
    match FindEdge(edges, followerId, followingId)
    case None => edges + [NewEdge(edges, followerId, followingId, now)]
    case Some(i) => edges[i := Flip(edges[i], now)]
  }

  /** After Toggle the pair's edge is found where it was, or at the end when it was created. */
  lemma ToggleLocatesEdge(edges: seq<FollowEdge>, followerId: UserId, followingId: UserId, now: Time)
    ensures FindEdge(Toggle(edges, followerId, followingId, now), followerId, followingId)
         == Some(match FindEdge(edges, followerId, followingId) case Some(i) => i case None => |edges|)
  {
    var r := Toggle(edges, followerId, followingId, now);
    var k := match FindEdge(edges, followerId, followingId) case Some(i) => i case None => |edges|;
    assert Links(r[k], followerId, followingId);
    forall j | 0 <= j < k
      ensures !Links(r[j], followerId, followingId)
    {
      assert r[j] == edges[j];
    }
  }

  /** followUser keeps the table's invariants: one edge per pair, ids by position. */
  lemma ToggleKeepsInvariant(edges: seq<FollowEdge>, followerId: UserId, followingId: UserId, now: Time)
    requires UniquePairs(edges)
    ensures UniquePairs(Toggle(edges, followerId, followingId, now))
    ensures NumberedByPosition(edges) ==> NumberedByPosition(Toggle(edges, followerId, followingId, now))
  {
  }

  /** Every successful followUser flips the pair's status: no edge or a
      marked edge becomes "following", an unmarked edge "not following". */
  lemma ToggleFlipsStatus(edges: seq<FollowEdge>, followerId: UserId, followingId: UserId, now: Time)
    ensures FollowStatus(Toggle(edges, followerId, followingId, now), followerId, followingId)
         == !FollowStatus(edges, followerId, followingId)
  {
    ToggleLocatesEdge(edges, followerId, followingId, now);
  }

  /** followUser on one pair leaves the status of every other pair unchanged. */
  lemma ToggleKeepsOtherStatus(edges: seq<FollowEdge>, followerId: UserId, followingId: UserId, now: Time,
                               otherFollower: UserId, otherFollowing: UserId)
    requires otherFollower != followerId || otherFollowing != followingId
    ensures FollowStatus(Toggle(edges, followerId, followingId, now), otherFollower, otherFollowing)
         == FollowStatus(edges, otherFollower, otherFollowing)
  {
  }

  /** Two consecutive successful followUser calls on a pair restore its status. */
  lemma ToggleTwiceRestoresStatus(edges: seq<FollowEdge>, followerId: UserId, followingId: UserId, t1: Time, t2: Time)
    ensures FollowStatus(Toggle(Toggle(edges, followerId, followingId, t1), followerId, followingId, t2), followerId, followingId)
         == FollowStatus(edges, followerId, followingId)
  {
    ToggleFlipsStatus(edges, followerId, followingId, t1);
    ToggleFlipsStatus(Toggle(edges, followerId, followingId, t1), followerId, followingId, t2);
  }

  /** Unfollowing and then following again restores the table exactly. */
  lemma UnfollowRefollowRestoresTable(edges: seq<FollowEdge>, followerId: UserId, followingId: UserId, t1: Time, t2: Time)
    requires FollowStatus(edges, followerId, followingId)
    ensures Toggle(Toggle(edges, followerId, followingId, t1), followerId, followingId, t2) == edges
  {
  }

  /** The table after followUser has been called once per instant of `times`. */
  function ToggleRepeatedly(edges: seq<FollowEdge>, followerId: UserId, followingId: UserId, times: seq<Time>): seq<FollowEdge>
    decreases |times|
  {
    if times == [] then edges
    else ToggleRepeatedly(Toggle(edges, followerId, followingId, times[0]), followerId, followingId, times[1..])
  }

  /** `n` is odd. */
  function Odd(n: nat): bool
  {
    if n == 0 then false else !Odd(n - 1)
  }

  /** n successful calls alternate the status strictly: after an odd number
      the status is flipped, after an even number it is the original. */
  lemma {:induction false} ToggleRepeatedlyAlternates(edges: seq<FollowEdge>, followerId: UserId, followingId: UserId, times: seq<Time>)
    ensures FollowStatus(ToggleRepeatedly(edges, followerId, followingId, times), followerId, followingId)
         == (FollowStatus(edges, followerId, followingId) != Odd(|times|))
    decreases |times|
  {
    if times != [] {
      var next := Toggle(edges, followerId, followingId, times[0]);
      ToggleFlipsStatus(edges, followerId, followingId, times[0]);
      ToggleRepeatedlyAlternates(next, followerId, followingId, times[1..]);
    }
  }

  // ---------------------------------------------------------------------
  // Counting edges

  /** The number of edges that `test` accepts. */
  function CountIf(edges: seq<FollowEdge>, test: FollowEdge -> bool): (n: nat)
    ensures n <= |edges|
  {
    if edges == [] then 0
    else (if test(edges[0]) then 1 else 0) + CountIf(edges[1..], test)
  }

  lemma {:induction false} CountIfAppend(edges: seq<FollowEdge>, e: FollowEdge, test: FollowEdge -> bool)
    ensures CountIf(edges + [e], test) == CountIf(edges, test) + (if test(e) then 1 else 0)
  {
    if edges != [] {
      assert (edges + [e])[1..] == edges[1..] + [e];
      CountIfAppend(edges[1..], e, test);
    }
  }

  lemma {:induction false} CountIfUpdate(edges: seq<FollowEdge>, i: nat, e: FollowEdge, test: FollowEdge -> bool)
    requires i < |edges|
    ensures CountIf(edges[i := e], test) + (if test(edges[i]) then 1 else 0)
         == CountIf(edges, test) + (if test(e) then 1 else 0)
  {
    if i == 0 {
      assert edges[i := e][1..] == edges[1..];
    } else {
      assert edges[i := e][1..] == edges[1..][i - 1 := e];
      CountIfUpdate(edges[1..], i - 1, e, test);
    }
  }

  lemma {:induction false} CountIfNone(edges: seq<FollowEdge>, test: FollowEdge -> bool)
    requires forall j :: 0 <= j < |edges| ==> !test(edges[j])
    ensures CountIf(edges, test) == 0
  {
    if edges != [] {
      CountIfNone(edges[1..], test);
    }
  }

  lemma {:induction false} CountIfAtMostOne(edges: seq<FollowEdge>, test: FollowEdge -> bool)
    requires forall i, j :: 0 <= i < |edges| && 0 <= j < |edges| && test(edges[i]) && test(edges[j]) ==> i == j
    ensures CountIf(edges, test) <= 1
  {
    if edges != [] {
      if test(edges[0]) {
        CountIfNone(edges[1..], test);
      } else {
        CountIfAtMostOne(edges[1..], test);
      }
    }
  }

  lemma {:induction false} CountIfSome(edges: seq<FollowEdge>, test: FollowEdge -> bool, k: nat)
    requires k < |edges| && test(edges[k])
    ensures CountIf(edges, test) >= 1
  {
    if k > 0 {
      CountIfSome(edges[1..], test, k - 1);
    }
  }

  /** A count is positive exactly when some edge passes the test. */
  lemma CountIfPositive(edges: seq<FollowEdge>, test: FollowEdge -> bool)
    ensures CountIf(edges, test) > 0 <==> exists j :: 0 <= j < |edges| && test(edges[j])
  {
    if j :| 0 <= j < |edges| && test(edges[j]) {
      CountIfSome(edges, test, j);
    } else {
      CountIfNone(edges, test);
    }
  }

  /** Accepts the edges of one (follower, following) pair. */
  function PairTest(followerId: UserId, followingId: UserId): FollowEdge -> bool
  {
    (e: FollowEdge) => Links(e, followerId, followingId)
  }

  /** After a successful followUser the pair has exactly one edge. */
  lemma ToggleLeavesOneEdge(edges: seq<FollowEdge>, followerId: UserId, followingId: UserId, now: Time)
    requires UniquePairs(edges)
    ensures CountIf(Toggle(edges, followerId, followingId, now), PairTest(followerId, followingId)) == 1
  {
    var r := Toggle(edges, followerId, followingId, now);
    var test := PairTest(followerId, followingId);
    ToggleKeepsInvariant(edges, followerId, followingId, now);
    ToggleLocatesEdge(edges, followerId, followingId, now);
    var k := FindEdge(r, followerId, followingId).value;
    CountIfSome(r, test, k);
    forall i, j | 0 <= i < |r| && 0 <= j < |r| && test(r[i]) && test(r[j])
      ensures i == j
    {
      assert Links(r[i], r[j].followerId, r[j].followingId);
    }
    CountIfAtMostOne(r, test);
  }

  /** Accepts every edge into `userId`, marked or not: the `followers`
      relation that getProfileAndFinds counts. */
  function FollowerTest(userId: UserId): FollowEdge -> bool
  {
    (e: FollowEdge) => e.followingId == userId
  }

  /** Accepts every edge out of `userId`, marked or not: the `following` relation. */
  function FollowingTest(userId: UserId): FollowEdge -> bool
  {
    (e: FollowEdge) => e.followerId == userId
  }

  /** Accepts the unmarked edges into `userId`. */
  function ActiveFollowerTest(userId: UserId): FollowEdge -> bool
  {
    (e: FollowEdge) => e.followingId == userId && e.deletedAt.None?
  }

  /** Accepts the unmarked edges out of `userId`. */
  function ActiveFollowingTest(userId: UserId): FollowEdge -> bool
  {
    (e: FollowEdge) => e.followerId == userId && e.deletedAt.None?
  }

  /** The follower count as getProfileAndFinds computes it: the length of
      the `followers` relation, soft-deleted edges included. */
  function FollowerCount(edges: seq<FollowEdge>, userId: UserId): (n: nat)
    ensures n <= |edges|
    ensures n > 0 <==> exists j :: 0 <= j < |edges| && edges[j].followingId == userId
  {
    CountIfPositive(edges, FollowerTest(userId));
    CountIf(edges, FollowerTest(userId))
  }

  /** The following count as getProfileAndFinds computes it, soft-deleted edges included. */
  function FollowingCount(edges: seq<FollowEdge>, userId: UserId): (n: nat)
    ensures n <= |edges|
    ensures n > 0 <==> exists j :: 0 <= j < |edges| && edges[j].followerId == userId
  {
    CountIfPositive(edges, FollowingTest(userId));
    CountIf(edges, FollowingTest(userId))
  }

  /** The evidently intended follower count: unmarked edges only. */
  function ActiveFollowerCount(edges: seq<FollowEdge>, userId: UserId): (n: nat)
    ensures n <= FollowerCount(edges, userId)
    ensures n > 0 <==> exists j :: 0 <= j < |edges| && edges[j].followingId == userId && edges[j].deletedAt.None?
  {
    ActiveFollowerCountBound(edges, userId);
    CountIfPositive(edges, ActiveFollowerTest(userId));
    CountIf(edges, ActiveFollowerTest(userId))
  }

  /** The evidently intended following count: unmarked edges only. */
  function ActiveFollowingCount(edges: seq<FollowEdge>, userId: UserId): (n: nat)
    ensures n <= FollowingCount(edges, userId)
    ensures n > 0 <==> exists j :: 0 <= j < |edges| && edges[j].followerId == userId && edges[j].deletedAt.None?
  {
    ActiveFollowingCountBound(edges, userId);
    CountIfPositive(edges, ActiveFollowingTest(userId));
    CountIf(edges, ActiveFollowingTest(userId))
  }

  lemma {:induction false} ActiveFollowerCountBound(edges: seq<FollowEdge>, userId: UserId)
    ensures CountIf(edges, ActiveFollowerTest(userId)) <= CountIf(edges, FollowerTest(userId))
  {
    if edges != [] {
      ActiveFollowerCountBound(edges[1..], userId);
    }
  }

  lemma {:induction false} ActiveFollowingCountBound(edges: seq<FollowEdge>, userId: UserId)
    ensures CountIf(edges, ActiveFollowingTest(userId)) <= CountIf(edges, FollowingTest(userId))
  {
    if edges != [] {
      ActiveFollowingCountBound(edges[1..], userId);
    }
  }

  /** As written, unfollowing does not lower the profile counts: after
      followUser turns an active edge into a marked one, the pair is "not
      following" but both counts are what they were. */
  lemma UnfollowKeepsProfileCounts(edges: seq<FollowEdge>, followerId: UserId, followingId: UserId, now: Time)
    requires FollowStatus(edges, followerId, followingId)
    ensures !FollowStatus(Toggle(edges, followerId, followingId, now), followerId, followingId)
    ensures FollowerCount(Toggle(edges, followerId, followingId, now), followingId) == FollowerCount(edges, followingId)
    ensures FollowingCount(Toggle(edges, followerId, followingId, now), followerId) == FollowingCount(edges, followerId)
  {
    ToggleFlipsStatus(edges, followerId, followingId, now);
    var i := FindEdge(edges, followerId, followingId).value;
    CountIfUpdate(edges, i, Flip(edges[i], now), FollowerTest(followingId));
    CountIfUpdate(edges, i, Flip(edges[i], now), FollowingTest(followerId));
  }

  /** A concrete instance: one follow and one unfollow leave the followed
      user with follower count 1 although nobody follows them. */
  lemma UnfollowedEdgeStillCounted()
    ensures var before := [FollowEdge(0, "ann", "bob", Instant(0), Instant(0), None)];
            var after := Toggle(before, "ann", "bob", Instant(1));
            !FollowStatus(after, "ann", "bob") && FollowerCount(after, "bob") == 1
            && ActiveFollowerCount(after, "bob") == 0
  {
  }

  /** With the corrected counts every successful followUser moves the
      followed user's follower count and the follower's following count by
      exactly one, down on unfollow and up on follow or refollow. */
  lemma ToggleShiftsActiveCounts(edges: seq<FollowEdge>, followerId: UserId, followingId: UserId, now: Time)
    ensures ActiveFollowerCount(Toggle(edges, followerId, followingId, now), followingId)
         == if FollowStatus(edges, followerId, followingId) then ActiveFollowerCount(edges, followingId) - 1
            else ActiveFollowerCount(edges, followingId) + 1
    ensures ActiveFollowingCount(Toggle(edges, followerId, followingId, now), followerId)
         == if FollowStatus(edges, followerId, followingId) then ActiveFollowingCount(edges, followerId) - 1
            else ActiveFollowingCount(edges, followerId) + 1
  {
    match FindEdge(edges, followerId, followingId)
    case None =>
      var e := NewEdge(edges, followerId, followingId, now);
      CountIfAppend(edges, e, ActiveFollowerTest(followingId));
      CountIfAppend(edges, e, ActiveFollowingTest(followerId));
    case Some(i) =>
      CountIfUpdate(edges, i, Flip(edges[i], now), ActiveFollowerTest(followingId));
      CountIfUpdate(edges, i, Flip(edges[i], now), ActiveFollowingTest(followerId));
  }
}
