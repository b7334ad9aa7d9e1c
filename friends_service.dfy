/**
 * `FriendsService`: each user keeps a list of friends by nickname, and a
 * nickname occurs at most once in one user's list.
 */
module FriendsService {
  import opened Wrappers
  import opened Seqs
  import opened Store

  /** The Conflict message for a nickname already in the list. */
  function DuplicateMessage(nickname: string): string {
    "Friend with nickname \"" + nickname + "\" already exists"
  }

  /** Some friend of `userId` already has this nickname. */
  ghost predicate HasNickname(friends: seq<Friend>, userId: string, nickname: string) {
    exists i :: 0 <= i < |friends| && friends[i].userId == userId && friends[i].nickname == nickname
  }

  /** A friend of `userId` other than `id` has this nickname. */
  ghost predicate HeldByOther(friends: seq<Friend>, userId: string, nickname: string, id: string) {
    exists j :: 0 <= j < |friends| && friends[j].userId == userId && friends[j].nickname == nickname && friends[j].id != id
  }

  /** No row has this id: the database generates fresh ids. */
  ghost predicate FreshId(friends: seq<Friend>, id: string) {
    forall i :: 0 <= i < |friends| ==> friends[i].id != id
  }

  /**
   * `create`: adds a nickname to the caller's list unless it is already there.
   * `nickname` is the value after the schema's `trim()`, so the uniqueness
   * check compares trimmed nicknames.
   */
  method Create(db: Db, userId: string, nickname: string, newId: string) returns (r: Result<Friend, Error>)
    requires db.Valid() && FreshId(db.friends, newId)
    modifies db`friends
    ensures db.Valid()
    ensures HasNickname(old(db.friends), userId, nickname) ==>
              r == Err(Conflict(DuplicateMessage(nickname))) && db.friends == old(db.friends)
    ensures !HasNickname(old(db.friends), userId, nickname) ==>
              r == Ok(Friend(newId, userId, nickname)) && db.friends == old(db.friends) + [r.value]
  {
    var existing := Find(db.friends, (f: Friend) => f.userId == userId && f.nickname == nickname);
    if existing.Some? {
      return Err(Conflict(DuplicateMessage(nickname)));
    }
    var friend := Friend(newId, userId, nickname);
    db.friends := db.friends + [friend];
    r := Ok(friend);
  }

  /** The order of `findAll`: nickname ascending. */
  function NicknameLe(a: Friend, b: Friend): bool {
    LexLe(a.nickname, b.nickname)
  }

  lemma NicknameLeTotal()
    ensures TotalOn(NicknameLe)
  {
    forall a: Friend, b: Friend ensures NicknameLe(a, b) || NicknameLe(b, a) {
      LexLeTotal(a.nickname, b.nickname);
    }
  }

  /** `findAll`: exactly the caller's friends, sorted by nickname. */
  method FindAll(db: Db, userId: string) returns (r: seq<Friend>)
    ensures multiset(r) == multiset(Filter(db.friends, (f: Friend) => f.userId == userId))
    ensures forall i :: 0 <= i < |r| ==> r[i] in db.friends && r[i].userId == userId
    ensures forall f :: f in db.friends && f.userId == userId ==> f in r
    ensures SortedBy(r, NicknameLe)
  {
    var mine := Filter(db.friends, (f: Friend) => f.userId == userId);
    r := SortBy(mine, NicknameLe);
    NicknameLeTotal();
    SortBySorted(mine, NicknameLe);
    forall i | 0 <= i < |r| ensures r[i] in db.friends && r[i].userId == userId {
      assert r[i] in multiset(mine);
    }
    forall f | f in db.friends && f.userId == userId ensures f in r {
      assert f in mine;
      assert f in multiset(r);
    }
  }

  /**
   * `update`: NotFound unless the friend exists and belongs to the caller;
   * Conflict when the new nickname belongs to a different friend of the caller.
   */
  method Update(db: Db, id: string, userId: string, nickname: Option<string>) returns (r: Result<Friend, Error>)
    requires db.Valid()
    requires nickname.Some? ==> nickname.value != ""   // the schema's `min(1)`
    modifies db`friends
    ensures db.Valid()
    ensures r.Err? ==> db.friends == old(db.friends)
    ensures (forall i :: 0 <= i < |old(db.friends)| ==> !(old(db.friends)[i].id == id && old(db.friends)[i].userId == userId))
              <==> r == Err(NotFound("Friend not found"))
    ensures r.Ok? ==> exists i :: (0 <= i < |old(db.friends)| && old(db.friends)[i].id == id
              && old(db.friends)[i].userId == userId
              && r.value == old(db.friends)[i].(nickname := nickname.GetOr(old(db.friends)[i].nickname))
              && db.friends == old(db.friends)[i := r.value])
    ensures r.Err? && r.error.Conflict? ==>
              nickname.Some? && r.error == Conflict(DuplicateMessage(nickname.value))
              && HeldByOther(old(db.friends), userId, nickname.value, id)
    ensures r.Ok? || r.error.NotFound? || r.error.Conflict?
    ensures ((exists i :: 0 <= i < |old(db.friends)| && old(db.friends)[i].id == id && old(db.friends)[i].userId == userId)
             && !(nickname.Some? && HeldByOther(old(db.friends), userId, nickname.value, id)))
            ==> r.Ok?
    ensures ((exists i :: 0 <= i < |old(db.friends)| && old(db.friends)[i].id == id && old(db.friends)[i].userId == userId)
             && nickname.Some? && HeldByOther(old(db.friends), userId, nickname.value, id))
            ==> r == Err(Conflict(DuplicateMessage(nickname.value)))
  {
    var k := IndexOf(db.friends, (f: Friend) => f.id == id);
    if k.None? || db.friends[k.value].userId != userId {
      return Err(NotFound("Friend not found"));
    }
    var friend := db.friends[k.value];
    if nickname.Some? && nickname.value != "" {
      var duplicate := Find(db.friends, (f: Friend) => f.userId == userId && f.nickname == nickname.value);
      if duplicate.Some? && duplicate.value.id != id {
        return Err(Conflict(DuplicateMessage(nickname.value)));
      }
    }
    var updated := friend.(nickname := nickname.GetOr(friend.nickname));
    db.friends := db.friends[k.value := updated];
    r := Ok(updated);
  }

  /** `remove`: `deleteMany` on id and owner; NotFound when it deletes nothing. */
  method Remove(db: Db, id: string, userId: string) returns (r: Result<string, Error>)
    requires db.Valid()
    modifies db`friends
    ensures db.Valid()
    ensures db.friends == Filter(old(db.friends), (f: Friend) => !(f.id == id && f.userId == userId))
    ensures (exists i :: 0 <= i < |old(db.friends)| && old(db.friends)[i].id == id && old(db.friends)[i].userId == userId)
              <==> r == Ok("Friend deleted successfully")
    ensures r.Err? ==> r == Err(NotFound("Friend not found or not authorized to delete")) && db.friends == old(db.friends)
  {
    var kept := Filter(db.friends, (f: Friend) => !(f.id == id && f.userId == userId));
    var count := |db.friends| - |kept|;
    FilterPairwise(db.friends, (f: Friend) => !(f.id == id && f.userId == userId), DistinctFriends);
    FilterLength(db.friends, (f: Friend) => !(f.id == id && f.userId == userId));
    if count == 0 {
      FilterAll(db.friends, (f: Friend) => !(f.id == id && f.userId == userId));
    }
    db.friends := kept;
    if count == 0 {
      return Err(NotFound("Friend not found or not authorized to delete"));
    }
    r := Ok("Friend deleted successfully");
  }
}
