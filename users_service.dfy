/**
 * `UsersService`: the local copy of the identity provider's users, kept by
 * an upsert on sign-in, with a unique username per user.
 */
module UsersService {
  import opened Wrappers
  import opened Seqs
  import opened Store

  /**
   * What sign-in sends. Each optional field is `None` when the client left it
   * out (`undefined`, which the upsert's update leaves alone), `Some(None)`
   * for an explicit `null`, and `Some(Some(v))` for a value.
   */
  datatype CreateUserDto = CreateUserDto(
    id: string,
    email: Option<Option<string>>,
    username: Option<Option<string>>,
    firstName: Option<Option<string>>,
    lastName: Option<Option<string>>,
    avatarUrl: Option<Option<string>>)

  /** What a profile edit sends; `None` leaves the column alone. */
  datatype UpdateUserDto = UpdateUserDto(username: Option<string>, firstName: Option<string>, lastName: Option<string>)

  /** A user as `getProfile` returns it, with the counts of its relations. */
  datatype Profile = Profile(user: User, ownedBills: nat, memberships: nat)

  /** The columns `searchUsers` selects. */
  datatype UserSummary = UserSummary(
    id: string,
    username: Option<string>,
    email: Option<string>,
    firstName: Option<string>,
    lastName: Option<string>,
    avatarUrl: Option<string>)

  /** `dto.username || \`user_${dto.id.slice(0, 8)}\``. */
  function SyncUsername(dto: CreateUserDto): (name: string)
    ensures dto.username.Some? && dto.username.value.Some? && dto.username.value.value != "" ==>
              name == dto.username.value.value
    ensures dto.username.None? || dto.username.value.None? || dto.username.value.value == "" ==>
              name == "user_" + dto.id[..if |dto.id| < 8 then |dto.id| else 8]
    ensures name != ""
  {
    OrElse(if dto.username.Some? then dto.username.value else None, "user_" + dto.id[..if |dto.id| < 8 then |dto.id| else 8])
  }

  /** A column under an update: left alone when the field is absent. */
  function Keep(field: Option<Option<string>>, current: Option<string>): Option<string> {
    if field.Some? then field.value else current
  }

  /** The row the upsert leaves: a new row when the id is unknown, else the old row with the sent fields. */
  function SyncedRow(existing: Option<User>, dto: CreateUserDto, now: int): (u: User)
    requires existing.Some? ==> existing.value.id == dto.id
    ensures u.id == dto.id && u.username == Some(SyncUsername(dto))
    ensures !u.isGuest && u.lastActiveAt == now
    ensures existing.None? ==> u.email == dto.email.GetOr(None) && u.firstName == dto.firstName.GetOr(None)
                               && u.lastName == dto.lastName.GetOr(None) && u.avatarUrl == dto.avatarUrl.GetOr(None)
    ensures existing.Some? && dto.email.None? ==> u.email == existing.value.email
  {
    match existing
    case None =>
      User(dto.id, dto.email.GetOr(None), Some(SyncUsername(dto)), dto.firstName.GetOr(None),
           dto.lastName.GetOr(None), dto.avatarUrl.GetOr(None), false, now)
    case Some(prev) =>
      prev.(email := Keep(dto.email, prev.email),
           username := Some(SyncUsername(dto)),
           firstName := Keep(dto.firstName, prev.firstName),
           lastName := Keep(dto.lastName, prev.lastName),
           avatarUrl := Keep(dto.avatarUrl, prev.avatarUrl),
           lastActiveAt := now,
           isGuest := false)
  }

  /** Syncing the same data twice gives the same row again, apart from the activity time. */
  lemma SyncTwice(existing: Option<User>, dto: CreateUserDto, t1: int, t2: int)
    requires existing.Some? ==> existing.value.id == dto.id
    ensures SyncedRow(Some(SyncedRow(existing, dto, t1)), dto, t2) == SyncedRow(existing, dto, t1).(lastActiveAt := t2)
  {
  }

  /** A user other than `id` holds this username. */
  ghost predicate TakenByOther(users: seq<User>, username: string, id: string) {
    exists i :: 0 <= i < |users| && users[i].username == Some(username) && users[i].id != id
  }

  /** The table after upserting `row` by id. */
  function Upsert(users: seq<User>, row: User): (r: seq<User>)
    ensures row in r
    ensures forall u :: u in r && u.id != row.id ==> u in users
    ensures forall u :: u in users && u.id != row.id ==> u in r
  {
    match IndexOf(users, (u: User) => u.id == row.id)
    case None => users + [row]
    case Some(k) =>
      assert users[k := row][k] == row;
      assert forall u :: u in users[k := row] && u.id != row.id ==> u in users by {
        forall u | u in users[k := row] && u.id != row.id ensures u in users {
          var j :| 0 <= j < |users| && users[k := row][j] == u;
          assert users[j] == u;
        }
      }
      assert forall u :: u in users && u.id != row.id ==> u in users[k := row] by {
        forall u | u in users && u.id != row.id ensures u in users[k := row] {
          var j :| 0 <= j < |users| && users[j] == u;
          assert users[k := row][j] == u;
        }
      }
      users[k := row]
  }

  /**
   * `syncUser`: the upsert by id; a username another user holds makes the
   * write fail on the unique column, and nothing changes.
   */
  method SyncUser(db: Db, dto: CreateUserDto, now: int) returns (r: Result<User, Error>)
    requires db.Valid()
    modifies db`users
    ensures db.Valid()
    ensures TakenByOther(old(db.users), SyncUsername(dto), dto.id) <==> r == Err(UniqueViolation("username"))
    ensures r.Err? ==> db.users == old(db.users)
    ensures !TakenByOther(old(db.users), SyncUsername(dto), dto.id) ==> r.Ok?
    ensures r.Ok? ==> r.value == SyncedRow(FindUser(old(db.users), dto.id), dto, now)
                      && db.users == Upsert(old(db.users), r.value)
  {
    var username := SyncUsername(dto);
    var holder := Find(db.users, (u: User) => u.username == Some(username) && u.id != dto.id);
    if holder.Some? {
      return Err(UniqueViolation("username"));
    }
    var k := IndexOf(db.users, (u: User) => u.id == dto.id);
    var row := SyncedRow(FindUser(db.users, dto.id), dto, now);
    if k.None? {
      PairwiseAppend(db.users, row, DistinctUsers);
      db.users := db.users + [row];
    } else {
      PairwiseUpdate(db.users, k.value, row, DistinctUsers);
      db.users := db.users[k.value := row];
    }
    r := Ok(row);
  }

  /** The bills the user owns, soft-deleted ones included. */
  function OwnedBills(bills: seq<BillRow>, userId: string): seq<BillRow> {
    Filter(bills, (b: BillRow) => b.ownerId == userId)
  }

  /** The member rows that link the user to a bill. */
  function Memberships(members: seq<MemberRow>, userId: string): seq<MemberRow> {
    Filter(members, (m: MemberRow) => m.userId == Some(userId))
  }

  /** `getProfile`: NotFound for an unknown id, otherwise the row and how many bills it owns and belongs to. */
  method GetProfile(db: Db, userId: string) returns (r: Result<Profile, Error>)
    ensures (forall i :: 0 <= i < |db.users| ==> db.users[i].id != userId) <==> r == Err(NotFound("User not found"))
    ensures r.Ok? || r == Err(NotFound("User not found"))
    ensures r.Ok? ==> r.value.user in db.users && r.value.user.id == userId
                      && r.value.ownedBills == |OwnedBills(db.bills, userId)|
                      && r.value.memberships == |Memberships(db.members, userId)|
  {
    var user := FindUser(db.users, userId);
    if user.None? {
      return Err(NotFound("User not found"));
    }
    r := Ok(Profile(user.value, |OwnedBills(db.bills, userId)|, |Memberships(db.members, userId)|));
  }

  /** The row after a profile edit: only the sent fields change. */
  function Edited(u: User, dto: UpdateUserDto): (e: User)
    ensures e.id == u.id && e.email == u.email && e.avatarUrl == u.avatarUrl && e.isGuest == u.isGuest
    ensures e.username == (if dto.username.Some? then dto.username else u.username)
    ensures e.firstName == (if dto.firstName.Some? then dto.firstName else u.firstName)
    ensures e.lastName == (if dto.lastName.Some? then dto.lastName else u.lastName)
  {
    u.(username := if dto.username.Some? then dto.username else u.username,
       firstName := if dto.firstName.Some? then dto.firstName else u.firstName,
       lastName := if dto.lastName.Some? then dto.lastName else u.lastName)
  }

  /**
   * `update`: Conflict for a username another user holds, which keeping
   * one's own username is not; an unknown id makes the write fail.
   */
  method Update(db: Db, userId: string, dto: UpdateUserDto) returns (r: Result<User, Error>)
    requires db.Valid()
    requires dto.username.Some? ==> 3 <= |dto.username.value| <= 30   // the schema's `min(3).max(30)`
    modifies db`users
    ensures db.Valid()
    ensures r.Err? ==> db.users == old(db.users)
    ensures (dto.username.Some? && TakenByOther(old(db.users), dto.username.value, userId))
              <==> r == Err(Conflict("Username already taken"))
    ensures r == Err(RecordMissing) <==>
              !(dto.username.Some? && TakenByOther(old(db.users), dto.username.value, userId))
              && forall i :: 0 <= i < |old(db.users)| ==> old(db.users)[i].id != userId
    ensures r.Ok? ==> exists i :: (0 <= i < |old(db.users)| && old(db.users)[i].id == userId
                      && r.value == Edited(old(db.users)[i], dto) && db.users == old(db.users)[i := r.value])
    ensures ((exists i :: 0 <= i < |old(db.users)| && old(db.users)[i].id == userId)
             && !(dto.username.Some? && TakenByOther(old(db.users), dto.username.value, userId)))
            ==> r.Ok?
  {
    if dto.username.Some? && dto.username.value != "" {
      var name := dto.username.value;
      var existing := Find(db.users, (u: User) => u.username == Some(name));
      if existing.Some? && existing.value.id != userId {
        return Err(Conflict("Username already taken"));
      }
      if existing.None? {
        assert !TakenByOther(db.users, name, userId);
      } else {
        forall j | 0 <= j < |db.users| && db.users[j].username == Some(name) ensures db.users[j].id == userId {
          var i :| 0 <= i < |db.users| && db.users[i] == existing.value;
        }
      }
    }
    var k := IndexOf(db.users, (u: User) => u.id == userId);
    if k.None? {
      return Err(RecordMissing);
    }
    var row := Edited(db.users[k.value], dto);
    PairwiseUpdate(db.users, k.value, row, DistinctUsers);
    db.users := db.users[k.value := row];
    r := Ok(row);
  }

  /** ASCII upper case to lower case, every other character unchanged. */
  function Lower(s: string): (r: string)
    ensures |r| == |s|
    ensures forall i :: 0 <= i < |s| ==> r[i] == if 'A' <= s[i] <= 'Z' then (s[i] - 'A' + 'a') else s[i]
  {
    seq(|s|, i requires 0 <= i < |s| => if 'A' <= s[i] <= 'Z' then (s[i] - 'A' + 'a') else s[i])
  }

  /** `q` occurs in `h` starting at index `i`. */
  predicate OccursAt(h: string, q: string, i: int) {
    0 <= i && i + |q| <= |h| && h[i..i + |q|] == q
  }

  /** `q` occurs in `h` as a contiguous run. */
  function Contains(h: string, q: string): (b: bool)
    ensures b <==> exists i :: OccursAt(h, q, i)
    decreases |h|
  {
    if |q| > |h| then false
    else if h[..|q|] == q then assert OccursAt(h, q, 0); true
    else
      var rest := Contains(h[1..], q);
      assert forall i :: OccursAt(h[1..], q, i) <==> OccursAt(h, q, i + 1) by {
        forall i ensures OccursAt(h[1..], q, i) <==> OccursAt(h, q, i + 1) {
          if 0 <= i && i + |q| <= |h[1..]| {
            assert h[1..][i..i + |q|] == h[i + 1..i + 1 + |q|];
          }
        }
      }
      assert !OccursAt(h, q, 0);
      assert rest ==> exists i :: OccursAt(h, q, i) by {
        if rest {
          var i :| OccursAt(h[1..], q, i);
          assert OccursAt(h, q, i + 1);
        }
      }
      assert (exists i :: OccursAt(h, q, i)) ==> rest by {
        if exists i :: OccursAt(h, q, i) {
          var i :| OccursAt(h, q, i);
          assert OccursAt(h[1..], q, i - 1);
        }
      }
      rest
  }

  /** `{ contains: query, mode: 'insensitive' }` on a nullable column. */
  function MatchesField(field: Option<string>, query: string): bool {
    field.Some? && Contains(Lower(field.value), Lower(query))
  }

  /** The `OR` of `searchUsers`: the query occurs in username, email, first or last name. */
  function Matches(u: User, query: string): bool {
    MatchesField(u.username, query) || MatchesField(u.email, query)
    || MatchesField(u.firstName, query) || MatchesField(u.lastName, query)
  }

  function SummaryOf(u: User): UserSummary {
    UserSummary(u.id, u.username, u.email, u.firstName, u.lastName, u.avatarUrl)
  }

  /** Every matching user, in table order. */
  function MatchesOf(users: seq<User>, query: string): seq<User> {
    Filter(users, (u: User) => Matches(u, query))
  }

  /** `searchUsers`: the first ten matching users, as summaries. The caller's own id filters nothing. */
  function SearchUsers(users: seq<User>, query: string, currentUserId: string): (r: seq<UserSummary>)
    ensures |r| == if |MatchesOf(users, query)| < 10 then |MatchesOf(users, query)| else 10
    ensures forall i :: 0 <= i < |r| ==> r[i] == SummaryOf(MatchesOf(users, query)[i])
  {
    var found := Take(MatchesOf(users, query), 10);
    seq(|found|, i requires 0 <= i < |found| => SummaryOf(found[i]))
  }

  /** Every result is a user that matches, and with ten matches or fewer every match is a result. */
  lemma SearchSoundComplete(users: seq<User>, query: string, currentUserId: string)
    ensures forall i :: 0 <= i < |SearchUsers(users, query, currentUserId)| ==>
              exists u :: u in users && Matches(u, query) && SearchUsers(users, query, currentUserId)[i] == SummaryOf(u)
    ensures forall u :: u in users && Matches(u, query) && |MatchesOf(users, query)| <= 10 ==>
              SummaryOf(u) in SearchUsers(users, query, currentUserId)
  {
    var r := SearchUsers(users, query, currentUserId);
    var m := MatchesOf(users, query);
    forall i | 0 <= i < |r|
      ensures exists u :: u in users && Matches(u, query) && r[i] == SummaryOf(u)
    {
      assert m[i] in users;
      assert Matches(m[i], query);
      assert r[i] == SummaryOf(m[i]);
      assert exists u :: u in users && Matches(u, query) && r[i] == SummaryOf(u);
    }
    assert forall i :: 0 <= i < |r| ==> exists u :: u in users && Matches(u, query) && r[i] == SummaryOf(u);
    forall u | u in users && Matches(u, query) && |m| <= 10 ensures SummaryOf(u) in r {
      assert u in m;
      var i :| 0 <= i < |m| && m[i] == u;
      assert r[i] == SummaryOf(u);
    }
  }
}
