/**
 * `BillMembersService.join`: a user joins a bill by its join code, at most
 * once, and never a cancelled bill.
 */
module BillMembersService {
  import opened Wrappers
  import opened Seqs
  import opened Store

  /** What `join` returns. */
  datatype Joined = Joined(message: string, member: MemberRow, billId: string)

  /**
   * The answer of the identity provider when the user has no row of their
   * own: the lookup failed, or it found a user with this first name.
   */
  datatype ClerkLookup = LookupFailed | LookedUp(firstName: Option<string>)

  /** The name a new member is given: first name, else username, else a placeholder. */
  function DisplayName(user: Option<User>, clerk: ClerkLookup): (name: string)
    ensures name != ""
    ensures user.Some? && user.value.firstName.Some? && user.value.firstName.value != "" ==>
              name == user.value.firstName.value
    ensures user.Some? && (user.value.firstName.None? || user.value.firstName.value == "") ==>
              name == OrElse(user.value.username, "Member")
    ensures user.None? && clerk.LookedUp? ==> name == OrElse(clerk.firstName, "New Member")
    ensures user.None? && clerk.LookupFailed? ==> name == "Member"
  {
    if user.Some? then OrElse(user.value.firstName, OrElse(user.value.username, "Member"))
    else match clerk
      case LookupFailed => "Member"
      case LookedUp(firstName) => OrElse(firstName, "New Member")
  }

  /** Some bill has this join code. */
  ghost predicate CodeExists(bills: seq<BillRow>, joinCode: string) {
    exists b :: b in bills && b.joinCode == joinCode
  }

  /** The bill with this join code, when there is one. */
  method LoadBillByCode(db: Db, joinCode: string) returns (r: Option<BillRow>)
    requires db.Valid()
    ensures r.None? <==> !CodeExists(db.bills, joinCode)
    ensures r.Some? ==> r.value in db.bills && r.value.joinCode == joinCode
    ensures r.Some? ==> forall b :: b in db.bills && b.joinCode == joinCode ==> b == r.value
  {
    r := Find(db.bills, (b: BillRow) => b.joinCode == joinCode);
    if r.Some? {
      forall b | b in db.bills && b.joinCode == joinCode ensures b == r.value {
        var i :| 0 <= i < |db.bills| && db.bills[i] == b;
        var j :| 0 <= j < |db.bills| && db.bills[j] == r.value;
      }
    }
  }

  /**
   * `join`: NotFound for an unknown code, BadRequest for a cancelled bill;
   * a member already in the bill gets their row back and nothing changes;
   * anyone else is added once, unpaid, under their display name.
   */
  method Join(db: Db, userId: string, joinCode: string, newId: string, clerk: ClerkLookup)
    returns (r: Result<Joined, Error>)
    requires db.Valid()
    requires forall i :: 0 <= i < |db.members| ==> db.members[i].id != newId
    modifies db`members
    ensures db.Valid()
    ensures r.Err? ==> db.members == old(db.members)
    ensures !CodeExists(db.bills, joinCode) <==> r == Err(NotFound("Invalid join code"))
    ensures forall b :: b in db.bills && b.joinCode == joinCode ==>
              if b.status == Cancelled then r == Err(BadRequest("This bill has been cancelled"))
              else if HasMember(old(db.members), b.id, userId) then
                r.Ok? && r.value.message == "Already joined" && r.value.billId == b.id
                && r.value.member in old(db.members) && r.value.member.billId == b.id && r.value.member.userId == Some(userId)
                && db.members == old(db.members)
              else
                r == Ok(Joined("Joined successfully",
                               MemberRow(newId, b.id, Some(userId), DisplayName(FindUser(db.users, userId), clerk), false),
                               b.id))
                && db.members == old(db.members) + [r.value.member]
    ensures r.Ok? ==> |MembershipsOf(db.members, r.value.billId, userId)| == 1
  {
    var bill := LoadBillByCode(db, joinCode);
    if bill.None? {
      return Err(NotFound("Invalid join code"));
    }
    var b := bill.value;
    if b.status == Cancelled {
      return Err(BadRequest("This bill has been cancelled"));
    }
    var existing := Find(db.members, (m: MemberRow) => m.billId == b.id && m.userId == Some(userId));
    if existing.Some? {
      AtMostOneMembership(db.members, b.id, userId);
      return Ok(Joined("Already joined", existing.value, b.id));
    }
    var user := FindUser(db.users, userId);
    var displayName := OrElse(if user.Some? then user.value.firstName else None, OrElse(if user.Some? then user.value.username else None, "Member"));
    if user.None? {
      match clerk
      case LookupFailed =>
      case LookedUp(firstName) => displayName := OrElse(firstName, "New Member");
    }
    var member := MemberRow(newId, b.id, Some(userId), displayName, false);
    forall i | 0 <= i < |db.members| ensures DistinctMembers(db.members[i], member) {
    }
    PairwiseAppend(db.members, member, DistinctMembers);
    MemberAppendReferenced(db.bills, db.members, db.items, member);
    db.members := db.members + [member];
    AtMostOneMembership(db.members, b.id, userId);
    r := Ok(Joined("Joined successfully", member, b.id));
  }
}
