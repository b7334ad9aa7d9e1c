/**
 * The rows of the database tables the services read and write, the errors
 * they raise, and the database itself as one object whose fields are the
 * tables. A table is a sequence in the order Prisma returns rows when no
 * `orderBy` is given; ids, timestamps and join codes that the database or
 * the caller generates are parameters of the operations.
 */
module Store {
  import opened Wrappers
  import opened Seqs

  /** The exceptions a service throws: Nest's HTTP exceptions, and the two Prisma errors a write can raise. */
  datatype Error =
    | NotFound(message: string)
    | Forbidden(message: string)
    | BadRequest(message: string)
    | Conflict(message: string)
    | UniqueViolation(column: string)   // Prisma P2002: a unique column would be duplicated
    | RecordMissing                     // Prisma P2025: `update` found no row to change

  datatype BillStatus = Draft | OcrProcessing | Splitting | Completed | Cancelled

  datatype ItemType = Food | Beverage | Alcohol | Discount | Other

  /** A `User` row; timestamps are integers supplied by the caller. */
  datatype User = User(
    id: string,
    email: Option<string>,
    username: Option<string>,
    firstName: Option<string>,
    lastName: Option<string>,
    avatarUrl: Option<string>,
    isGuest: bool,
    lastActiveAt: int)

  /** A `Bill` row. `deletedAt` is set by the soft delete. */
  datatype BillRow = BillRow(
    id: string,
    ownerId: string,
    joinCode: string,
    status: BillStatus,
    deletedAt: Option<int>,
    title: string,
    note: Option<string>,
    vatRate: real,
    serviceChargeRate: real,
    isVatIncluded: bool,
    isServiceChargeIncluded: bool,
    currency: string,
    discountAmount: Option<real>,
    discountPercent: Option<real>,
    bankName: Option<string>,
    bankAccount: Option<string>,
    promptPayName: Option<string>,
    promptPayNumber: Option<string>)

  /** A `BillMember` row; `userId` is absent for a guest. */
  datatype MemberRow = MemberRow(id: string, billId: string, userId: Option<string>, name: string, isPaid: bool)

  /**
   * A `BillItem` row. The optional columns that `create` never writes hold
   * `None` until an update sets them, standing for the column default.
   */
  datatype ItemRow = ItemRow(
    id: string,
    billId: string,
    name: string,
    price: real,
    quantity: int,
    totalPrice: real,
    itemType: Option<ItemType>,
    applyVat: Option<bool>,
    applyServiceCharge: Option<bool>)

  /** An `ItemSplit` row. Its own id is never read by the core and is not kept. */
  datatype SplitRow = SplitRow(itemId: string, memberId: string, weight: real, fixedAmount: Option<real>)

  /** A `UserBankAccount` row. */
  datatype BankAccount = BankAccount(
    id: string,
    userId: string,
    bankName: string,
    accountNumber: string,
    accountName: string,
    isDefault: bool,
    createdAt: int)

  /** A `Friend` row: a nickname in one user's list. */
  datatype Friend = Friend(id: string, userId: string, nickname: string)

  /** Two users differ in id and, when the first has one, in username. */
  predicate DistinctUsers(a: User, b: User) {
    a.id != b.id && (a.username.Some? ==> a.username != b.username)
  }

  predicate DistinctBills(a: BillRow, b: BillRow) {
    a.id != b.id && a.joinCode != b.joinCode
  }

  /** Two member rows differ in id, and one user is not a member of the same bill twice. */
  predicate DistinctMembers(a: MemberRow, b: MemberRow) {
    a.id != b.id && (a.billId == b.billId && a.userId.Some? ==> a.userId != b.userId)
  }

  predicate DistinctItems(a: ItemRow, b: ItemRow) {
    a.id != b.id
  }

  /** Two accounts differ in id, and two accounts of one user are not both default. */
  predicate DistinctAccounts(a: BankAccount, b: BankAccount) {
    a.id != b.id && (a.userId == b.userId ==> !(a.isDefault && b.isDefault))
  }

  /** Two friends differ in id, and two friends of one user differ in nickname. */
  predicate DistinctFriends(a: Friend, b: Friend) {
    a.id != b.id && (a.userId == b.userId ==> a.nickname != b.nickname)
  }

  /** Some bill has this id. */
  ghost predicate BillExists(bills: seq<BillRow>, id: string) {
    exists b :: b in bills && b.id == id
  }

  /** Every member row and every item row belongs to a bill. */
  ghost predicate BillsReferenced(bills: seq<BillRow>, members: seq<MemberRow>, items: seq<ItemRow>) {
    && (forall m :: m in members ==> BillExists(bills, m.billId))
    && (forall it :: it in items ==> BillExists(bills, it.billId))
  }

  /** JavaScript's `a || b` on an optional string: `a` when it is present and non-empty. */
  function OrElse(a: Option<string>, b: string): (r: string)
    ensures a.Some? && a.value != "" ==> r == a.value
    ensures a.None? || a.value == "" ==> r == b
  {
    if a.Some? && a.value != "" then a.value else b
  }

  /** `user.findUnique({ where: { id } })`. */
  function FindUser(users: seq<User>, id: string): (r: Option<User>)
    ensures r.Some? ==> r.value in users && r.value.id == id
    ensures r.None? ==> forall i :: 0 <= i < |users| ==> users[i].id != id
  {
    Find(users, (u: User) => u.id == id)
  }

  /** Some member row of the bill belongs to this user. */
  function HasMember(members: seq<MemberRow>, billId: string, userId: string): (b: bool)
    ensures b <==> exists i :: 0 <= i < |members| && members[i].billId == billId && members[i].userId == Some(userId)
  {
    Find(members, (m: MemberRow) => m.billId == billId && m.userId == Some(userId)).Some?
  }

  /** The rows that make `userId` a member of the bill. */
  function MembershipsOf(members: seq<MemberRow>, billId: string, userId: string): seq<MemberRow> {
    Filter(members, (m: MemberRow) => m.billId == billId && m.userId == Some(userId))
  }

  /** With the unique (bill, user) constraint a user is a member of a bill at most once. */
  lemma {:induction false} AtMostOneMembership(members: seq<MemberRow>, billId: string, userId: string)
    requires Pairwise(members, DistinctMembers)
    ensures |MembershipsOf(members, billId, userId)| <= 1
    ensures HasMember(members, billId, userId) ==> |MembershipsOf(members, billId, userId)| == 1
  {
    if members != [] {
      PairwiseTail(members, DistinctMembers);
      AtMostOneMembership(members[1..], billId, userId);
      var m := members[0];
      if m.billId == billId && m.userId == Some(userId) {
        assert forall i :: 0 <= i < |members[1..]| ==> !(members[1..][i].billId == billId && members[1..][i].userId == Some(userId)) by {
          forall i | 0 <= i < |members[1..]| ensures !(members[1..][i].billId == billId && members[1..][i].userId == Some(userId)) {
            assert DistinctMembers(members[0], members[i + 1]);
          }
        }
        NoMembership(members[1..], billId, userId);
      } else if HasMember(members, billId, userId) {
        var i :| 0 <= i < |members| && members[i].billId == billId && members[i].userId == Some(userId);
        assert members[1..][i - 1] == members[i];
      }
    }
  }

  lemma {:induction false} NoMembership(members: seq<MemberRow>, billId: string, userId: string)
    requires forall i :: 0 <= i < |members| ==> !(members[i].billId == billId && members[i].userId == Some(userId))
    ensures MembershipsOf(members, billId, userId) == []
  {
    if members != [] {
      NoMembership(members[1..], billId, userId);
    }
  }

  /** Looking a bill up by its unique id. */
  method LoadBill(db: Db, id: string) returns (r: Option<BillRow>)
    requires db.Valid()
    ensures r.None? <==> !BillExists(db.bills, id)
    ensures r.Some? ==> r.value in db.bills && r.value.id == id
    ensures r.Some? ==> forall b :: b in db.bills && b.id == id ==> b == r.value
  {
    r := Find(db.bills, (b: BillRow) => b.id == id);
    if r.Some? {
      forall b | b in db.bills && b.id == id ensures b == r.value {
        var i :| 0 <= i < |db.bills| && db.bills[i] == b;
        var j :| 0 <= j < |db.bills| && db.bills[j] == r.value;
      }
    }
  }

  /** Changing a bill's columns other than its id and join code keeps the bill constraints. */
  lemma BillUpdateValid(bills: seq<BillRow>, members: seq<MemberRow>, items: seq<ItemRow>, k: nat, x: BillRow)
    requires Pairwise(bills, DistinctBills) && BillsReferenced(bills, members, items)
    requires k < |bills| && x.id == bills[k].id && x.joinCode == bills[k].joinCode
    ensures Pairwise(bills[k := x], DistinctBills) && BillsReferenced(bills[k := x], members, items)
  {
    forall j | 0 <= j < |bills| && j != k ensures DistinctBills(bills[j], x) && DistinctBills(x, bills[j]) {
      if j < k {
        assert DistinctBills(bills[j], bills[k]);
      } else {
        assert DistinctBills(bills[k], bills[j]);
      }
    }
    PairwiseUpdate(bills, k, x, DistinctBills);
    forall id | BillExists(bills, id) ensures BillExists(bills[k := x], id) {
      var b :| b in bills && b.id == id;
      var i :| 0 <= i < |bills| && bills[i] == b;
      assert bills[k := x][i].id == id;
    }
  }

  /** A new bill keeps every member and item referenced, and is itself a bill that exists. */
  lemma BillAppendReferenced(bills: seq<BillRow>, members: seq<MemberRow>, items: seq<ItemRow>, b: BillRow)
    requires BillsReferenced(bills, members, items)
    ensures BillsReferenced(bills + [b], members, items) && BillExists(bills + [b], b.id)
  {
    assert b in bills + [b];
    forall id | BillExists(bills, id) ensures BillExists(bills + [b], id) {
      var x :| x in bills && x.id == id;
      assert x in bills + [b];
    }
  }

  /** A member row for an existing bill keeps every member referenced. */
  lemma MemberAppendReferenced(bills: seq<BillRow>, members: seq<MemberRow>, items: seq<ItemRow>, m: MemberRow)
    requires BillsReferenced(bills, members, items) && BillExists(bills, m.billId)
    ensures BillsReferenced(bills, members + [m], items)
  {
  }

  /** Deleting item rows keeps every item referenced. */
  lemma ItemsSubsetReferenced(bills: seq<BillRow>, members: seq<MemberRow>, items: seq<ItemRow>, kept: seq<ItemRow>)
    requires BillsReferenced(bills, members, items) && forall x :: x in kept ==> x in items
    ensures BillsReferenced(bills, members, kept)
  {
  }

  /** An item row for an existing bill keeps every item referenced. */
  lemma ItemAppendReferenced(bills: seq<BillRow>, members: seq<MemberRow>, items: seq<ItemRow>, it: ItemRow)
    requires BillsReferenced(bills, members, items) && BillExists(bills, it.billId)
    ensures BillsReferenced(bills, members, items + [it])
  {
  }

  /** The database: one field per table. */
  class Db {
    var users: seq<User>
    var bills: seq<BillRow>
    var members: seq<MemberRow>
    var items: seq<ItemRow>
    var splits: seq<SplitRow>
    var bankAccounts: seq<BankAccount>
    var friends: seq<Friend>

    /** The unique and foreign-key constraints the services rely on. */
    ghost predicate Valid()
      reads this
    {
      && Pairwise(users, DistinctUsers)
      && Pairwise(bills, DistinctBills)
      && Pairwise(members, DistinctMembers)
      && Pairwise(items, DistinctItems)
      && Pairwise(bankAccounts, DistinctAccounts)
      && Pairwise(friends, DistinctFriends)
      && BillsReferenced(bills, members, items)
    }

    /** An empty database. */
    constructor ()
      ensures Valid()
      ensures users == [] && bills == [] && members == [] && items == [] && splits == []
      ensures bankAccounts == [] && friends == []
    {
      users, bills, members, items, splits := [], [], [], [], [];
      bankAccounts, friends := [], [];
    }
  }
}
