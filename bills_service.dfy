/**
 * `BillsService`: creating a bill with its owner as first member, reading,
 * editing, soft-deleting and closing it (all but reading and closing refuse
 * a soft-deleted bill), and loading a bill for the settlement engine.
 */
module BillsService {
  import opened Wrappers
  import opened Seqs
  import opened Store
  import Settlement

  /** What `create` receives, after its schema's defaults (`title` and `currency` always present). */
  datatype CreateBillDto = CreateBillDto(
    title: string,
    note: Option<string>,
    vatRate: Option<real>,
    serviceChargeRate: Option<real>,
    isVatIncluded: Option<bool>,
    isServiceChargeIncluded: Option<bool>,
    currency: string,
    promptPayNumber: Option<string>,
    promptPayName: Option<string>,
    bankName: Option<string>,
    bankAccount: Option<string>)

  /** The database's own defaults for the fee columns, which the schema file holds and this model takes as given. */
  datatype ColumnDefaults = ColumnDefaults(vatRate: real, serviceChargeRate: real, isVatIncluded: bool, isServiceChargeIncluded: bool)

  /** What `update` receives: every field optional, plus status and the discount fields. */
  datatype UpdateBillDto = UpdateBillDto(
    title: Option<string>,
    note: Option<string>,
    vatRate: Option<real>,
    serviceChargeRate: Option<real>,
    isVatIncluded: Option<bool>,
    isServiceChargeIncluded: Option<bool>,
    currency: Option<string>,
    promptPayNumber: Option<string>,
    promptPayName: Option<string>,
    bankName: Option<string>,
    bankAccount: Option<string>,
    status: Option<BillStatus>,
    discountAmount: Option<real>,
    discountPercent: Option<real>)

  /** The new bill with the member rows created with it. */
  datatype Created = Created(bill: BillRow, members: seq<MemberRow>)

  /** An item with its split rows, as `findOne` includes them. */
  datatype ItemDetail = ItemDetail(item: ItemRow, splits: seq<SplitRow>)

  /** A bill with its items (each with its splits) and members, as `findOne` includes them. */
  datatype BillDetail = BillDetail(bill: BillRow, items: seq<ItemDetail>, members: seq<MemberRow>)

  /** What the identity provider returns for a user id: the fields `create` copies into a new user row. */
  datatype ClerkUser = ClerkUser(
    email: Option<string>,
    username: Option<string>,
    firstName: Option<string>,
    lastName: Option<string>,
    imageUrl: Option<string>)

  /** The database's own defaults for the user columns `create` does not write. */
  datatype UserDefaults = UserDefaults(isGuest: bool, lastActiveAt: int)

  /** `clerkUser.username || \`user_${userId.substr(0, 8)}\``. */
  function ClerkUsername(clerk: ClerkUser, userId: string): (name: string)
    ensures clerk.username.Some? && clerk.username.value != "" ==> name == clerk.username.value
    ensures clerk.username.None? || clerk.username.value == "" ==> name == "user_" + userId[..if |userId| < 8 then |userId| else 8]
    ensures name != ""
  {
    OrElse(clerk.username, "user_" + userId[..if |userId| < 8 then |userId| else 8])
  }

  /** The user row `create` inserts for an owner the database does not know yet. */
  function ClerkRow(userId: string, clerk: ClerkUser, defaults: UserDefaults): (u: User)
    ensures u.id == userId && u.username == Some(ClerkUsername(clerk, userId))
    ensures u.firstName == clerk.firstName && u.lastName == clerk.lastName
    ensures u.email == clerk.email && u.avatarUrl == clerk.imageUrl
  {
    User(userId, clerk.email, Some(ClerkUsername(clerk, userId)), clerk.firstName, clerk.lastName, clerk.imageUrl,
         defaults.isGuest, defaults.lastActiveAt)
  }

  /** Some user row holds this username. */
  ghost predicate UsernameTaken(users: seq<User>, name: string) {
    exists i :: 0 <= i < |users| && users[i].username == Some(name)
  }

  /**
   * The owner's user row, created from the identity provider when missing.
   * `clerk` is `None` when the lookup fails; a username already held makes
   * the insert fail on its unique column. Both failures are swallowed and
   * leave the owner without a row.
   */
  method EnsureOwner(db: Db, userId: string, clerk: Option<ClerkUser>, defaults: UserDefaults)
    returns (user: Option<User>)
    requires db.Valid()
    modifies db`users
    ensures db.Valid()
    ensures user == FindUser(db.users, userId)
    ensures FindUser(old(db.users), userId).Some? ==> db.users == old(db.users)
    ensures FindUser(old(db.users), userId).None? ==>
              if clerk.Some? && !UsernameTaken(old(db.users), ClerkUsername(clerk.value, userId)) then
                user == Some(ClerkRow(userId, clerk.value, defaults)) && db.users == old(db.users) + [user.value]
              else user.None? && db.users == old(db.users)
  {
    user := FindUser(db.users, userId);
    if user.Some? || clerk.None? {
      return;
    }
    var row := ClerkRow(userId, clerk.value, defaults);
    var taken := Find(db.users, (u: User) => u.username == row.username);
    if taken.Some? {
      return;
    }
    forall i | 0 <= i < |db.users| ensures DistinctUsers(db.users[i], row) && DistinctUsers(row, db.users[i]) {
    }
    PairwiseAppend(db.users, row, DistinctUsers);
    db.users := db.users + [row];
    user := Some(row);
    NewUserFound(old(db.users), row);
  }

  /** After appending a row for an id no row had, looking the id up finds that row. */
  lemma NewUserFound(users: seq<User>, row: User)
    requires forall i :: 0 <= i < |users| ==> users[i].id != row.id
    ensures FindUser(users + [row], row.id) == Some(row)
  {
    var r := FindUser(users + [row], row.id);
    assert (users + [row])[|users|] == row;
    if r.Some? {
      var j :| 0 <= j < |users| + 1 && (users + [row])[j] == r.value;
    }
  }

  /** `user?.firstName || user?.username || 'Owner'`. */
  function OwnerName(user: Option<User>): (name: string)
    ensures name != ""
    ensures user.None? ==> name == "Owner"
    ensures user.Some? && user.value.firstName.Some? && user.value.firstName.value != "" ==> name == user.value.firstName.value
    ensures user.Some? && (user.value.firstName.None? || user.value.firstName.value == "") ==>
              name == OrElse(user.value.username, "Owner")
  {
    if user.None? then "Owner" else OrElse(user.value.firstName, OrElse(user.value.username, "Owner"))
  }

  /** The bill row `create` inserts: the sent fields over the column defaults, owned by the caller, in draft. */
  function NewBill(id: string, userId: string, joinCode: string, dto: CreateBillDto, defaults: ColumnDefaults): (b: BillRow)
    ensures b.id == id && b.ownerId == userId && b.joinCode == joinCode && b.status == Draft && b.deletedAt.None?
    ensures b.title == dto.title && b.currency == dto.currency
    ensures b.vatRate == dto.vatRate.GetOr(defaults.vatRate)
    ensures b.serviceChargeRate == dto.serviceChargeRate.GetOr(defaults.serviceChargeRate)
  {
    BillRow(id, userId, joinCode, Draft, None, dto.title, dto.note,
            dto.vatRate.GetOr(defaults.vatRate), dto.serviceChargeRate.GetOr(defaults.serviceChargeRate),
            dto.isVatIncluded.GetOr(defaults.isVatIncluded), dto.isServiceChargeIncluded.GetOr(defaults.isServiceChargeIncluded),
            dto.currency, None, None, dto.bankName, dto.bankAccount, dto.promptPayName, dto.promptPayNumber)
  }

  /**
   * `create`: one write inserts the bill and enrols the caller as its first,
   * unpaid member, so the owner is a member of the new bill exactly once.
   */
  method Create(db: Db, userId: string, dto: CreateBillDto, defaults: ColumnDefaults,
                clerk: Option<ClerkUser>, userDefaults: UserDefaults,
                joinCode: string, billId: string, memberId: string) returns (c: Created)
    requires db.Valid()
    requires !BillExists(db.bills, billId)
    requires forall i :: 0 <= i < |db.bills| ==> db.bills[i].joinCode != joinCode   // the code loop's guarantee
    requires forall i :: 0 <= i < |db.members| ==> db.members[i].id != memberId
    modifies db`users, db`bills, db`members
    ensures db.Valid()
    ensures FindUser(old(db.users), userId).Some? ==> db.users == old(db.users)
    ensures FindUser(old(db.users), userId).None? ==>
              if clerk.Some? && !UsernameTaken(old(db.users), ClerkUsername(clerk.value, userId)) then
                db.users == old(db.users) + [ClerkRow(userId, clerk.value, userDefaults)]
              else db.users == old(db.users)
    ensures c.bill == NewBill(billId, userId, joinCode, dto, defaults)
    ensures c.members == [MemberRow(memberId, billId, Some(userId), OwnerName(FindUser(db.users, userId)), false)]
    ensures db.bills == old(db.bills) + [c.bill] && db.members == old(db.members) + c.members
    ensures |MembershipsOf(db.members, billId, userId)| == 1
  {
    var user := EnsureOwner(db, userId, clerk, userDefaults);
    c := InsertBill(db, userId, OwnerName(user), dto, defaults, joinCode, billId, memberId);
  }

  /** The single write of `create`: the bill together with its owner as first, unpaid member. */
  method InsertBill(db: Db, userId: string, ownerName: string, dto: CreateBillDto, defaults: ColumnDefaults,
                    joinCode: string, billId: string, memberId: string) returns (c: Created)
    requires db.Valid()
    requires !BillExists(db.bills, billId)
    requires forall i :: 0 <= i < |db.bills| ==> db.bills[i].joinCode != joinCode
    requires forall i :: 0 <= i < |db.members| ==> db.members[i].id != memberId
    modifies db`bills, db`members
    ensures db.Valid()
    ensures c.bill == NewBill(billId, userId, joinCode, dto, defaults)
    ensures c.members == [MemberRow(memberId, billId, Some(userId), ownerName, false)]
    ensures db.bills == old(db.bills) + [c.bill] && db.members == old(db.members) + c.members
    ensures |MembershipsOf(db.members, billId, userId)| == 1
  {
    var bill := NewBill(billId, userId, joinCode, dto, defaults);
    var owner := MemberRow(memberId, billId, Some(userId), ownerName, false);
    forall i | 0 <= i < |db.bills| ensures DistinctBills(db.bills[i], bill) {
      assert db.bills[i] in db.bills;
    }
    forall i | 0 <= i < |db.members| ensures DistinctMembers(db.members[i], owner) {
      assert db.members[i] in db.members;
    }
    PairwiseAppend(db.bills, bill, DistinctBills);
    PairwiseAppend(db.members, owner, DistinctMembers);
    BillAppendReferenced(db.bills, db.members, db.items, bill);
    db.bills := db.bills + [bill];
    MemberAppendReferenced(db.bills, db.members, db.items, owner);
    db.members := db.members + [owner];
    assert HasMember(db.members, billId, userId) by {
      assert db.members[|db.members| - 1] == owner;
    }
    AtMostOneMembership(db.members, billId, userId);
    c := Created(bill, [owner]);
  }

  /** The items of a bill; the `orderIndex` ordering of `findOne` is not modelled. */
  function ItemsOf(items: seq<ItemRow>, billId: string): seq<ItemRow> {
    Filter(items, (it: ItemRow) => it.billId == billId)
  }

  /** The items of a bill, each with the split rows that name it. */
  function ItemDetailsOf(items: seq<ItemRow>, splits: seq<SplitRow>, billId: string): (r: seq<ItemDetail>)
    ensures |r| == |ItemsOf(items, billId)|
    ensures forall i :: 0 <= i < |r| ==> r[i].item == ItemsOf(items, billId)[i] && r[i].item.billId == billId
    ensures forall i, j :: 0 <= i < |r| && 0 <= j < |r[i].splits| ==> r[i].splits[j].itemId == r[i].item.id
    ensures forall i, x :: 0 <= i < |r| && x in splits && x.itemId == r[i].item.id ==> x in r[i].splits
  {
    var its := ItemsOf(items, billId);
    forall i, x | 0 <= i < |its| && x in splits && x.itemId == its[i].id
      ensures x in Filter(splits, (s: SplitRow) => s.itemId == its[i].id)
    {
      var k :| 0 <= k < |splits| && splits[k] == x;
    }
    seq(|its|, i requires 0 <= i < |its| => ItemDetail(its[i], Filter(splits, (s: SplitRow) => s.itemId == its[i].id)))
  }

  /** The member rows of a bill. */
  function MembersOf(members: seq<MemberRow>, billId: string): seq<MemberRow> {
    Filter(members, (m: MemberRow) => m.billId == billId)
  }

  /** The bill exists and is not soft-deleted. */
  ghost predicate LiveBill(bills: seq<BillRow>, id: string) {
    exists i :: 0 <= i < |bills| && bills[i].id == id && bills[i].deletedAt.None?
  }

  /** `findOne`: two different NotFound answers, for a missing and for a soft-deleted bill. */
  method FindOne(db: Db, id: string) returns (r: Result<BillDetail, Error>)
    requires db.Valid()
    ensures !BillExists(db.bills, id) <==> r == Err(NotFound("Bill not found"))
    ensures forall b :: b in db.bills && b.id == id ==>
              if b.deletedAt.Some? then r == Err(NotFound("Bill has been deleted"))
              else r == Ok(BillDetail(b, ItemDetailsOf(db.items, db.splits, id), MembersOf(db.members, id)))
  {
    var bill := LoadBill(db, id);
    if bill.None? {
      return Err(NotFound("Bill not found"));
    }
    if bill.value.deletedAt.Some? {
      return Err(NotFound("Bill has been deleted"));
    }
    r := Ok(BillDetail(bill.value, ItemDetailsOf(db.items, db.splits, id), MembersOf(db.members, id)));
  }

  /** The bill after `update`: every sent field replaces its column; id, owner and join code stay. */
  function EditedBill(b: BillRow, dto: UpdateBillDto): (e: BillRow)
    ensures e.id == b.id && e.ownerId == b.ownerId && e.joinCode == b.joinCode && e.deletedAt == b.deletedAt
    ensures e.status == dto.status.GetOr(b.status) && e.title == dto.title.GetOr(b.title)
    ensures e.vatRate == dto.vatRate.GetOr(b.vatRate) && e.serviceChargeRate == dto.serviceChargeRate.GetOr(b.serviceChargeRate)
  {
    b.(title := dto.title.GetOr(b.title),
       note := if dto.note.Some? then dto.note else b.note,
       vatRate := dto.vatRate.GetOr(b.vatRate),
       serviceChargeRate := dto.serviceChargeRate.GetOr(b.serviceChargeRate),
       isVatIncluded := dto.isVatIncluded.GetOr(b.isVatIncluded),
       isServiceChargeIncluded := dto.isServiceChargeIncluded.GetOr(b.isServiceChargeIncluded),
       currency := dto.currency.GetOr(b.currency),
       promptPayNumber := if dto.promptPayNumber.Some? then dto.promptPayNumber else b.promptPayNumber,
       promptPayName := if dto.promptPayName.Some? then dto.promptPayName else b.promptPayName,
       bankName := if dto.bankName.Some? then dto.bankName else b.bankName,
       bankAccount := if dto.bankAccount.Some? then dto.bankAccount else b.bankAccount,
       status := dto.status.GetOr(b.status),
       discountAmount := if dto.discountAmount.Some? then dto.discountAmount else b.discountAmount,
       discountPercent := if dto.discountPercent.Some? then dto.discountPercent else b.discountPercent)
  }

  /** The position of a bill that `update` and `remove` accept: present and not soft-deleted. */
  method LoadLiveBill(db: Db, id: string) returns (k: Option<nat>)
    requires db.Valid()
    ensures k.None? <==> !LiveBill(db.bills, id)
    ensures k.Some? ==> k.value < |db.bills| && db.bills[k.value].id == id && db.bills[k.value].deletedAt.None?
    ensures k.Some? ==> forall i :: 0 <= i < |db.bills| && db.bills[i].id == id ==> i == k.value
  {
    k := IndexOf(db.bills, (b: BillRow) => b.id == id);
    if k.Some? {
      forall i | 0 <= i < |db.bills| && db.bills[i].id == id ensures i == k.value {
      }
      if db.bills[k.value].deletedAt.Some? {
        k := None;
      }
    }
  }

  /** `update`: NotFound for a missing or soft-deleted bill, Forbidden unless the caller owns it. */
  method Update(db: Db, id: string, userId: string, dto: UpdateBillDto) returns (r: Result<BillRow, Error>)
    requires db.Valid()
    modifies db`bills
    ensures db.Valid()
    ensures r.Err? ==> db.bills == old(db.bills)
    ensures !LiveBill(old(db.bills), id) <==> r == Err(NotFound("Bill not found"))
    ensures forall i :: 0 <= i < |old(db.bills)| && old(db.bills)[i].id == id && old(db.bills)[i].deletedAt.None? ==>
              if old(db.bills)[i].ownerId == userId then
                r == Ok(EditedBill(old(db.bills)[i], dto)) && db.bills == old(db.bills)[i := r.value]
              else r == Err(Forbidden("Only owner can update bill"))
  {
    var k := LoadLiveBill(db, id);
    if k.None? {
      return Err(NotFound("Bill not found"));
    }
    var bill := db.bills[k.value];
    if bill.ownerId != userId {
      return Err(Forbidden("Only owner can update bill"));
    }
    var edited := EditedBill(bill, dto);
    BillUpdateValid(db.bills, db.members, db.items, k.value, edited);
    db.bills := db.bills[k.value := edited];
    r := Ok(edited);
  }

  /** The soft delete: the row stays, stamped and cancelled. */
  function SoftDeleted(b: BillRow, now: int): (d: BillRow)
    ensures d.deletedAt == Some(now) && d.status == Cancelled
    ensures d == b.(deletedAt := d.deletedAt, status := d.status)
  {
    b.(deletedAt := Some(now), status := Cancelled)
  }

  /**
   * `remove`: NotFound for a missing or already deleted bill, Forbidden
   * unless the caller owns it; otherwise the soft delete.
   */
  method Remove(db: Db, id: string, userId: string, now: int) returns (r: Result<BillRow, Error>)
    requires db.Valid()
    modifies db`bills
    ensures db.Valid()
    ensures r.Err? ==> db.bills == old(db.bills)
    ensures !LiveBill(old(db.bills), id) <==> r == Err(NotFound("Bill not found"))
    ensures forall i :: 0 <= i < |old(db.bills)| && old(db.bills)[i].id == id && old(db.bills)[i].deletedAt.None? ==>
              if old(db.bills)[i].ownerId == userId then
                r == Ok(SoftDeleted(old(db.bills)[i], now)) && db.bills == old(db.bills)[i := r.value]
              else r == Err(Forbidden("Only owner can delete bill"))
    ensures r.Ok? ==> !LiveBill(db.bills, id)
  {
    var k := LoadLiveBill(db, id);
    if k.None? {
      return Err(NotFound("Bill not found"));
    }
    var bill := db.bills[k.value];
    if bill.ownerId != userId {
      return Err(Forbidden("Only owner can delete bill"));
    }
    var deleted := SoftDeleted(bill, now);
    BillUpdateValid(db.bills, db.members, db.items, k.value, deleted);
    db.bills := db.bills[k.value := deleted];
    r := Ok(deleted);
  }

  /** `findFirst({ where: { userId, isDefault: true } })`. */
  function DefaultAccount(accounts: seq<BankAccount>, userId: string): (r: Option<BankAccount>)
    ensures r.Some? ==> r.value in accounts && r.value.userId == userId && r.value.isDefault
    ensures r.None? ==> forall i :: 0 <= i < |accounts| ==> !(accounts[i].userId == userId && accounts[i].isDefault)
  {
    Find(accounts, (a: BankAccount) => a.userId == userId && a.isDefault)
  }

  /** `x || null` on a column of the snapshot account. */
  function OrNull(s: Option<string>): (r: Option<string>)
    ensures r.Some? <==> s.Some? && s.value != ""
    ensures r.Some? ==> r == s
  {
    if s.Some? && s.value != "" then s else None
  }

  /** The closed bill: completed, with the payment columns copied from the owner's default account. */
  function Closed(b: BillRow, bank: Option<BankAccount>): (c: BillRow)
    ensures c.status == Completed && c.id == b.id && c.ownerId == b.ownerId && c.deletedAt == b.deletedAt
    ensures bank.None? ==> c.bankName.None? && c.bankAccount.None? && c.promptPayName.None? && c.promptPayNumber.None?
    ensures bank.Some? ==> c.bankName == OrNull(Some(bank.value.bankName)) && c.bankAccount == OrNull(Some(bank.value.accountNumber))
                           && c.promptPayName == OrNull(Some(bank.value.accountName))
                           && c.promptPayNumber == c.bankAccount
  {
    b.(status := Completed,
       bankName := if bank.Some? then OrNull(Some(bank.value.bankName)) else None,
       bankAccount := if bank.Some? then OrNull(Some(bank.value.accountNumber)) else None,
       promptPayName := if bank.Some? then OrNull(Some(bank.value.accountName)) else None,
       promptPayNumber := if bank.Some? then OrNull(Some(bank.value.accountNumber)) else None)
  }

  /** Since a user has at most one default account, the snapshot is taken from that account. */
  lemma {:induction false} DefaultAccountUnique(accounts: seq<BankAccount>, userId: string, a: BankAccount)
    requires Pairwise(accounts, DistinctAccounts)
    requires a in accounts && a.userId == userId && a.isDefault
    ensures DefaultAccount(accounts, userId) == Some(a)
  {
    var d := DefaultAccount(accounts, userId);
    var i :| 0 <= i < |accounts| && accounts[i] == a;
    var j :| 0 <= j < |accounts| && accounts[j] == d.value;
  }

  /**
   * `close`: NotFound only for a missing bill (a soft-deleted bill can be
   * closed), Forbidden unless the caller owns it; otherwise the bill is
   * completed with a snapshot of the caller's default account.
   */
  method Close(db: Db, id: string, userId: string) returns (r: Result<BillRow, Error>)
    requires db.Valid()
    modifies db`bills
    ensures db.Valid()
    ensures r.Err? ==> db.bills == old(db.bills)
    ensures !BillExists(old(db.bills), id) <==> r == Err(NotFound("Bill not found"))
    ensures forall i :: 0 <= i < |old(db.bills)| && old(db.bills)[i].id == id ==>
              if old(db.bills)[i].ownerId == userId then
                r == Ok(Closed(old(db.bills)[i], DefaultAccount(db.bankAccounts, userId)))
                && db.bills == old(db.bills)[i := r.value]
              else r == Err(Forbidden("Only owner can close bill"))
  {
    var k := IndexOf(db.bills, (b: BillRow) => b.id == id);
    if k.None? {
      return Err(NotFound("Bill not found"));
    }
    forall i | 0 <= i < |db.bills| && db.bills[i].id == id ensures i == k.value {
    }
    var bill := db.bills[k.value];
    if bill.ownerId != userId {
      return Err(Forbidden("Only owner can close bill"));
    }
    var bank := DefaultAccount(db.bankAccounts, userId);
    var closed := Closed(bill, bank);
    BillUpdateValid(db.bills, db.members, db.items, k.value, closed);
    db.bills := db.bills[k.value := closed];
    r := Ok(closed);
  }

  /** The split rows of an item, as the settlement engine reads them. */
  function SplitsOf(splits: seq<SplitRow>, itemId: string): (r: seq<Settlement.Split>)
    ensures |r| == |Filter(splits, (s: SplitRow) => s.itemId == itemId)|
    ensures forall i :: 0 <= i < |r| ==> var x := Filter(splits, (s: SplitRow) => s.itemId == itemId)[i];
              r[i] == Settlement.Split(x.memberId, x.weight, x.fixedAmount)
  {
    var rows := Filter(splits, (s: SplitRow) => s.itemId == itemId);
    seq(|rows|, i requires 0 <= i < |rows| => Settlement.Split(rows[i].memberId, rows[i].weight, rows[i].fixedAmount))
  }

  /** The bill aggregate `getSummary` loads: its items with their splits, and its members. */
  function Loaded(b: BillRow, items: seq<ItemRow>, splits: seq<SplitRow>, members: seq<MemberRow>): (l: Settlement.Bill)
    ensures l.id == b.id && l.ownerId == b.ownerId && l.vatRate == b.vatRate && l.serviceChargeRate == b.serviceChargeRate
    ensures |l.items| == |ItemsOf(items, b.id)| && |l.members| == |MembersOf(members, b.id)|
    ensures l.title == b.title
    ensures l.isVatIncluded == b.isVatIncluded && l.isServiceChargeIncluded == b.isServiceChargeIncluded
    ensures forall i :: 0 <= i < |l.items| ==> var it := ItemsOf(items, b.id)[i];
              l.items[i] == Settlement.Item(it.name, it.totalPrice, SplitsOf(splits, it.id))
    ensures forall i :: 0 <= i < |l.members| ==> var m := MembersOf(members, b.id)[i];
              l.members[i] == Settlement.Member(m.id, m.userId, m.name)
  {
    var its := ItemsOf(items, b.id);
    var ms := MembersOf(members, b.id);
    Settlement.Bill(b.id, b.title, b.ownerId, b.vatRate, b.serviceChargeRate, b.isVatIncluded, b.isServiceChargeIncluded,
      seq(|its|, i requires 0 <= i < |its| => Settlement.Item(its[i].name, its[i].totalPrice, SplitsOf(splits, its[i].id))),
      seq(|ms|, i requires 0 <= i < |ms| => Settlement.Member(ms[i].id, ms[i].userId, ms[i].name)))
  }

  /** `getSummary`: NotFound only for a missing bill; a soft-deleted bill is still settled. */
  method GetSummary(db: Db, billId: string) returns (r: Result<Settlement.Summary, Error>)
    requires db.Valid()
    ensures !BillExists(db.bills, billId) <==> r == Err(NotFound("Bill not found"))
    ensures forall b :: b in db.bills && b.id == billId ==>
              r == Ok(Settlement.SummaryOf(Loaded(b, db.items, db.splits, db.members)))
  {
    var bill := LoadBill(db, billId);
    if bill.None? {
      return Err(NotFound("Bill not found"));
    }
    var summary := Settlement.ComputeSummary(Loaded(bill.value, db.items, db.splits, db.members));
    r := Ok(summary);
  }

  /** Soft deletion does not change what `getSummary` computes. */
  lemma SummaryIgnoresDeletion(b: BillRow, items: seq<ItemRow>, splits: seq<SplitRow>, members: seq<MemberRow>, now: int)
    ensures Settlement.SummaryOf(Loaded(SoftDeleted(b, now), items, splits, members))
            == Settlement.SummaryOf(Loaded(b, items, splits, members))
  {
  }
}
