/**
 * `BankAccountsService`: a user's payment accounts, of which at most one is
 * the default.
 */
module BankAccountsService {
  import opened Wrappers
  import opened Seqs
  import opened Store

  /** What the client sends to create an account, after its schema's defaults. */
  datatype CreateBankAccountDto = CreateBankAccountDto(bankName: string, accountNumber: string, accountName: string, isDefault: bool)

  /** `updateMany({ where: { userId, isDefault: true }, data: { isDefault: false } })`. */
  function ClearDefaults(accounts: seq<BankAccount>, userId: string): (r: seq<BankAccount>)
    ensures |r| == |accounts|
    ensures forall i :: 0 <= i < |r| ==> r[i] == accounts[i].(isDefault := accounts[i].isDefault && accounts[i].userId != userId)
  {
    seq(|accounts|, i requires 0 <= i < |accounts| =>
      if accounts[i].userId == userId && accounts[i].isDefault then accounts[i].(isDefault := false) else accounts[i])
  }

  /** `userId` has no account in the table. */
  ghost predicate NoAccounts(accounts: seq<BankAccount>, userId: string) {
    forall i :: 0 <= i < |accounts| ==> accounts[i].userId != userId
  }

  /** `count({ where: { userId } })`. */
  function CountOf(accounts: seq<BankAccount>, userId: string): (n: nat)
    ensures n == 0 <==> NoAccounts(accounts, userId)
  {
    if accounts == [] then 0
    else CountOf(accounts[1..], userId) + (if accounts[0].userId == userId then 1 else 0)
  }

  /**
   * `create`: a default account first clears the user's other defaults, and a
   * user's first account is default whatever was asked.
   */
  method Create(db: Db, userId: string, dto: CreateBankAccountDto, newId: string, now: int)
    returns (account: BankAccount)
    requires db.Valid()
    requires forall i :: 0 <= i < |db.bankAccounts| ==> db.bankAccounts[i].id != newId
    modifies db`bankAccounts
    ensures db.Valid()
    ensures account == BankAccount(newId, userId, dto.bankName, dto.accountNumber, dto.accountName,
                                   dto.isDefault || NoAccounts(old(db.bankAccounts), userId), now)
    ensures db.bankAccounts == (if dto.isDefault then ClearDefaults(old(db.bankAccounts), userId) else old(db.bankAccounts)) + [account]
    ensures forall i :: 0 <= i < |old(db.bankAccounts)| && old(db.bankAccounts)[i].userId != userId ==>
              db.bankAccounts[i] == old(db.bankAccounts)[i]
  {
    ghost var before := db.bankAccounts;
    if dto.isDefault {
      db.bankAccounts := ClearDefaults(db.bankAccounts, userId);
    }
    var existingCount := CountOf(db.bankAccounts, userId);
    assert NoAccounts(db.bankAccounts, userId) <==> NoAccounts(before, userId);
    var shouldBeDefault := if existingCount == 0 then true else dto.isDefault;
    account := BankAccount(newId, userId, dto.bankName, dto.accountNumber, dto.accountName, shouldBeDefault, now);
    assert Pairwise(db.bankAccounts, DistinctAccounts) by {
      if dto.isDefault {
        forall i, j | 0 <= i < j < |db.bankAccounts| ensures DistinctAccounts(db.bankAccounts[i], db.bankAccounts[j]) {
          assert DistinctAccounts(before[i], before[j]);
        }
      }
    }
    PairwiseAppend(db.bankAccounts, account, DistinctAccounts);
    db.bankAccounts := db.bankAccounts + [account];
  }

  /** The order of `findAll`: the default account first, then newest first. */
  function AccountLe(a: BankAccount, b: BankAccount): bool {
    (a.isDefault && !b.isDefault) || (a.isDefault == b.isDefault && a.createdAt >= b.createdAt)
  }

  lemma AccountLeTotal()
    ensures TotalOn(AccountLe)
  {
  }

  /** `findAll`: exactly the caller's accounts, default first, then by creation time, newest first. */
  method FindAll(db: Db, userId: string) returns (r: seq<BankAccount>)
    ensures multiset(r) == multiset(Filter(db.bankAccounts, (a: BankAccount) => a.userId == userId))
    ensures forall i :: 0 <= i < |r| ==> r[i] in db.bankAccounts && r[i].userId == userId
    ensures forall a :: a in db.bankAccounts && a.userId == userId ==> a in r
    ensures SortedBy(r, AccountLe)
  {
    var mine := Filter(db.bankAccounts, (a: BankAccount) => a.userId == userId);
    r := SortBy(mine, AccountLe);
    AccountLeTotal();
    SortBySorted(mine, AccountLe);
    forall i | 0 <= i < |r| ensures r[i] in db.bankAccounts && r[i].userId == userId {
      assert r[i] in multiset(mine);
    }
    forall a | a in db.bankAccounts && a.userId == userId ensures a in r {
      assert a in mine;
      assert a in multiset(r);
    }
  }

  /** In this order a default account, when there is one, comes first. */
  lemma {:induction false} DefaultComesFirst(r: seq<BankAccount>, i: nat)
    requires SortedBy(r, AccountLe)
    requires i < |r| && r[i].isDefault
    ensures r[0].isDefault
  {
    if i > 0 {
      assert AccountLe(r[i - 1], r[i]);
      DefaultComesFirst(r, i - 1);
    }
  }

  /** `remove`: NotFound for an unknown id, Forbidden for another user's account, else the row is deleted. */
  method Remove(db: Db, id: string, userId: string) returns (r: Result<BankAccount, Error>)
    requires db.Valid()
    modifies db`bankAccounts
    ensures db.Valid()
    ensures r.Err? ==> db.bankAccounts == old(db.bankAccounts)
    ensures (forall i :: 0 <= i < |old(db.bankAccounts)| ==> old(db.bankAccounts)[i].id != id)
              <==> r == Err(NotFound("Bank account not found"))
    ensures r == Err(Forbidden("You can only delete your own bank accounts")) <==>
              exists i :: 0 <= i < |old(db.bankAccounts)| && old(db.bankAccounts)[i].id == id && old(db.bankAccounts)[i].userId != userId
    ensures r.Ok? || r == Err(NotFound("Bank account not found")) || r == Err(Forbidden("You can only delete your own bank accounts"))
    ensures r.Ok? ==> r.value in old(db.bankAccounts) && r.value.id == id && r.value.userId == userId
                      && db.bankAccounts == Filter(old(db.bankAccounts), (a: BankAccount) => a.id != id)
                      && |db.bankAccounts| == |old(db.bankAccounts)| - 1
  {
    var k := IndexOf(db.bankAccounts, (a: BankAccount) => a.id == id);
    if k.None? {
      return Err(NotFound("Bank account not found"));
    }
    var account := db.bankAccounts[k.value];
    if account.userId != userId {
      return Err(Forbidden("You can only delete your own bank accounts"));
    }
    var kept := Filter(db.bankAccounts, (a: BankAccount) => a.id != id);
    FilterPairwise(db.bankAccounts, (a: BankAccount) => a.id != id, DistinctAccounts);
    FilterRemovesOne(db.bankAccounts, id, k.value);
    db.bankAccounts := kept;
    r := Ok(account);
  }

  /** With unique ids, deleting by id removes exactly one row. */
  lemma {:induction false} FilterRemovesOne(accounts: seq<BankAccount>, id: string, k: nat)
    requires Pairwise(accounts, DistinctAccounts)
    requires k < |accounts| && accounts[k].id == id
    ensures |Filter(accounts, (a: BankAccount) => a.id != id)| == |accounts| - 1
  {
    PairwiseTail(accounts, DistinctAccounts);
    if k == 0 {
      assert forall i :: 0 <= i < |accounts[1..]| ==> accounts[1..][i].id != id by {
        forall i | 0 <= i < |accounts[1..]| ensures accounts[1..][i].id != id {
          assert accounts[1..][i] in accounts[1..];
        }
      }
      FilterAll(accounts[1..], (a: BankAccount) => a.id != id);
    } else {
      FilterRemovesOne(accounts[1..], id, k - 1);
      assert accounts[0].id != id by {
        assert accounts[k] in accounts[1..] by { assert accounts[1..][k - 1] == accounts[k]; }
      }
    }
  }
}
