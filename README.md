# KiddBill: a verified model of bill splitting

KiddBill is a bill-splitting application. An owner creates a bill from a
receipt and invites friends by a join code. Each item is assigned to the
members who share it, each with a weight. The server then works out what
every member owes, with service charge and VAT added and the result rounded
up to the cent.

This project models the core of that system in Dafny and proves properties
of the model. It covers the following parts.

- **The settlement engine** (`Settlement`, `SettlementLemmas`): `getSummary`'s
  two passes.
  - Pass 1 shares each item out by weight. An item nobody is assigned to
    goes to the owner as "(Unassigned)".
  - Pass 2 adds the service charge, then VAT on base plus service charge. It
    rounds every member's amount up to the cent and sums the rounded amounts
    into the grand total.
  - The loops of the source are methods proved equal to specification
    functions. The lemmas prove:
    - conservation of the items' total;
    - the exact share of each member;
    - where unassigned and unresolved money goes;
    - the fee formulas;
    - the ceiling bounds on every line and on the grand total.
- **The server's services**, as methods over one database object
  (`Store.Db`, one sequence-valued field per table). Each method states its
  error outcomes with their exact messages, and the new state of the tables
  it writes.
  - Bills: create, with the owner enrolled as first member and the owner's
    user row synced from the identity provider; findOne, update, the soft
    delete, close, and loading a bill for the summary.
  - Item splits: replacement of an item's splits after the membership check.
  - Bill items, with `totalPrice = price × quantity` kept.
  - Bank accounts: at most one default per user.
  - Friends: nicknames unique per user.
  - Joining a bill by code.
  - Users: the sign-in upsert, profile edits with a unique username, search.
- **The web client's logic**:
  - `PromptPayQr`: the PromptPay id classification.
  - `ScanReceipt`: the editable list of scanned receipt items.
  - `AssignMembers`: the member selection of the assign dialog.
  - `BillItemRow`: the item row's edit form and its save validation.
- **The request schemas** (`Schemas`): the three Zod schemas, as parsers
  that reject a body or fill in its defaults.

Ids, join codes, timestamps and the identity provider's answers are
parameters of the operations. So are the database's column defaults and
JavaScript's number formatting and parsing. That a fresh id or join code is
unused is a precondition, standing for the database or the code loop that
generates it.

Behaviour of the code that a reader might not expect:
- A split weight may be 0 (the schema's `min(0)`), so all-zero weights
  reach `getSummary`. They send the item to the owner
  (`SettlementLemmas.ZeroWeights`, `Schemas.AllZeroWeightsAccepted`).
- `getSummary` and `close` look the bill up without checking `deletedAt`,
  whereas `findOne`, `update` and `remove` refuse a soft-deleted bill. So a
  soft-deleted bill can still be summarised and closed.
  `BillsService.SummaryIgnoresDeletion` states the first case.
- In the split schema, an absent `weight` stays absent, because in Zod 3
  `.default(1.0).optional()` keeps `undefined`. The service then stores 1.0,
  so the stored weight is the same as under Zod 4, which applies the default.

## Model

| member | source | states |
|---|---|---|
| Settlement.InitTotals | server/src/bills/bills.service.ts:184-199 | the initial accumulator is well formed and every record has base, service charge, VAT and net at 0 and no lines |
| Settlement.PrepareTotals | server/src/bills/bills.service.ts:184-199 | the member loop builds exactly `InitTotals` of the members |
| Settlement.FindMember | server/src/bills/bills.service.ts:217 | the member found has the split's member id; none is found only when no member has it |
| Settlement.SumWeights | server/src/bills/bills.service.ts:204-207 | the reduce loop computes the items' total weight |
| Settlement.AllocateSplits | server/src/bills/bills.service.ts:211-229 | crediting splits keeps the set and order of record keys and leaves the fees unset |
| Settlement.AllocateItem | server/src/bills/bills.service.ts:202-243 | one item's allocation keeps the record keys and order and leaves the fees unset |
| Settlement.AllocateItems | server/src/bills/bills.service.ts:202-243 | the item loop keeps the record keys and order and leaves the fees unset |
| Settlement.ShareItem | server/src/bills/bills.service.ts:211-229 | the split loop of one item computes `AllocateSplits` |
| Settlement.AllocateAll | server/src/bills/bills.service.ts:202-243 | the item loop computes `AllocateItems` over all items |
| Settlement.AfterPass1 | server/src/bills/bills.service.ts:184-243 | after pass 1 the accumulator is well formed, has the initial keys, and all fees are unset |
| Settlement.CeilCents | server/src/bills/bills.service.ts:262 | `ceil(x × 100) / 100` is a whole number of cents with `x <= r < x + 0.01` |
| Settlement.ApplyFees | server/src/bills/bills.service.ts:246-265 | one summary line per record, in record order, each the record with its fees |
| Settlement.AddFees | server/src/bills/bills.service.ts:246-265 | the fee loop computes `ApplyFees` |
| Settlement.SumNets | server/src/bills/bills.service.ts:275 | the grand-total loop sums the rounded net amounts |
| Settlement.ComputeSummary | server/src/bills/bills.service.ts:184-276 | the whole imperative computation equals the specification `SummaryOf` |
| SettlementLemmas.InitTotalsUniqueEntries | server/src/bills/bills.service.ts:185-199 | with unique settlement keys, every member has its own fresh record under `userId`, else member id |
| SettlementLemmas.InitTotalsUniqueOrder | server/src/bills/bills.service.ts:185-199 | with unique keys, the records are listed in member order |
| SettlementLemmas.InitTotalsLast | server/src/bills/bills.service.ts:185-199 | the record under a key is the fresh record of the last member with that key |
| SettlementLemmas.InitTotalsOnlyKeys | server/src/bills/bills.service.ts:185-199 | every record key is some member's key |
| SettlementLemmas.OwnerRecord | server/src/bills/bills.service.ts:232-235 | the owner has a record exactly when some member's key is the owner's user id |
| SettlementLemmas.SplitsCreditByWeight | server/src/bills/bills.service.ts:211-228 | each record gains `totalPrice × W / totalWeight`, W being the weight of the splits resolving to it; a record no split names is unchanged |
| SettlementLemmas.SplitsConserve | server/src/bills/bills.service.ts:211-228 | when every split resolves, the records together gain the sum of the splits' shares |
| SettlementLemmas.ItemSharedExactly | server/src/bills/bills.service.ts:209-229 | an assigned item whose splits all resolve adds exactly its `totalPrice` to the base total |
| SettlementLemmas.UnresolvedSplitIsInert | server/src/bills/bills.service.ts:217-220 | a split naming no member, or a key without a record, changes nothing |
| SettlementLemmas.EqualSplitShare | server/src/bills/bills.service.ts:221 | n splits of weight 1 on distinct records give each `totalPrice / n` |
| SettlementLemmas.ZeroWeights | server/src/bills/bills.service.ts:204-209 | all-zero weights, or no splits, have total weight 0, so the item counts as unassigned |
| SettlementLemmas.UnassignedGoesToOwner | server/src/bills/bills.service.ts:230-242 | an unassigned item goes whole to the owner's record as "<name> (Unassigned)"; other records stay; without an owner record nothing changes |
| SettlementLemmas.BillConserves | server/src/bills/bills.service.ts:202-243 | with every split naming a member and the owner enrolled, pass 1 shares out exactly the items' total |
| SettlementLemmas.FeesOfRecord | server/src/bills/bills.service.ts:250-262 | service charge on the base only when not included and rate > 0; VAT on base plus service charge under the same rule; net is the total rounded up |
| SettlementLemmas.RunningTotalIsScaled | server/src/bills/bills.service.ts:247-259 | the charged total is the base times both fee factors |
| SettlementLemmas.SummaryLine | server/src/bills/bills.service.ts:246-265 | every summary line obeys the fee formulas and `current <= net < current + 0.01` |
| SettlementLemmas.CeilCentsLeast | server/src/bills/bills.service.ts:262 | the rounding gives the least whole number of cents at or above the amount |
| SettlementLemmas.CeilCentsExact | server/src/bills/bills.service.ts:262 | an amount already exact to the cent is left unchanged |
| SettlementLemmas.SummaryRoundsUp | server/src/bills/bills.service.ts:262 | every line's net amount is at least its unrounded total and less than a cent above |
| SettlementLemmas.NetsCoverGross | server/src/bills/bills.service.ts:262-275 | the sum of rounded nets lies between the unrounded sum and a cent per line above it |
| SettlementLemmas.GrandTotalBounds | server/src/bills/bills.service.ts:275 | the grand total is the sum of rounded nets and covers the fees on pass 1's base total, by less than a cent per line |
| SettlementLemmas.GrandTotalCoversBill | server/src/bills/bills.service.ts:202-275 | with every split naming a member and the owner enrolled, the grand total covers the items' total with fees, by less than a cent per member |
| BillsService.ClerkUsername | server/src/bills/bills.service.ts:48 | the provider's username if non-empty, else `user_` and the first 8 characters of the user id |
| BillsService.ClerkRow | server/src/bills/bills.service.ts:44-53 | the synced owner row copies id, email, names and image from the provider, with the fallback username |
| BillsService.EnsureOwner | server/src/bills/bills.service.ts:40-58 | an existing owner row is kept; a missing one is inserted from the provider; a failed lookup or a taken username leaves no row and no change |
| BillsService.OwnerName | server/src/bills/bills.service.ts:60 | first name, else username, else "Owner"; never empty |
| BillsService.NewBill | server/src/bills/bills.service.ts:63-68 | the new bill has the caller as owner, the join code, status DRAFT, no deletion, and the sent rates over the column defaults |
| BillsService.InsertBill | server/src/bills/bills.service.ts:63-78 | the bill and its owner member (unpaid, under the owner name) are appended; the owner is a member exactly once |
| BillsService.Create | server/src/bills/bills.service.ts:28-79 | the owner row is synced as `EnsureOwner` says, then the bill is inserted with the owner as its only member, named from the synced row |
| BillsService.FindOne | server/src/bills/bills.service.ts:96-110 | "Bill not found" exactly when no bill has the id; "Bill has been deleted" for a soft-deleted bill; else the bill with its items, each with its splits, and its members |
| BillsService.ItemDetailsOf | server/src/bills/bills.service.ts:99 | one entry per item of the bill, in table order, each holding exactly the split rows that name that item |
| BillsService.EditedBill | server/src/bills/bills.service.ts:121-124 | the sent fields replace their columns; id, owner, join code and deletion stay |
| BillsService.LoadLiveBill | server/src/bills/bills.service.ts:114-115 | finds the not-deleted bill with the id, which is unique |
| BillsService.Update | server/src/bills/bills.service.ts:113-125 | NotFound exactly when no live bill has the id; Forbidden for a non-owner; else the row becomes `EditedBill` |
| BillsService.SoftDeleted | server/src/bills/bills.service.ts:137-143 | sets the deletion time and status CANCELLED and nothing else |
| BillsService.Remove | server/src/bills/bills.service.ts:128-144 | NotFound exactly when no live bill has the id; Forbidden for a non-owner; after success the bill is no longer live |
| BillsService.DefaultAccount | server/src/bills/bills.service.ts:154-156 | the account found is a default account of the user; none only when the user has no default |
| BillsService.DefaultAccountUnique | server/src/bills/bills.service.ts:154-156 | with at most one default per user, `findFirst` returns that one default |
| BillsService.OrNull | server/src/bills/bills.service.ts:163-166 | `x \|\| null`: present exactly when non-empty |
| BillsService.Closed | server/src/bills/bills.service.ts:158-168 | status COMPLETED, and the payment columns snapshot the default account, or are cleared without one |
| BillsService.Close | server/src/bills/bills.service.ts:147-169 | NotFound only for a missing bill (deletion not checked); Forbidden for a non-owner; else the row becomes `Closed` |
| BillsService.SplitsOf | server/src/bills/bills.service.ts:176 | an item's splits are the split rows of that item, in order, with member, weight and fixed amount |
| BillsService.Loaded | server/src/bills/bills.service.ts:173-179 | the settlement snapshot carries the bill's id, title, owner, rates and inclusion flags; each item of the bill with its name, total and splits; each member with its id, user and name, in table order |
| BillsService.GetSummary | server/src/bills/bills.service.ts:172-277 | NotFound exactly when the bill is missing; else the summary of the loaded snapshot |
| BillsService.SummaryIgnoresDeletion | server/src/bills/bills.service.ts:181 | soft-deleting a bill does not change its summary |
| SplitsService.MemberIds | server/src/splits/splits.service.ts:35 | the requested member ids, in request order |
| SplitsService.NewSplits | server/src/splits/splits.service.ts:68-73 | one row per requested split; a missing weight becomes 1.0; `fixedAmount` is kept as given |
| SplitsService.ValidMembersIds | server/src/splits/splits.service.ts:38-44 | the lookup finds each requested member of the bill once |
| SplitsService.ValidCountExact | server/src/splits/splits.service.ts:35-57 | the counts agree exactly when the ids are distinct and all members of the bill, so foreign and duplicate ids are both refused |
| SplitsService.InvalidIdsExact | server/src/splits/splits.service.ts:49-56 | an id is listed in the error exactly when it was requested and is not a member of the bill |
| SplitsService.ReplaceSplitsOwnItem | server/src/splits/splits.service.ts:61-78 | after the replacement the item's splits are exactly the new rows |
| SplitsService.ReplaceSplitsOtherItem | server/src/splits/splits.service.ts:61-78 | the splits of every other item are untouched |
| SplitsService.AssignSplits | server/src/splits/splits.service.ts:17-82 | NotFound exactly for a missing item; Forbidden exactly for a non-owner; BadRequest listing the invalid ids; else the splits are replaced and the count returned; an error changes nothing |
| BillItemsService.NewItem | server/src/bill-items/bill-items.service.ts:35-42 | the created item has the sent fields and `totalPrice = price × quantity` |
| BillItemsService.UpdatedItem | server/src/bill-items/bill-items.service.ts:63-72 | omitted price or quantity keep their old values, and the total is recomputed from the new ones |
| BillItemsService.LoadItem | server/src/bill-items/bill-items.service.ts:50-54 | finds the item with the id and its bill |
| BillItemsService.Create | server/src/bill-items/bill-items.service.ts:17-44 | NotFound exactly for a missing bill; Forbidden unless owner or member; else the item is appended; the totals invariant is kept |
| BillItemsService.Update | server/src/bill-items/bill-items.service.ts:47-74 | NotFound exactly for a missing item; Forbidden for a non-owner, with no change; else the row becomes `UpdatedItem`; totals kept |
| BillItemsService.Remove | server/src/bill-items/bill-items.service.ts:77-93 | NotFound exactly for a missing item; Forbidden for a non-owner, with no change; else exactly that row is deleted; totals kept |
| BillItemsService.RemoveAtPairwise | server/src/bill-items/bill-items.service.ts:90-92 | deleting one row keeps ids unique and the totals invariant |
| BankAccountsService.ClearDefaults | server/src/bank-accounts/bank-accounts.service.ts:17-22 | the user's accounts lose the default flag; every other account is unchanged |
| BankAccountsService.CountOf | server/src/bank-accounts/bank-accounts.service.ts:25 | the count is 0 exactly when the user has no account |
| BankAccountsService.Create | server/src/bank-accounts/bank-accounts.service.ts:15-39 | a default request clears the user's defaults first; the first account is always default; at most one default per user is kept; other users' accounts are unchanged |
| BankAccountsService.AccountLeTotal | server/src/bank-accounts/bank-accounts.service.ts:45 | the default-first, newest-first order is total |
| BankAccountsService.FindAll | server/src/bank-accounts/bank-accounts.service.ts:41-47 | exactly the user's accounts, sorted default first and then newest first |
| BankAccountsService.DefaultComesFirst | server/src/bank-accounts/bank-accounts.service.ts:45 | in that order, a default account, when there is one, is first |
| BankAccountsService.Remove | server/src/bank-accounts/bank-accounts.service.ts:49-68 | NotFound exactly for an unknown id; Forbidden exactly for another user's account; neither deletes; no other error, so the caller's own account is deleted, exactly that row |
| BankAccountsService.FilterRemovesOne | server/src/bank-accounts/bank-accounts.service.ts:64-66 | with unique ids, deleting by id removes exactly one row |
| FriendsService.Create | server/src/friends/friends.service.ts:17-38 | Conflict "Friend with nickname … already exists" exactly when the user already has it; else the friend is appended; nicknames stay unique per user |
| FriendsService.NicknameLeTotal | server/src/friends/friends.service.ts:44 | the nickname order is total |
| FriendsService.FindAll | server/src/friends/friends.service.ts:41-46 | exactly the user's friends, sorted by nickname |
| FriendsService.Update | server/src/friends/friends.service.ts:49-76 | NotFound exactly when no friend of the user has the id; for the caller's friend, Conflict exactly when a different friend of the user holds the new nickname, else success, so keeping its own nickname succeeds |
| FriendsService.Remove | server/src/friends/friends.service.ts:79-96 | deletes exactly the rows matching id and user; NotFound, with no change, when none matches |
| BillMembersService.DisplayName | server/src/bill-members/bill-members.service.ts:42-53 | first name, else username, else "Member"; for a user without a row, the provider's first name, else "New Member"; never empty |
| BillMembersService.LoadBillByCode | server/src/bill-members/bill-members.service.ts:18-21 | finds the bill with the join code, which is unique |
| BillMembersService.Join | server/src/bill-members/bill-members.service.ts:16-71 | NotFound for an unknown code; BadRequest for a cancelled bill; an existing member gets their row back with no change; else one unpaid member is added; after success the caller is a member exactly once |
| Store.FindUser | server/src/bills/bills.service.ts:40-42 | the user found has the id; none only when no user has it |
| Store.OrElse | server/src/bills/bills.service.ts:60 | `a \|\| b`: `a` when present and non-empty, else `b` |
| Store.HasMember | server/src/bill-items/bill-items.service.ts:27-29 | true exactly when some member row of the bill belongs to the user |
| Store.AtMostOneMembership | server/src/bill-members/bill-members.service.ts:32-38 | with the unique bill–user pair, a user is a member of a bill at most once, and exactly once when a member |
| Store.LoadBill | server/src/bill-items/bill-items.service.ts:19-24 | finds the bill with the id, which is unique, and none exactly when it is missing |
| UsersService.SyncUsername | server/src/users/users.service.ts:22 | the sent username if non-empty, else `user_` and the id's first 8 characters |
| UsersService.SyncedRow | server/src/users/users.service.ts:20-37 | the upserted row keeps the id, sets `isGuest` false and the activity time; fields left out keep their values on update |
| UsersService.SyncTwice | server/src/users/users.service.ts:31-38 | syncing the same data twice gives the same row apart from the activity time |
| UsersService.Upsert | server/src/users/users.service.ts:31-38 | the row is in the table, and every other user is kept |
| UsersService.SyncUser | server/src/users/users.service.ts:18-39 | a unique violation exactly when another user holds the username, with no change; else success, and the table is the upsert of the synced row (created if absent, updated otherwise) |
| UsersService.GetProfile | server/src/users/users.service.ts:42-54 | NotFound exactly for an unknown user; else success, with the user and the counts of owned bills and memberships |
| UsersService.Edited | server/src/users/users.service.ts:69-72 | the sent fields replace their columns and the rest stays |
| UsersService.Update | server/src/users/users.service.ts:57-73 | Conflict exactly when another user holds the new username; a missing user fails the update; an existing user whose new username is free, or is their own, succeeds and the row becomes `Edited` |
| UsersService.Lower | server/src/users/users.service.ts:84-87 | ASCII lower-casing, character by character |
| UsersService.Contains | server/src/users/users.service.ts:84-87 | true exactly when the query occurs at some position |
| UsersService.SearchUsers | server/src/users/users.service.ts:76-101 | the first ten matching users, as summaries |
| UsersService.SearchSoundComplete | server/src/users/users.service.ts:83-99 | every result is a matching user; with ten matches or fewer every match is a result |
| PromptPayQr.Compute | web/src/components/promptpay-qr.tsx:18-43 | no id gives "not found"; a cleaned length other than 10, 13 or 15 gives the bank-number state; otherwise the payload, or the format error |
| PromptPayQr.Render | web/src/components/promptpay-qr.tsx:45-60 | nothing is drawn exactly for a bank number; a QR code exactly when there is no truthy error and the payload is present and non-empty; otherwise the error box with the error text |
| PromptPayQr.CleanIdDigits | web/src/components/promptpay-qr.tsx:21 | the cleaned id is the input's digits, in their order |
| PromptPayQr.CleanIdIdempotent | web/src/components/promptpay-qr.tsx:21 | cleaning twice is cleaning once |
| PromptPayQr.QrOnlyForPromptPay | web/src/components/promptpay-qr.tsx:25-46 | a QR code is drawn only for an id whose cleaned length is 10, 13 or 15 |
| JsNumbers.Add | web/src/components/scan-receipt-dialog.tsx:94 | NaN-propagating addition |
| JsNumbers.Mul | web/src/components/scan-receipt-dialog.tsx:94 | NaN-propagating multiplication |
| JsNumbers.Max | web/src/components/scan-receipt-dialog.tsx:263 | `Math.max`: NaN if either argument is, else the larger |
| JsNumbers.OrElse | web/src/components/scan-receipt-dialog.tsx:110-111 | `Number(x) \|\| d`: the number if truthy, else the fallback |
| ScanReceipt.Applied | web/src/components/scan-receipt-dialog.tsx:82 | an edit changes only its own field |
| ScanReceipt.RemoveAt | web/src/components/scan-receipt-dialog.tsx:88 | an in-range index shortens the list by one and keeps the order; any other index changes nothing |
| ScanReceipt.TotalAmount | web/src/components/scan-receipt-dialog.tsx:93-96 | the empty list totals 0 |
| ScanReceipt.TotalNumeric | web/src/components/scan-receipt-dialog.tsx:93-96 | the total is a number exactly when every price and quantity is |
| ScanReceipt.TotalAfterRemove | web/src/components/scan-receipt-dialog.tsx:88-96 | removing an item lowers the total by exactly its `price × quantity` |
| ScanReceipt.Decremented | web/src/components/scan-receipt-dialog.tsx:263 | the minus button never goes below 1 |
| ScanReceipt.Incremented | web/src/components/scan-receipt-dialog.tsx:284 | the plus button adds 1 |
| ScanReceipt.RequestOf | web/src/components/scan-receipt-dialog.tsx:108-112 | an empty name becomes the placeholder; a falsy price becomes 0; a falsy quantity becomes 1 |
| ScanReceipt.ConfirmRequests | web/src/components/scan-receipt-dialog.tsx:101-113 | nothing is sent exactly for an empty list; else one request per item, in order |
| ScanReceipt.ReceiptEditor.UpdateItem | web/src/components/scan-receipt-dialog.tsx:76-84 | entry i becomes the edited entry; the length and every other entry are kept |
| ScanReceipt.ReceiptEditor.RemoveItem | web/src/components/scan-receipt-dialog.tsx:87-90 | the list becomes `RemoveAt` of the old list |
| ScanReceipt.ReceiptEditor.DecrementQuantity | web/src/components/scan-receipt-dialog.tsx:259-264 | only the entry's quantity changes, to `Decremented` of the old one, and it is at least 1 |
| ScanReceipt.ReceiptEditor.IncrementQuantity | web/src/components/scan-receipt-dialog.tsx:283-285 | only the entry's quantity changes, to `Incremented` of the old one |
| AssignMembers.Dedup | web/src/components/assign-members-dialog.tsx:58 | `new Set(ids)`: no duplicates, the same elements |
| AssignMembers.InitialSelection | web/src/components/assign-members-dialog.tsx:45-59 | with a splits array, exactly its member ids, even when empty; without one, all members |
| AssignMembers.Toggled | web/src/components/assign-members-dialog.tsx:64-72 | flips only the given id; keeps the selection free of duplicates |
| AssignMembers.ToggleTwice | web/src/components/assign-members-dialog.tsx:64-72 | toggling twice restores the selection |
| AssignMembers.PricePerPerson | web/src/components/assign-members-dialog.tsx:78-81 | 0 for an empty selection, else the unit `price` over the selection size |
| AssignMembers.PricePerPersonCorrected | web/src/components/assign-members-dialog.tsx:78-81 | 0 for an empty selection, else `totalPrice` over the selection size |
| AssignMembers.PreviewUsesUnitPrice | web/src/components/assign-members-dialog.tsx:78-81 | for a quantity-2 item the preview shows half of what each member is charged |
| AssignMembers.CorrectedPreviewIsCharged | web/src/components/assign-members-dialog.tsx:78-87 | with weights of 1, the corrected preview is exactly each member's settlement credit |
| AssignMembers.SaveRequest | web/src/components/assign-members-dialog.tsx:83-90 | one split per selected id, in order, each with weight 1 |
| AssignMembers.SaveAccepted | web/src/components/assign-members-dialog.tsx:83-90 | a duplicate-free selection of the bill's members passes the server's membership check |
| AssignMembers.MemberSelection.Open | web/src/components/assign-members-dialog.tsx:41-61 | the selection becomes `InitialSelection` |
| AssignMembers.MemberSelection.Toggle | web/src/components/assign-members-dialog.tsx:64-72 | the selection becomes `Toggled` of the old one and stays duplicate-free |
| AssignMembers.MemberSelection.SelectAll | web/src/components/assign-members-dialog.tsx:74 | the selection becomes all member ids |
| AssignMembers.MemberSelection.ClearAll | web/src/components/assign-members-dialog.tsx:75 | the selection becomes empty |
| BillItemRow.Trim | web/src/components/bill-item-row.tsx:61 | `trim` never lengthens |
| BillItemRow.TrimEmpty | web/src/components/bill-item-row.tsx:61 | trimming leaves nothing exactly when every character is white space |
| BillItemRow.SaveOutcome | web/src/components/bill-item-row.tsx:58-76 | the name error for a blank name; for a non-blank name, the price error for NaN or a negative price; else the request with id, name, parsed price and quantity |
| BillItemRow.ItemRowEditor.ItemChanged | web/src/components/bill-item-row.tsx:28-34 | new server data reaches the form only when not editing |
| BillItemRow.ItemRowEditor.EditClick | web/src/components/bill-item-row.tsx:42-48 | edit mode, fields reset to the item's values |
| BillItemRow.ItemRowEditor.Cancel | web/src/components/bill-item-row.tsx:50-56 | edit mode left, fields reset to the item's values |
| BillItemRow.ItemRowEditor.Decrement | web/src/components/bill-item-row.tsx:109-110 | the minus button does nothing at 1 or below and never takes the quantity below 1 |
| BillItemRow.ItemRowEditor.Increment | web/src/components/bill-item-row.tsx:119 | the plus button adds 1 |
| BillItemRow.ItemRowEditor.SetName | web/src/components/bill-item-row.tsx:94 | typing in the name field changes only the name |
| BillItemRow.ItemRowEditor.SetPrice | web/src/components/bill-item-row.tsx:135 | typing in the price field changes only the price text |
| BillItemRow.ItemRowEditor.Saved | web/src/components/bill-item-row.tsx:78-80 | a successful save leaves edit mode, and the effect then re-syncs the fields from the item |
| BillItemRow.ItemRowEditor.Save | web/src/components/bill-item-row.tsx:58-84 | the outcome is `SaveOutcome` of the form; the form is unchanged |
| Schemas.ParseAssign | server/src/splits/dto/assign-split.dto.ts:6-23 | rejected exactly for a non-UUID item id, no splits, or a split with a non-UUID member, a negative weight or a negative amount; else the same splits |
| Schemas.AcceptedWeightsNonNegative | server/src/splits/dto/assign-split.dto.ts:16 | every split row an accepted body leads to has weight at least 0 |
| Schemas.AllZeroWeightsAccepted | server/src/splits/dto/assign-split.dto.ts:16 | a body whose weights are all 0 is accepted |
| Schemas.AssignParseIdempotent | server/src/splits/dto/assign-split.dto.ts:6-23 | a parsed body, sent again, parses to itself |
| Schemas.ItemTypeOf | server/src/bill-items/dto/create-bill-item.dto.ts:13 | an accepted type name parses to the type of that name |
| Schemas.TypeNameRoundTrip | server/src/bill-items/dto/create-bill-item.dto.ts:13 | each item type has a name the enum accepts, parsing back to it |
| Schemas.ParseItem | server/src/bill-items/dto/create-bill-item.dto.ts:6-16 | rejected exactly for a non-UUID bill, an empty name, a negative price, a non-integer or sub-1 quantity, or an unknown type; a missing quantity is 1 |
| Schemas.AcceptedItemTotal | server/src/bill-items/dto/create-bill-item.dto.ts:9-10 | an accepted item is stored with a total of at least its price, and at least 0 |
| Schemas.ItemParseIdempotent | server/src/bill-items/dto/create-bill-item.dto.ts:6-16 | a parsed item, sent again, parses to itself |
| Schemas.ParseBill | server/src/bills/dto/create-bill.dto.ts:6-21 | rejected exactly for an empty title, a negative rate, or a currency not of length 3; title defaults to "New Bill" and currency to "THB" |
| Schemas.EmptyBodyAccepted | server/src/bills/dto/create-bill.dto.ts:6-21 | an empty body is accepted |
| Schemas.AcceptedBillRates | server/src/bills/dto/create-bill.dto.ts:7-15 | a bill created from an accepted body, over non-negative defaults, has non-negative rates, a title and a three-letter currency |
| Schemas.BillParseIdempotent | server/src/bills/dto/create-bill.dto.ts:6-21 | a parsed bill, sent again, parses to itself |

## Left out

- Network, persistence and concurrency: Prisma's queries are reads and writes of in-memory sequences. `$transaction` is one atomic method. Two requests racing on the same row are not modelled.
- The join-code generator `generateCode` and its retry loop: the code is a parameter, with a precondition that no bill uses it.
- The identity provider (Clerk): its answer is a parameter (`BillsService.ClerkUser`, `BillMembersService.ClerkLookup`). The authentication guard is not part of this model.
- `BillsService.findAll` and `BillMembersService.findAll`: plain filtered listings with no rule to state.
- `SplitsService.getItemSplits`: a plain listing with no rule to state.
- The `orderIndex` ordering of `findOne`'s items, and the row order of unordered queries: tables keep insertion order.
- The owner `select` of `findOne`.
- Column defaults (VAT and service-charge rates, the `isGuest` and activity columns of a user created by `bills.create`): these are parameters, because the database schema is not part of this model.
- The database's cascade from a deleted item to its splits.
- Foreign keys from a bill's owner, and from a member row's user, to the `User` table: the database schema is not part of this model. `BillsService.Create` may therefore insert a bill whose owner has no user row (when the identity provider lookup fails or the username is taken), and `BillMembersService.Join` may add a member whose user has no row. With such foreign keys the database would refuse those writes.
- Every other unique constraint than ids, join codes, usernames, the bill–member pair, one default account, and friend nicknames. For usernames, the upsert's conflict is the only one modelled.
- Floating point: money is an exact `real`. JavaScript's binary rounding, `Infinity`, and `Number` of a Prisma `Decimal` are not modelled. `NaN` is modelled only in the web client, where text is parsed (`JsNumbers.JsNum`).
- The PromptPay payload format: `generatePayload` is a function parameter, and the QR drawing is left out.
- React rendering, toasts, dialog open and close state, timers, and the mutations' network round trips.
- The scan-receipt OCR upload (`handleScan`) and `resetState`.
- The bill-item row's delete button: it only sends the item id.
- Zod's error messages and its type checks on raw JSON: the bodies are typed records.
- `BillsService.EditedBill` and `BillItemsService.UpdatedItem`: the update schemas apply `.partial()` over the create schemas' fields with defaults (`title`, `currency`, `quantity`). The model follows Zod 3, where an omitted field stays absent and the column keeps its value. Under Zod 4 the defaults would be applied instead, so an update omitting those fields would reset them to "New Bill", "THB" and 1; that reading is not modelled.
- `Schemas.IsUuid`: follows the Zod 3 pattern (8-4-4-4-12 hex digits, either case). Zod's version-dependent checks of the version and variant digits are not modelled.
- `Schemas.ParseBill`: `length(3)` counts characters; JavaScript counts UTF-16 code units. The two differ only outside the Basic Multilingual Plane.
- `FriendsService.FindAll`: `orderBy: { nickname: 'asc' }` sorts by the database's collation, which for Thai text follows the Thai alphabet. The model sorts by code point (`FriendsService.NicknameLe`), which differs for words starting with a leading vowel such as "เ" (U+0E40), placed after "ข" (U+0E02).
- `UsersService.Lower`: case folding is ASCII only, whereas PostgreSQL's `ILIKE` follows the database locale.
- `UsersService.Update`: the schema's `min(3).max(30)` on usernames is a precondition, not a modelled rejection, because that schema is not part of this model.
- `FriendsService.Update`: the schema's non-empty nickname is a precondition, for the same reason.
- The settlement engine assumes unique settlement keys. With duplicate keys, the last member with a key wins (`SettlementLemmas.InitTotalsLast`), as the object assignment in the source does.

## Findings

| source | as written | input that shows it | evidently intended | confidence | as-written member | corrected member |
|---|---|---|---|---|---|---|
| web/src/components/assign-members-dialog.tsx:78-81 | the per-person preview divides the unit `price` by the number selected | an item of price 100 and quantity 2 (total 200), shared by 2: the preview shows 50, but the summary charges each member 100 | divide the item's `totalPrice`, which is what the settlement shares out | medium, not executed | AssignMembers.PricePerPerson, AssignMembers.PreviewUsesUnitPrice | AssignMembers.PricePerPersonCorrected, AssignMembers.CorrectedPreviewIsCharged |
