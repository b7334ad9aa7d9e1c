/**
 * `SplitsService.assignSplits`: replaces the split set of one item, after
 * checking that the caller owns the bill and that every requested member
 * belongs to the item's bill.
 */
module SplitsService {
  import opened Wrappers
  import opened Seqs
  import opened Store

  /** One requested split, as the schema passes it on (`weight` may be absent). */
  datatype SplitInput = SplitInput(memberId: string, weight: Option<real>, fixedAmount: Option<real>)

  datatype AssignSplitDto = AssignSplitDto(itemId: string, splits: seq<SplitInput>)

  /** What a successful assignment returns. */
  datatype Assigned = Assigned(message: string, count: nat)

  /** `dto.splits.map((s) => s.memberId)`. */
  function MemberIds(splits: seq<SplitInput>): (ids: seq<string>)
    ensures |ids| == |splits|
    ensures forall i :: 0 <= i < |splits| ==> ids[i] == splits[i].memberId
  {
    seq(|splits|, i requires 0 <= i < |splits| => splits[i].memberId)
  }

  /** Some member of bill `billId` has id `id`. */
  ghost predicate IsMemberOf(members: seq<MemberRow>, billId: string, id: string) {
    exists m :: m in members && m.billId == billId && m.id == id
  }

  /** `billMember.findMany({ where: { billId, id: { in: ids } } })`: each matching row once. */
  function ValidMembers(members: seq<MemberRow>, billId: string, ids: seq<string>): seq<MemberRow> {
    Filter(members, (m: MemberRow) => m.billId == billId && m.id in ids)
  }

  /** The ids of a list of member rows. */
  function IdsOf(ms: seq<MemberRow>): (ids: seq<string>)
    ensures |ids| == |ms|
    ensures forall i :: 0 <= i < |ms| ==> ids[i] == ms[i].id
  {
    seq(|ms|, i requires 0 <= i < |ms| => ms[i].id)
  }

  /** `memberIdsToCheck.filter((id) => !validIds.includes(id))`. */
  function InvalidIds(ids: seq<string>, validIds: seq<string>): seq<string> {
    Filter(ids, (id: string) => id !in validIds)
  }

  function InvalidMessage(invalidIds: seq<string>): string {
    "Invalid members (not in this bill): " + Join(invalidIds, ", ")
  }

  /** The rows `createMany` inserts: a missing weight becomes 1.0, `fixedAmount` is kept as given. */
  function NewSplits(itemId: string, splits: seq<SplitInput>): (rows: seq<SplitRow>)
    ensures |rows| == |splits|
    ensures forall i :: 0 <= i < |splits| ==>
      rows[i] == SplitRow(itemId, splits[i].memberId, splits[i].weight.GetOr(1.0), splits[i].fixedAmount)
  {
    seq(|splits|, i requires 0 <= i < |splits| =>
      SplitRow(itemId, splits[i].memberId, splits[i].weight.GetOr(1.0), splits[i].fixedAmount))
  }

  /** The split table after `deleteMany({ where: { itemId } })` and `createMany`. */
  function ReplaceSplits(table: seq<SplitRow>, itemId: string, rows: seq<SplitRow>): seq<SplitRow> {
    Filter(table, (s: SplitRow) => s.itemId != itemId) + rows
  }

  /** The requested ids that are members of the bill. */
  ghost function Found(members: seq<MemberRow>, billId: string, ids: seq<string>): set<string> {
    set id | id in ids && IsMemberOf(members, billId, id)
  }

  /** The rows found have distinct ids, and their ids are the requested ids that are members. */
  lemma ValidMembersIds(members: seq<MemberRow>, billId: string, ids: seq<string>)
    requires Pairwise(members, DistinctMembers)
    ensures NoDup(IdsOf(ValidMembers(members, billId, ids)))
    ensures Elems(IdsOf(ValidMembers(members, billId, ids))) == Found(members, billId, ids)
  {
    var v := ValidMembers(members, billId, ids);
    var p := (m: MemberRow) => m.billId == billId && m.id in ids;
    assert v == Filter(members, p);
    var vi := IdsOf(v);
    FilterPairwise(members, p, DistinctMembers);
    assert NoDup(vi) by {
      forall i, j | 0 <= i < j < |vi| ensures vi[i] != vi[j] {
        assert DistinctMembers(v[i], v[j]);
      }
    }
    var found := Found(members, billId, ids);
    forall id | id in Elems(vi) ensures id in found {
      var i :| 0 <= i < |vi| && vi[i] == id;
      assert v[i] in members && p(v[i]);
    }
    forall id | id in found ensures id in Elems(vi) {
      var m :| m in members && m.billId == billId && m.id == id;
      assert p(m);
      var i :| 0 <= i < |v| && v[i] == m;
      assert vi[i] == id;
    }
  }

  /**
   * The Prisma lookup returns as many rows as there are requested ids exactly
   * when every requested id is a member of the bill and no id is requested twice.
   */
  lemma ValidCountExact(members: seq<MemberRow>, billId: string, ids: seq<string>)
    requires Pairwise(members, DistinctMembers)
    ensures |ValidMembers(members, billId, ids)| == |ids| <==>
              NoDup(ids) && forall i :: 0 <= i < |ids| ==> IsMemberOf(members, billId, ids[i])
  {
    var vi := IdsOf(ValidMembers(members, billId, ids));
    var found := Found(members, billId, ids);
    ValidMembersIds(members, billId, ids);
    ElemsCard(vi);
    ElemsCard(ids);
    assert found <= Elems(ids);
    SubsetCardLe(found, Elems(ids));
    if |vi| == |ids| {
      SubsetCard(found, Elems(ids));
      forall i | 0 <= i < |ids| ensures IsMemberOf(members, billId, ids[i]) {
        assert ids[i] in Elems(ids);
      }
    }
    if NoDup(ids) && forall i :: 0 <= i < |ids| ==> IsMemberOf(members, billId, ids[i]) {
      assert found == Elems(ids);
    }
  }

  lemma SubsetCardLe<T>(a: set<T>, b: set<T>)
    requires a <= b
    ensures |a| <= |b|
  {
    assert b == a + (b - a);
  }

  /** The error message names exactly the requested ids that are not members of the bill. */
  lemma InvalidIdsExact(members: seq<MemberRow>, billId: string, ids: seq<string>, id: string)
    ensures id in InvalidIds(ids, IdsOf(ValidMembers(members, billId, ids))) <==>
              id in ids && !IsMemberOf(members, billId, id)
  {
    var v := ValidMembers(members, billId, ids);
    var p := (m: MemberRow) => m.billId == billId && m.id in ids;
    assert v == Filter(members, p);
    var vi := IdsOf(v);
    assert id in vi <==> id in ids && IsMemberOf(members, billId, id) by {
      if id in vi {
        var i :| 0 <= i < |vi| && vi[i] == id;
        assert v[i] in members && p(v[i]);
      }
      if id in ids && IsMemberOf(members, billId, id) {
        var m :| m in members && m.billId == billId && m.id == id;
        assert p(m);
        var i :| 0 <= i < |v| && v[i] == m;
        assert vi[i] == id;
      }
    }
    var q := (x: string) => x !in vi;
    assert InvalidIds(ids, vi) == Filter(ids, q);
    if id in ids && !IsMemberOf(members, billId, id) {
      var i :| 0 <= i < |ids| && ids[i] == id;
      assert q(ids[i]);
    }
  }

  /** After the replacement the item's splits are exactly the new rows, in order. */
  lemma ReplaceSplitsOwnItem(table: seq<SplitRow>, itemId: string, rows: seq<SplitRow>)
    requires forall i :: 0 <= i < |rows| ==> rows[i].itemId == itemId
    ensures Filter(ReplaceSplits(table, itemId, rows), (s: SplitRow) => s.itemId == itemId) == rows
  {
    var keep := (s: SplitRow) => s.itemId != itemId;
    var mine := (s: SplitRow) => s.itemId == itemId;
    FilterAppend(Filter(table, keep), rows, mine);
    FilterNone(Filter(table, keep), mine);
    FilterAll(rows, mine);
  }

  /** The splits of every other item are untouched, in order. */
  lemma ReplaceSplitsOtherItem(table: seq<SplitRow>, itemId: string, rows: seq<SplitRow>, other: string)
    requires other != itemId
    requires forall i :: 0 <= i < |rows| ==> rows[i].itemId == itemId
    ensures Filter(ReplaceSplits(table, itemId, rows), (s: SplitRow) => s.itemId == other)
         == Filter(table, (s: SplitRow) => s.itemId == other)
  {
    var keep := (s: SplitRow) => s.itemId != itemId;
    var theirs := (s: SplitRow) => s.itemId == other;
    FilterAppend(Filter(table, keep), rows, theirs);
    FilterNone(rows, theirs);
    FilterFilter(table, keep, theirs);
  }

  /** A filter that no element passes yields nothing. */
  lemma {:induction false} FilterNone(s: seq<SplitRow>, p: SplitRow -> bool)
    requires forall i :: 0 <= i < |s| ==> !p(s[i])
    ensures Filter(s, p) == []
  {
    if s != [] {
      FilterNone(s[1..], p);
    }
  }

  /** Filtering by `keep` and then by a narrower `theirs` is filtering by `theirs`. */
  lemma {:induction false} FilterFilter(s: seq<SplitRow>, keep: SplitRow -> bool, theirs: SplitRow -> bool)
    requires forall x :: theirs(x) ==> keep(x)
    ensures Filter(Filter(s, keep), theirs) == Filter(s, theirs)
  {
    if s != [] {
      FilterFilter(s[1..], keep, theirs);
    }
  }

  /**
   * `assignSplits`: NotFound for a missing item, Forbidden unless the caller
   * owns the item's bill, BadRequest when the members found do not match the
   * request one for one; otherwise the item's splits are replaced by the requested ones.
   */
  method AssignSplits(db: Db, userId: string, dto: AssignSplitDto) returns (r: Result<Assigned, Error>)
    requires db.Valid()
    modifies db`splits
    ensures r.Err? ==> db.splits == old(db.splits)
    ensures (forall i :: 0 <= i < |db.items| ==> db.items[i].id != dto.itemId) <==> r == Err(NotFound("Item not found"))
    ensures r.Err? && r.error.Forbidden? ==> r.error.message == "Only bill owner can manage splits"
    ensures r.Ok? || r.error.NotFound? || r.error.Forbidden? || r.error.BadRequest?
    ensures forall it, b :: it in db.items && it.id == dto.itemId && b in db.bills && b.id == it.billId ==>
              && (b.ownerId != userId <==> r == Err(Forbidden("Only bill owner can manage splits")))
              && (b.ownerId == userId ==>
                    var ids := MemberIds(dto.splits);
                    var valid := ValidMembers(db.members, it.billId, ids);
                    if |valid| != |ids| then
                      r == Err(BadRequest(InvalidMessage(InvalidIds(ids, IdsOf(valid)))))
                    else
                      r == Ok(Assigned("Splits updated successfully", |dto.splits|))
                      && db.splits == ReplaceSplits(old(db.splits), dto.itemId, NewSplits(dto.itemId, dto.splits)))
  {
    var item := Find(db.items, (it: ItemRow) => it.id == dto.itemId);
    if item.None? {
      return Err(NotFound("Item not found"));
    }
    assert BillExists(db.bills, item.value.billId);
    var bill := Find(db.bills, (b: BillRow) => b.id == item.value.billId);
    if bill.None? {
      assert false;
    }
    assert forall it :: it in db.items && it.id == dto.itemId ==> it == item.value by {
      forall it | it in db.items && it.id == dto.itemId ensures it == item.value {
        var i :| 0 <= i < |db.items| && db.items[i] == it;
        var j :| 0 <= j < |db.items| && db.items[j] == item.value;
      }
    }
    assert forall b :: b in db.bills && b.id == item.value.billId ==> b == bill.value by {
      forall b | b in db.bills && b.id == item.value.billId ensures b == bill.value {
        var i :| 0 <= i < |db.bills| && db.bills[i] == b;
        var j :| 0 <= j < |db.bills| && db.bills[j] == bill.value;
      }
    }
    if bill.value.ownerId != userId {
      return Err(Forbidden("Only bill owner can manage splits"));
    }
    var memberIdsToCheck := MemberIds(dto.splits);
    var validMembers := ValidMembers(db.members, item.value.billId, memberIdsToCheck);
    if |validMembers| != |memberIdsToCheck| {
      var validIds := IdsOf(validMembers);
      var invalidIds := InvalidIds(memberIdsToCheck, validIds);
      return Err(BadRequest(InvalidMessage(invalidIds)));
    }
    var creates := NewSplits(dto.itemId, dto.splits);
    db.splits := ReplaceSplits(db.splits, dto.itemId, creates);
    r := Ok(Assigned("Splits updated successfully", |creates|));
  }
}
