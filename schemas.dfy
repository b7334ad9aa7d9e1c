/**
 * `Schemas`: the Zod schemas that check request bodies before a service sees
 * them. A request body is modelled as a record of optional fields; parsing
 * either rejects it (`None`) or yields the service's input with every default
 * filled in, as nestjs-zod's validation pipe does.
 */
module Schemas {
  import opened Wrappers
  import opened Store
  import SplitsService
  import BillItemsService
  import BillsService

  /** A hexadecimal digit, in either case. */
  predicate IsHex(c: char) {
    ('0' <= c <= '9') || ('a' <= c <= 'f') || ('A' <= c <= 'F')
  }

  /** The positions of the four dashes in `8-4-4-4-12`. */
  predicate IsDashPosition(i: int) {
    i == 8 || i == 13 || i == 18 || i == 23
  }

  /** `z.string().uuid()`: five groups of 8, 4, 4, 4 and 12 hexadecimal digits joined by dashes. */
  predicate IsUuid(s: string) {
    |s| == 36 && forall i :: 0 <= i < 36 ==> if IsDashPosition(i) then s[i] == '-' else IsHex(s[i])
  }

  // ---- AssignSplitSchema -------------------------------------------------

  datatype RawSplit = RawSplit(memberId: string, weight: Option<real>, fixedAmount: Option<real>)
  datatype RawAssign = RawAssign(itemId: string, splits: seq<RawSplit>)

  /**
   * One split: a UUID member id, a weight of at least 0 and an amount of at
   * least 0 when given. `.default(1.0).optional()` lets an absent weight stay
   * absent; the service puts 1 in its place.
   */
  predicate SplitAccepted(s: RawSplit) {
    && IsUuid(s.memberId)
    && (s.weight.Some? ==> s.weight.value >= 0.0)
    && (s.fixedAmount.Some? ==> s.fixedAmount.value >= 0.0)
  }

  /** `AssignSplitSchema.parse`. */
  function ParseAssign(raw: RawAssign): (r: Option<SplitsService.AssignSplitDto>)
    ensures r.Some? ==> IsUuid(r.value.itemId) && |r.value.splits| >= 1
    ensures r.Some? ==> |r.value.splits| == |raw.splits| && forall i :: 0 <= i < |raw.splits| ==>
              r.value.splits[i] == SplitsService.SplitInput(raw.splits[i].memberId, raw.splits[i].weight, raw.splits[i].fixedAmount)
    ensures r.None? <==> !IsUuid(raw.itemId) || raw.splits == [] || exists i :: 0 <= i < |raw.splits| && !SplitAccepted(raw.splits[i])
  {
    if IsUuid(raw.itemId) && raw.splits != [] && forall i :: 0 <= i < |raw.splits| ==> SplitAccepted(raw.splits[i]) then
      Some(SplitsService.AssignSplitDto(raw.itemId, seq(|raw.splits|, i requires 0 <= i < |raw.splits| =>
        SplitsService.SplitInput(raw.splits[i].memberId, raw.splits[i].weight, raw.splits[i].fixedAmount))))
    else None
  }

  /** Every split row an accepted body leads to has a weight of at least 0, and weight 0 is among the accepted ones. */
  lemma AcceptedWeightsNonNegative(raw: RawAssign)
    requires ParseAssign(raw).Some?
    ensures forall row :: row in SplitsService.NewSplits(raw.itemId, ParseAssign(raw).value.splits) ==> row.weight >= 0.0
  {
    var dto := ParseAssign(raw).value;
    var rows := SplitsService.NewSplits(raw.itemId, dto.splits);
    forall row | row in rows ensures row.weight >= 0.0 {
      var i :| 0 <= i < |rows| && rows[i] == row;
      assert SplitAccepted(raw.splits[i]);
    }
  }

  /** Nothing stops every weight of an item being 0: such a body is accepted. */
  lemma AllZeroWeightsAccepted(itemId: string, memberIds: seq<string>)
    requires IsUuid(itemId) && memberIds != []
    requires forall i :: 0 <= i < |memberIds| ==> IsUuid(memberIds[i])
    ensures ParseAssign(RawAssign(itemId, seq(|memberIds|, i requires 0 <= i < |memberIds| => RawSplit(memberIds[i], Some(0.0), None)))).Some?
  {
    var splits := seq(|memberIds|, i requires 0 <= i < |memberIds| => RawSplit(memberIds[i], Some(0.0), None));
    assert forall i :: 0 <= i < |splits| ==> SplitAccepted(splits[i]);
  }

  /** The body an assignment would be sent as. */
  function AssignBody(dto: SplitsService.AssignSplitDto): RawAssign {
    RawAssign(dto.itemId, seq(|dto.splits|, i requires 0 <= i < |dto.splits| =>
      RawSplit(dto.splits[i].memberId, dto.splits[i].weight, dto.splits[i].fixedAmount)))
  }

  /** Parsing is idempotent: what the schema yields, sent again, is accepted unchanged. */
  lemma AssignParseIdempotent(raw: RawAssign)
    requires ParseAssign(raw).Some?
    ensures ParseAssign(AssignBody(ParseAssign(raw).value)) == ParseAssign(raw)
  {
    var dto := ParseAssign(raw).value;
    var again := ParseAssign(AssignBody(dto));
    assert forall i :: 0 <= i < |raw.splits| ==> AssignBody(dto).splits[i] == raw.splits[i];
    assert again.Some?;
    assert again.value.splits == dto.splits;
  }

  // ---- CreateBillItemSchema ----------------------------------------------

  datatype RawItem = RawItem(
    billId: string,
    name: string,
    price: real,
    quantity: Option<real>,
    itemType: Option<string>,
    applyVat: Option<bool>,
    applyServiceCharge: Option<bool>)

  /** `z.enum(['FOOD', 'BEVERAGE', 'ALCOHOL', 'DISCOUNT', 'OTHER'])`. */
  function ItemTypeOf(name: string): (r: Option<ItemType>)
    ensures r.Some? ==> TypeName(r.value) == name
  {
    if name == "FOOD" then Some(Food)
    else if name == "BEVERAGE" then Some(Beverage)
    else if name == "ALCOHOL" then Some(Alcohol)
    else if name == "DISCOUNT" then Some(Discount)
    else if name == "OTHER" then Some(Other)
    else None
  }

  /** The enum's name for an item type. */
  function TypeName(t: ItemType): string {
    match t
    case Food => "FOOD"
    case Beverage => "BEVERAGE"
    case Alcohol => "ALCOHOL"
    case Discount => "DISCOUNT"
    case Other => "OTHER"
  }

  /** Every item type has a name the enum accepts, and it parses back to that type. */
  lemma TypeNameRoundTrip(t: ItemType)
    ensures ItemTypeOf(TypeName(t)) == Some(t)
  {
  }

  /** A quantity of `z.number().int().min(1)`. */
  predicate IsCount(q: real) {
    q == q.Floor as real && q >= 1.0
  }

  /** `CreateBillItemSchema.parse`: a missing quantity is 1. */
  function ParseItem(raw: RawItem): (r: Option<BillItemsService.CreateBillItemDto>)
    ensures r.Some? ==> IsUuid(r.value.billId) && r.value.name != "" && r.value.price >= 0.0 && r.value.quantity >= 1
    ensures r.Some? ==> r.value.billId == raw.billId && r.value.name == raw.name && r.value.price == raw.price
    ensures r.Some? ==> r.value.quantity as real == raw.quantity.GetOr(1.0)
    ensures r.Some? ==> (r.value.itemType.Some? <==> raw.itemType.Some?)
                        && (raw.itemType.Some? ==> TypeName(r.value.itemType.value) == raw.itemType.value)
    ensures r.None? <==> !IsUuid(raw.billId) || raw.name == "" || raw.price < 0.0
                         || (raw.quantity.Some? && !IsCount(raw.quantity.value))
                         || (raw.itemType.Some? && ItemTypeOf(raw.itemType.value).None?)
  {
    if !IsUuid(raw.billId) || raw.name == "" || raw.price < 0.0 then None
    else if raw.quantity.Some? && !IsCount(raw.quantity.value) then None
    else if raw.itemType.Some? && ItemTypeOf(raw.itemType.value).None? then None
    else
      var itemType := if raw.itemType.Some? then ItemTypeOf(raw.itemType.value) else None;
      var quantity := if raw.quantity.Some? then raw.quantity.value.Floor else 1;
      Some(BillItemsService.CreateBillItemDto(raw.billId, raw.name, raw.price, quantity, itemType, raw.applyVat, raw.applyServiceCharge))
  }

  /** An accepted item is stored with a total of at least 0 and at least its own price. */
  lemma AcceptedItemTotal(raw: RawItem, id: string)
    requires ParseItem(raw).Some?
    ensures BillItemsService.NewItem(id, ParseItem(raw).value).totalPrice >= raw.price >= 0.0
  {
    var dto := ParseItem(raw).value;
    var q := dto.quantity as real;
    assert dto.price * q == dto.price + dto.price * (q - 1.0);
    assert dto.price * (q - 1.0) >= 0.0;
  }

  /** The body an item would be sent as. */
  function ItemBody(dto: BillItemsService.CreateBillItemDto): RawItem {
    RawItem(dto.billId, dto.name, dto.price, Some(dto.quantity as real),
            if dto.itemType.Some? then Some(TypeName(dto.itemType.value)) else None,
            dto.applyVat, dto.applyServiceCharge)
  }

  /** Parsing is idempotent on items. */
  lemma ItemParseIdempotent(raw: RawItem)
    requires ParseItem(raw).Some?
    ensures ParseItem(ItemBody(ParseItem(raw).value)) == ParseItem(raw)
  {
    var dto := ParseItem(raw).value;
    if dto.itemType.Some? {
      TypeNameRoundTrip(dto.itemType.value);
    }
  }

  // ---- CreateBillSchema --------------------------------------------------

  datatype RawBill = RawBill(
    title: Option<string>,
    note: Option<string>,
    vatRate: Option<real>,
    serviceChargeRate: Option<real>,
    isVatIncluded: Option<bool>,
    isServiceChargeIncluded: Option<bool>,
    currency: Option<string>,
    promptPayNumber: Option<string>,
    promptPayName: Option<string>,
    bankName: Option<string>,
    bankAccount: Option<string>)

  const DefaultTitle := "New Bill"
  const DefaultCurrency := "THB"

  /** `CreateBillSchema.parse`: a missing title is "New Bill" and a missing currency "THB". */
  function ParseBill(raw: RawBill): (r: Option<BillsService.CreateBillDto>)
    ensures r.Some? ==> r.value.title != "" && |r.value.currency| == 3
    ensures r.Some? ==> r.value.title == raw.title.GetOr(DefaultTitle) && r.value.currency == raw.currency.GetOr(DefaultCurrency)
    ensures r.Some? ==> r.value.vatRate == raw.vatRate && r.value.serviceChargeRate == raw.serviceChargeRate
    ensures r.None? <==> (raw.title.Some? && raw.title.value == "")
                         || (raw.vatRate.Some? && raw.vatRate.value < 0.0)
                         || (raw.serviceChargeRate.Some? && raw.serviceChargeRate.value < 0.0)
                         || (raw.currency.Some? && |raw.currency.value| != 3)
  {
    if (raw.title.Some? && raw.title.value == "")
       || (raw.vatRate.Some? && raw.vatRate.value < 0.0)
       || (raw.serviceChargeRate.Some? && raw.serviceChargeRate.value < 0.0)
       || (raw.currency.Some? && |raw.currency.value| != 3)
    then None
    else Some(BillsService.CreateBillDto(
      raw.title.GetOr(DefaultTitle), raw.note, raw.vatRate, raw.serviceChargeRate,
      raw.isVatIncluded, raw.isServiceChargeIncluded, raw.currency.GetOr(DefaultCurrency),
      raw.promptPayNumber, raw.promptPayName, raw.bankName, raw.bankAccount))
  }

  /** An empty body is accepted and gives a bill titled "New Bill" in baht. */
  lemma EmptyBodyAccepted()
    ensures ParseBill(RawBill(None, None, None, None, None, None, None, None, None, None, None)).Some?
  {
  }

  /** A bill created from an accepted body, over non-negative column defaults, has non-negative rates. */
  lemma AcceptedBillRates(raw: RawBill, id: string, userId: string, joinCode: string, defaults: BillsService.ColumnDefaults)
    requires ParseBill(raw).Some?
    requires defaults.vatRate >= 0.0 && defaults.serviceChargeRate >= 0.0
    ensures var b := BillsService.NewBill(id, userId, joinCode, ParseBill(raw).value, defaults);
            b.vatRate >= 0.0 && b.serviceChargeRate >= 0.0 && b.title != "" && |b.currency| == 3
  {
  }

  /** The body a bill would be sent as. */
  function BillBody(dto: BillsService.CreateBillDto): RawBill {
    RawBill(Some(dto.title), dto.note, dto.vatRate, dto.serviceChargeRate, dto.isVatIncluded,
            dto.isServiceChargeIncluded, Some(dto.currency), dto.promptPayNumber, dto.promptPayName,
            dto.bankName, dto.bankAccount)
  }

  /** Parsing is idempotent on bills. */
  lemma BillParseIdempotent(raw: RawBill)
    requires ParseBill(raw).Some?
    ensures ParseBill(BillBody(ParseBill(raw).value)) == ParseBill(raw)
  {
  }
}
