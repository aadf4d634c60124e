/** `Campaigns` and `CampaignRow`: the campaign table, the pricing rows of a
    campaign's pricing modal, the two modal flags of a row and the reschedule
    handler behind the date picker. */
module Campaigns {
  import opened JsValues
  import opened Tables
  import DateStatus

  /** A campaign record as the backend sends it. `price` is absent (`None`) or an
      array of plain objects. */
  datatype Campaign = Campaign(
    campaignId: Value,
    createdOn: Value,
    imageUrl: Value,
    name: Value,
    price: Option<seq<seq<Field>>>,
    region: Value)

  // ---------------------------------------------------------------------------
  // Pricing rows

  const PriceLabels: seq<string> := ["1 week - 1 Month", "6 Months", "1 Year"]
  const PriceValueLabels: seq<string> := ["monthly", "halfYearly", "annually"]

  /** One `<dl>` of the pricing modal, with its React key. */
  datatype PricingRow = PricingRow(key: string, term: Value, amount: Value)

  /** `priceLabels[i]`: `undefined` past the third entry. */
  function PriceLabel(i: nat): Value {
    if i < |PriceLabels| then Str(PriceLabels[i]) else Undefined
  }

  /** The row of the element at position `index`: keyed `elem-index`, labelled
      `priceLabels[index]`, showing `elem[priceValueLabels[index]]`. */
  function PricingRowAt(elem: seq<Field>, index: nat): PricingRow {
    PricingRow("elem-" + IntString(index), PriceLabel(index), Lookup(elem, PriceValueKey(index)))
  }

  /** The property name `elem[priceValueLabels[i]]` reads: past the third entry
      the index is `undefined`, which names the property "undefined". */
  function PriceValueKey(i: nat): string {
    if i < |PriceValueLabels| then PriceValueLabels[i] else "undefined"
  }

  /** `price.map((elem, index) => …)` with the positions numbered from `from`:
      row i is keyed `elem-i`, labelled with the i-th label and shows the
      element's value under the i-th value name. */
  function PricingRowsFrom(price: seq<seq<Field>>, from: nat): (rows: seq<PricingRow>)
    ensures |rows| == |price|
    ensures forall i :: 0 <= i < |price| ==>
              && rows[i].key == "elem-" + IntString(from + i)
              && rows[i].term == PriceLabel(from + i)
              && rows[i].amount == Lookup(price[i], PriceValueKey(from + i))
  {
    seq(|price|, i requires 0 <= i < |price| => PricingRowAt(price[i], from + i))
  }

  /** The pricing rows: none unless `price` is truthy and non-empty; otherwise one
      per element, row i labelled with the i-th label and showing the element's
      value under the i-th value name. */
  function PricingRows(price: Option<seq<seq<Field>>>): (rows: seq<PricingRow>)
    ensures price.None? ==> rows == []
    ensures price.Some? ==> |rows| == |price.value|
    ensures forall i :: 0 <= i < |rows| ==>
              rows[i].term == PriceLabel(i) && rows[i].amount == Lookup(price.value[i], PriceValueKey(i))
  {
    if price.Some? && |price.value| > 0 then PricingRowsFrom(price.value, 0) else []
  }

  /** The three labelled rows: the first element's `monthly`, the second's
      `halfYearly` and the third's `annually`. */
  lemma ThreeTierPricing(price: seq<seq<Field>>)
    requires |price| == 3
    ensures var rows := PricingRows(Some(price));
            && rows[0] == PricingRow("elem-0", Str("1 week - 1 Month"), Lookup(price[0], "monthly"))
            && rows[1] == PricingRow("elem-1", Str("6 Months"), Lookup(price[1], "halfYearly"))
            && rows[2] == PricingRow("elem-2", Str("1 Year"), Lookup(price[2], "annually"))
  {
    var rows := PricingRows(Some(price));
    assert rows[0].key == "elem-" + IntString(0);
    assert rows[1].key == "elem-" + IntString(1);
    assert rows[2].key == "elem-" + IntString(2);
  }

  // ---------------------------------------------------------------------------
  // Rescheduling

  /** The arguments `scheduleCampaign` is called with. */
  datatype ScheduleCall = ScheduleCall(campaignId: Value, value: Value)

  /** `moment(moment(value).format()).format('x')`: the instant's milliseconds
      rounded down to whole seconds (the intermediate ISO string has no
      milliseconds), as a string; "Invalid date" when nothing or an invalid date
      was picked. */
  function MomentTimestamp(picked: Option<int>): (s: string)
    ensures picked.None? || !DateStatus.InTimeRange(picked.value) ==> s == "Invalid date"
    ensures picked.Some? && DateStatus.InTimeRange(picked.value) ==>
              StringToNumber(s) == Finite(picked.value - picked.value % 1000)
  {
    if picked.None? || !DateStatus.InTimeRange(picked.value) then "Invalid date"
    else
      var ms := picked.value;
      NumberOfIntString(ms - ms % 1000);
      IntString(ms - ms % 1000)
  }

  /** A campaign rescheduled to a picked instant is classified by the picked
      instant's local day: dropping the milliseconds never changes the day, since
      time-zone offsets are whole seconds. */
  lemma ScheduledDateKeepsDay(ms: int, clock: DateStatus.Clock)
    requires clock.offsetMs % 1000 == 0
    ensures DateStatus.CheckDateStatus(Str(MomentTimestamp(Some(ms))), clock)
         == DateStatus.CheckDateStatus(Num(ms), clock)
  {
    var stamp := Str(MomentTimestamp(Some(ms)));
    if DateStatus.InTimeRange(ms) {
      var f := ms - ms % 1000;
      assert ToNumber(stamp) == Finite(f);
      WholeSecondsSameCalendarDay(ms, clock.offsetMs);
      DateStatus.SameDaySameStatus(stamp, Num(ms), clock);
    } else {
      assert !IsDigit("Invalid date"[0]);
      assert ToNumber(stamp) == NaN;
    }
  }

  lemma WholeSecondsSameCalendarDay(ms: int, off: int)
    requires off % 1000 == 0 && DateStatus.InTimeRange(ms)
    ensures DateStatus.CalendarDay(Finite(ms - ms % 1000), off) == DateStatus.CalendarDay(Finite(ms), off)
  {
    WholeSecondsSameDay(ms, off);
  }

  /** Rounding an instant down to whole seconds keeps its local day and its
      local midnight when the offset is whole seconds. */
  lemma WholeSecondsSameDay(ms: int, off: int)
    requires off % 1000 == 0
    ensures var f := ms - ms % 1000;
            && (f + off) / DateStatus.DayMs == (ms + off) / DateStatus.DayMs
            && f - (f + off) % DateStatus.DayMs == ms - (ms + off) % DateStatus.DayMs
  {
    var r := ms % 1000;
    var k := ms / 1000 + off / 1000;
    assert ms + off == 1000 * k + r;
    var q, rk := k / 86400, k % 86400;
    assert k == 86400 * q + rk;
    DayDivision(1000 * k, q, 1000 * rk);
    DayDivision(ms + off, q, 1000 * rk + r);
  }

  /** Division by the length of a day has one quotient and one remainder. */
  lemma DayDivision(x: int, q: int, r: int)
    requires 0 <= r < DateStatus.DayMs && x == DateStatus.DayMs * q + r
    ensures x / DateStatus.DayMs == q && x % DateStatus.DayMs == r
  {
    var q', r' := x / DateStatus.DayMs, x % DateStatus.DayMs;
    assert DateStatus.DayMs * (q' - q) == r - r';
  }

  /** One row of the campaign table with its two local flags. */
  class CampaignRow {
    const rowData: Campaign
    var pricingModalOpen: bool
    var datePickerOpen: bool

    constructor(rowData: Campaign)
      ensures this.rowData == rowData
      ensures !pricingModalOpen && !datePickerOpen
    {
      this.rowData := rowData;
      pricingModalOpen, datePickerOpen := false, false;
    }

    method HandlePricingModalOpen()
      modifies this`pricingModalOpen
      ensures pricingModalOpen && datePickerOpen == old(datePickerOpen)
    {
      pricingModalOpen := true;
    }

    method HandlePricingModalClose()
      modifies this`pricingModalOpen
      ensures !pricingModalOpen && datePickerOpen == old(datePickerOpen)
    {
      pricingModalOpen := false;
    }

    method HandleDatePickerOpen()
      modifies this`datePickerOpen
      ensures datePickerOpen && pricingModalOpen == old(pricingModalOpen)
    {
      datePickerOpen := true;
    }

    method HandleDatePickerClose()
      modifies this`datePickerOpen
      ensures !datePickerOpen && pricingModalOpen == old(pricingModalOpen)
    {
      datePickerOpen := false;
    }

    /** `scheduleCampaignHandler(value)`: forwards this row's own `campaignId` and
        the picked instant, as a millisecond string, to `scheduleCampaign`; read
        back with `Number()` it is the picked instant to the second. */
    method ScheduleCampaignHandler(picked: Option<int>) returns (call: ScheduleCall)
      ensures call.campaignId == rowData.campaignId
      ensures call.value.Str?
      ensures picked.Some? && DateStatus.InTimeRange(picked.value) ==>
                ToNumber(call.value) == Finite(picked.value - picked.value % 1000)
      ensures picked.None? || !DateStatus.InTimeRange(picked.value) ==> ToNumber(call.value) == NaN
    {
      call := ScheduleCall(rowData.campaignId, Str(MomentTimestamp(picked)));
    }
  }

  // ---------------------------------------------------------------------------
  // The campaigns table

  /** The props of `Campaigns`; `S` is the `scheduleCampaign` callback. */
  datatype CampaignsProps<S> = CampaignsProps(campaigns: Option<seq<Campaign>>, scheduleCampaign: S)

  /** The `rowProps` every row receives: `{ scheduleCampaign }`. */
  datatype RowProps<S> = RowProps(scheduleCampaign: S)

  const CampaignRowName := "CampaignRow"

  /** A missing campaign list reads as the empty list. */
  function OrEmpty(campaigns: Option<seq<Campaign>>): (cs: seq<Campaign>)
    ensures campaigns.None? ==> cs == []
    ensures campaigns.Some? ==> cs == campaigns.value
  {
    if campaigns.Some? then campaigns.value else []
  }

  const HeaderKeys := ["date", "campaign", "view", "actions"]

  /** The four column headings, each the plain-text translation of its key. */
  function Header(t: string -> string): (h: seq<HeaderDatum>)
    ensures |h| == |HeaderKeys|
    ensures forall i :: 0 <= i < |h| ==> h[i] == Text(t(HeaderKeys[i]))
  {
    [Text(t("date")), Text(t("campaign")), Text(t("view")), Text(t("actions"))]
  }

  /** The `Table` that `Campaigns` renders. */
  function CampaignsTable<S>(props: CampaignsProps<S>, t: string -> string): (r: TableProps<Campaign, RowProps<S>>)
    ensures r.rowsData == OrEmpty(props.campaigns)
    ensures r.header == Some(Header(t)) && r.customRow == Some(CampaignRowName)
    ensures r.rowProps.scheduleCampaign == props.scheduleCampaign
  {
    TableProps(
      OrEmpty(props.campaigns),
      Some(Header(t)),
      Some(CampaignRowName),
      None,
      RowProps(props.scheduleCampaign))
  }

  /** The campaigns table has a header of exactly four cells (date, campaign, view,
      actions) and one `CampaignRow` per campaign (none when the prop is absent),
      in order, each handed the same `scheduleCampaign`. */
  lemma CampaignsRendering<S>(props: CampaignsProps<S>, t: string -> string)
    ensures var v := Table(CampaignsTable(props, t));
            var rows := OrEmpty(props.campaigns);
            && v.head == Some(HeadElement(Default, Header(t)))
            && |v.body| == |rows|
            && forall i :: 0 <= i < |rows| ==>
                 v.body[i].rowData == rows[i]
                 && v.body[i].component == Custom(CampaignRowName)
                 && v.body[i].rowProps.scheduleCampaign == props.scheduleCampaign
  {
  }

  /** The default header draws the four headings as plain cells, in that order. */
  lemma HeaderCells(t: string -> string)
    ensures var h := TableHeader(Header(t), None);
            && |h.cells| == 4
            && h.cells[0].1 == Th(Str(t("date")), [])
            && h.cells[1].1 == Th(Str(t("campaign")), [])
            && h.cells[2].1 == Th(Str(t("view")), [])
            && h.cells[3].1 == Th(Str(t("actions")), [])
  {
  }
}
