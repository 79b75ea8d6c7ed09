/** The top-platforms market list: how one platform record is shown as a row
    for the chosen time period. */
module MarketTopPlatforms {
  import opened Wrappers
  import Kit
  import DecimalText

  /** The time periods the market screens offer. */
  datatype HsTimePeriod = Day1 | Week1 | Week2 | Month1 | Month3 | Month6 | Year1 | Year2

  /** A blockchain platform ranked by the market cap of the protocols on it.
      Decimal amounts are reals; every field MarketKit may leave out is optional. */
  datatype TopPlatform = TopPlatform(
    uid: string,
    name: string,
    imageUrl: string,
    rank: Option<int>,
    protocolsCount: Option<int>,
    marketCap: Option<real>,
    oneDayRank: Option<int>,
    sevenDaysRank: Option<int>,
    thirtyDaysRank: Option<int>,
    oneDayChange: Option<real>,
    sevenDayChange: Option<real>,
    thirtyDayChange: Option<real>)

  datatype IconShape = Square | Round

  /** The value column of a market row; this list only ever shows a change. */
  datatype MarketDataValue = Diff(diff: Option<real>)

  datatype ListViewItem = ListViewItem(
    uid: string,
    iconUrl: string,
    iconShape: IconShape,
    iconPlaceholderName: string,
    name: string,
    code: string,
    rank: Option<string>,
    price: string,
    dataValue: MarketDataValue)

  /** The decorator's service: the currency and the period the list is shown for. */
  datatype DecoratorService = DecoratorService(currency: Kit.Currency, timePeriod: HsTimePeriod)

  /** Text rendering supplied from outside: the short currency formatter, which
      may give up, and the localizer. */
  datatype Formatting = Formatting(
    formatShort: (Kit.Currency, real) -> Option<string>,
    localize: string -> string)

  const ProtocolsKey: string := "market.top.protocols"
  const NotAvailableKey: string := "n/a"
  const IconPlaceholder: string := "placeholder_24"

  /** The change shown for a period: the one-day, seven-day or thirty-day change
      for the three periods the platforms carry, zero for any other period. */
  function SelectedChange(item: TopPlatform, period: HsTimePeriod): Option<real> {
    match period
    case Day1 => item.oneDayChange
    case Week1 => item.sevenDayChange
    case Month1 => item.thirtyDayChange
    case _ => Some(0.0)
  }

  /** "<localized heading> <count>", or nothing when the count is unknown. */
  function ProtocolsText(fmt: Formatting, count: Option<int>): string {
    match count
    case Some(c) => fmt.localize(ProtocolsKey) + " " + DecimalText.IntToString(c)
    case None => ""
  }

  /** The short-formatted market cap, or the localized "n/a" when the cap is
      unknown or the formatter gives up. */
  function MarketCapText(fmt: Formatting, currency: Kit.Currency, marketCap: Option<real>): string {
    var formatted := if marketCap.Some? then fmt.formatShort(currency, marketCap.value) else None;
    formatted.GetOr(fmt.localize(NotAvailableKey))
  }

  /** The rank as decimal text; an unknown rank stays unknown. */
  function RankText(rank: Option<int>): Option<string> {
    match rank
    case Some(n) => Some(DecimalText.IntToString(n))
    case None => None
  }

  /** Rank text is the canonical decimal text of the rank: it reads back as
      the rank, and `DecimalText.CanonicalIsIntToString` makes it the only such text. */
  lemma RankTextParses(rank: Option<int>)
    ensures RankText(rank).Some? <==> rank.Some?
    ensures rank.Some? ==> DecimalText.ParseInt(RankText(rank).value) == rank
    ensures rank.Some? ==> DecimalText.Canonical(RankText(rank).value)
  {
    if rank.Some? {
      DecimalText.IntToStringRoundTrip(rank.value);
    }
  }

  /** Protocols text is empty exactly when the count is unknown; otherwise it is
      the localized heading and a space, followed by the canonical decimal text
      that reads back as the count. */
  lemma ProtocolsTextParses(fmt: Formatting, count: Option<int>)
    ensures count.None? ==> ProtocolsText(fmt, count) == ""
    ensures count.Some? ==>
              var heading := fmt.localize(ProtocolsKey);
              var text := ProtocolsText(fmt, count);
              && |text| > |heading| + 1
              && text[..|heading| + 1] == heading + " "
              && DecimalText.ParseInt(text[|heading| + 1..]) == count
              && DecimalText.Canonical(text[|heading| + 1..])
  {
    if count.Some? {
      var heading := fmt.localize(ProtocolsKey);
      var digits := DecimalText.IntToString(count.value);
      DecimalText.IntToStringRoundTrip(count.value);
      assert (heading + " " + digits)[|heading| + 1..] == digits;
      assert (heading + " " + digits)[..|heading| + 1] == heading + " ";
    }
  }

  /** The row for one platform. */
  function ListViewItemOf(service: DecoratorService, fmt: Formatting, item: TopPlatform): (r: ListViewItem)
    ensures r.uid == item.uid && r.name == item.name && r.iconUrl == item.imageUrl
    ensures r.iconShape == Square && r.iconPlaceholderName == IconPlaceholder
    ensures r.rank.Some? <==> item.rank.Some?
    ensures item.rank.Some? ==> DecimalText.ParseInt(r.rank.value) == item.rank
    ensures item.rank.Some? ==> DecimalText.Canonical(r.rank.value)
    ensures item.protocolsCount.None? ==> r.code == ""
    ensures item.protocolsCount.Some? ==>
              (var heading := fmt.localize(ProtocolsKey);
               && |r.code| > |heading| + 1
               && r.code[..|heading| + 1] == heading + " "
               && DecimalText.ParseInt(r.code[|heading| + 1..]) == item.protocolsCount
               && DecimalText.Canonical(r.code[|heading| + 1..]))
    ensures item.marketCap.None? ==> r.price == fmt.localize(NotAvailableKey)
    ensures item.marketCap.Some? && fmt.formatShort(service.currency, item.marketCap.value).Some? ==>
              r.price == fmt.formatShort(service.currency, item.marketCap.value).value
    ensures item.marketCap.Some? && fmt.formatShort(service.currency, item.marketCap.value).None? ==>
              r.price == fmt.localize(NotAvailableKey)
    ensures service.timePeriod == Day1 ==> r.dataValue == Diff(item.oneDayChange)
    ensures service.timePeriod == Week1 ==> r.dataValue == Diff(item.sevenDayChange)
    ensures service.timePeriod == Month1 ==> r.dataValue == Diff(item.thirtyDayChange)
    ensures service.timePeriod !in {Day1, Week1, Month1} ==> r.dataValue == Diff(Some(0.0))
  {
    RankTextParses(item.rank);
    ProtocolsTextParses(fmt, item.protocolsCount);
    ListViewItem(
      item.uid,
      item.imageUrl,
      Square,
      IconPlaceholder,
      item.name,
      ProtocolsText(fmt, item.protocolsCount),
      RankText(item.rank),
      MarketCapText(fmt, service.currency, item.marketCap),
      Diff(SelectedChange(item, service.timePeriod)))
  }

  /** Platforms that differ only in their rank changes get the same row: the
      decorator picks a rank change per period but never shows it. */
  lemma RankChangesNotShown(service: DecoratorService, fmt: Formatting, a: TopPlatform, b: TopPlatform)
    requires a.(oneDayRank := b.oneDayRank, sevenDaysRank := b.sevenDaysRank, thirtyDaysRank := b.thirtyDaysRank) == b
    ensures ListViewItemOf(service, fmt, a) == ListViewItemOf(service, fmt, b)
  {
  }

  /** The value column depends on nothing but the change for the chosen period. */
  lemma ChangeColumnReadsOnlySelectedChange(service: DecoratorService, fmt: Formatting, a: TopPlatform, b: TopPlatform)
    requires SelectedChange(a, service.timePeriod) == SelectedChange(b, service.timePeriod)
    ensures ListViewItemOf(service, fmt, a).dataValue == ListViewItemOf(service, fmt, b).dataValue
  {
  }
}
