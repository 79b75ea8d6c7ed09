# Unstoppable Wallet: decision logic behind four screens

This project models, in Dafny, the small pieces of decision logic inside four
screens of the Unstoppable Wallet iOS app and proves what they promise. Most
of the app's presentation layer only builds UIKit tables. These four units
make choices that can be stated:

- **Coin-settings selector view model** (`CoinSettingsViewModel`). The
  coin-settings service asks which mnemonic derivations or Bitcoin Cash coin
  types to enable. The view model turns that request into a multi-select
  bottom sheet and remembers the request. It maps the row indexes the user
  confirms back to the request's options, or cancels for the request's token.
- **BTC blockchain settings service** (`BtcBlockchainSettingsService`). It
  edits the restore mode (the sync source) of one Bitcoin-family blockchain.
  It publishes a "has changes" flag against the mode stored in the BTC
  blockchain manager, and writes back only when the mode differs.
- **Top-platform list decorator** (`MarketListTopPlatformDecorator`). It
  turns one top-platform record and the chosen time period into a market
  list row.
- **Coin analytics service** (`CoinAnalyticsService`). It moves between four
  states: loading, success, preview and failed. An HTTP 401 answer makes it
  fetch the free analytics preview instead. It also selects the EIP-20
  contract addresses that an audit lookup uses.

Modules (one per unit, plus shared value types):

| file | module | models |
|---|---|---|
| wrappers.dfy | `Wrappers` | Swift optionals (`Option`) and throwing calls (`Result`) |
| kit.dfy | `Kit` | the MarketKit records the units read: coin, token, blockchain, currency |
| sequences.dfy | `Sequences` | `indexes.map { xs[$0] }` (`Pick`) and "positions passing a test" (`Positions`) |
| decimal_text.dfy | `DecimalText` | Swift's `"\(n)"` for an `Int`, and a reader that undoes it |
| coin_settings.dfy | `CoinSettings` | `CoinSettingsViewModel` |
| btc_blockchain_settings.dfy | `BtcBlockchainSettings` | `BtcBlockchainSettingsService` and the manager's key→mode store |
| market_top_platforms.dfy | `MarketTopPlatforms` | `MarketListTopPlatformDecorator.listViewItem` |
| coin_analytics.dfy | `CoinAnalytics` | `CoinAnalyticsService` |

How the model is built:

- Every unit is a pure function from a small state record to a new state.
  What the unit hands to its collaborators comes back as data: a list of
  effects (`CoinSettings.Effect`) or of requests (`CoinAnalytics.Fetch`).
- Relay emissions are kept as histories. `hasChangesHistory` holds every
  value the has-changes relay has held. `published` holds every state the
  analytics relay has emitted.
- The asynchronous replies of the analytics requests are explicit events,
  applied one at a time (`CoinAnalytics.Apply`, `CoinAnalytics.Run`).
  `sync()` replaces the dispose bag, which disposes of the previous
  subscription. The model keeps one `pending` slot for this: a reply to a
  request that is no longer pending changes nothing.
- Collaborators are inputs:
  - the localizer, the short value formatter, and the option titles and
    placeholder images are function-valued fields (`CoinSettings.Labels`,
    `MarketTopPlatforms.Formatting`);
  - the BTC blockchain manager is a map from blockchain type to mode, plus
    the mode it reports for a type with no saved entry;
  - MarketKit's `blockchains(uids:)` is a function returning a `Result`.
- Swift does not run a property's `didSet` inside the class's own
  initializer. So creating the BTC settings service publishes nothing beyond
  the relay's initial `false`. The analytics service's initial `.loading` is
  not emitted either.
- `Decimal` amounts are Dafny `real`s; they are only passed through or set to 0.

## Model

| member | source | states |
|---|---|---|
| `CoinSettings.ViewItems` | UnstoppableWallet/UnstoppableWallet/Modules/CoinSettings/CoinSettingsViewModel.swift:40-46 | one selector row per option, in the options' order; row i carries option i's title and subtitle and is ticked exactly when option i is among the current ones |
| `CoinSettings.DerivationConfig` | UnstoppableWallet/UnstoppableWallet/Modules/CoinSettings/CoinSettingsViewModel.swift:34-48 | the derivation selector shows the coin's image and code, the localized description and the request's `allowEmpty` unchanged; row i is derivation i's title and address type, ticked iff derivation i is current |
| `CoinSettings.BitcoinCashCoinTypeConfig` | UnstoppableWallet/UnstoppableWallet/Modules/CoinSettings/CoinSettingsViewModel.swift:50-64 | the same for Bitcoin Cash coin types: row i is coin type i's title and description, ticked iff type i is current |
| `CoinSettings.Handle` | UnstoppableWallet/UnstoppableWallet/Modules/CoinSettings/CoinSettingsViewModel.swift:20-32 | a request becomes the current request and opens exactly one selector: the derivation or coin-type config for the request's kind, titled with the coin code, with the request's `allowEmpty`, one row per option, row i ticked exactly when option i is current |
| `CoinSettings.OnSelect` | UnstoppableWallet/UnstoppableWallet/Modules/CoinSettings/CoinSettingsViewModel.swift:74-85 | with no request nothing happens; otherwise exactly one select call goes out for the request's token, carrying the options at the picked indexes in the picked order; the current request is kept |
| `CoinSettings.OnCancelSelect` | UnstoppableWallet/UnstoppableWallet/Modules/CoinSettings/CoinSettingsViewModel.swift:87-93 | with no request nothing happens; otherwise exactly one cancel goes out, for the request's token; the current request is kept |
| `CoinSettings.NothingBeforeFirstRequest` | UnstoppableWallet/UnstoppableWallet/Modules/CoinSettings/CoinSettingsViewModel.swift:74-93 | before the first request any index list is accepted, and neither confirming nor dismissing reaches the service or changes the view model |
| `Sequences.PickAt` | UnstoppableWallet/UnstoppableWallet/Modules/CoinSettings/CoinSettingsViewModel.swift:81-83 | `indexes.map { all[$0] }`: the k-th picked element is the element at the k-th index |
| `CoinSettings.ConfirmShownItems` | UnstoppableWallet/UnstoppableWallet/Modules/CoinSettings/CoinSettingsViewModel.swift:40-84 | confirming the rows exactly as shown picks exactly the offered options that are current, in offered order: the selector and the index mapping invert each other |
| `CoinSettings.HandleThenConfirm` | UnstoppableWallet/UnstoppableWallet/Modules/CoinSettings/CoinSettingsViewModel.swift:20-84 | handling a request and then confirming it unchanged hands the service the request's current options for the request's token, for both request kinds |
| `CoinSettings.ChosenMembership` | UnstoppableWallet/UnstoppableWallet/Modules/CoinSettings/CoinSettingsViewModel.swift:44 | an option comes back from an unchanged confirmation exactly when it is offered and current |
| `BtcBlockchainSettings.Init` | UnstoppableWallet/UnstoppableWallet/Modules/BtcBlockchainSettings/BtcBlockchainSettingsService.swift:16-23 | a new service edits the stored mode of its blockchain type, and its has-changes relay holds only `false` |
| `BtcBlockchainSettings.SetRestoreMode` | UnstoppableWallet/UnstoppableWallet/Modules/BtcBlockchainSettings/BtcBlockchainSettingsService.swift:10-29 | every assignment sets the mode and publishes exactly one more flag, true exactly when the new mode differs from the stored one |
| `BtcBlockchainSettings.RevertClearsChanges` | UnstoppableWallet/UnstoppableWallet/Modules/BtcBlockchainSettings/BtcBlockchainSettingsService.swift:25-29 | setting the mode back to the stored one makes the flag false again |
| `BtcBlockchainSettings.EditsStaySynced` | UnstoppableWallet/UnstoppableWallet/Modules/BtcBlockchainSettings/BtcBlockchainSettingsService.swift:10-29 | from creation, after any sequence of edits against an unchanged store, the flag agrees with the store and one flag was published per edit |
| `BtcBlockchainSettings.SaveMode` | UnstoppableWallet/UnstoppableWallet/Modules/BtcBlockchainSettings/BtcBlockchainSettingsService.swift:41 | the manager's save makes the type read as the saved mode and leaves every other type as it was |
| `BtcBlockchainSettings.Save` | UnstoppableWallet/UnstoppableWallet/Modules/BtcBlockchainSettings/BtcBlockchainSettingsService.swift:39-43 | the store is untouched when the mode equals the stored one; otherwise this type reads as the edited mode; other types and their saved entries are unchanged, no entry is added for another type, and the default mode is kept |
| `BtcBlockchainSettings.SaveIdempotent` | UnstoppableWallet/UnstoppableWallet/Modules/BtcBlockchainSettings/BtcBlockchainSettingsService.swift:39-43 | saving a second time changes nothing more |
| `BtcBlockchainSettings.SaveThenNoChanges` | UnstoppableWallet/UnstoppableWallet/Modules/BtcBlockchainSettings/BtcBlockchainSettingsService.swift:25-43 | after a save, assigning the saved mode reports no changes |
| `BtcBlockchainSettings.SaveLeavesFlagStale` | UnstoppableWallet/UnstoppableWallet/Modules/BtcBlockchainSettings/BtcBlockchainSettingsService.swift:39-43 | `save()` does not publish: after a save that writes, the flag still says "changed" although the store now agrees |
| `MarketTopPlatforms.ListViewItemOf` | UnstoppableWallet/UnstoppableWallet/Modules/Market/MarketTopPlatforms/MarketListTopPlatformDecorator.swift:23-60 | the row keeps uid, name and image URL, with a square icon and "placeholder_24"; the value is `.diff` of the 1-day, 7-day or 30-day change for those periods and of 0 for any other; a missing cap, or one the formatter rejects, shows the localized "n/a"; a missing protocol count gives "", otherwise the heading, a space and canonical decimal text reading back as the count; a missing rank stays missing, otherwise its text is canonical and reads back as the rank |
| `MarketTopPlatforms.RankTextParses` | UnstoppableWallet/UnstoppableWallet/Modules/Market/MarketTopPlatforms/MarketListTopPlatformDecorator.swift:56 | rank text is present exactly when the rank is; it is canonical decimal text (no leading zero, no "-0") that reads back as the rank |
| `MarketTopPlatforms.ProtocolsTextParses` | UnstoppableWallet/UnstoppableWallet/Modules/Market/MarketTopPlatforms/MarketListTopPlatformDecorator.swift:26 | protocols text is empty for a missing count; otherwise the localized heading, a space, and canonical decimal text reading back as the count |
| `MarketTopPlatforms.RankChangesNotShown` | UnstoppableWallet/UnstoppableWallet/Modules/Market/MarketTopPlatforms/MarketListTopPlatformDecorator.swift:30-45 | the per-period rank change is chosen but never shown: platforms differing only in rank changes give identical rows |
| `MarketTopPlatforms.ChangeColumnReadsOnlySelectedChange` | UnstoppableWallet/UnstoppableWallet/Modules/Market/MarketTopPlatforms/MarketListTopPlatformDecorator.swift:33-47 | the value column depends on nothing but the change chosen for the period |
| `DecimalText.NatToDigits` | UnstoppableWallet/UnstoppableWallet/Modules/Market/MarketTopPlatforms/MarketListTopPlatformDecorator.swift:56 | a natural number renders as at least one decimal digit, with no leading zero except for 0 itself |
| `DecimalText.IntToStringRoundTrip` | UnstoppableWallet/UnstoppableWallet/Modules/Market/MarketTopPlatforms/MarketListTopPlatformDecorator.swift:56 | reading back the text of an `Int` yields that `Int` |
| `DecimalText.CanonicalIsIntToString` | UnstoppableWallet/UnstoppableWallet/Modules/Market/MarketTopPlatforms/MarketListTopPlatformDecorator.swift:56 | the only canonical text that reads back as n is the text of n, so canonical read-back text pins the rendering exactly |
| `DecimalText.IntToStringInjective` | UnstoppableWallet/UnstoppableWallet/Modules/Market/MarketTopPlatforms/MarketListTopPlatformDecorator.swift:26 | different counts or ranks never render as the same text |
| `CoinAnalytics.Init` | UnstoppableWallet/UnstoppableWallet/Modules/Coin/Analytics/CoinAnalyticsService.swift:14 | a new service is loading, has emitted nothing, waits for nothing, and is well formed |
| `CoinAnalytics.Assign` | UnstoppableWallet/UnstoppableWallet/Modules/Coin/Analytics/CoinAnalyticsService.swift:14-18 | every assignment of the state emits exactly that state |
| `CoinAnalytics.HandleError` | UnstoppableWallet/UnstoppableWallet/Modules/Coin/Analytics/CoinAnalyticsService.swift:26-39 | an `invalidResponse` with status 401 sends one preview request and leaves the state alone; any other error fails with it and requests nothing |
| `CoinAnalytics.Apply` | UnstoppableWallet/UnstoppableWallet/Modules/Coin/Analytics/CoinAnalyticsService.swift:26-90 | sync sets `loading` and sends exactly one request, the analytics request for the coin in the base currency read at that sync; an awaited success gives `success`; an awaited 401 sends exactly the preview request; another awaited error fails; an awaited preview reply gives `preview` or `failed`; a reply nobody awaits changes nothing; at most one state is emitted per event, and any state change is emitted |
| `CoinAnalytics.ApplyKeepsWellFormed` | UnstoppableWallet/UnstoppableWallet/Modules/Coin/Analytics/CoinAnalyticsService.swift:26-90 | every event keeps the service well formed: a pending request implies `loading`; the last emitted state is the current one; the stream starts with `loading`; every other state is emitted right after a `loading` |
| `CoinAnalytics.RunKeepsWellFormed` | UnstoppableWallet/UnstoppableWallet/Modules/Coin/Analytics/CoinAnalyticsService.swift:14-90 | the same for any sequence of events |
| `CoinAnalytics.UnauthorizedFallsBackToPreview` | UnstoppableWallet/UnstoppableWallet/Modules/Coin/Analytics/CoinAnalyticsService.swift:27-34 | sync, a 401, then a preview: the state is `preview`, and exactly `loading` then `preview` are emitted |
| `CoinAnalytics.UnauthorizedRequestsPreview` | UnstoppableWallet/UnstoppableWallet/Modules/Coin/Analytics/CoinAnalyticsService.swift:27-28 | on a 401 the preview request for the coin goes out right after the analytics request, and nothing else is requested |
| `CoinAnalytics.PreviewErrorFails` | UnstoppableWallet/UnstoppableWallet/Modules/Coin/Analytics/CoinAnalyticsService.swift:30-34 | sync, a 401, then a failed preview: the state is `failed` with the preview's error |
| `CoinAnalytics.OtherErrorsFailWithoutPreview` | UnstoppableWallet/UnstoppableWallet/Modules/Coin/Analytics/CoinAnalyticsService.swift:36-37 | sync then any other error, a non-401 status included: the state is `failed` with that error, and exactly `loading` then `failed` are emitted |
| `CoinAnalytics.OtherErrorsRequestNoPreview` | UnstoppableWallet/UnstoppableWallet/Modules/Coin/Analytics/CoinAnalyticsService.swift:27-37 | sync then any other error: the analytics request is the only request sent; no preview is fetched |
| `CoinAnalytics.SyncDiscardsEarlierPreview` | UnstoppableWallet/UnstoppableWallet/Modules/Coin/Analytics/CoinAnalyticsService.swift:77-89 | a second sync discards the earlier preview request: its late reply leaves the service loading; the new analytics request uses the base currency of the second sync, which may differ from the first |
| `CoinAnalytics.AuditAddresses` | UnstoppableWallet/UnstoppableWallet/Modules/Coin/Analytics/CoinAnalyticsService.swift:57-67 | nil exactly when no token is an EIP-20 token on Ethereum or BNB Smart Chain; otherwise a non-empty list with one address per such token, in token order, the k-th being the contract address of the k-th such token |
| `CoinAnalytics.AuditAddressesInTokenOrder` | UnstoppableWallet/UnstoppableWallet/Modules/Coin/Analytics/CoinAnalyticsService.swift:58-64 | the addresses are those of the qualifying tokens, one per token, in token order: the k-th address is the contract address of the k-th qualifying token |
| `CoinAnalytics.Blockchains` | UnstoppableWallet/UnstoppableWallet/Modules/Coin/Analytics/CoinAnalyticsService.swift:69-75 | MarketKit's blockchains when the lookup succeeds, no blockchains when it throws |

## Left out

- View controllers, table and bottom-sheet builders: `ChartViewController`,
  `CreateAccountSimpleViewController`, `ContactBookSyncSettingsViewController`,
  `ExperimentalFeaturesViewController`, `LegacyEvmFeeDataSource` and
  `BottomSheetModule`. They are UIKit layout and navigation, with no
  decisions to state.
- `NftCollectionOverviewService`: it only zips network calls together.
- Rx plumbing: schedulers, relays as objects, and the signal and observable
  accessors (`openBottomSelectorSignal`, `hasChangesObservable`,
  `stateObservable`). Emissions are histories in the model, and callbacks
  are sequential events.
- Concurrency: replies are applied one at a time. A reply racing a new
  `sync()` on another thread is not modelled.
- Formatting internals: `ValueFormatter.formatShort` and `.localized` are
  opaque functions given as inputs.
- MarketKit, CurrencyKit and the BTC blockchain manager's internals are not
  part of this model. Their values are inputs or a map-valued store.
- The enum case lists of `MnemonicDerivation`, `BitcoinCashCoinType`,
  `BtcRestoreMode`, `HsTimePeriod` and `TokenType` live in files outside this
  model. The cases used here are representative. Only `day1`, `week1`,
  `month1` and `eip20` are distinguished by the modelled code.
- `CoinAnalyticsService.coin` is a one-line getter, modelled as
  `fullCoin.coin`. The `currency` getter reads CurrencyKit's base currency on
  every call, so each `Sync` event carries the base currency of that moment.
- `CoinSettings.OnSelect`: Swift traps on `derivations[$0]` (and on
  `types[$0]`) for an index out of range. The model requires every index to be in range instead
  of modelling the trap.
- `MarketTopPlatforms.ListViewItemOf`: the rank change (`rankDiff`) that
  `listViewItem` picks per period is never used, so the model does not
  compute it. `RankChangesNotShown` states that it cannot affect the row.

## Notes

- The analytics service has four states and a 401 fallback to the preview.
- `BtcBlockchainSettings.SaveLeavesFlagStale` records that `save()` does not
  republish the flag. What the screen does after a save is outside this
  model, so this is recorded as behaviour, not as a defect.
