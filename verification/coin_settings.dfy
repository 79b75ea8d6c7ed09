/** The coin-settings selector view model: it turns a settings request from the
    coin-settings service into a multi-select bottom sheet, remembers the
    request, and maps the indexes the user picks back to the request's options. */
module CoinSettings {
  import opened Wrappers
  import opened Kit
  import opened Sequences

  /** HD-wallet derivation paths a Bitcoin-like wallet can restore with. */
  datatype MnemonicDerivation = Bip44 | Bip49 | Bip84 | Bip86

  /** Bitcoin Cash address coin types (BIP-44 coin type 0 or 145). */
  datatype BitcoinCashCoinType = Type0 | Type145

  /** The options offered and the subset that is currently chosen. */
  datatype RequestType =
    | Derivation(allDerivations: seq<MnemonicDerivation>, currentDerivations: seq<MnemonicDerivation>)
    | BitcoinCashCoinTypes(allTypes: seq<BitcoinCashCoinType>, currentTypes: seq<BitcoinCashCoinType>)

  datatype Request = Request(token: Token, allowEmpty: bool, requestType: RequestType)

  /** The bottom-selector configuration the view model emits. */
  datatype SelectorImage = Remote(url: string, placeholder: string)

  datatype SelectorViewItem = SelectorViewItem(title: string, subtitle: string, selected: bool)

  datatype MultiConfig = MultiConfig(
    image: SelectorImage,
    title: string,
    description: string,
    allowEmpty: bool,
    viewItems: seq<SelectorViewItem>)

  /** Display texts supplied by code outside the view model: option titles and
      subtitles, the token's placeholder image, and the localizer. */
  datatype Labels = Labels(
    derivationTitle: MnemonicDerivation -> string,
    derivationAddressType: MnemonicDerivation -> string,
    coinTypeTitle: BitcoinCashCoinType -> string,
    coinTypeDescription: BitcoinCashCoinType -> string,
    placeholderImageName: Token -> string,
    localize: string -> string)

  const DescriptionKey: string := "blockchain_settings.description"

  /** What the view model hands on: a selector to open, or a call into the
      coin-settings service. */
  datatype Effect =
    | OpenSelector(config: MultiConfig)
    | SelectDerivations(derivations: seq<MnemonicDerivation>, token: Token)
    | SelectCoinTypes(coinTypes: seq<BitcoinCashCoinType>, token: Token)
    | CancelSelect(token: Token)

  /** The view model has no request until the service sends the first one. */
  datatype ViewModel = ViewModel(currentRequest: Option<Request>)

  datatype Step = Step(viewModel: ViewModel, effects: seq<Effect>)

  const Initial: ViewModel := ViewModel(None)

  /** One selector row per option, in the options' order; a row is ticked
      exactly when its option is among the current ones. */
  function ViewItems<T(==)>(all: seq<T>, current: seq<T>, title: T -> string, subtitle: T -> string)
    : (items: seq<SelectorViewItem>)
    ensures |items| == |all|
    ensures forall i :: 0 <= i < |all| ==>
              items[i].title == title(all[i]) && items[i].subtitle == subtitle(all[i])
    ensures forall i :: 0 <= i < |all| ==> (items[i].selected <==> all[i] in current)
    decreases |all|
  {
    if |all| == 0 then []
    else
      var last := all[|all| - 1];
      ViewItems(all[..|all| - 1], current, title, subtitle)
        + [SelectorViewItem(title(last), subtitle(last), last in current)]
  }

  /** The selector for a derivation request. */
  function DerivationConfig(labels: Labels, token: Token, allowEmpty: bool,
                            allDerivations: seq<MnemonicDerivation>, current: seq<MnemonicDerivation>)
    : (config: MultiConfig)
    ensures config.image == Remote(token.coin.imageUrl, labels.placeholderImageName(token))
    ensures config.title == token.coin.code
    ensures config.description == labels.localize(DescriptionKey)
    ensures config.allowEmpty == allowEmpty
    ensures |config.viewItems| == |allDerivations|
    ensures forall i :: 0 <= i < |allDerivations| ==>
              && config.viewItems[i].title == labels.derivationTitle(allDerivations[i])
              && config.viewItems[i].subtitle == labels.derivationAddressType(allDerivations[i])
              && (config.viewItems[i].selected <==> allDerivations[i] in current)
  {
    MultiConfig(
      Remote(token.coin.imageUrl, labels.placeholderImageName(token)),
      token.coin.code,
      labels.localize(DescriptionKey),
      allowEmpty,
      ViewItems(allDerivations, current, labels.derivationTitle, labels.derivationAddressType))
  }

  /** The selector for a Bitcoin Cash coin-type request. */
  function BitcoinCashCoinTypeConfig(labels: Labels, token: Token, allowEmpty: bool,
                                     allTypes: seq<BitcoinCashCoinType>, current: seq<BitcoinCashCoinType>)
    : (config: MultiConfig)
    ensures config.image == Remote(token.coin.imageUrl, labels.placeholderImageName(token))
    ensures config.title == token.coin.code
    ensures config.description == labels.localize(DescriptionKey)
    ensures config.allowEmpty == allowEmpty
    ensures |config.viewItems| == |allTypes|
    ensures forall i :: 0 <= i < |allTypes| ==>
              && config.viewItems[i].title == labels.coinTypeTitle(allTypes[i])
              && config.viewItems[i].subtitle == labels.coinTypeDescription(allTypes[i])
              && (config.viewItems[i].selected <==> allTypes[i] in current)
  {
    MultiConfig(
      Remote(token.coin.imageUrl, labels.placeholderImageName(token)),
      token.coin.code,
      labels.localize(DescriptionKey),
      allowEmpty,
      ViewItems(allTypes, current, labels.coinTypeTitle, labels.coinTypeDescription))
  }

  /** The selector a request is shown as. */
  function RequestConfig(labels: Labels, request: Request): MultiConfig {
    match request.requestType
    case Derivation(all, current) =>
      DerivationConfig(labels, request.token, request.allowEmpty, all, current)
    case BitcoinCashCoinTypes(all, current) =>
      BitcoinCashCoinTypeConfig(labels, request.token, request.allowEmpty, all, current)
  }

  /** How many options a request offers. */
  function OptionCount(t: RequestType): nat {
    match t
    case Derivation(all, _) => |all|
    case BitcoinCashCoinTypes(all, _) => |all|
  }

  /** A new request replaces the remembered one and opens exactly one selector,
      with one row per option of the request. */
  function Handle(vm: ViewModel, labels: Labels, request: Request): (r: Step)
    ensures r.viewModel.currentRequest == Some(request)
    ensures |r.effects| == 1 && r.effects[0].OpenSelector?
    ensures r.effects[0].config == RequestConfig(labels, request)
    ensures request.requestType.Derivation? ==>
              var all := request.requestType.allDerivations;
              forall i :: 0 <= i < |all| ==>
                (r.effects[0].config.viewItems[i].selected <==> all[i] in request.requestType.currentDerivations)
    ensures request.requestType.BitcoinCashCoinTypes? ==>
              var all := request.requestType.allTypes;
              forall i :: 0 <= i < |all| ==>
                (r.effects[0].config.viewItems[i].selected <==> all[i] in request.requestType.currentTypes)
    ensures r.effects[0].config.title == request.token.coin.code
    ensures r.effects[0].config.allowEmpty == request.allowEmpty
    ensures |r.effects[0].config.viewItems| == OptionCount(request.requestType)
  {
    Step(ViewModel(Some(request)), [OpenSelector(RequestConfig(labels, request))])
  }

  /** Every index the user picks lies within the current request's options (the
      selector only offers those; Swift traps on `derivations[$0]` for any other). */
  predicate ValidIndexes(vm: ViewModel, indexes: seq<int>) {
    vm.currentRequest.Some? ==>
      InRange(indexes, OptionCount(vm.currentRequest.value.requestType))
  }

  /** The user confirmed a choice: without a request nothing happens; otherwise
      the options at the picked positions, in the order picked, go to the service
      for the request's token. The remembered request is kept. */
  function OnSelect(vm: ViewModel, indexes: seq<int>): (r: Step)
    requires ValidIndexes(vm, indexes)
    ensures r.viewModel == vm
    ensures vm.currentRequest.None? ==> r.effects == []
    ensures vm.currentRequest.Some? ==> |r.effects| == 1
    ensures vm.currentRequest.Some? && vm.currentRequest.value.requestType.Derivation? ==>
              var all := vm.currentRequest.value.requestType.allDerivations;
              && r.effects[0].SelectDerivations?
              && r.effects[0].token == vm.currentRequest.value.token
              && |r.effects[0].derivations| == |indexes|
              && forall k :: 0 <= k < |indexes| ==> r.effects[0].derivations[k] == all[indexes[k]]
    ensures vm.currentRequest.Some? && vm.currentRequest.value.requestType.BitcoinCashCoinTypes? ==>
              var all := vm.currentRequest.value.requestType.allTypes;
              && r.effects[0].SelectCoinTypes?
              && r.effects[0].token == vm.currentRequest.value.token
              && |r.effects[0].coinTypes| == |indexes|
              && forall k :: 0 <= k < |indexes| ==> r.effects[0].coinTypes[k] == all[indexes[k]]
  {
    match vm.currentRequest
    case None => Step(vm, [])
    case Some(request) =>
      match request.requestType
      case Derivation(all, _) =>
        PickAt(all, indexes);
        Step(vm, [SelectDerivations(Pick(all, indexes), request.token)])
      case BitcoinCashCoinTypes(all, _) =>
        PickAt(all, indexes);
        Step(vm, [SelectCoinTypes(Pick(all, indexes), request.token)])
  }

  /** The user dismissed the selector: without a request nothing happens;
      otherwise the service is told to cancel for the request's token. The
      remembered request is kept. */
  function OnCancelSelect(vm: ViewModel): (r: Step)
    ensures r.viewModel == vm
    ensures vm.currentRequest.None? ==> r.effects == []
    ensures vm.currentRequest.Some? ==> r.effects == [CancelSelect(vm.currentRequest.value.token)]
  {
    match vm.currentRequest
    case None => Step(vm, [])
    case Some(request) => Step(vm, [CancelSelect(request.token)])
  }

  /** Before the service sends its first request, any index list is accepted,
      and neither confirming nor dismissing reaches the service. */
  lemma NothingBeforeFirstRequest(indexes: seq<int>)
    ensures ValidIndexes(Initial, indexes)
    ensures OnSelect(Initial, indexes) == Step(Initial, [])
    ensures OnCancelSelect(Initial) == Step(Initial, [])
  {
  }

  predicate IsSelected(item: SelectorViewItem) {
    item.selected
  }

  /** The positions of the ticked rows, in increasing order: what the selector
      reports when the user confirms without changing anything. */
  function SelectedIndexes(items: seq<SelectorViewItem>): seq<int> {
    Positions(items, IsSelected)
  }

  /** The options of `all` that are among `current`, in the order of `all`. */
  function Chosen<T(==)>(all: seq<T>, current: seq<T>): (r: seq<T>)
    decreases |all|
  {
    if |all| == 0 then []
    else
      var n := |all| - 1;
      Chosen(all[..n], current) + (if all[n] in current then [all[n]] else [])
  }

  /** An option is chosen exactly when it is offered and current. */
  lemma {:induction false} ChosenMembership<T>(all: seq<T>, current: seq<T>, x: T)
    ensures x in Chosen(all, current) <==> x in all && x in current
    decreases |all|
  {
    if |all| > 0 {
      var n := |all| - 1;
      ChosenMembership(all[..n], current, x);
      assert all == all[..n] + [all[n]];
    }
  }

  /** Growing the options by one adds at most one picked position: the new last one. */
  lemma SelectedIndexesSnoc<T>(all: seq<T>, current: seq<T>, title: T -> string, subtitle: T -> string)
    requires |all| > 0
    ensures var n := |all| - 1;
            SelectedIndexes(ViewItems(all, current, title, subtitle))
            == SelectedIndexes(ViewItems(all[..n], current, title, subtitle))
               + (if all[n] in current then [n] else [])
  {
    var n := |all| - 1;
    var items := ViewItems(all, current, title, subtitle);
    assert items[..n] == ViewItems(all[..n], current, title, subtitle);
  }

  /** Confirming the rows exactly as they were shown passes on exactly the
      current options that are offered, in the offered order. */
  lemma {:induction false} ConfirmShownItems<T>(all: seq<T>, current: seq<T>, title: T -> string, subtitle: T -> string)
    ensures var idx := SelectedIndexes(ViewItems(all, current, title, subtitle));
            InRange(idx, |all|) && Pick(all, idx) == Chosen(all, current)
    decreases |all|
  {
    if |all| > 0 {
      var n := |all| - 1;
      ConfirmShownItems(all[..n], current, title, subtitle);
      SelectedIndexesSnoc(all, current, title, subtitle);
      var before := SelectedIndexes(ViewItems(all[..n], current, title, subtitle));
      if all[n] in current {
        PickSnoc(all, before);
      } else {
        assert before + [] == before;
        PickPrefix(all, before);
      }
    }
  }

  /** Showing a request and confirming it unchanged hands the service the
      request's current options, for the request's token. */
  lemma HandleThenConfirm(vm: ViewModel, labels: Labels, request: Request)
    ensures var shown := Handle(vm, labels, request);
            var idx := SelectedIndexes(shown.effects[0].config.viewItems);
            ValidIndexes(shown.viewModel, idx)
            && OnSelect(shown.viewModel, idx).effects ==
               match request.requestType
               case Derivation(all, current) => [SelectDerivations(Chosen(all, current), request.token)]
               case BitcoinCashCoinTypes(all, current) => [SelectCoinTypes(Chosen(all, current), request.token)]
  {
    match request.requestType
    case Derivation(all, current) =>
      ConfirmShownItems(all, current, labels.derivationTitle, labels.derivationAddressType);
    case BitcoinCashCoinTypes(all, current) =>
      ConfirmShownItems(all, current, labels.coinTypeTitle, labels.coinTypeDescription);
  }
}
