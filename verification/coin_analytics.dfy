/** The coin analytics service: loads a coin's analytics, falls back to the
    free preview when the server answers "401 Unauthorized", and lists the
    contract addresses an audit lookup uses. Replies to requests arrive as
    events applied one at a time. */
module CoinAnalytics {
  import opened Wrappers
  import opened Kit
  import opened Sequences

  /** The analytics payloads are opaque here. */
  datatype Analytics = Analytics(payload: string)

  datatype AnalyticsPreview = AnalyticsPreview(payload: string)

  /** Errors a request can fail with. Only a response the server answered with
      an error status (`invalidResponse`) carries a status code. */
  datatype Error =
    | InvalidResponse(statusCode: int, body: string)
    | OtherRequestError(reason: string)
    | OtherError(description: string)

  datatype State =
    | Loading
    | Failed(error: Error)
    | Preview(preview: AnalyticsPreview)
    | Success(analytics: Analytics)

  /** The request whose reply the service waits for. `sync()` disposes of the
      previous subscription, so a reply to a request that is no longer pending
      is never delivered. */
  datatype Pending = Idle | AwaitingAnalytics | AwaitingPreview

  /** Requests the service sends to MarketKit. */
  datatype Fetch = FetchAnalytics(coinUid: string, currencyCode: string) | FetchPreview(coinUid: string)

  datatype Event =
    | Sync(baseCurrency: Currency)
    | AnalyticsLoaded(analytics: Analytics)
    | AnalyticsFailed(error: Error)
    | PreviewLoaded(preview: AnalyticsPreview)
    | PreviewFailed(error: Error)

  /** `published` is every state the state relay has emitted, oldest first. */
  datatype Service = Service(
    fullCoin: FullCoin,
    state: State,
    published: seq<State>,
    pending: Pending)

  datatype Step = Step(service: Service, fetches: seq<Fetch>)

  const UnauthorizedStatus: int := 401

  /** A new service is loading and has emitted nothing: the initial value of
      `state` does not go through its `didSet`. */
  function Init(fullCoin: FullCoin): (s: Service)
    ensures s.state == Loading && s.published == [] && s.pending == Idle
    ensures WellFormed(s)
  {
    Service(fullCoin, Loading, [], Idle)
  }

  /** An assignment to `state`: its `didSet` emits the new state. */
  function Assign(s: Service, st: State): (r: Service)
    ensures r.state == st && r.published == s.published + [st]
    ensures r.fullCoin == s.fullCoin && r.pending == s.pending
  {
    s.(state := st, published := s.published + [st])
  }

  /** Only an `invalidResponse` with status 401 falls back to the preview. */
  predicate RequiresPreview(e: Error) {
    e.InvalidResponse? && e.statusCode == UnauthorizedStatus
  }

  /** `handle(error:)`: a 401 asks for the preview and leaves the state as it
      is; any other error fails at once. */
  function HandleError(s: Service, e: Error): (r: Step)
    ensures RequiresPreview(e) ==>
              && r.service == s.(pending := AwaitingPreview)
              && r.fetches == [FetchPreview(s.fullCoin.coin.uid)]
    ensures !RequiresPreview(e) ==>
              && r.service == Assign(s, Failed(e)).(pending := Idle)
              && r.fetches == []
  {
    if RequiresPreview(e) then Step(s.(pending := AwaitingPreview), [FetchPreview(s.fullCoin.coin.uid)])
    else Step(Assign(s, Failed(e)).(pending := Idle), [])
  }

  /** One event. `Sync` is `sync()`, carrying the base currency as it reads at
      that moment; the others are the replies of the pending request; a reply
      nobody waits for changes nothing. */
  function Apply(s: Service, ev: Event): (r: Step)
    ensures r.service.fullCoin == s.fullCoin
    ensures |r.fetches| <= 1
    ensures ev.Sync? <==> |r.fetches| == 1 && r.fetches[0].FetchAnalytics?
    ensures ev.Sync? ==> r.fetches == [FetchAnalytics(s.fullCoin.coin.uid, ev.baseCurrency.code)]
    ensures r.fetches == [FetchPreview(s.fullCoin.coin.uid)] <==>
              ev.AnalyticsFailed? && s.pending == AwaitingAnalytics && RequiresPreview(ev.error)
    ensures r.service.published == s.published
            || r.service.published == s.published + [r.service.state]
    ensures r.service.state != s.state ==> r.service.published == s.published + [r.service.state]
    ensures ev.Sync? ==> r.service.state == Loading && r.service.pending == AwaitingAnalytics
    ensures ev.AnalyticsLoaded? && s.pending == AwaitingAnalytics ==>
              r.service.state == State.Success(ev.analytics) && r.service.pending == Idle
    ensures ev.AnalyticsFailed? && s.pending == AwaitingAnalytics && !RequiresPreview(ev.error) ==>
              r.service.state == Failed(ev.error) && r.service.pending == Idle
    ensures ev.AnalyticsFailed? && s.pending == AwaitingAnalytics && RequiresPreview(ev.error) ==>
              r.service == s.(pending := AwaitingPreview)
    ensures ev.PreviewLoaded? && s.pending == AwaitingPreview ==>
              r.service.state == Preview(ev.preview) && r.service.pending == Idle
    ensures ev.PreviewFailed? && s.pending == AwaitingPreview ==>
              r.service.state == Failed(ev.error) && r.service.pending == Idle
    ensures (ev.AnalyticsLoaded? || ev.AnalyticsFailed?) && s.pending != AwaitingAnalytics ==> r == Step(s, [])
    ensures (ev.PreviewLoaded? || ev.PreviewFailed?) && s.pending != AwaitingPreview ==> r == Step(s, [])
  {
    match ev
    case Sync(c) =>
      Step(Assign(s, Loading).(pending := AwaitingAnalytics), [FetchAnalytics(s.fullCoin.coin.uid, c.code)])
    case AnalyticsLoaded(a) =>
      if s.pending == AwaitingAnalytics then Step(Assign(s, State.Success(a)).(pending := Idle), []) else Step(s, [])
    case AnalyticsFailed(e) =>
      if s.pending == AwaitingAnalytics then HandleError(s.(pending := Idle), e) else Step(s, [])
    case PreviewLoaded(p) =>
      if s.pending == AwaitingPreview then Step(Assign(s, Preview(p)).(pending := Idle), []) else Step(s, [])
    case PreviewFailed(e) =>
      if s.pending == AwaitingPreview then Step(Assign(s, Failed(e)).(pending := Idle), []) else Step(s, [])
  }

  /** Events applied in order, with every request sent on the way. */
  function Run(s: Service, events: seq<Event>): Step
    decreases |events|
  {
    if |events| == 0 then Step(s, [])
    else
      var first := Apply(s, events[0]);
      var rest := Run(first.service, events[1..]);
      Step(rest.service, first.fetches + rest.fetches)
  }

  /** What every reachable service satisfies: while a request is pending the
      state is `loading`; the last emitted state is the current one; the stream
      starts with `loading`; and every other state is emitted right after a
      `loading`, so each sync shows at most one outcome. */
  predicate WellFormed(s: Service) {
    && (s.pending != Idle ==> s.state == Loading && |s.published| > 0)
    && (|s.published| == 0 ==> s.state == Loading)
    && (|s.published| > 0 ==> s.published[|s.published| - 1] == s.state && s.published[0] == Loading)
    && forall i :: 0 < i < |s.published| && s.published[i] != Loading ==> s.published[i - 1] == Loading
  }

  /** Every event keeps the service well formed. */
  lemma ApplyKeepsWellFormed(s: Service, ev: Event)
    requires WellFormed(s)
    ensures WellFormed(Apply(s, ev).service)
  {
  }


  /** However the events interleave, the service stays well formed. */
  lemma {:induction false} RunKeepsWellFormed(s: Service, events: seq<Event>)
    requires WellFormed(s)
    ensures WellFormed(Run(s, events).service)
    decreases |events|
  {
    if |events| > 0 {
      ApplyKeepsWellFormed(s, events[0]);
      RunKeepsWellFormed(Apply(s, events[0]).service, events[1..]);
    }
  }

  /** Running a first event and then the rest. */
  lemma RunCons(s: Service, ev: Event, rest: seq<Event>)
    ensures var first := Apply(s, ev);
            var after := Run(first.service, rest);
            Run(s, [ev] + rest) == Step(after.service, first.fetches + after.fetches)
  {
    assert ([ev] + rest)[1..] == rest;
  }

  /** A 401 from the analytics request followed by a preview shows the preview:
      `loading` then `preview` are emitted. */
  lemma UnauthorizedFallsBackToPreview(s: Service, c: Currency, e: Error, p: AnalyticsPreview)
    requires RequiresPreview(e)
    ensures var r := Run(s, [Sync(c), AnalyticsFailed(e), PreviewLoaded(p)]);
            && r.service.state == Preview(p)
            && r.service.published == s.published + [Loading, Preview(p)]
  {
    var r1 := Apply(s, Sync(c));
    var r2 := Apply(r1.service, AnalyticsFailed(e));
    RunCons(r2.service, PreviewLoaded(p), []);
    RunCons(r1.service, AnalyticsFailed(e), [PreviewLoaded(p)]);
    RunCons(s, Sync(c), [AnalyticsFailed(e), PreviewLoaded(p)]);
  }

  /** On a 401 the service sends the preview request right after the analytics
      request, and nothing else. */
  lemma UnauthorizedRequestsPreview(s: Service, c: Currency, e: Error)
    requires RequiresPreview(e)
    ensures Run(s, [Sync(c), AnalyticsFailed(e)]).fetches
            == [FetchAnalytics(s.fullCoin.coin.uid, c.code), FetchPreview(s.fullCoin.coin.uid)]
  {
    var r1 := Apply(s, Sync(c));
    RunCons(r1.service, AnalyticsFailed(e), []);
    RunCons(s, Sync(c), [AnalyticsFailed(e)]);
  }

  /** A 401 followed by a failed preview fails with the preview's error. */
  lemma PreviewErrorFails(s: Service, c: Currency, e: Error, previewError: Error)
    requires RequiresPreview(e)
    ensures var r := Run(s, [Sync(c), AnalyticsFailed(e), PreviewFailed(previewError)]);
            && r.service.state == Failed(previewError)
            && r.service.published == s.published + [Loading, Failed(previewError)]
  {
    var r1 := Apply(s, Sync(c));
    var r2 := Apply(r1.service, AnalyticsFailed(e));
    RunCons(r2.service, PreviewFailed(previewError), []);
    RunCons(r1.service, AnalyticsFailed(e), [PreviewFailed(previewError)]);
    RunCons(s, Sync(c), [AnalyticsFailed(e), PreviewFailed(previewError)]);
  }


  /** Any other error, a non-401 status included, fails at once. */
  lemma OtherErrorsFailWithoutPreview(s: Service, c: Currency, e: Error)
    requires !RequiresPreview(e)
    ensures var r := Run(s, [Sync(c), AnalyticsFailed(e)]);
            && r.service.state == Failed(e)
            && r.service.published == s.published + [Loading, Failed(e)]
  {
    var r1 := Apply(s, Sync(c));
    RunCons(r1.service, AnalyticsFailed(e), []);
    RunCons(s, Sync(c), [AnalyticsFailed(e)]);
  }

  /** On any other error no preview is requested: the analytics request is the
      only one sent. */
  lemma OtherErrorsRequestNoPreview(s: Service, c: Currency, e: Error)
    requires !RequiresPreview(e)
    ensures Run(s, [Sync(c), AnalyticsFailed(e)]).fetches == [FetchAnalytics(s.fullCoin.coin.uid, c.code)]
  {
    var r1 := Apply(s, Sync(c));
    RunCons(r1.service, AnalyticsFailed(e), []);
    RunCons(s, Sync(c), [AnalyticsFailed(e)]);
  }

  /** A new sync discards the previous request: its late reply is ignored.
      The new request uses the base currency of the moment, which may have
      changed in between. */
  lemma SyncDiscardsEarlierPreview(s: Service, c: Currency, later: Currency, e: Error, p: AnalyticsPreview)
    requires RequiresPreview(e)
    ensures var r := Run(s, [Sync(c), AnalyticsFailed(e), Sync(later), PreviewLoaded(p)]);
            && r.service.state == Loading && r.service.pending == AwaitingAnalytics
            && r.fetches == [FetchAnalytics(s.fullCoin.coin.uid, c.code), FetchPreview(s.fullCoin.coin.uid),
                             FetchAnalytics(s.fullCoin.coin.uid, later.code)]
  {
    var r1 := Apply(s, Sync(c));
    var r2 := Apply(r1.service, AnalyticsFailed(e));
    var r3 := Apply(r2.service, Sync(later));
    RunCons(r3.service, PreviewLoaded(p), []);
    RunCons(r2.service, Sync(later), [PreviewLoaded(p)]);
    RunCons(r1.service, AnalyticsFailed(e), [Sync(later), PreviewLoaded(p)]);
    RunCons(s, Sync(c), [AnalyticsFailed(e), Sync(later), PreviewLoaded(p)]);
  }


  /** The contract address an audit lookup uses: an EIP-20 token on Ethereum or
      BNB Smart Chain has one, no other token does. */
  function AuditAddress(t: Token): Option<string> {
    match (t.blockchainType, t.tokenType)
    case (Ethereum, Eip20(address)) => Some(address)
    case (BinanceSmartChain, Eip20(address)) => Some(address)
    case _ => None
  }

  predicate Audited(t: Token) {
    AuditAddress(t).Some?
  }

  /** The tokens' audit addresses in token order: Swift's `compactMap`. */
  function CompactAddresses(tokens: seq<Token>): seq<string>
    decreases |tokens|
  {
    if |tokens| == 0 then []
    else
      var n := |tokens| - 1;
      CompactAddresses(tokens[..n]) + (if Audited(tokens[n]) then [AuditAddress(tokens[n]).value] else [])
  }

  /** `auditAddresses`: the addresses in token order, or nothing at all when no
      token has one; never an empty list. The k-th address is the contract
      address of the k-th audited token. */
  function AuditAddresses(fullCoin: FullCoin): (r: Option<seq<string>>)
    ensures r.None? <==> forall i :: 0 <= i < |fullCoin.tokens| ==> !Audited(fullCoin.tokens[i])
    ensures r.Some? ==> |r.value| > 0
    ensures r.Some? ==>
              var idx := Positions(fullCoin.tokens, Audited);
              && |r.value| == |idx|
              && forall k :: 0 <= k < |idx| ==> r.value[k] == AuditAddress(fullCoin.tokens[idx[k]]).value
  {
    var addresses := CompactAddresses(fullCoin.tokens);
    AuditCount(fullCoin.tokens);
    AuditAddressesInTokenOrder(fullCoin.tokens);
    if |addresses| == 0 then None else Some(addresses)
  }

  /** Empty exactly when no token is audited. */
  lemma {:induction false} AuditCount(tokens: seq<Token>)
    ensures |CompactAddresses(tokens)| == 0 <==> forall i :: 0 <= i < |tokens| ==> !Audited(tokens[i])
    decreases |tokens|
  {
    if |tokens| > 0 {
      var n := |tokens| - 1;
      AuditCount(tokens[..n]);
      assert forall i :: 0 <= i < n ==> tokens[..n][i] == tokens[i];
    }
  }

  /** The addresses are exactly those of the audited tokens, one per token, in
      token order: the k-th address belongs to the k-th audited token. */
  lemma {:induction false} AuditAddressesInTokenOrder(tokens: seq<Token>)
    ensures var idx := Positions(tokens, Audited);
            var addresses := CompactAddresses(tokens);
            && |addresses| == |idx|
            && forall k :: 0 <= k < |idx| ==> addresses[k] == AuditAddress(tokens[idx[k]]).value
    decreases |tokens|
  {
    if |tokens| > 0 {
      var n := |tokens| - 1;
      AuditAddressesInTokenOrder(tokens[..n]);
      var before := Positions(tokens[..n], Audited);
      assert forall k :: 0 <= k < |before| ==> tokens[..n][before[k]] == tokens[before[k]];
    }
  }

  /** `blockchains(uids:)`: MarketKit's answer, or no blockchains when the
      lookup throws. */
  function Blockchains(lookup: seq<string> -> Result<seq<Blockchain>, Error>, uids: seq<string>): (r: seq<Blockchain>)
    ensures lookup(uids).Failure? ==> r == []
    ensures lookup(uids).Success? ==> r == lookup(uids).value
  {
    match lookup(uids)
    case Success(blockchains) => blockchains
    case Failure(_) => []
  }
}
