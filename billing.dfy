// The phone app's premium check over Google Play Billing: the `iabStatus`
// machine, the persisted premium flag and its voucher override, the
// purchase-history scan, and the two purchase flows whose suspended
// continuations are resumed by the billing client's callbacks.
//
// The billing client is abstracted: each callback is an event carrying the
// response code (and purchases) it receives, and the requests the client is
// asked to make (connection, history query, acknowledgement, consumption,
// billing flow) are counted or logged.  Each suspended continuation gets a
// fresh flow id; resuming it is logged as a `Resumption` of that id.
module BillingImpl {
  import opened Base

  const SkuPremium: string := "premium"
  const DonationSkus: seq<string> :=
    ["donation_tier_1", "donation_tier_2", "donation_tier_3", "donation_tier_4", "donation_tier_5"]

  /** Play Billing's `BillingResponseCode` values the code tells apart. */
  const ResponseOk: int := 0
  const ResponseUserCanceled: int := 1
  const ResponseItemAlreadyOwned: int := 7

  datatype PremiumCheckStatus = Initializing | Checking | Error | NotPremium | Premium

  /** Why a premium purchase flow ended in `PremiumPurchaseFlowResult.Error`. */
  datatype FlowFailure =
    | NotConnected | AlreadyPremium | UnexpectedStatus | StoreUnreachable | NoSkuDetails
    | PurchaseFailed | NoPurchasedItem | LostConnection | AcknowledgeFailed

  datatype PremiumPurchaseFlowResult = Success | Cancelled | FlowError(failure: FlowFailure)

  /** What the donation continuation is resumed with: a success value, or a failure. */
  datatype DonationOutcome = Donated(done: bool) | DonationFailed

  datatype Purchase = Purchase(sku: string, purchaseToken: string, isAcknowledged: bool)

  /** One resumption of the continuation of flow `flow`. */
  datatype Resumption<+T> = Resumption(flow: nat, result: T)

  /**
   * - `iabStatus`, `storedPremium` (the storage's premium flag), `posted`
   *   (the values posted to the premium event stream, oldest first);
   * - `premiumFlow` / `donationFlow`: the id of the pending continuation;
   * - `nextFlowId`: the next id to hand out;
   * - `premiumResumes` / `donationResumes`: every resumption, in order;
   * - the billing-client requests: connections started, history queries,
   *   acknowledged and consumed purchase tokens, SKUs of launched flows.
   */
  datatype BillingState = BillingState(
    iabStatus: PremiumCheckStatus,
    storedPremium: bool,
    posted: seq<PremiumCheckStatus>,
    premiumFlow: Option<nat>,
    donationFlow: Option<nat>,
    nextFlowId: nat,
    premiumResumes: seq<Resumption<PremiumPurchaseFlowResult>>,
    donationResumes: seq<Resumption<DonationOutcome>>,
    connectionStarts: nat,
    historyQueries: nat,
    acknowledgements: seq<string>,
    consumes: seq<string>,
    billingFlows: seq<string>)

  /** The state right after construction, before `startBillingClient`. */
  function Fresh(storedPremium: bool): BillingState {
    BillingState(Initializing, storedPremium, [], None, None, 0, [], [], 0, 0, [], [], [])
  }

  /** `isUserPremium`. */
  function IsUserPremium(s: BillingState): bool {
    s.storedPremium || s.iabStatus == Premium
  }

  /** The value `setIabStatusAndNotify` posts: `NotPremium` reads as `Premium` once a voucher made storage premium. */
  function Posted(status: PremiumCheckStatus, storedPremium: bool): (r: PremiumCheckStatus)
    ensures r == Premium <==> status == Premium || (status == NotPremium && storedPremium)
    ensures r != Premium ==> r == status
  {
    if status == NotPremium && storedPremium then Premium else status
  }

  /** `setIabStatusAndNotify`: a `Premium` status is persisted before the value is posted. */
  function WithStatus(s: BillingState, status: PremiumCheckStatus): BillingState {
    var stored := s.storedPremium || status == Premium;
    s.(iabStatus := status, storedPremium := stored, posted := s.posted + [Posted(status, stored)])
  }

  /** `startBillingClient`: `Initializing`, then the connection; a throwing `startConnection` ends in `Error`. */
  function Started(s: BillingState, startThrows: bool): BillingState {
    var t := WithStatus(s, Initializing);
    if startThrows then WithStatus(t, Error) else t.(connectionStarts := t.connectionStarts + 1)
  }

  function HistoryQueried(s: BillingState): BillingState {
    s.(historyQueries := s.historyQueries + 1)
  }

  /** `premiumFlowContinuation?.resumeWith(..)` followed by clearing the field. */
  function PremiumResumed(s: BillingState, r: PremiumPurchaseFlowResult): BillingState {
    match s.premiumFlow
    case None => s
    case Some(id) => s.(premiumResumes := s.premiumResumes + [Resumption(id, r)], premiumFlow := None)
  }

  /** `premiumFlowContinuation?.resumeWith(..)` with the field left set. */
  function PremiumResumedKeepingFlow(s: BillingState, r: PremiumPurchaseFlowResult): BillingState {
    match s.premiumFlow
    case None => s
    case Some(id) => s.(premiumResumes := s.premiumResumes + [Resumption(id, r)])
  }

  /** `donationFlowContinuation?.resumeWith(..)` followed by clearing the field. */
  function DonationResumed(s: BillingState, r: DonationOutcome): BillingState {
    match s.donationFlow
    case None => s
    case Some(id) => s.(donationResumes := s.donationResumes + [Resumption(id, r)], donationFlow := None)
  }

  /** `updatePremiumStatusIfNeeded`: re-check from `NotPremium`, restart from `Error`, otherwise nothing. */
  function AfterUpdatePremiumStatusIfNeeded(s: BillingState, startThrows: bool): BillingState {
    if s.iabStatus == NotPremium then HistoryQueried(WithStatus(s, Checking))
    else if s.iabStatus == Error then Started(s, startThrows)
    else s
  }

  /** `onBillingSetupFinished`. */
  function AfterSetupFinished(s: BillingState, code: int): BillingState {
    if code != ResponseOk then WithStatus(s, Error)
    else HistoryQueried(WithStatus(s, Checking))
  }

  /** `onBillingServiceDisconnected`, with the resumed continuation cleared. */
  function AfterDisconnected(s: BillingState): BillingState {
    WithStatus(PremiumResumed(s, FlowError(LostConnection)), Error)
  }

  /** `onBillingServiceDisconnected` as written: the resumed continuation stays set. */
  function AfterDisconnectedAsWritten(s: BillingState): BillingState {
    WithStatus(PremiumResumedKeepingFlow(s, FlowError(LostConnection)), Error)
  }

  /** The first purchase of `sku`, in list order. */
  function FirstWithSku(purchases: seq<Purchase>, sku: string): (r: Option<Purchase>)
    ensures r.None? <==> forall i | 0 <= i < |purchases| :: purchases[i].sku != sku
    ensures r.Some? ==> r.value in purchases && r.value.sku == sku
    ensures r.Some? ==> exists k | 0 <= k < |purchases| ::
      r.value == purchases[k] && forall j | 0 <= j < k :: purchases[j].sku != sku
  {
    if |purchases| == 0 then None
    else if purchases[0].sku == sku then Some(purchases[0])
    else
      var r := FirstWithSku(purchases[1..], sku);
      assert forall i | 1 <= i < |purchases| :: purchases[i] == purchases[1..][i - 1];
      r
  }

  /** The tokens of the purchases not yet acknowledged, in list order. */
  function Unacknowledged(purchases: seq<Purchase>): (r: seq<string>)
    ensures |r| <= |purchases|
    ensures |r| == 0 <==> forall i | 0 <= i < |purchases| :: purchases[i].isAcknowledged
    ensures forall t :: t in r <==>
      exists i | 0 <= i < |purchases| :: !purchases[i].isAcknowledged && purchases[i].purchaseToken == t
  {
    if |purchases| == 0 then []
    else
      var rest := Unacknowledged(purchases[1..]);
      assert forall i | 1 <= i < |purchases| :: purchases[i] == purchases[1..][i - 1];
      if purchases[0].isAcknowledged then rest else [purchases[0].purchaseToken] + rest
  }

  /** The status a purchase-history response leads to. */
  function HistoryStatus(code: int, records: Option<seq<string>>): (r: PremiumCheckStatus)
    ensures r == Error <==> code != ResponseOk
    ensures r == Premium <==> code == ResponseOk && records.Some? && SkuPremium in records.value
    ensures r == Error || r == Premium || r == NotPremium
  {
    if code != ResponseOk then Error
    else if records.Some? && SkuPremium in records.value then Premium
    else NotPremium
  }

  /** `onPurchaseHistoryResponse`. */
  function AfterHistoryResponse(s: BillingState, code: int, records: Option<seq<string>>): BillingState {
    WithStatus(s, HistoryStatus(code, records))
  }

  /**
   * `launchPremiumPurchaseFlow` up to its suspension: the new state and, when
   * it returns at once, its result (None: suspended on the billing flow).
   * `details` are the SKU details the query returned (null read as empty).
   */
  function PremiumFlowLaunched(s: BillingState, code: int, details: seq<string>): (BillingState, Option<PremiumPurchaseFlowResult>) {
    if s.iabStatus != NotPremium then
      (s, Some(FlowError(if s.iabStatus == Error then NotConnected
                         else if s.iabStatus == Premium then AlreadyPremium
                         else UnexpectedStatus)))
    else if code != ResponseOk then
      if code == ResponseItemAlreadyOwned then (WithStatus(s, Premium), Some(Success))
      else (s, Some(FlowError(StoreUnreachable)))
    else if |details| == 0 then (s, Some(FlowError(NoSkuDetails)))
    else (s.(premiumFlow := Some(s.nextFlowId), nextFlowId := s.nextFlowId + 1,
             billingFlows := s.billingFlows + [details[0]]), None)
  }

  /** `launchDonationPurchaseFlow` up to its suspension. */
  function DonationFlowLaunched(s: BillingState, sku: string): BillingState {
    s.(donationFlow := Some(s.nextFlowId), nextFlowId := s.nextFlowId + 1, billingFlows := s.billingFlows + [sku])
  }

  datatype DonationsError = NotSetUp | DonationsStoreUnreachable | NoDonationDetails

  /**
   * `getDonationsSKUs`: refused while the client is `Initializing` or in
   * `Error`; otherwise the details the store returns for the five tiers.
   */
  function DonationsSkus(status: PremiumCheckStatus, code: int, details: Option<seq<string>>): (r: Result<seq<string>, DonationsError>)
    ensures r == Err(NotSetUp) <==> status == Initializing || status == Error
    ensures r.Ok? <==> status != Initializing && status != Error && code == ResponseOk && details.Some?
    ensures r.Ok? ==> r.value == details.value
  {
    if status == Initializing || status == Error then Err(NotSetUp)
    else if code != ResponseOk then Err(DonationsStoreUnreachable)
    else if details.None? then Err(NoDonationDetails)
    else Ok(details.value)
  }

  /**
   * `onPurchasesUpdated`, with the `ITEM_ALREADY_OWNED` branch clearing the
   * continuation it resumed like every other branch.  A pending premium flow
   * takes the update; otherwise a pending donation flow; otherwise it is
   * ignored.
   */
  function AfterPurchasesUpdated(s: BillingState, code: int, purchases: Option<seq<Purchase>>): BillingState {
    if s.premiumFlow.Some? then
      if code != ResponseOk then
        if code == ResponseUserCanceled then PremiumResumed(s, Cancelled)
        else if code == ResponseItemAlreadyOwned then PremiumResumed(WithStatus(s, Premium), Success)
        else PremiumResumed(s, FlowError(PurchaseFailed))
      else if purchases.None? || |purchases.value| == 0 then PremiumResumed(s, FlowError(NoPurchasedItem))
      else match FirstWithSku(purchases.value, SkuPremium)
        case Some(p) => s.(acknowledgements := s.acknowledgements + [p.purchaseToken])
        case None => PremiumResumed(s, FlowError(NoPurchasedItem))
    else if s.donationFlow.Some? then
      if code != ResponseOk then
        DonationResumed(s, if code == ResponseUserCanceled then Donated(false) else DonationFailed)
      else if purchases.None? || |purchases.value| == 0 then DonationResumed(s, DonationFailed)
      else
        var tokens := Unacknowledged(purchases.value);
        if |tokens| == 0 then DonationResumed(s, DonationFailed)
        else s.(consumes := s.consumes + tokens)
    else s
  }

  /** `onPurchasesUpdated` as written: `ITEM_ALREADY_OWNED` resumes the premium continuation and leaves it set. */
  function AfterPurchasesUpdatedAsWritten(s: BillingState, code: int, purchases: Option<seq<Purchase>>): BillingState {
    if s.premiumFlow.Some? && code == ResponseItemAlreadyOwned then
      PremiumResumedKeepingFlow(WithStatus(s, Premium), Success)
    else AfterPurchasesUpdated(s, code, purchases)
  }

  /** The callback of one `consumeAsync`. */
  function AfterConsumed(s: BillingState, ok: bool): BillingState {
    DonationResumed(s, if ok then Donated(true) else DonationFailed)
  }

  /** `onAcknowledgePurchaseResponse`. */
  function AfterAcknowledged(s: BillingState, code: int): BillingState {
    if code != ResponseOk then PremiumResumed(s, FlowError(AcknowledgeFailed))
    else PremiumResumed(WithStatus(s, Premium), Success)
  }

  /** Everything that can happen to the billing object, as one event. */
  datatype BillingEvent =
    | StartClient(startThrows: bool)
    | UpdateIfNeeded(startThrows: bool)
    | LaunchPremium(code: int, details: seq<string>)
    | LaunchDonation(sku: string)
    | SetupFinished(code: int)
    | Disconnected
    | HistoryResponse(code: int, records: Option<seq<string>>)
    | PurchasesUpdated(code: int, purchases: Option<seq<Purchase>>)
    | Consumed(ok: bool)
    | Acknowledged(code: int)

  function Step(s: BillingState, e: BillingEvent): BillingState {
    match e
    case StartClient(t) => Started(s, t)
    case UpdateIfNeeded(t) => AfterUpdatePremiumStatusIfNeeded(s, t)
    case LaunchPremium(code, details) => PremiumFlowLaunched(s, code, details).0
    case LaunchDonation(sku) => DonationFlowLaunched(s, sku)
    case SetupFinished(code) => AfterSetupFinished(s, code)
    case Disconnected => AfterDisconnected(s)
    case HistoryResponse(code, records) => AfterHistoryResponse(s, code, records)
    case PurchasesUpdated(code, purchases) => AfterPurchasesUpdated(s, code, purchases)
    case Consumed(ok) => AfterConsumed(s, ok)
    case Acknowledged(code) => AfterAcknowledged(s, code)
  }

  /** The same events with the two callbacks as written. */
  function StepAsWritten(s: BillingState, e: BillingEvent): BillingState {
    match e
    case Disconnected => AfterDisconnectedAsWritten(s)
    case PurchasesUpdated(code, purchases) => AfterPurchasesUpdatedAsWritten(s, code, purchases)
    case _ => Step(s, e)
  }

  function Run(s: BillingState, events: seq<BillingEvent>): BillingState
    decreases |events|
  {
    if |events| == 0 then s else Run(Step(s, events[0]), events[1..])
  }

  function RunAsWritten(s: BillingState, events: seq<BillingEvent>): BillingState
    decreases |events|
  {
    if |events| == 0 then s else RunAsWritten(StepAsWritten(s, events[0]), events[1..])
  }

  /** No flow is resumed twice, and only flows already handed out were resumed. */
  predicate ResumedOnce<T>(rs: seq<Resumption<T>>, next: nat) {
    (forall i, j | 0 <= i < j < |rs| :: rs[i].flow != rs[j].flow)
    && (forall i | 0 <= i < |rs| :: rs[i].flow < next)
  }

  /** A pending continuation was handed out and has not been resumed yet. */
  predicate PendingFresh<T>(flow: Option<nat>, rs: seq<Resumption<T>>, next: nat) {
    flow.Some? ==> flow.value < next && forall i | 0 <= i < |rs| :: rs[i].flow != flow.value
  }

  /**
   * The billing object's invariant: a `Premium` status is always persisted,
   * and every continuation is resumed at most once.
   */
  predicate Coherent(s: BillingState) {
    (s.iabStatus == Premium ==> s.storedPremium)
    && ResumedOnce(s.premiumResumes, s.nextFlowId) && ResumedOnce(s.donationResumes, s.nextFlowId)
    && PendingFresh(s.premiumFlow, s.premiumResumes, s.nextFlowId)
    && PendingFresh(s.donationFlow, s.donationResumes, s.nextFlowId)
  }

  lemma WithStatusKeepsCoherent(s: BillingState, status: PremiumCheckStatus)
    requires Coherent(s)
    ensures Coherent(WithStatus(s, status))
    ensures WithStatus(s, status).storedPremium == (s.storedPremium || status == Premium)
  {
  }

  lemma PremiumResumedKeepsCoherent(s: BillingState, r: PremiumPurchaseFlowResult)
    requires Coherent(s)
    ensures Coherent(PremiumResumed(s, r))
  {
  }

  lemma DonationResumedKeepsCoherent(s: BillingState, r: DonationOutcome)
    requires Coherent(s)
    ensures Coherent(DonationResumed(s, r))
  {
  }

  /**
   * Every event keeps the invariant, and a persisted premium flag is never
   * cleared.
   */
  lemma StepKeepsCoherent(s: BillingState, e: BillingEvent)
    requires Coherent(s)
    ensures Coherent(Step(s, e))
    ensures s.storedPremium ==> Step(s, e).storedPremium
  {
    match e
    case StartClient(t) =>
      WithStatusKeepsCoherent(s, Initializing);
      WithStatusKeepsCoherent(WithStatus(s, Initializing), Error);
    case UpdateIfNeeded(t) =>
      WithStatusKeepsCoherent(s, Checking);
      WithStatusKeepsCoherent(s, Initializing);
      WithStatusKeepsCoherent(WithStatus(s, Initializing), Error);
    case LaunchPremium(code, details) =>
      WithStatusKeepsCoherent(s, Premium);
    case LaunchDonation(sku) =>
    case SetupFinished(code) =>
      WithStatusKeepsCoherent(s, Error);
      WithStatusKeepsCoherent(s, Checking);
    case Disconnected =>
      PremiumResumedKeepsCoherent(s, FlowError(LostConnection));
      WithStatusKeepsCoherent(PremiumResumed(s, FlowError(LostConnection)), Error);
    case HistoryResponse(code, records) =>
      WithStatusKeepsCoherent(s, HistoryStatus(code, records));
    case PurchasesUpdated(code, purchases) =>
      PurchasesUpdatedKeepsCoherent(s, code, purchases);
    case Consumed(ok) =>
      DonationResumedKeepsCoherent(s, if ok then Donated(true) else DonationFailed);
    case Acknowledged(code) =>
      PremiumResumedKeepsCoherent(s, FlowError(AcknowledgeFailed));
      WithStatusKeepsCoherent(s, Premium);
      PremiumResumedKeepsCoherent(WithStatus(s, Premium), Success);
  }

  lemma PurchasesUpdatedKeepsCoherent(s: BillingState, code: int, purchases: Option<seq<Purchase>>)
    requires Coherent(s)
    ensures Coherent(AfterPurchasesUpdated(s, code, purchases))
    ensures s.storedPremium ==> AfterPurchasesUpdated(s, code, purchases).storedPremium
  {
    PremiumResumedKeepsCoherent(s, Cancelled);
    PremiumResumedKeepsCoherent(s, FlowError(PurchaseFailed));
    PremiumResumedKeepsCoherent(s, FlowError(NoPurchasedItem));
    WithStatusKeepsCoherent(s, Premium);
    PremiumResumedKeepsCoherent(WithStatus(s, Premium), Success);
    DonationResumedKeepsCoherent(s, Donated(false));
    DonationResumedKeepsCoherent(s, DonationFailed);
  }

  /** Any run of events keeps the invariant and never forgets a persisted premium. */
  lemma {:induction false} RunKeepsCoherent(s: BillingState, events: seq<BillingEvent>)
    requires Coherent(s)
    ensures Coherent(Run(s, events))
    ensures s.storedPremium ==> Run(s, events).storedPremium
    decreases |events|
  {
    if |events| > 0 {
      StepKeepsCoherent(s, events[0]);
      RunKeepsCoherent(Step(s, events[0]), events[1..]);
    }
  }

  /** Under the invariant a user is premium exactly when storage says so. */
  lemma PremiumIsPersisted(s: BillingState)
    requires Coherent(s)
    ensures IsUserPremium(s) == s.storedPremium
  {
  }

  /** A client that connected and found no premium purchase, with no flow pending. */
  function CheckedNotPremium(): BillingState {
    AfterHistoryResponse(AfterSetupFinished(Started(Fresh(false), false), ResponseOk), ResponseOk, Some([]))
  }

  /** A premium flow launched from `CheckedNotPremium()`: flow 0 is pending. */
  function PremiumFlowPending(): (s: BillingState)
    ensures s.premiumFlow == Some(0) && s.nextFlowId == 1 && s.iabStatus == NotPremium
    ensures s.premiumResumes == [] && s.donationResumes == [] && s.donationFlow == None
    ensures s.consumes == [] && s.acknowledgements == [] && !s.storedPremium
  {
    PremiumFlowLaunched(CheckedNotPremium(), ResponseOk, [SkuPremium]).0
  }

  /** A donation purchase, not yet acknowledged. */
  const DonationPurchase: Purchase := Purchase("donation_tier_1", "token", false)

  /**
   * As written, `ITEM_ALREADY_OWNED` leaves the premium continuation set: a
   * later donation purchase is then routed to it and resumes it a second
   * time, while the donation continuation is never resumed.
   */
  lemma AlreadyOwnedResumesTwice()
    ensures var s1 := AfterPurchasesUpdatedAsWritten(PremiumFlowPending(), ResponseItemAlreadyOwned, None);
            var s2 := DonationFlowLaunched(s1, "donation_tier_1");
            var s := AfterPurchasesUpdatedAsWritten(s2, ResponseOk, Some([DonationPurchase]));
      s.premiumResumes == [Resumption(0, Success), Resumption(0, FlowError(NoPurchasedItem))]
      && s.donationFlow == Some(1) && s.donationResumes == [] && s.consumes == []
      && !Coherent(s)
  {
    var s1 := AfterPurchasesUpdatedAsWritten(PremiumFlowPending(), ResponseItemAlreadyOwned, None);
    assert s1.premiumFlow == Some(0) && s1.premiumResumes == [Resumption(0, Success)];
    var s2 := DonationFlowLaunched(s1, "donation_tier_1");
    assert s2.premiumFlow == Some(0) && s2.donationFlow == Some(1) && s2.donationResumes == [];
    assert FirstWithSku([DonationPurchase], SkuPremium) == None;
    var s := AfterPurchasesUpdatedAsWritten(s2, ResponseOk, Some([DonationPurchase]));
    assert s == PremiumResumed(s2, FlowError(NoPurchasedItem));
    assert s.premiumResumes[0].flow == s.premiumResumes[1].flow;
  }

  /** The same events, with the continuation cleared: one resumption each, and the donation is consumed. */
  lemma AlreadyOwnedResumesOnce()
    ensures var s1 := AfterPurchasesUpdated(PremiumFlowPending(), ResponseItemAlreadyOwned, None);
            var s2 := DonationFlowLaunched(s1, "donation_tier_1");
            var s := AfterPurchasesUpdated(s2, ResponseOk, Some([DonationPurchase]));
      s.premiumResumes == [Resumption(0, Success)]
      && s.donationFlow == Some(1) && s.consumes == ["token"]
  {
    var s1 := AfterPurchasesUpdated(PremiumFlowPending(), ResponseItemAlreadyOwned, None);
    assert s1.premiumFlow == None && s1.premiumResumes == [Resumption(0, Success)];
    var s2 := DonationFlowLaunched(s1, "donation_tier_1");
    assert s2.donationFlow == Some(1) && s2.consumes == [];
    assert Unacknowledged([DonationPurchase]) == ["token"] + Unacknowledged([]);
  }

  /** A premium purchase, not yet acknowledged. */
  const PremiumPurchase: Purchase := Purchase(SkuPremium, "token", false)

  /**
   * As written, a disconnection while an acknowledgement is outstanding
   * resumes the premium continuation with an error and leaves it set; the
   * acknowledgement then resumes it again.
   */
  lemma DisconnectResumesTwice()
    ensures var s1 := AfterPurchasesUpdatedAsWritten(PremiumFlowPending(), ResponseOk, Some([PremiumPurchase]));
            var s := AfterAcknowledged(AfterDisconnectedAsWritten(s1), ResponseOk);
      s1.acknowledgements == ["token"]
      && s.premiumResumes == [Resumption(0, FlowError(LostConnection)), Resumption(0, Success)]
      && !Coherent(s)
  {
    assert FirstWithSku([PremiumPurchase], SkuPremium) == Some(PremiumPurchase);
    var s1 := AfterPurchasesUpdatedAsWritten(PremiumFlowPending(), ResponseOk, Some([PremiumPurchase]));
    assert s1.premiumFlow == Some(0) && s1.premiumResumes == [];
    var s2 := AfterDisconnectedAsWritten(s1);
    assert s2.premiumFlow == Some(0) && s2.premiumResumes == [Resumption(0, FlowError(LostConnection))];
    var s := AfterAcknowledged(s2, ResponseOk);
    assert s.premiumResumes[0].flow == s.premiumResumes[1].flow;
  }

  /** The same events with the continuation cleared on disconnection: resumed once, with the error. */
  lemma DisconnectResumesOnce()
    ensures var s1 := AfterPurchasesUpdated(PremiumFlowPending(), ResponseOk, Some([PremiumPurchase]));
            var s := AfterAcknowledged(AfterDisconnected(s1), ResponseOk);
      s1.acknowledgements == ["token"]
      && s.premiumResumes == [Resumption(0, FlowError(LostConnection))]
      && s.iabStatus == Premium && s.storedPremium
  {
    assert FirstWithSku([PremiumPurchase], SkuPremium) == Some(PremiumPurchase);
  }

  /** The `for` loop of `onPurchaseHistoryResponse`: whether some record is the premium SKU. */
  method ScanForPremium(records: seq<string>) returns (premium: bool)
    ensures premium <==> SkuPremium in records
  {
    premium := false;
    for i := 0 to |records|
      invariant premium <==> SkuPremium in records[..i]
    {
      assert records[..i + 1] == records[..i] + [records[i]];
      if SkuPremium == records[i] {
        premium := true;
      }
    }
    assert records[..|records|] == records;
  }

  class Billing {
    var iabStatus: PremiumCheckStatus
    var storedPremium: bool
    var posted: seq<PremiumCheckStatus>
    var premiumFlow: Option<nat>
    var donationFlow: Option<nat>
    var nextFlowId: nat
    var premiumResumes: seq<Resumption<PremiumPurchaseFlowResult>>
    var donationResumes: seq<Resumption<DonationOutcome>>
    var connectionStarts: nat
    var historyQueries: nat
    var acknowledgements: seq<string>
    var consumes: seq<string>
    var billingFlows: seq<string>

    function State(): BillingState
      reads this
    {
      BillingState(iabStatus, storedPremium, posted, premiumFlow, donationFlow, nextFlowId,
                   premiumResumes, donationResumes, connectionStarts, historyQueries,
                   acknowledgements, consumes, billingFlows)
    }

    predicate Valid()
      reads this
    {
      Coherent(State())
    }

    /** The constructor: fields initialised, then `startBillingClient` from the `init` block. */
    constructor (storedPremium: bool, startThrows: bool)
      ensures Valid()
      ensures State() == Started(Fresh(storedPremium), startThrows)
    {
      iabStatus := Initializing;
      this.storedPremium := storedPremium;
      posted := [];
      premiumFlow := None;
      donationFlow := None;
      nextFlowId := 0;
      premiumResumes := [];
      donationResumes := [];
      connectionStarts := 0;
      historyQueries := 0;
      acknowledgements := [];
      consumes := [];
      billingFlows := [];
      new;
      StartBillingClient(startThrows);
    }

    method SetIabStatusAndNotify(status: PremiumCheckStatus)
      requires Valid()
      modifies this
      ensures Valid()
      ensures State() == WithStatus(old(State()), status)
    {
      WithStatusKeepsCoherent(State(), status);
      iabStatus := status;
      if status == Premium {
        storedPremium := true;
      }
      if status == NotPremium && storedPremium {
        posted := posted + [Premium];
        return;
      }
      posted := posted + [status];
    }

    method StartBillingClient(startThrows: bool)
      requires Valid()
      modifies this
      ensures Valid()
      ensures State() == Started(old(State()), startThrows)
    {
      SetIabStatusAndNotify(Initializing);
      if startThrows {
        SetIabStatusAndNotify(Error);
      } else {
        connectionStarts := connectionStarts + 1;
      }
    }

    method ResumePremium(r: PremiumPurchaseFlowResult)
      requires Valid()
      modifies this
      ensures Valid()
      ensures State() == PremiumResumed(old(State()), r)
    {
      PremiumResumedKeepsCoherent(State(), r);
      if premiumFlow.Some? {
        premiumResumes := premiumResumes + [Resumption(premiumFlow.value, r)];
      }
      premiumFlow := None;
    }

    method ResumeDonation(r: DonationOutcome)
      requires Valid()
      modifies this
      ensures Valid()
      ensures State() == DonationResumed(old(State()), r)
    {
      DonationResumedKeepsCoherent(State(), r);
      if donationFlow.Some? {
        donationResumes := donationResumes + [Resumption(donationFlow.value, r)];
      }
      donationFlow := None;
    }

    function IsUserPremium(): (r: bool)
      reads this
      ensures Valid() ==> (r <==> storedPremium)
    {
      storedPremium || iabStatus == Premium
    }

    method UpdatePremiumStatusIfNeeded(startThrows: bool)
      requires Valid()
      modifies this
      ensures Valid()
      ensures State() == AfterUpdatePremiumStatusIfNeeded(old(State()), startThrows)
    {
      if iabStatus == NotPremium {
        SetIabStatusAndNotify(Checking);
        historyQueries := historyQueries + 1;
      } else if iabStatus == Error {
        StartBillingClient(startThrows);
      }
    }

    /** `launchPremiumPurchaseFlow`: None when it suspends on the billing flow. */
    method LaunchPremiumPurchaseFlow(code: int, details: seq<string>) returns (r: Option<PremiumPurchaseFlowResult>)
      requires Valid()
      modifies this
      ensures Valid()
      ensures (State(), r) == PremiumFlowLaunched(old(State()), code, details)
    {
      if iabStatus != NotPremium {
        r := Some(FlowError(if iabStatus == Error then NotConnected
                            else if iabStatus == Premium then AlreadyPremium
                            else UnexpectedStatus));
        return;
      }
      if code != ResponseOk {
        if code == ResponseItemAlreadyOwned {
          SetIabStatusAndNotify(Premium);
          r := Some(Success);
          return;
        }
        r := Some(FlowError(StoreUnreachable));
        return;
      }
      if |details| == 0 {
        r := Some(FlowError(NoSkuDetails));
        return;
      }
      premiumFlow := Some(nextFlowId);
      nextFlowId := nextFlowId + 1;
      billingFlows := billingFlows + [details[0]];
      r := None;
    }

    method GetDonationsSkus(code: int, details: Option<seq<string>>) returns (r: Result<seq<string>, DonationsError>)
      ensures r == DonationsSkus(iabStatus, code, details)
    {
      if iabStatus == Initializing || iabStatus == Error {
        return Err(NotSetUp);
      }
      if code != ResponseOk {
        return Err(DonationsStoreUnreachable);
      }
      if details.None? {
        return Err(NoDonationDetails);
      }
      return Ok(details.value);
    }

    method LaunchDonationPurchaseFlow(sku: string)
      requires Valid()
      modifies this
      ensures Valid()
      ensures State() == DonationFlowLaunched(old(State()), sku)
    {
      donationFlow := Some(nextFlowId);
      nextFlowId := nextFlowId + 1;
      billingFlows := billingFlows + [sku];
    }

    method OnBillingSetupFinished(code: int)
      requires Valid()
      modifies this
      ensures Valid()
      ensures State() == AfterSetupFinished(old(State()), code)
    {
      if code != ResponseOk {
        SetIabStatusAndNotify(Error);
        return;
      }
      SetIabStatusAndNotify(Checking);
      historyQueries := historyQueries + 1;
    }

    method OnBillingServiceDisconnected()
      requires Valid()
      modifies this
      ensures Valid()
      ensures State() == AfterDisconnected(old(State()))
    {
      ResumePremium(FlowError(LostConnection));
      SetIabStatusAndNotify(Error);
    }

    method OnPurchaseHistoryResponse(code: int, records: Option<seq<string>>)
      requires Valid()
      modifies this
      ensures Valid()
      ensures State() == AfterHistoryResponse(old(State()), code, records)
    {
      if code != ResponseOk {
        SetIabStatusAndNotify(Error);
        return;
      }
      var premium := false;
      if records.Some? {
        premium := ScanForPremium(records.value);
      }
      SetIabStatusAndNotify(if premium then Premium else NotPremium);
    }

    method OnPurchasesUpdated(code: int, purchases: Option<seq<Purchase>>)
      requires Valid()
      modifies this
      ensures Valid()
      ensures State() == AfterPurchasesUpdated(old(State()), code, purchases)
    {
      if premiumFlow.Some? {
        PremiumPurchasesUpdated(code, purchases);
      } else if donationFlow.Some? {
        DonationPurchasesUpdated(code, purchases);
      }
    }

    /** The premium half of `onPurchasesUpdated`. */
    method PremiumPurchasesUpdated(code: int, purchases: Option<seq<Purchase>>)
      requires Valid() && premiumFlow.Some?
      modifies this
      ensures Valid()
      ensures State() == AfterPurchasesUpdated(old(State()), code, purchases)
    {
      if code != ResponseOk {
        if code == ResponseUserCanceled {
          ResumePremium(Cancelled);
        } else if code == ResponseItemAlreadyOwned {
          SetIabStatusAndNotify(Premium);
          ResumePremium(Success);
        } else {
          ResumePremium(FlowError(PurchaseFailed));
        }
        return;
      }
      if purchases.None? || |purchases.value| == 0 {
        ResumePremium(FlowError(NoPurchasedItem));
        return;
      }
      var ps := purchases.value;
      for i := 0 to |ps|
        invariant FirstWithSku(ps, SkuPremium) == FirstWithSku(ps[i..], SkuPremium)
      {
        assert ps[i..][1..] == ps[i + 1..];
        if SkuPremium == ps[i].sku {
          acknowledgements := acknowledgements + [ps[i].purchaseToken];
          return;
        }
      }
      ResumePremium(FlowError(NoPurchasedItem));
    }

    /** The donation half of `onPurchasesUpdated`, run when no premium flow is pending. */
    method DonationPurchasesUpdated(code: int, purchases: Option<seq<Purchase>>)
      requires Valid() && premiumFlow.None? && donationFlow.Some?
      modifies this
      ensures Valid()
      ensures State() == AfterPurchasesUpdated(old(State()), code, purchases)
    {
      if code != ResponseOk {
        ResumeDonation(if code == ResponseUserCanceled then Donated(false) else DonationFailed);
        return;
      }
      if purchases.None? || |purchases.value| == 0 {
        ResumeDonation(DonationFailed);
        return;
      }
      var ps := purchases.value;
      var hasPurchaseToAck := false;
      var requested: seq<string> := [];
      for i := 0 to |ps|
        invariant requested + Unacknowledged(ps[i..]) == Unacknowledged(ps)
        invariant hasPurchaseToAck <==> |requested| > 0
      {
        assert ps[i..][1..] == ps[i + 1..];
        if !ps[i].isAcknowledged {
          hasPurchaseToAck := true;
          requested := requested + [ps[i].purchaseToken];
        }
      }
      assert ps[|ps|..] == [];
      if !hasPurchaseToAck {
        ResumeDonation(DonationFailed);
      } else {
        consumes := consumes + requested;
      }
    }

    /** The callback given to one `consumeAsync`. */
    method OnConsumeResponse(ok: bool)
      requires Valid()
      modifies this
      ensures Valid()
      ensures State() == AfterConsumed(old(State()), ok)
    {
      ResumeDonation(if ok then Donated(true) else DonationFailed);
    }

    method OnAcknowledgePurchaseResponse(code: int)
      requires Valid()
      modifies this
      ensures Valid()
      ensures State() == AfterAcknowledged(old(State()), code)
    {
      if code != ResponseOk {
        ResumePremium(FlowError(AcknowledgeFailed));
        return;
      }
      SetIabStatusAndNotify(Premium);
      ResumePremium(Success);
    }
  }
}
