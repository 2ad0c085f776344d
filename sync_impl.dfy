// The phone app's side of the Wear OS link: which watch node to talk to,
// how the watch's presence is classified, and the one-byte messages sent to
// it.  The Wearable clients are abstracted: a query either answers or fails,
// and each send is given the node lookup's answer and whether the message
// went through.
module SyncImpl {
  import opened Base

  /** A Wear OS node: its id and whether it is directly connected. */
  datatype Node = Node(id: string, isNearby: bool)

  /** The answer of an asynchronous Wearable query: a value, or a thrown exception. */
  datatype Query<+T> = Answered(value: T) | Failed

  /** A capability lookup's answer: the capability's name and the nodes that advertise it. */
  datatype CapabilityInfo = CapabilityInfo(name: string, nodes: seq<Node>)

  /** A message as handed to the message client: target node, path, payload bytes (each in -128..127). */
  datatype Message = Message(nodeId: string, path: string, data: seq<int>)

  const PremiumPath: string := "premium"
  const SyncActivatedPath: string := "/batterySync/syncActivated"
  const BatteryStatusPath: string := "/batterySync/batteryStatus"

  /** The first nearby node, if any (`firstOrNull { it.isNearby }`). */
  function FirstNearby(nodes: seq<Node>): (r: Option<Node>)
    ensures r.None? <==> forall i | 0 <= i < |nodes| :: !nodes[i].isNearby
    ensures r.Some? ==> exists i | 0 <= i < |nodes| :: nodes[i] == r.value && r.value.isNearby
                          && forall j | 0 <= j < i :: !nodes[j].isNearby
  {
    if |nodes| == 0 then None
    else if nodes[0].isNearby then Some(nodes[0])
    else
      var r := FirstNearby(nodes[1..]);
      assert forall i | 1 <= i < |nodes| :: nodes[i] == nodes[1..][i - 1];
      r
  }

  /**
   * `findBestNode`: the first nearby node, otherwise the first node, and
   * null exactly when there is no node.  Node sets are taken in their
   * iteration order.
   */
  function FindBestNode(nodes: seq<Node>): (r: Option<Node>)
    ensures r.None? <==> |nodes| == 0
    ensures r.Some? ==> r.value in nodes
    ensures (exists i | 0 <= i < |nodes| :: nodes[i].isNearby) ==> r.Some? && r.value.isNearby
    ensures |nodes| > 0 && (forall i | 0 <= i < |nodes| :: !nodes[i].isNearby) ==> r == Some(nodes[0])
  {
    match FirstNearby(nodes)
    case Some(n) => Some(n)
    case None => if |nodes| == 0 then None else Some(nodes[0])
  }

  /** What the phone app reports about the watch. */
  datatype WearableStatus = NotAvailable | AvailableAppNotInstalled | AvailableAppInstalled | Error

  /**
   * `getWearableStatus`: the connected-nodes query, then (only when some node
   * is connected) the capability query; any failure is an `Error`.
   */
  function GetWearableStatus(connected: Query<seq<Node>>, capability: Query<CapabilityInfo>): (s: WearableStatus)
    ensures connected.Failed? ==> s == Error
    ensures connected.Answered? && |connected.value| == 0 ==> s == NotAvailable
    ensures connected.Answered? && |connected.value| > 0 ==>
      s == (match capability
            case Failed => Error
            case Answered(info) => if |info.nodes| == 0 then AvailableAppNotInstalled else AvailableAppInstalled)
  {
    match connected
    case Failed => Error
    case Answered(nodes) =>
      if |nodes| == 0 then NotAvailable
      else match capability
        case Failed => Error
        case Answered(info) => if |info.nodes| == 0 then AvailableAppNotInstalled else AvailableAppInstalled
  }

  /** `getConnectedWatchNode`: null when the lookup fails or answers for another capability. */
  function GetConnectedWatchNode(watchCapability: string, reachable: Query<CapabilityInfo>): (r: Option<Node>)
    ensures reachable.Failed? ==> r.None?
    ensures reachable.Answered? && reachable.value.name != watchCapability ==> r.None?
    ensures r.Some? ==> reachable.Answered? && reachable.value.name == watchCapability
                        && r.value in reachable.value.nodes
    ensures reachable.Answered? && reachable.value.name == watchCapability ==>
              (r.None? <==> |reachable.value.nodes| == 0)
  {
    match reachable
    case Failed => None
    case Answered(info) => if info.name != watchCapability then None else FindBestNode(info.nodes)
  }

  /**
   * One send towards the watch: the node the lookup found for this send, and
   * whether the message client's task then succeeds.
   */
  datatype Link = Link(watch: Option<Node>, delivers: bool)

  datatype SendError = UnableToReachWatch | SendFailed

  /** `sendMessage(...).await()` through a link: the message delivered, or why not. */
  function Send(link: Link, path: string, data: seq<int>): (r: Result<Message, SendError>)
    ensures link.watch.None? ==> r == Err(UnableToReachWatch)
    ensures link.watch.Some? && !link.delivers ==> r == Err(SendFailed)
    ensures r.Ok? <==> link.watch.Some? && link.delivers
    ensures r.Ok? ==> r.value.nodeId == link.watch.value.id && r.value.path == path && r.value.data == data
  {
    match link.watch
    case None => Err(UnableToReachWatch)
    case Some(n) => if link.delivers then Ok(Message(n.id, path, data)) else Err(SendFailed)
  }

  /** The one-byte encoding of a flag. */
  function FlagByte(b: bool): (v: int)
    ensures v == 1 || v == 0
    ensures v == 1 <==> b
  {
    if b then 1 else 0
  }

  /** `sendBatterySyncStatus`: one byte, 1 when activated and 0 otherwise; fails without a reachable watch. */
  function SendBatterySyncStatus(link: Link, syncActivated: bool): (r: Result<Message, SendError>)
    ensures r.Ok? <==> link.watch.Some? && link.delivers
    ensures r.Ok? ==> r.value.path == SyncActivatedPath && r.value.data == [FlagByte(syncActivated)]
  {
    Send(link, SyncActivatedPath, [FlagByte(syncActivated)])
  }

  /** `sendBatteryStatus`: one byte holding the percentage cut to 8 bits; fails without a reachable watch. */
  function SendBatteryStatus(link: Link, batteryPercentage: int): (r: Result<Message, SendError>)
    ensures r.Ok? <==> link.watch.Some? && link.delivers
    ensures r.Ok? ==> r.value.path == BatteryStatusPath && |r.value.data| == 1
    ensures r.Ok? && 0 <= batteryPercentage <= 127 ==> r.value.data == [batteryPercentage]
  {
    Send(link, BatteryStatusPath, [ToByte(batteryPercentage)])
  }

  /**
   * The message half of `sendPremiumStatus`: sent only when a watch node is
   * found, with payload 1 or 0.  A missing node is not an error here.
   */
  function PremiumStatusMessage(watch: Option<Node>, isUserPremium: bool): (r: Option<Message>)
    ensures r.Some? <==> watch.Some?
    ensures r.Some? ==> r.value == Message(watch.value.id, PremiumPath, [FlagByte(isUserPremium)])
  {
    match watch
    case None => None
    case Some(n) => Some(Message(n.id, PremiumPath, [FlagByte(isUserPremium)]))
  }
}
