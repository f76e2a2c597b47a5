/**
  The registry of websocket connections: the map from users to broadcast channels, the receivers
  subscribed to each channel, the cleanup task every connection leaves behind, forced closing, and
  the network status flag. Channels get generation numbers, so a user's second channel is told from
  the first. One event is what happens under one lock, or one atomic operation.
 */
module RegistryModel {
  import opened Common

  type UserId = nat
  type ClientId = nat
  type Channel = nat

  datatype Message = StatusOnly(ok: bool) | Notification(id: nat)

  datatype Phase =
    | Running     // holds its receiver
    | CleaningUp  // receiver dropped, the task has yet to take the lock
    | Finished

  /** `queue` is everything ever sent to this receiver. */
  datatype Client = Client(user: UserId, channel: Channel, phase: Phase, queue: seq<Message>)

  datatype Registry = Registry(
    users: map<UserId, Channel>,
    clients: map<ClientId, Client>,
    closing: set<Channel>,            // taken out of the map, sender not dropped yet
    closed: set<Channel>,             // sender dropped
    nextChannel: Channel,
    owner: map<Channel, UserId>,
    statusOk: bool,
    announcing: Option<bool>)         // stored, not broadcast yet

  const INITIAL := Registry(map[], map[], {}, {}, 0, map[], true, None)

  predicate Receives(s: Registry, c: ClientId, g: Channel) {
    c in s.clients && s.clients[c].phase.Running? && s.clients[c].channel == g
  }

  /** `receiver_count` is the size of this set. */
  function Receivers(s: Registry, g: Channel): set<ClientId> {
    set c | c in s.clients && Receives(s, c, g)
  }

  /** Subscribed to the channel the map holds for its user. */
  predicate Registered(s: Registry, c: ClientId) {
    && c in s.clients && s.clients[c].phase.Running?
    && s.clients[c].user in s.users && s.users[s.clients[c].user] == s.clients[c].channel
  }

  /** `broadcast::Sender::send`. */
  function SendTo(s: Registry, g: Channel, m: Message): Registry {
    s.(clients := map c | c in s.clients ::
         if Receives(s, c, g) then s.clients[c].(queue := s.clients[c].queue + [m]) else s.clients[c])
  }

  /** Finding or creating the user's channel and subscribing to it. */
  function Subscribe(s: Registry, c: ClientId, u: UserId): Registry {
    var known := u in s.users;
    var g := if known then s.users[u] else s.nextChannel;
    s.(users := s.users[u := g],
       nextChannel := if known then s.nextChannel else g + 1,
       owner := s.owner[g := u],
       clients := s.clients[c := Client(u, g, Running, [])])
  }

  /** `handle_client` up to the release of the write lock, and the spawn that follows it. */
  function Connect(s: Registry, c: ClientId, u: UserId): Registry {
    var s := Subscribe(s, c, u);
    if s.statusOk then s else SendTo(s, s.users[u], StatusOnly(false))
  }

  function End(s: Registry, c: ClientId): Registry
    requires c in s.clients
  {
    s.(clients := s.clients[c := s.clients[c].(phase := CleaningUp)])
  }

  function Finish(s: Registry, c: ClientId): Registry
    requires c in s.clients
  {
    s.(clients := s.clients[c := s.clients[c].(phase := Finished)])
  }

  /** What the spawned task does after the connection ended. */
  function CleanUp(s: Registry, c: ClientId): Registry
    requires c in s.clients
  {
    var u := s.clients[c].user;
    var s := Finish(s, c);
    if u in s.users && |Receivers(s, s.users[u])| == 0 then
      s.(users := s.users - {u}, closed := s.closed + {s.users[u]})
    else s
  }

  /** `close_connections` under the lock; the sender it took is dropped later. */
  function TakeOut(s: Registry, u: UserId): Registry {
    if u in s.users then s.(users := s.users - {u}, closing := s.closing + {s.users[u]}) else s
  }

  function DropSender(s: Registry, g: Channel): Registry {
    s.(closing := s.closing - {g}, closed := s.closed + {g})
  }

  /** `send_multicast`: one send for every occurrence of a connected user in the list. */
  function Multicast(s: Registry, ids: seq<UserId>, m: Message): Registry
    decreases |ids|
  {
    if ids == [] then s
    else Multicast(if ids[0] in s.users then SendTo(s, s.users[ids[0]], m) else s, ids[1..], m)
  }

  /** `send_broadcast`: everyone registered gets the message. */
  function Broadcast(s: Registry, m: Message): Registry {
    s.(clients := map c | c in s.clients ::
         if Registered(s, c) then s.clients[c].(queue := s.clients[c].queue + [m]) else s.clients[c])
  }

  /** `send`: an empty list of users means everyone. */
  function SendNotification(s: Registry, ids: seq<UserId>, id: nat): Registry {
    if ids == [] then Broadcast(s, Notification(id)) else Multicast(s, ids, Notification(id))
  }

  function StoreStatus(s: Registry, ok: bool): Registry {
    s.(statusOk := ok, announcing := Some(ok))
  }

  function AnnounceStatus(s: Registry, ok: bool): Registry {
    Broadcast(s, StatusOnly(ok)).(announcing := None)
  }

  datatype Event =
    | Connects(client: ClientId, user: UserId)
    | Ends(ending: ClientId)
    | CleansUp(cleaning: ClientId)
    | ForcesClose(target: UserId)
    | DropsSender(channel: Channel)
    | Notifies(ids: seq<UserId>, notification: nat)
    | StoresStatus(ok: bool)
    | AnnouncesStatus

  /** Status updates come from one caller that awaits each of them, so they never overlap. */
  predicate Enabled(s: Registry, e: Event) {
    match e
    case Connects(c, _) => c !in s.clients
    case Ends(c) => c in s.clients && s.clients[c].phase.Running?
    case CleansUp(c) => c in s.clients && s.clients[c].phase.CleaningUp?
    case ForcesClose(_) => true
    case DropsSender(g) => g in s.closing
    case Notifies(_, _) => true
    case StoresStatus(_) => s.announcing.None?
    case AnnouncesStatus => s.announcing.Some?
  }

  function Apply(s: Registry, e: Event): Registry
    requires Enabled(s, e)
  {
    match e
    case Connects(c, u) => Connect(s, c, u)
    case Ends(c) => End(s, c)
    case CleansUp(c) => CleanUp(s, c)
    case ForcesClose(u) => TakeOut(s, u)
    case DropsSender(g) => DropSender(s, g)
    case Notifies(ids, id) => SendNotification(s, ids, id)
    case StoresStatus(ok) => StoreStatus(s, ok)
    case AnnouncesStatus => AnnounceStatus(s, s.announcing.value)
  }

  ghost predicate Run(ss: seq<Registry>, es: seq<Event>) {
    && |ss| == |es| + 1 && ss[0] == INITIAL
    && forall i :: 0 <= i < |es| ==> Enabled(ss[i], es[i]) && ss[i + 1] == Apply(ss[i], es[i])
  }

  /** What a client takes the network status to be from the status-only messages it was sent. */
  function LastStatus(q: seq<Message>): bool {
    if q == [] then true
    else if q[|q| - 1].StatusOnly? then q[|q| - 1].ok
    else LastStatus(q[..|q| - 1])
  }
}
