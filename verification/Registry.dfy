/**
  The websockets service in the source's form: a map and a flag that its methods update, on top of
  the broadcast channels they use. Each method is proved to do what `RegistryModel` says.
 */
module Registry {
  import opened Common
  import opened RegistryModel
  import opened RegistrySafety

  class WebSocketsService {
    var usersConnections: map<UserId, Channel>
    var networkStatusOk: bool

    // the broadcast channels and the connection tasks
    var clients: map<ClientId, Client>
    var closing: set<Channel>
    var closed: set<Channel>
    var nextChannel: Channel
    var owner: map<Channel, UserId>
    var announcing: Option<bool>

    ghost function View(): RegistryModel.Registry
      reads this
    {
      RegistryModel.Registry(usersConnections, clients, closing, closed, nextChannel, owner, networkStatusOk, announcing)
    }

    /** Every live receiver is reachable, no entry leaks, and everyone knows the status. */
    ghost predicate Valid()
      reads this
    {
      Inv(View())
    }

    constructor ()
      ensures Valid()
      ensures View() == INITIAL
    {
      usersConnections := map[];
      networkStatusOk := true;
      clients := map[];
      closing := {};
      closed := {};
      nextChannel := 0;
      owner := map[];
      announcing := None;
    }

    /** `broadcast::Sender::send`: appends to the queue of each receiver in turn. */
    method Send(channel: Channel, message: Message)
      modifies this`clients
      ensures View() == SendTo(old(View()), channel, message)
    {
      var todo := clients.Keys;
      while todo != {}
        invariant todo <= old(clients).Keys && clients.Keys == old(clients).Keys
        invariant forall c :: c in todo ==> clients[c] == old(clients)[c]
        invariant forall c :: c in clients && c !in todo ==> clients[c] == SendTo(old(View()), channel, message).clients[c]
        decreases todo
      {
        var c :| c in todo;
        if clients[c].phase.Running? && clients[c].channel == channel {
          clients := clients[c := clients[c].(queue := clients[c].queue + [message])];
        }
        todo := todo - {c};
      }
      assert clients == SendTo(old(View()), channel, message).clients;
    }

    /** Finds the user's channel or makes one, and subscribes the new connection. */
    method SubscribeClient(client: ClientId, user: UserId) returns (channel: Channel)
      modifies this
      ensures View() == Subscribe(old(View()), client, user)
      ensures channel == usersConnections[user]
    {
      if user in usersConnections {
        channel := usersConnections[user];
      } else {
        channel := nextChannel;
        nextChannel := nextChannel + 1;
      }
      usersConnections := usersConnections[user := channel];
      owner := owner[channel := user];
      clients := clients[client := Client(user, channel, Running, [])];
    }

    method HandleClient(client: ClientId, user: UserId)
      requires Valid() && client !in clients
      modifies this
      ensures Valid()
      ensures View() == Connect(old(View()), client, user)
    {
      assert Inv(Connect(View(), client, user)) by {
        ConnectInv(View(), client, user);
      }
      var channel := SubscribeClient(client, user);
      if !networkStatusOk {
        Send(channel, StatusOnly(false));
      }
    }

    /** The spawned task once its connection has ended. */
    method CleanUpAfter(client: ClientId)
      requires Valid() && client in clients && clients[client].phase.CleaningUp?
      modifies this
      ensures Valid()
      ensures View() == CleanUp(old(View()), client)
    {
      CleanUpInv(View(), client);
      var user := clients[client].user;
      clients := clients[client := clients[client].(phase := Finished)];
      if user in usersConnections {
        var receiverCount := |set c | c in clients && clients[c].phase.Running? && clients[c].channel == usersConnections[user]|;
        assert (set c | c in clients && clients[c].phase.Running? && clients[c].channel == usersConnections[user])
            == Receivers(View(), usersConnections[user]);
        if receiverCount == 0 {
          closed := closed + {usersConnections[user]};
          usersConnections := usersConnections - {user};
        }
      }
    }

    /** Takes the user's sender out of the map; `DropTaken` drops it after the lock is released. */
    method CloseConnections(user: UserId) returns (taken: Option<Channel>)
      requires Valid()
      modifies this
      ensures Valid()
      ensures View() == TakeOut(old(View()), user)
      ensures taken == if user in old(usersConnections) then Some(old(usersConnections)[user]) else None
    {
      TakeOutInv(View(), user);
      if user in usersConnections {
        taken := Some(usersConnections[user]);
        closing := closing + {usersConnections[user]};
        usersConnections := usersConnections - {user};
      } else {
        taken := None;
      }
    }

    method DropTaken(channel: Channel)
      requires Valid() && channel in closing
      modifies this
      ensures Valid()
      ensures View() == DropSender(old(View()), channel)
    {
      DropSenderInv(View(), channel);
      closing := closing - {channel};
      closed := closed + {channel};
    }

    method SendMulticast(userIds: seq<UserId>, message: Message)
      modifies this`clients
      ensures View() == Multicast(old(View()), userIds, message)
    {
      for i := 0 to |userIds|
        invariant View() == old(View()).(clients := clients)
        invariant Multicast(View(), userIds[i..], message) == Multicast(old(View()), userIds, message)
      {
        var user := userIds[i];
        assert userIds[i..][1..] == userIds[i + 1..];
        if user in usersConnections {
          Send(usersConnections[user], message);
        }
      }
    }

    /** Sends on every channel of the map; because channels are not shared between users, every
        registered client gets the message exactly once. */
    method SendBroadcast(message: Message)
      requires Owned(View())
      modifies this`clients
      ensures View() == Broadcast(old(View()), message)
    {
      var todo := usersConnections.Keys;
      ghost var done: set<UserId> := {};
      BroadcastReachesAll(View(), message);
      while todo != {}
        invariant done + todo == usersConnections.Keys && done !! todo
        invariant View() == BroadcastSoFar(old(View()), done, message)
        decreases todo
      {
        var user :| user in todo;
        BroadcastReachesUser(old(View()), done, user, message);
        Send(usersConnections[user], message);
        todo, done := todo - {user}, done + {user};
      }
      assert done == usersConnections.Keys;
    }

    method SendNotification(userIds: seq<UserId>, id: nat)
      requires Valid()
      modifies this`clients
      ensures Valid()
      ensures View() == RegistryModel.SendNotification(old(View()), userIds, id)
      ensures forall c :: c in old(clients) ==>
                && c in clients
                && clients[c].queue == old(clients)[c].queue + SentTo(old(View()), Notifies(userIds, id), c)
    {
      NotifyInv(View(), userIds, id);
      forall c | c in clients {
        NotifySends(View(), userIds, id, c);
      }
      if |userIds| == 0 {
        SendBroadcast(Notification(id));
      } else {
        SendMulticast(userIds, Notification(id));
      }
    }

    /** The atomic store at the start of `update_network_status`. */
    method StoreNetworkStatus(ok: bool)
      requires Valid()
      modifies this
      ensures Valid()
      ensures View() == StoreStatus(old(View()), ok)
    {
      StoreInv(View(), ok);
      networkStatusOk := ok;
      announcing := Some(ok);
    }

    /** The broadcast at its end. */
    method BroadcastNetworkStatus()
      requires Valid() && announcing.Some?
      modifies this
      ensures Valid()
      ensures View() == AnnounceStatus(old(View()), old(announcing.value))
    {
      AnnounceInv(View());
      SendBroadcast(StatusOnly(announcing.value));
      announcing := None;
    }
  }
}
