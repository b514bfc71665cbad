/** The notification hub (`observer.BankSystem`) and its devices. The hub is
    an object passed to whoever needs it; the process-wide singleton slot is
    `BankSystemInstance`. */
module Observer {
  import opened Sequences

  /** The two kinds of device the system ships. */
  datatype DeviceKind = MobilePhone | Laptop

  /** A device: an identity that receives messages. Two devices are the same
      device exactly when they are equal values, as Java's identity
      `equals` decides for the shipped device classes. */
  datatype Device = Device(id: nat, kind: DeviceKind)

  /** A message as the hub hands it to each device. The two balance-change
      summaries are kept as their fields instead of the formatted text. */
  datatype Message =
    | Transaction(clientName: string, accountName: string, operation: string, amount: real, balance: real)
    | TransactionWithBonus(clientName: string, accountName: string, operation: string, amount: real, bonusAmount: real, balance: real)
    | Notice(text: string)

  /** One call of `device.update(message)`. */
  datatype Delivery = Delivery(device: Device, message: Message)

  /** One line of the device listing: its 1-based number and the device. */
  datatype ListingEntry = ListingEntry(number: nat, device: Device)

  /** The deliveries `notifyObservers(message)` makes over a registry: one per
      entry, in registry order. */
  function Broadcast(devices: seq<Device>, message: Message): (ds: seq<Delivery>)
    ensures |ds| == |devices|
    ensures forall i :: 0 <= i < |ds| ==> ds[i] == Delivery(devices[i], message)
  {
    if devices == [] then [] else [Delivery(devices[0], message)] + Broadcast(devices[1..], message)
  }

  /** The messages delivered to `device`, in delivery order. */
  function Inbox(log: seq<Delivery>, device: Device): seq<Message> {
    if log == [] then []
    else (if log[0].device == device then [log[0].message] else []) + Inbox(log[1..], device)
  }

  function Repeat(message: Message, n: nat): (ms: seq<Message>)
    ensures |ms| == n
  {
    if n == 0 then [] else [message] + Repeat(message, n - 1)
  }

  lemma {:induction false} InboxAppend(a: seq<Delivery>, b: seq<Delivery>, device: Device)
    ensures Inbox(a + b, device) == Inbox(a, device) + Inbox(b, device)
  {
    if a != [] {
      assert (a + b)[1..] == a[1..] + b;
      InboxAppend(a[1..], b, device);
    } else {
      assert a + b == b;
    }
  }

  /** A broadcast gives every device the message once per time it is
      registered: a device registered twice receives it twice, one that is
      not registered receives nothing. */
  lemma {:induction false} BroadcastInbox(devices: seq<Device>, message: Message, device: Device)
    ensures Inbox(Broadcast(devices, message), device) == Repeat(message, multiset(devices)[device])
  {
    if devices != [] {
      assert devices == [devices[0]] + devices[1..];
      BroadcastInbox(devices[1..], message, device);
      var ds := Broadcast(devices, message);
      assert ds[1..] == Broadcast(devices[1..], message);
      if devices[0] == device {
        assert multiset(devices)[device] == multiset(devices[1..])[device] + 1;
      } else {
        assert multiset(devices)[device] == multiset(devices[1..])[device];
      }
    }
  }

  /** What a broadcast adds to a device's inbox: after `notifyObservers`, a
      device has received everything it had before, followed by the message
      once per time it is registered. */
  lemma NotifyExtendsInbox(log: seq<Delivery>, devices: seq<Device>, message: Message, device: Device)
    ensures Inbox(log + Broadcast(devices, message), device)
         == Inbox(log, device) + Repeat(message, multiset(devices)[device])
  {
    InboxAppend(log, Broadcast(devices, message), device);
    BroadcastInbox(devices, message, device);
  }

  /** Removing a device once takes one copy of it out of every later
      broadcast and leaves what the other devices receive as it was. */
  lemma DeleteDeviceEffect(devices: seq<Device>, message: Message, removed: Device, other: Device)
    requires removed in devices && other != removed
    ensures |Inbox(Broadcast(RemoveFirst(devices, removed), message), removed)|
         == |Inbox(Broadcast(devices, message), removed)| - 1
    ensures Inbox(Broadcast(RemoveFirst(devices, removed), message), other)
         == Inbox(Broadcast(devices, message), other)
  {
    RemoveFirstCounts(devices, removed, other);
    BroadcastInbox(devices, message, removed);
    BroadcastInbox(devices, message, other);
    BroadcastInbox(RemoveFirst(devices, removed), message, removed);
    BroadcastInbox(RemoveFirst(devices, removed), message, other);
  }

  /** The hub. `devices` is the ordered registry; `log` stands for what the
      devices have received so far, in the order they received it (each
      shipped device prints what it receives). */
  class BankSystem {
    var devices: seq<Device>
    var log: seq<Delivery>

    constructor ()
      ensures devices == [] && log == []
    {
      devices := [];
      log := [];
    }

    /** Appends the device, with no check for duplicates. */
    method AddDevice(device: Device)
      modifies this
      ensures devices == old(devices) + [device]
      ensures log == old(log)
    {
      devices := devices + [device];
    }

    /** Removes the first registration of the device, if it has one. */
    method DeleteDevice(device: Device)
      modifies this
      ensures devices == RemoveFirst(old(devices), device)
      ensures device in old(devices) ==>
        devices == old(devices)[..FirstIndex(old(devices), device)] + old(devices)[FirstIndex(old(devices), device) + 1..]
      ensures device !in old(devices) ==> devices == old(devices)
      ensures log == old(log)
    {
      devices := RemoveFirst(devices, device);
      if device in old(devices) {
        RemoveFirstPresent(old(devices), device);
      } else {
        RemoveFirstAbsent(old(devices), device);
      }
    }

    /** The listing `seeDevices` prints: the devices numbered from 1, in
      registry order. */
    method SeeDevices() returns (listing: seq<ListingEntry>)
      ensures |listing| == |devices|
      ensures forall i :: 0 <= i < |listing| ==> listing[i] == ListingEntry(i + 1, devices[i])
    {
      var id := 1;
      listing := [];
      for i := 0 to |devices|
        invariant id == i + 1
        invariant |listing| == i
        invariant forall k :: 0 <= k < i ==> listing[k] == ListingEntry(k + 1, devices[k])
      {
        listing := listing + [ListingEntry(id, devices[i])];
        id := id + 1;
      }
    }

    /** Hands the message to every registered device, in registry order. */
    method NotifyObservers(message: Message)
      modifies this`log
      ensures log == old(log) + Broadcast(devices, message)
    {
      for i := 0 to |devices|
        invariant log == old(log) + Broadcast(devices[..i], message)
      {
        assert devices[..i + 1] == devices[..i] + [devices[i]];
        BroadcastSnoc(devices[..i], devices[i], message);
        log := log + [Delivery(devices[i], message)];
      }
      assert devices[..|devices|] == devices;
    }

    /** The transaction summary without bonus: one message with the client,
      the account, the operation, the amount and the resulting balance. */
    method BalanceChange(clientName: string, accountName: string, operation: string, amount: real, balance: real)
      modifies this`log
      ensures log == old(log) + Broadcast(devices, Transaction(clientName, accountName, operation, amount, balance))
    {
      NotifyObservers(Transaction(clientName, accountName, operation, amount, balance));
    }

    /** The transaction summary of a payment: as above, with the bonus amount. */
    method BalanceChangeWithBonus(clientName: string, accountName: string, operation: string, amount: real, balance: real, bonusAmount: real)
      modifies this`log
      ensures log == old(log) + Broadcast(devices, TransactionWithBonus(clientName, accountName, operation, amount, bonusAmount, balance))
    {
      NotifyObservers(TransactionWithBonus(clientName, accountName, operation, amount, bonusAmount, balance));
    }
  }

  lemma {:induction false} BroadcastSnoc(devices: seq<Device>, device: Device, message: Message)
    ensures Broadcast(devices + [device], message) == Broadcast(devices, message) + [Delivery(device, message)]
  {
  }

  /** The static `instance` slot behind `BankSystem.getInstance()`. */
  class BankSystemInstance {
    var instance: BankSystem?

    constructor ()
      ensures instance == null
    {
      instance := null;
    }

    /** Creates the hub on the first call and returns that same hub on
      every call. */
    method GetInstance() returns (hub: BankSystem)
      modifies this
      ensures old(instance) != null ==> hub == old(instance)
      ensures old(instance) == null ==> fresh(hub) && hub.devices == [] && hub.log == []
      ensures instance == hub
    {
      if instance == null {
        instance := new BankSystem();
      }
      hub := instance;
    }
  }

  /** Two calls of `getInstance` give the same hub. */
  method GetInstanceTwice(slot: BankSystemInstance) returns (first: BankSystem, second: BankSystem)
    modifies slot
    ensures first == second
  {
    first := slot.GetInstance();
    second := slot.GetInstance();
  }
}
