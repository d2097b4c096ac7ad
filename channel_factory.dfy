/**
 * `NotificationChannelFactory`: the registry of notification transports,
 * keyed by each channel's `getName()`, in registration order.
 */
module ChannelFactory {
  import opened Wrappers
  import opened Seqs

  /** The transports; each reports a fixed name, a custom one its own. */
  datatype Channel = GmailChannel | WhatsAppChannel | SlackChannel | CustomChannel(name: string)

  /** `getName()`. */
  function GetName(c: Channel): string
  {
    match c
    case GmailChannel => "gmail"
    case WhatsAppChannel => "whatsapp"
    case SlackChannel => "slack"
    case CustomChannel(n) => n
  }

  /** `NotificationPayload`: `to` may be missing when the caller has no address. */
  datatype NotificationPayload = NotificationPayload(to: Option<string>, subject: string, body: string)

  /** The `Map` contents: the entries and their keys in insertion order. */
  datatype Registry = Registry(channels: map<string, Channel>, names: seq<string>)

  /** The keys in order are exactly the map's keys, each once. */
  ghost predicate ValidRegistry(r: Registry)
  {
    Distinct(r.names) && forall k :: k in r.channels <==> k in r.names
  }

  /** `Map.set`: a new key goes last, an existing key keeps its place and takes the new value. */
  function Register(r: Registry, c: Channel): (r': Registry)
    ensures r'.channels == r.channels[GetName(c) := c]
  {
    var n := GetName(c);
    Registry(r.channels[n := c], if n in r.names then r.names else r.names + [n])
  }

  lemma RegisterPreservesValid(r: Registry, c: Channel)
    requires ValidRegistry(r)
    ensures ValidRegistry(Register(r, c))
  {
  }

  /** Registering a second channel under a taken name replaces the first and keeps the order. */
  lemma RegisterReplaces(r: Registry, c1: Channel, c2: Channel)
    requires ValidRegistry(r) && GetName(c1) == GetName(c2)
    ensures Register(Register(r, c1), c2).channels == r.channels[GetName(c2) := c2]
    ensures Register(Register(r, c1), c2).names == Register(r, c1).names
  {
  }

  /** Registering the same channel twice is registering it once. */
  lemma RegisterIdempotent(r: Registry, c: Channel)
    ensures Register(Register(r, c), c) == Register(r, c)
  {
  }

  /** Every registered name occurs exactly once in the list of names. */
  lemma NamesListEachOnce(r: Registry)
    requires ValidRegistry(r)
    ensures forall k :: k in r.channels ==>
      exists i :: 0 <= i < |r.names| && r.names[i] == k && forall j :: 0 <= j < |r.names| && r.names[j] == k ==> j == i
  {
    forall k | k in r.channels
      ensures exists i :: 0 <= i < |r.names| && r.names[i] == k && forall j :: 0 <= j < |r.names| && r.names[j] == k ==> j == i
    {
      var i :| 0 <= i < |r.names| && r.names[i] == k;
      assert forall j :: 0 <= j < |r.names| && r.names[j] == k ==> j == i;
    }
  }

  /** The registry the constructor builds. */
  function DefaultRegistry(): (r: Registry)
    ensures ValidRegistry(r)
    ensures r.names == ["gmail", "whatsapp", "slack"]
    ensures r.channels == map["gmail" := GmailChannel, "whatsapp" := WhatsAppChannel, "slack" := SlackChannel]
  {
    Register(Register(Register(Registry(map[], []), GmailChannel), WhatsAppChannel), SlackChannel)
  }

  class NotificationChannelFactory {
    var channels: map<string, Channel>
    var names: seq<string>

    ghost predicate Valid()
      reads this
    {
      ValidRegistry(Registry(channels, names))
    }

    /** Registers the Gmail, WhatsApp and Slack channels, in that order. */
    constructor ()
      ensures Valid()
      ensures Registry(channels, names) == DefaultRegistry()
    {
      channels := map[];
      names := [];
      new;
      RegisterChannel(GmailChannel);
      RegisterChannel(WhatsAppChannel);
      RegisterChannel(SlackChannel);
    }

    /** `registerChannel`: stores `c` under its name. */
    method RegisterChannel(c: Channel)
      requires Valid()
      modifies this
      ensures Valid()
      ensures Registry(channels, names) == Register(old(Registry(channels, names)), c)
    {
      RegisterPreservesValid(Registry(channels, names), c);
      var n := GetName(c);
      if n !in names {
        names := names + [n];
      }
      channels := channels[n := c];
    }

    /** `getChannel`: the channel registered under `name`, or none. */
    method GetChannel(name: string) returns (r: Option<Channel>)
      ensures name in channels ==> r == Some(channels[name])
      ensures name !in channels ==> r == None
    {
      if name in channels {
        r := Some(channels[name]);
      } else {
        r := None;
      }
    }

    /** `getAvailableChannels`: the registered names in registration order. */
    method GetAvailableChannels() returns (ns: seq<string>)
      requires Valid()
      ensures ns == names
      ensures Distinct(ns) && forall k :: k in ns <==> k in channels
    {
      ns := names;
    }
  }
}
