/**
 * The instance resolver of main.go (`getIntanceName`): a first-match scan
 * over the compute listing for the server that reports the floating IP.
 * The listing's address values are loosely typed, so each level of the
 * nested structure is a variant with an "other" case that the scan skips.
 */
module Resolver {
  import opened Wrappers
  import opened Types

  /** A value inside an address entry: a string or anything else. */
  datatype Scalar = Str(text: string) | OtherScalar

  /** An element of a network's address list: a string-keyed map or anything else. */
  datatype Entry = EntryMap(fields: map<string, Scalar>) | OtherEntry

  /** The value stored under a network name: a list of entries or anything else. */
  datatype NetworkValue = EntryList(entries: seq<Entry>) | OtherValue

  /** A server of the listing: its name and its addresses keyed by network name. */
  datatype Server = Server(name: string, addresses: map<string, NetworkValue>)

  /** The outcome of listing every page of servers and extracting them. */
  datatype ServerListing = ListFailed(err: Error) | ExtractFailed(err: Error) | Listed(servers: seq<Server>)

  const TypeKey: string := "OS-EXT-IPS:type"
  const AddrKey: string := "addr"
  const FloatingType: string := "floating"

  /** An entry that marks `floatingIP` as a floating address. */
  predicate EntryMatches(entry: Entry, floatingIP: string)
  {
    && entry.EntryMap?
    && TypeKey in entry.fields && entry.fields[TypeKey] == Str(FloatingType)
    && AddrKey in entry.fields && entry.fields[AddrKey] == Str(floatingIP)
  }

  /** A network value that is a list holding a matching entry. */
  predicate ValueMatches(value: NetworkValue, floatingIP: string)
  {
    value.EntryList? && exists i :: 0 <= i < |value.entries| && EntryMatches(value.entries[i], floatingIP)
  }

  /** A server one of whose networks, in whatever order they are visited, holds a matching entry. */
  predicate ServerMatches(server: Server, floatingIP: string)
  {
    exists network :: network in server.addresses && ValueMatches(server.addresses[network], floatingIP)
  }

  /** The position of the first matching server in listing order, if any. */
  function FirstMatch(servers: seq<Server>, floatingIP: string): (r: Option<nat>)
    ensures r.Some? ==> r.value < |servers| && ServerMatches(servers[r.value], floatingIP)
    ensures r.Some? ==> forall j :: 0 <= j < r.value ==> !ServerMatches(servers[j], floatingIP)
    ensures r.None? ==> forall j :: 0 <= j < |servers| ==> !ServerMatches(servers[j], floatingIP)
    decreases |servers|
  {
    if servers == [] then None
    else if ServerMatches(servers[0], floatingIP) then Some(0)
    else
      match FirstMatch(servers[1..], floatingIP)
      case None => None
      case Some(k) => Some(k + 1)
  }

  /** The name the resolver reports: the first matching server's, or "" when none matches. */
  function ResolveName(servers: seq<Server>, floatingIP: string): (name: string)
    ensures || (exists i :: 0 <= i < |servers| && ServerMatches(servers[i], floatingIP) && name == servers[i].name
                 && forall j :: 0 <= j < i ==> !ServerMatches(servers[j], floatingIP))
            || (name == "" && forall j :: 0 <= j < |servers| ==> !ServerMatches(servers[j], floatingIP))
  {
    match FirstMatch(servers, floatingIP)
    case None => ""
    case Some(i) => servers[i].name
  }

  /**
   * `getIntanceName`. A listing or extraction error gives ("", err); otherwise
   * the name of the first server, in listing order, with a matching entry, and
   * "" with no error when no server has one. The networks of a server are
   * visited in an arbitrary order, as Go's map iteration does, and the result
   * is the same for every order.
   */
  method GetInstanceName(listing: ServerListing, floatingIP: string) returns (name: string, err: Option<Error>)
    ensures !listing.Listed? ==> name == "" && err == Some(listing.err)
    ensures listing.Listed? ==> err == None && name == ResolveName(listing.servers, floatingIP)
  {
    if listing.ListFailed? || listing.ExtractFailed? {
      return "", Some(listing.err);
    }
    var allServers := listing.servers;
    for i := 0 to |allServers|
      invariant forall j :: 0 <= j < i ==> !ServerMatches(allServers[j], floatingIP)
    {
      var server := allServers[i];
      var unvisited := server.addresses.Keys;
      while unvisited != {}
        invariant unvisited <= server.addresses.Keys
        invariant forall network :: network in server.addresses.Keys - unvisited ==>
          !ValueMatches(server.addresses[network], floatingIP)
        decreases unvisited
      {
        var network :| network in unvisited;
        var val := server.addresses[network];
        if val.EntryList? {
          var valList := val.entries;
          for k := 0 to |valList|
            invariant forall m :: 0 <= m < k ==> !EntryMatches(valList[m], floatingIP)
          {
            var valListItem := valList[k];
            if valListItem.EntryMap? {
              var fields := valListItem.fields;
              if TypeKey in fields && fields[TypeKey] == Str(FloatingType) {
                if AddrKey in fields && fields[AddrKey] == Str(floatingIP) {
                  assert EntryMatches(valList[k], floatingIP);
                  assert ServerMatches(allServers[i], floatingIP);
                  return server.name, None;
                }
              }
            }
          }
        }
        unvisited := unvisited - {network};
      }
      assert !ServerMatches(allServers[i], floatingIP);
    }
    return "", None;
  }

  /**
   * First match wins across a split listing: a match in the first part hides
   * every later server, and without one the second part decides.
   */
  lemma {:induction false} ResolveNameAppend(front: seq<Server>, back: seq<Server>, floatingIP: string)
    ensures ResolveName(front + back, floatingIP) ==
      if FirstMatch(front, floatingIP).Some? then ResolveName(front, floatingIP) else ResolveName(back, floatingIP)
  {
    var all := front + back;
    match FirstMatch(front, floatingIP)
    case Some(i) =>
      assert all[i] == front[i];
      assert forall j :: 0 <= j < i ==> all[j] == front[j];
    case None =>
      assert forall j :: 0 <= j < |front| ==> all[j] == front[j];
      match FirstMatch(back, floatingIP)
      case Some(i) =>
        assert all[|front| + i] == back[i];
        assert forall j :: |front| <= j < |front| + i ==> all[j] == back[j - |front|];
      case None =>
        assert forall j :: |front| <= j < |all| ==> all[j] == back[j - |front|];
  }

  /** A server that reports the floating IP in any of its networks resolves to its own name. */
  lemma MatchingServerResolves(server: Server, network: string, i: nat, floatingIP: string)
    requires network in server.addresses
    requires server.addresses[network].EntryList?
    requires i < |server.addresses[network].entries|
    requires EntryMatches(server.addresses[network].entries[i], floatingIP)
    ensures ResolveName([server], floatingIP) == server.name
  {
  }

  /** Without a matching entry anywhere the resolver reports "". */
  lemma NoMatchResolvesEmpty(servers: seq<Server>, floatingIP: string)
    requires forall j, network :: 0 <= j < |servers| && network in servers[j].addresses ==>
      !ValueMatches(servers[j].addresses[network], floatingIP)
    ensures ResolveName(servers, floatingIP) == ""
  {
  }

  /** A network whose value is not a list adds no match. */
  lemma OtherValueSkipped(server: Server, network: string, floatingIP: string)
    requires network !in server.addresses
    ensures ServerMatches(server.(addresses := server.addresses[network := OtherValue]), floatingIP)
        == ServerMatches(server, floatingIP)
  {
    var extended := server.(addresses := server.addresses[network := OtherValue]);
    if ServerMatches(extended, floatingIP) {
      var n :| n in extended.addresses && ValueMatches(extended.addresses[n], floatingIP);
      assert n != network;
      assert n in server.addresses && ValueMatches(server.addresses[n], floatingIP);
    }
    if ServerMatches(server, floatingIP) {
      var n :| n in server.addresses && ValueMatches(server.addresses[n], floatingIP);
      assert n in extended.addresses && extended.addresses[n] == server.addresses[n];
    }
  }

  /** An entry that is not a map, or whose type or address is not the expected string, adds no match. */
  lemma NonMatchingEntrySkipped(entries: seq<Entry>, entry: Entry, floatingIP: string)
    requires !EntryMatches(entry, floatingIP)
    ensures ValueMatches(EntryList(entries + [entry]), floatingIP) == ValueMatches(EntryList(entries), floatingIP)
  {
    var extended := entries + [entry];
    if ValueMatches(EntryList(extended), floatingIP) {
      var i :| 0 <= i < |extended| && EntryMatches(extended[i], floatingIP);
      assert i < |entries| && extended[i] == entries[i];
    }
    if ValueMatches(EntryList(entries), floatingIP) {
      var i :| 0 <= i < |entries| && EntryMatches(entries[i], floatingIP);
      assert extended[i] == entries[i];
    }
  }
}
