/**
 * The delivery loop of main.go (`handleMessage`) and the attach path
 * (`getInstanceNameAndCreateRecord`). Each goroutine the loop would start is
 * an emitted Action; each call into the record sink is a SinkCall value.
 */
module Dispatch {
  import opened Wrappers
  import opened Types
  import opened Resolver

  const FloatingIPUpdateEnd: string := "floatingip.update.end"

  /** One delivery body after JSON decoding: a Message or the decoder's error. */
  datatype Delivery = Undecodable(err: Error) | Decoded(msg: Message)

  /** The task the loop starts for an accepted event. */
  datatype Action = Remove(floatingIP: string) | ResolveThenCreate(floatingIP: string)

  /** A call into the record sink. */
  datatype SinkCall = CreateRecordCall(name: string, address: string) | RemoveRecordCall(address: string)

  /** The action one delivery gives rise to, if any. */
  function Classify(d: Delivery): (a: Option<Action>)
    ensures a.None? <==> d.Undecodable? || d.msg.eventType != FloatingIPUpdateEnd
    ensures a.Some? ==> a.value.floatingIP == d.msg.payload.floatingIP.floatingIPAddress
    ensures a.Some? ==> (a.value.Remove? <==> d.msg.payload.floatingIP.fixedIPAddress == "")
  {
    match d
    case Undecodable(_) => None
    case Decoded(msg) =>
      if msg.eventType != FloatingIPUpdateEnd then None
      else if msg.payload.floatingIP.fixedIPAddress == "" then Some(Remove(msg.payload.floatingIP.floatingIPAddress))
      else Some(ResolveThenCreate(msg.payload.floatingIP.floatingIPAddress))
  }

  /** Zero or one action, as a sequence. */
  function ActionsOf(d: Delivery): seq<Action>
  {
    match Classify(d)
    case None => []
    case Some(a) => [a]
  }

  /** The actions emitted for a sequence of deliveries, in delivery order. */
  function Dispatch(deliveries: seq<Delivery>): (actions: seq<Action>)
    ensures |actions| <= |deliveries|
    decreases |deliveries|
  {
    if deliveries == [] then []
    else Dispatch(deliveries[..|deliveries| - 1]) + ActionsOf(deliveries[|deliveries| - 1])
  }

  /**
   * `handleMessage` over a finite prefix of the delivery stream: undecodable
   * bodies and other event types are skipped and the loop goes on; an
   * accepted event starts exactly one task.
   */
  method HandleMessage(deliveries: seq<Delivery>) returns (actions: seq<Action>)
    ensures actions == Dispatch(deliveries)
  {
    actions := [];
    for i := 0 to |deliveries|
      invariant actions == Dispatch(deliveries[..i])
    {
      assert deliveries[..i + 1][..i] == deliveries[..i];
      var rawMsg := deliveries[i];
      if rawMsg.Undecodable? {
        continue;
      }
      var msg := rawMsg.msg;
      if msg.eventType != FloatingIPUpdateEnd {
        continue;
      }
      if msg.payload.floatingIP.fixedIPAddress == "" {
        actions := actions + [Remove(msg.payload.floatingIP.floatingIPAddress)];
        continue;
      }
      actions := actions + [ResolveThenCreate(msg.payload.floatingIP.floatingIPAddress)];
    }
    assert deliveries[..|deliveries|] == deliveries;
  }

  /** Dispatching is compositional: the actions of a concatenation are those of its parts. */
  lemma {:induction false} DispatchAppend(front: seq<Delivery>, back: seq<Delivery>)
    ensures Dispatch(front + back) == Dispatch(front) + Dispatch(back)
    decreases |back|
  {
    if back == [] {
      assert front + back == front;
    } else {
      var last := back[|back| - 1];
      var back' := back[..|back| - 1];
      assert (front + back)[..|front + back| - 1] == front + back';
      DispatchAppend(front, back');
    }
  }

  /** A dropped delivery changes nothing: the loop carries on with the next one. */
  lemma DroppedDeliveryIgnored(front: seq<Delivery>, d: Delivery, back: seq<Delivery>)
    requires d.Undecodable? || d.msg.eventType != FloatingIPUpdateEnd
    ensures Dispatch(front + [d] + back) == Dispatch(front + back)
  {
    assert ActionsOf(d) == [];
    assert [d][..0] == [];
    assert Dispatch([d]) == Dispatch([]) + ActionsOf(d);
    var withD := front + [d];
    DispatchAppend(front, [d]);
    assert Dispatch(withD) == Dispatch(front);
    DispatchAppend(withD, back);
    DispatchAppend(front, back);
  }

  /** The positions of accepted deliveries, in increasing order. */
  function AcceptedPositions(deliveries: seq<Delivery>): seq<nat>
    decreases |deliveries|
  {
    if deliveries == [] then []
    else
      AcceptedPositions(deliveries[..|deliveries| - 1])
      + (if Classify(deliveries[|deliveries| - 1]).Some? then [|deliveries| - 1] else [])
  }

  /** Accepted positions are positions of accepted deliveries, strictly increasing. */
  lemma {:induction false} AcceptedPositionsSound(deliveries: seq<Delivery>)
    ensures forall k :: 0 <= k < |AcceptedPositions(deliveries)| ==>
      AcceptedPositions(deliveries)[k] < |deliveries| && Classify(deliveries[AcceptedPositions(deliveries)[k]]).Some?
    ensures forall k, l :: 0 <= k < l < |AcceptedPositions(deliveries)| ==>
      AcceptedPositions(deliveries)[k] < AcceptedPositions(deliveries)[l]
    decreases |deliveries|
  {
    if deliveries != [] {
      var n := |deliveries| - 1;
      var init := deliveries[..n];
      AcceptedPositionsSound(init);
      var pos := AcceptedPositions(deliveries);
      var pos' := AcceptedPositions(init);
      assert pos[..|pos'|] == pos';
      forall k | 0 <= k < |pos'|
        ensures pos[k] < n && Classify(deliveries[pos[k]]).Some?
      {
        assert pos[k] == pos'[k];
        assert init[pos'[k]] == deliveries[pos'[k]];
      }
    }
  }

  /** Every accepted delivery has its position among the accepted positions. */
  lemma {:induction false} AcceptedPositionsComplete(deliveries: seq<Delivery>, i: nat)
    requires i < |deliveries| && Classify(deliveries[i]).Some?
    ensures i in AcceptedPositions(deliveries)
    decreases |deliveries|
  {
    var n := |deliveries| - 1;
    if i < n {
      AcceptedPositionsComplete(deliveries[..n], i);
    }
  }

  /**
   * One action per accepted delivery, in delivery order: there are as many
   * actions as accepted deliveries, and the k-th action is the one for the
   * k-th accepted delivery.
   */
  lemma {:induction false} DispatchInOrder(deliveries: seq<Delivery>)
    ensures var pos := AcceptedPositions(deliveries);
      && |Dispatch(deliveries)| == |pos|
      && (forall k :: 0 <= k < |pos| ==> pos[k] < |deliveries| && Classify(deliveries[pos[k]]).Some?)
      && (forall k :: 0 <= k < |pos| ==> Dispatch(deliveries)[k] == Classify(deliveries[pos[k]]).value)
    decreases |deliveries|
  {
    AcceptedPositionsSound(deliveries);
    if deliveries != [] {
      var n := |deliveries| - 1;
      var init := deliveries[..n];
      DispatchInOrder(init);
      AcceptedPositionsSound(init);
      var pos := AcceptedPositions(deliveries);
      var pos' := AcceptedPositions(init);
      forall k | 0 <= k < |pos'|
        ensures Dispatch(deliveries)[k] == Classify(deliveries[pos[k]]).value
      {
        assert pos[k] == pos'[k];
        assert init[pos'[k]] == deliveries[pos'[k]];
      }
    }
  }

  // ---------------------------------------------------------------------------
  // The tasks

  /**
   * `getInstanceNameAndCreateRecord`: a resolver error ends the task without
   * a sink call; otherwise createRecord is called with the resolved name and
   * the same floating IP, also when the name is "".
   */
  method GetInstanceNameAndCreateRecord(listing: ServerListing, floatingIP: string) returns (call: Option<SinkCall>)
    ensures !listing.Listed? ==> call == None
    ensures listing.Listed? ==> call == Some(CreateRecordCall(ResolveName(listing.servers, floatingIP), floatingIP))
  {
    var instanceName, err := GetInstanceName(listing, floatingIP);
    if err.Some? {
      return None;
    }
    call := Some(CreateRecordCall(instanceName, floatingIP));
  }

  /**
   * One started task. The remove path calls removeRecord with the floating
   * IP; its outcome does not mention the listing, so the resolver plays no
   * part in it. The attach path resolves and then creates.
   */
  method RunAction(action: Action, listing: ServerListing) returns (call: Option<SinkCall>)
    ensures action.Remove? ==> call == Some(RemoveRecordCall(action.floatingIP))
    ensures action.ResolveThenCreate? && !listing.Listed? ==> call == None
    ensures action.ResolveThenCreate? && listing.Listed? ==>
      call == Some(CreateRecordCall(ResolveName(listing.servers, action.floatingIP), action.floatingIP))
  {
    match action
    case Remove(floatingIP) =>
      call := Some(RemoveRecordCall(floatingIP));
    case ResolveThenCreate(floatingIP) =>
      call := GetInstanceNameAndCreateRecord(listing, floatingIP);
  }

  /** The create call names an instance exactly when some listed server reports the floating IP. */
  lemma CreateNamesMatchingServer(servers: seq<Server>, floatingIP: string)
    requires forall j :: 0 <= j < |servers| ==> servers[j].name != ""
    ensures ResolveName(servers, floatingIP) != "" <==> exists j :: 0 <= j < |servers| && ServerMatches(servers[j], floatingIP)
  {
  }

  // ---------------------------------------------------------------------------
  // End-to-end scenarios

  /** A decoded floating-IP notification. */
  function Notification(eventType: string, floatingIP: string, fixedIP: string): Delivery
  {
    Decoded(Message(eventType, FloatingIPPayload(FloatingIPUpdateEvent(floatingIP, fixedIP))))
  }

  /** An attach event for an address web-01 reports leads to createRecord("web-01", address). */
  lemma AttachScenario()
    ensures Dispatch([Notification(FloatingIPUpdateEnd, "203.0.113.5", "10.0.0.7")]) == [ResolveThenCreate("203.0.113.5")]
    ensures var web := Server("web-01", map["public" := EntryList([EntryMap(map[TypeKey := Str(FloatingType), AddrKey := Str("203.0.113.5")])])]);
      ResolveName([web], "203.0.113.5") == "web-01"
  {
    assert Dispatch([Notification(FloatingIPUpdateEnd, "203.0.113.5", "10.0.0.7")])
        == Dispatch([]) + ActionsOf(Notification(FloatingIPUpdateEnd, "203.0.113.5", "10.0.0.7"));
    var web := Server("web-01", map["public" := EntryList([EntryMap(map[TypeKey := Str(FloatingType), AddrKey := Str("203.0.113.5")])])]);
    MatchingServerResolves(web, "public", 0, "203.0.113.5");
  }

  /** A detach event (empty fixed IP) becomes a remove of the floating IP; other types and undecodable bodies, nothing. */
  lemma DetachAndDropScenarios(decodeError: Error)
    ensures Dispatch([Notification(FloatingIPUpdateEnd, "203.0.113.9", "")]) == [Remove("203.0.113.9")]
    ensures Dispatch([Notification("compute.instance.create", "203.0.113.9", "10.0.0.7")]) == []
    ensures Dispatch([Undecodable(decodeError)]) == []
  {
  }
}
