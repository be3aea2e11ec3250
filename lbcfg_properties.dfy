/**
 * What the `Lbcfg` handler promises, proved about the functions that the
 * handler's methods are verified against: the gates of the router, the order
 * of the SDK calls, and how many replies each path sends.
 */
module LbcfgProperties {
  import opened Wrappers
  import opened Text
  import opened Config
  import opened StatusRender
  import opened SpaceCadet
  import opened Messages
  import opened Lbcfg

  /** Every id of the balancer registers cleanly. */
  predicate NoAddFault(ids: seq<BackendId>, faults: map<BackendId, Error>) {
    forall i :: 0 <= i < |ids| ==> ids[i] !in faults
  }

  // ---------------------------------------------------------------------
  // Registering the ids

  /** When no `add_lb` raises, the client is told about every id, once, in configuration order. */
  lemma AddLbRunRegistersAll(ids: seq<BackendId>, faults: map<BackendId, Error>)
    requires NoAddFault(ids, faults)
    ensures AddLbRun(ids, faults).fault == None
    ensures AddLbRun(ids, faults).calls == AddCalls(ids)
    ensures |AddCalls(ids)| == |ids| && forall i :: 0 <= i < |ids| ==> AddCalls(ids)[i] == Call.AddLb(ids[i])
  {
    assert FirstFault(ids, faults) == |ids|;
  }

  /**
   * When some `add_lb` raises, the loop stops there: the ids before it and the
   * failing one were sent, the fault is that id's, and no later id is sent.
   */
  lemma AddLbRunStopsAtFault(ids: seq<BackendId>, faults: map<BackendId, Error>, k: nat)
    requires k < |ids| && ids[k] in faults
    requires forall j :: 0 <= j < k ==> ids[j] !in faults
    ensures AddLbRun(ids, faults) == AddRun(AddCalls(ids[..k + 1]), Some(faults[ids[k]]))
  {
    assert FirstFault(ids, faults) == k;
  }

  // ---------------------------------------------------------------------
  // The router's gates

  /** A direct message is refused with one reply, whatever the action, and the SDK is not touched. */
  lemma RouterRefusesDirectMessage(h: Tree, b: Behaviour, c: Captures)
    requires ActionRoute(c)
    ensures RouterEffect(h, b, c, true) == Effect([PrivateMessage()], [], None)
  {
  }

  /** An action other than drain or enable (after lower-casing) is refused with one reply naming it. */
  lemma RouterRefusesUnknownAction(h: Tree, b: Behaviour, c: Captures)
    requires ActionRoute(c) && !KnownAction(Lower(c["action"]))
    ensures RouterEffect(h, b, c, false) == Effect([InvalidAction(Lower(c["action"]))], [], None)
  {
  }

  /**
   * The SDK is touched exactly when the router lets the command through, and
   * then the first call creates a client for "<region>-<environment>" in
   * lower case, even if the configuration lookup fails afterwards.
   */
  lemma RouterCreatesClientFirst(h: Tree, b: Behaviour, c: Captures, isDirectMessage: bool)
    requires ActionRoute(c)
    ensures var e := RouterEffect(h, b, c, isDirectMessage);
      && (e.calls != [] <==> !isDirectMessage && KnownAction(Lower(c["action"])))
      && (e.calls != [] ==> e.calls[0] == Call.NewLb(Lower(c["region"]) + "-" + Lower(c["environment"])))
  {
  }

  // ---------------------------------------------------------------------
  // drain / enable

  /**
   * The happy path: a client for the region-environment key, `add_lb` for each
   * id in configuration order, then `update_node` with the requested state;
   * then the progress reply and the completion reply, and nothing else.
   */
  lemma RouterUpdatesNode(h: Tree, b: Behaviour, c: Captures, ids: seq<BackendId>)
    requires ActionRoute(c) && KnownAction(Lower(c["action"]))
    requires var t := SplitParams(c); BalancerIds(h, t.region, t.environment, t.balancer) == Found(ids)
    requires b.newLbFault.None? && NoAddFault(ids, b.addLbFaults) && b.updateNodeFault.None?
    ensures var t := SplitParams(c);
      var node := Lower(c["node"]);
      var state := StateFor(Lower(c["action"]));
      var e := RouterEffect(h, b, c, false);
      && e.replies == [StartingUpdate(state, node, t.region, t.environment, t.balancer), UpdateDone(t.balancer)]
      && e.calls == [Call.NewLb(EnvKey(t))] + AddCalls(ids) + [Call.UpdateNode(node, state)]
      && e.escaped == None
  {
    AddLbRunRegistersAll(ids, b.addLbFaults);
  }

  /**
   * `drain` updates the node to `:draining` and announces "Draining …";
   * `enable` updates it to `:enabled` and announces "Enabling …"; neither
   * ever asks for the other state. This holds whatever the case of the typed
   * action and whether or not `update_node` then raises.
   */
  lemma RouterAsksForRequestedState(h: Tree, b: Behaviour, c: Captures, ids: seq<BackendId>)
    requires ActionRoute(c) && KnownAction(Lower(c["action"]))
    requires var t := SplitParams(c); BalancerIds(h, t.region, t.environment, t.balancer) == Found(ids)
    requires b.newLbFault.None? && NoAddFault(ids, b.addLbFaults)
    ensures var t := SplitParams(c);
      var node := Lower(c["node"]);
      var e := RouterEffect(h, b, c, false);
      && (Lower(c["action"]) == "drain" ==>
            && Call.UpdateNode(node, Draining) in e.calls && Call.UpdateNode(node, Enabled) !in e.calls
            && e.replies != [] && e.replies[0] == StartingUpdate(Draining, node, t.region, t.environment, t.balancer))
      && (Lower(c["action"]) == "enable" ==>
            && Call.UpdateNode(node, Enabled) in e.calls && Call.UpdateNode(node, Draining) !in e.calls
            && e.replies != [] && e.replies[0] == StartingUpdate(Enabled, node, t.region, t.environment, t.balancer))
  {
    var t := SplitParams(c);
    var node := Lower(c["node"]);
    var state := StateFor(Lower(c["action"]));
    var other := if state == Draining then Enabled else Draining;
    AddLbRunRegistersAll(ids, b.addLbFaults);
    AddLbRunHasNoUpdate(ids, b.addLbFaults, node, other);
    var u := UpdateEffect(h, b, t, node, state);
    assert u.calls == [Call.NewLb(EnvKey(t))] + AddCalls(ids) + [Call.UpdateNode(node, state)];
    assert u.replies == [StartingUpdate(state, node, t.region, t.environment, t.balancer)];
    assert RouterEffect(h, b, c, false).calls == u.calls;
    assert Call.UpdateNode(node, other) !in u.calls;
  }

  /**
   * A missing key gives exactly one reply, the lookup's error; the client has
   * been created, but no id is registered and no node is updated.
   */
  lemma RouterReportsMissingKey(h: Tree, b: Behaviour, c: Captures, k: MissingKey)
    requires ActionRoute(c) && KnownAction(Lower(c["action"])) && b.newLbFault.None?
    requires var t := SplitParams(c); BalancerIds(h, t.region, t.environment, t.balancer) == Missing(k)
    ensures var e := RouterEffect(h, b, c, false);
      && e.replies == [MissingKeyMessage(k)]
      && e.calls == [Call.NewLb(EnvKey(SplitParams(c)))]
      && e.escaped == None
  {
  }

  /**
   * When `new_client` raises, the router's rescue translates it like any other
   * failure of the node update: no progress reply, only the rescue's reply (or
   * none, if the exception escapes), and no SDK call after the creation.
   */
  lemma RouterReportsClientFault(h: Tree, b: Behaviour, c: Captures, err: Error)
    requires ActionRoute(c) && KnownAction(Lower(c["action"])) && b.newLbFault == Some(err)
    ensures var action := Lower(c["action"]);
      var e := RouterEffect(h, b, c, false);
      && e.replies == RescueReplies(err, ActionErrorTitle(action), ActionGenericTitle(action))
      && e.calls == [Call.NewLb(EnvKey(SplitParams(c)))]
      && e.escaped == RescueEscape(err)
  {
  }

  /**
   * When an `add_lb` raises during a drain or enable, the ids up to and
   * including the failing one were sent, no progress reply went out, the node
   * is not updated, and the router's rescue translates the error.
   */
  lemma RouterReportsRegistrationFault(h: Tree, b: Behaviour, c: Captures, ids: seq<BackendId>, k: nat)
    requires ActionRoute(c) && KnownAction(Lower(c["action"])) && b.newLbFault.None?
    requires var t := SplitParams(c); BalancerIds(h, t.region, t.environment, t.balancer) == Found(ids)
    requires k < |ids| && ids[k] in b.addLbFaults
    requires forall j :: 0 <= j < k ==> ids[j] !in b.addLbFaults
    ensures var action := Lower(c["action"]);
      var err := b.addLbFaults[ids[k]];
      var e := RouterEffect(h, b, c, false);
      && e.replies == RescueReplies(err, ActionErrorTitle(action), ActionGenericTitle(action))
      && e.calls == [Call.NewLb(EnvKey(SplitParams(c)))] + AddCalls(ids[..k + 1])
      && e.escaped == RescueEscape(err)
  {
    AddLbRunStopsAtFault(ids, b.addLbFaults, k);
  }

  /**
   * When `update_node` raises, the progress reply has already gone out; a
   * SpaceCadet error adds one reply titled "An error has occured", another
   * StandardError one titled "A generic excpetion", and any other exception
   * leaves the handler with only the progress reply sent.
   */
  lemma RouterReportsUpdateFault(h: Tree, b: Behaviour, c: Captures, ids: seq<BackendId>, err: Error)
    requires ActionRoute(c) && KnownAction(Lower(c["action"]))
    requires var t := SplitParams(c); BalancerIds(h, t.region, t.environment, t.balancer) == Found(ids)
    requires b.newLbFault.None? && NoAddFault(ids, b.addLbFaults) && b.updateNodeFault == Some(err)
    ensures var t := SplitParams(c);
      var action := Lower(c["action"]);
      var node := Lower(c["node"]);
      var progress := StartingUpdate(StateFor(action), node, t.region, t.environment, t.balancer);
      var e := RouterEffect(h, b, c, false);
      && e.calls == [Call.NewLb(EnvKey(t))] + AddCalls(ids) + [Call.UpdateNode(node, StateFor(action))]
      && (err.kind == SpaceCadetError ==>
            e.replies == [progress, ExceptionMessage(ActionErrorTitle(action), err)] && e.escaped == None)
      && (err.kind == OtherStandardError ==>
            e.replies == [progress, ExceptionMessage(ActionGenericTitle(action), err)] && e.escaped == None)
      && (err.kind == NonStandardException ==> e.replies == [progress] && e.escaped == Some(err))
  {
    var t := SplitParams(c);
    var action := Lower(c["action"]);
    var node := Lower(c["node"]);
    var state := StateFor(action);
    AddLbRunRegistersAll(ids, b.addLbFaults);
    UpdateEffectOfFound(h, b, t, node, state, ids);
    var u := UpdateEffect(h, b, t, node, state);
    assert u.replies == [StartingUpdate(state, node, t.region, t.environment, t.balancer)];
    assert u.calls == [Call.NewLb(EnvKey(t))] + AddCalls(ids) + [Call.UpdateNode(node, state)];
    assert u.result == Raised(err);
    assert RouterEffect(h, b, c, false) ==
      Effect(u.replies + RescueReplies(err, ActionErrorTitle(action), ActionGenericTitle(action)),
             u.calls, RescueEscape(err));
  }

  /** The registration loop never updates a node. */
  lemma AddLbRunHasNoUpdate(ids: seq<BackendId>, faults: map<BackendId, Error>, node: string, state: NodeState)
    ensures Call.UpdateNode(node, state) !in AddLbRun(ids, faults).calls
  {
  }

  /**
   * A node update sends at most the progress reply itself, and sends it
   * exactly when it calls `update_node`.
   */
  lemma UpdateReplyProtocol(h: Tree, b: Behaviour, t: Target, node: string, state: NodeState)
    ensures var u := UpdateEffect(h, b, t, node, state);
      && |u.replies| <= 1
      && (|u.replies| == 1 <==> Call.UpdateNode(node, state) in u.calls)
      && (|u.replies| == 1 ==> u.replies[0] == StartingUpdate(state, node, t.region, t.environment, t.balancer))
  {
    match BalancerIds(h, t.region, t.environment, t.balancer)
    case Missing(_) =>
    case Found(ids) =>
      AddLbRunHasNoUpdate(ids, b.addLbFaults, node, state);
  }

  /**
   * The reply protocol of the router, on every path: a handled command gets
   * one or two replies, two exactly when `update_node` was called, and then
   * the progress reply comes first; an exception that escapes leaves at most
   * the progress reply behind.
   */
  lemma RouterReplyProtocol(h: Tree, b: Behaviour, c: Captures, isDirectMessage: bool)
    requires ActionRoute(c)
    ensures var e := RouterEffect(h, b, c, isDirectMessage);
      var t := SplitParams(c);
      var node := Lower(c["node"]);
      var state := StateFor(Lower(c["action"]));
      var updated := Call.UpdateNode(node, state) in e.calls;
      && (e.escaped.None? ==> 1 <= |e.replies| <= 2 && (|e.replies| == 2 <==> updated))
      && (e.escaped.Some? ==> |e.replies| <= 1 && (|e.replies| == 1 <==> updated))
      && (updated ==> e.replies[0] == StartingUpdate(state, node, t.region, t.environment, t.balancer))
  {
    if !isDirectMessage && KnownAction(Lower(c["action"])) {
      var action := Lower(c["action"]);
      var (t, node) := SplitLongParams(c);
      var u := UpdateEffect(h, b, t, node, StateFor(action));
      UpdateReplyProtocol(h, b, t, node, StateFor(action));
      match u.result
      case Returned(m) =>
        assert RouterEffect(h, b, c, false) == Effect(u.replies + [m], u.calls, None);
      case Raised(err) =>
        RescueRepliesProtocol(err, ActionErrorTitle(action), ActionGenericTitle(action));
        assert RouterEffect(h, b, c, false) ==
          Effect(u.replies + RescueReplies(err, ActionErrorTitle(action), ActionGenericTitle(action)),
                 u.calls, RescueEscape(err));
    }
  }

  /** A rescued exception gives one reply, and an escaping one gives none. */
  lemma RescueRepliesProtocol(e: Error, title: string, genericTitle: string)
    ensures |RescueReplies(e, title, genericTitle)| == if RescueEscape(e).None? then 1 else 0
  {
  }

  /** The router sees the captures only through lower-casing: commands differing in case behave alike. */
  lemma RouterIgnoresCase(h: Tree, b: Behaviour, c1: Captures, c2: Captures, isDirectMessage: bool)
    requires ActionRoute(c1) && ActionRoute(c2)
    requires Lower(c1["action"]) == Lower(c2["action"]) && Lower(c1["node"]) == Lower(c2["node"])
    requires Lower(c1["region"]) == Lower(c2["region"]) && Lower(c1["environment"]) == Lower(c2["environment"])
    requires Lower(c1["balancer"]) == Lower(c2["balancer"])
    ensures RouterEffect(h, b, c1, isDirectMessage) == RouterEffect(h, b, c2, isDirectMessage)
  {
  }

  // ---------------------------------------------------------------------
  // status

  /**
   * A successful `status` registers every id in order, asks the SDK once, and
   * sends one reply: the rendered records, or the no-details reply when there are none.
   */
  lemma StatusRendersRecords(h: Tree, b: Behaviour, t: Target, ids: seq<BackendId>, details: seq<LbStatus>)
    requires BalancerIds(h, t.region, t.environment, t.balancer) == Found(ids)
    requires b.newLbFault.None? && NoAddFault(ids, b.addLbFaults) && b.statusAnswer == Returned(details)
    ensures var e := StatusEffect(h, b, t);
      && e.calls == [Call.NewLb(EnvKey(t))] + AddCalls(ids) + [Call.GetStatus]
      && e.replies == [if details == [] then NoDetails(t.region, t.environment, t.balancer) else Text(StatusText(details))]
      && e.escaped == None
  {
    AddLbRunRegistersAll(ids, b.addLbFaults);
  }

  /** A missing key gives its one reply after the client is created; the SDK is not asked anything. */
  lemma StatusReportsMissingKey(h: Tree, b: Behaviour, t: Target, k: MissingKey)
    requires BalancerIds(h, t.region, t.environment, t.balancer) == Missing(k) && b.newLbFault.None?
    ensures StatusEffect(h, b, t) == Effect([MissingKeyMessage(k)], [Call.NewLb(EnvKey(t))], None)
  {
  }

  /** An exception from `status()` itself is translated like the router's, with the balancer path in the title. */
  lemma StatusReportsFault(h: Tree, b: Behaviour, t: Target, ids: seq<BackendId>, err: Error)
    requires BalancerIds(h, t.region, t.environment, t.balancer) == Found(ids)
    requires b.newLbFault.None? && NoAddFault(ids, b.addLbFaults) && b.statusAnswer == Raised(err)
    ensures var e := StatusEffect(h, b, t);
      && e.calls == [Call.NewLb(EnvKey(t))] + AddCalls(ids) + [Call.GetStatus]
      && (err.kind == SpaceCadetError ==>
            e.replies == [ExceptionMessage(StatusErrorTitle(t.region, t.environment, t.balancer), err)])
      && (err.kind == OtherStandardError ==>
            e.replies == [ExceptionMessage(StatusGenericTitle(t.region, t.environment, t.balancer), err)])
      && (err.kind == NonStandardException ==> e.replies == [] && e.escaped == Some(err))
      && (err.kind != NonStandardException ==> e.escaped == None)
  {
    AddLbRunRegistersAll(ids, b.addLbFaults);
    StatusEffectOfFound(h, b, t, ids);
    var report := StatusReport(b.statusAnswer, t);
    assert StatusForIds(b, t, ids) == Effect(report.replies, AddCalls(ids) + [Call.GetStatus], report.escaped);
    Regroup([Call.NewLb(EnvKey(t))], AddCalls(ids), [Call.GetStatus], [Call.NewLb(EnvKey(t))] + AddCalls(ids),
            AddCalls(ids) + [Call.GetStatus], [Call.NewLb(EnvKey(t))] + AddCalls(ids) + [Call.GetStatus]);
  }

  /**
   * Unlike the router, `status` does not rescue a raising `add_lb`: the
   * exception leaves the handler, with no reply sent and no status asked for.
   */
  lemma StatusLetsRegistrationFaultEscape(h: Tree, b: Behaviour, t: Target, ids: seq<BackendId>, k: nat)
    requires BalancerIds(h, t.region, t.environment, t.balancer) == Found(ids) && b.newLbFault.None?
    requires k < |ids| && ids[k] in b.addLbFaults
    requires forall j :: 0 <= j < k ==> ids[j] !in b.addLbFaults
    ensures var e := StatusEffect(h, b, t);
      && e.replies == []
      && e.escaped == Some(b.addLbFaults[ids[k]])
      && e.calls == [Call.NewLb(EnvKey(t))] + AddCalls(ids[..k + 1])
  {
    AddLbRunStopsAtFault(ids, b.addLbFaults, k);
  }

  /**
   * `status` creates its client outside any rescue: when `new_client` raises,
   * the exception leaves the handler with no reply, whatever its kind.
   */
  lemma StatusLetsClientFaultEscape(h: Tree, b: Behaviour, t: Target)
    requires b.newLbFault.Some?
    ensures StatusEffect(h, b, t) == Effect([], [Call.NewLb(EnvKey(t))], b.newLbFault)
  {
  }

  /** `status` sends exactly one reply unless an exception escapes, and then none. */
  lemma StatusReplyProtocol(h: Tree, b: Behaviour, t: Target)
    ensures var e := StatusEffect(h, b, t);
      && (e.escaped.None? ==> |e.replies| == 1)
      && (e.escaped.Some? ==> e.replies == [])
  {
  }
}
