/**
 * The `Lbcfg` chat handler (lib/lita/handlers/lbcfg.rb): the `status` command,
 * the `lbcfg_router` for `drain` and `enable`, and the two node-update
 * commands behind it.
 *
 * The first half states, as functions, what one command does: the replies it
 * sends, the SDK calls it makes and the exception (if any) that leaves the
 * handler. The second half is the handler itself, as methods over a `Response`
 * (the reply stream) and the recording SDK, each proved to have exactly the
 * effect the functions describe.
 */
module Lbcfg {
  import opened Wrappers
  import opened Text
  import opened Config
  import opened StatusRender
  import opened SpaceCadet
  import opened Messages

  /** The named captures of a matched command. */
  type Captures = map<string, string>

  /** The captures the `status` route always produces. */
  predicate StatusRoute(c: Captures) {
    "region" in c && "environment" in c && "balancer" in c
  }

  /** The captures the action route always produces. */
  predicate ActionRoute(c: Captures) {
    StatusRoute(c) && "action" in c && "node" in c
  }

  /** The actions the router dispatches (`%w(enable drain)`), compared after lower-casing. */
  predicate KnownAction(action: string) {
    action == "enable" || action == "drain"
  }

  datatype Target = Target(region: string, environment: string, balancer: string)

  /** `split_params`: region, environment and balancer, lower-cased. */
  function SplitParams(c: Captures): (t: Target)
    requires StatusRoute(c)
    ensures IsLowering(t.region, c["region"]) && IsLowerCase(t.region)
    ensures IsLowering(t.environment, c["environment"]) && IsLowerCase(t.environment)
    ensures IsLowering(t.balancer, c["balancer"]) && IsLowerCase(t.balancer)
  {
    Target(Lower(c["region"]), Lower(c["environment"]), Lower(c["balancer"]))
  }

  /** `split_long_params`: the same, plus the lower-cased node. */
  function SplitLongParams(c: Captures): (r: (Target, string))
    requires ActionRoute(c)
    ensures r.0 == SplitParams(c)
    ensures IsLowering(r.1, c["node"]) && IsLowerCase(r.1)
  {
    (SplitParams(c), Lower(c["node"]))
  }

  /** The key a client is created for: "<region>-<environment>". */
  function EnvKey(t: Target): (k: string)
    ensures |k| == |t.region| + 1 + |t.environment|
    ensures k[..|t.region|] == t.region && k[|t.region|] == '-' && k[|t.region| + 1..] == t.environment
  {
    t.region + "-" + t.environment
  }

  // ---------------------------------------------------------------------
  // `balancer_ids(...).each { |id| client.add_lb(id) }`

  function AddCalls(ids: seq<BackendId>): seq<Call> {
    seq(|ids|, i requires 0 <= i < |ids| => Call.AddLb(ids[i]))
  }

  /** The index of the first id whose `add_lb` raises, or |ids| if none does. */
  function FirstFault(ids: seq<BackendId>, faults: map<BackendId, Error>): (k: nat)
    ensures k <= |ids|
    ensures forall j :: 0 <= j < k ==> ids[j] !in faults
    ensures k < |ids| ==> ids[k] in faults
  {
    if ids == [] then 0
    else if ids[0] in faults then 0
    else 1 + FirstFault(ids[1..], faults)
  }

  datatype AddRun = AddRun(calls: seq<Call>, fault: Option<Error>)

  /** The loop calls `add_lb` in id order and stops at the first call that raises. */
  function AddLbRun(ids: seq<BackendId>, faults: map<BackendId, Error>): (r: AddRun)
    ensures |r.calls| <= |ids| && forall i :: 0 <= i < |r.calls| ==> r.calls[i] == Call.AddLb(ids[i])
    ensures r.fault.None? <==> forall i :: 0 <= i < |ids| ==> ids[i] !in faults
    ensures r.fault.None? ==> |r.calls| == |ids|
    ensures r.fault.Some? ==>
      && 0 < |r.calls|
      && ids[|r.calls| - 1] in faults && r.fault.value == faults[ids[|r.calls| - 1]]
      && forall i :: 0 <= i < |r.calls| - 1 ==> ids[i] !in faults
  {
    var k := FirstFault(ids, faults);
    if k < |ids| then AddRun(AddCalls(ids[..k + 1]), Some(faults[ids[k]]))
    else AddRun(AddCalls(ids), None)
  }

  // ---------------------------------------------------------------------
  // What one command does

  /** Replies sent, SDK calls made, and the exception that left the handler, if any. */
  datatype Effect = Effect(replies: seq<Message>, calls: seq<Call>, escaped: Option<Error>)

  /** A node update also returns (or raises) the reply the router then sends. */
  datatype Update = Update(replies: seq<Message>, calls: seq<Call>, result: Outcome<Message>)

  /**
   * The two `rescue` clauses: a SpaceCadet error and any other StandardError
   * each give one reply with their own title; anything else is not caught.
   */
  function RescueReplies(e: Error, title: string, genericTitle: string): (r: seq<Message>)
    ensures |r| <= 1
    ensures r == [] <==> RescueEscape(e).Some?
    ensures r != [] ==> r[0] == ExceptionMessage(if e.kind == SpaceCadetError then title else genericTitle, e)
  {
    match e.kind
    case SpaceCadetError => [ExceptionMessage(title, e)]
    case OtherStandardError => [ExceptionMessage(genericTitle, e)]
    case NonStandardException => []
  }

  function RescueEscape(e: Error): (r: Option<Error>)
    ensures r.Some? <==> e.kind == NonStandardException
    ensures r.Some? ==> r.value == e
  {
    if e.kind == NonStandardException then Some(e) else None
  }

  /**
   * `status`: the client is created before the configuration is consulted; a
   * missing key is replied; the ids are registered; then the SDK's status is
   * rendered. Only the `status` call itself is inside the SDK-error rescue, so
   * a raising `new_client` or `add_lb` leaves the handler.
   */
  function StatusEffect(h: Tree, b: Behaviour, t: Target): (r: Effect)
    ensures r.calls != [] && r.calls[0] == Call.NewLb(EnvKey(t))
  {
    var created := [Call.NewLb(EnvKey(t))];
    if b.newLbFault.Some? then Effect([], created, b.newLbFault)
    else match BalancerIds(h, t.region, t.environment, t.balancer)
      case Missing(k) => Effect([MissingKeyMessage(k)], created, None)
      case Found(ids) =>
        var rest := StatusForIds(b, t, ids);
        Effect(rest.replies, created + rest.calls, rest.escaped)
  }

  /** `status` once the ids are known: register them, then report. */
  function StatusForIds(b: Behaviour, t: Target, ids: seq<BackendId>): (r: Effect)
    ensures AddLbRun(ids, b.addLbFaults).fault.Some? ==>
      r.replies == [] && r.escaped == AddLbRun(ids, b.addLbFaults).fault && Call.GetStatus !in r.calls
    ensures AddLbRun(ids, b.addLbFaults).fault.None? ==> r.calls != [] && r.calls[|r.calls| - 1] == Call.GetStatus
  {
    var added := AddLbRun(ids, b.addLbFaults);
    if added.fault.Some? then Effect([], added.calls, added.fault)
    else
      var report := StatusReport(b.statusAnswer, t);
      Effect(report.replies, added.calls + report.calls, report.escaped)
  }

  /**
   * The rescued part of `status`: the `status` call, then the no-details reply,
   * the rendered records, or the translated exception.
   */
  function StatusReport(answer: Outcome<seq<LbStatus>>, t: Target): (r: Effect)
    ensures r.calls == [Call.GetStatus]
    ensures |r.replies| <= 1 && (r.replies == [] <==> r.escaped.Some?)
    ensures answer.Returned? ==> r.escaped == None
  {
    match answer
    case Returned(details) =>
      if details == [] then Effect([NoDetails(t.region, t.environment, t.balancer)], [Call.GetStatus], None)
      else Effect([Text(StatusText(details))], [Call.GetStatus], None)
    case Raised(e) =>
      Effect(RescueReplies(e, StatusErrorTitle(t.region, t.environment, t.balancer),
                           StatusGenericTitle(t.region, t.environment, t.balancer)),
             [Call.GetStatus], RescueEscape(e))
  }

  lemma StatusEffectOfMissing(h: Tree, b: Behaviour, t: Target, k: MissingKey)
    requires b.newLbFault.None? && BalancerIds(h, t.region, t.environment, t.balancer) == Missing(k)
    ensures StatusEffect(h, b, t) == Effect([MissingKeyMessage(k)], [Call.NewLb(EnvKey(t))], None)
  {
  }

  lemma StatusEffectOfFound(h: Tree, b: Behaviour, t: Target, ids: seq<BackendId>)
    requires b.newLbFault.None? && BalancerIds(h, t.region, t.environment, t.balancer) == Found(ids)
    ensures var rest := StatusForIds(b, t, ids);
      StatusEffect(h, b, t) == Effect(rest.replies, [Call.NewLb(EnvKey(t))] + rest.calls, rest.escaped)
  {
  }

  /**
   * `lbcfg_drain` / `lbcfg_enable`: create the client, resolve the ids (a
   * missing key is returned as the reply text), register them, send the
   * progress reply, update the node, and return the completion text.
   */
  function UpdateEffect(h: Tree, b: Behaviour, t: Target, node: string, state: NodeState): (r: Update)
    ensures r.calls != [] && r.calls[0] == Call.NewLb(EnvKey(t))
  {
    var created := [Call.NewLb(EnvKey(t))];
    if b.newLbFault.Some? then Update([], created, Raised(b.newLbFault.value))
    else match BalancerIds(h, t.region, t.environment, t.balancer)
      case Missing(k) => Update([], created, Returned(MissingKeyMessage(k)))
      case Found(ids) =>
        var rest := UpdateForIds(b, t, node, state, ids);
        Update(rest.replies, created + rest.calls, rest.result)
  }

  lemma UpdateEffectOfFound(h: Tree, b: Behaviour, t: Target, node: string, state: NodeState, ids: seq<BackendId>)
    requires b.newLbFault.None? && BalancerIds(h, t.region, t.environment, t.balancer) == Found(ids)
    ensures var rest := UpdateForIds(b, t, node, state, ids);
      UpdateEffect(h, b, t, node, state) == Update(rest.replies, [Call.NewLb(EnvKey(t))] + rest.calls, rest.result)
  {
  }

  /** The node update once the ids are known: register them, send the progress reply, update the node. */
  function UpdateForIds(b: Behaviour, t: Target, node: string, state: NodeState, ids: seq<BackendId>): (r: Update)
    ensures |r.replies| <= 1
    ensures r.replies != [] <==> AddLbRun(ids, b.addLbFaults).fault.None?
    ensures r.replies != [] ==> r.calls != [] && r.calls[|r.calls| - 1] == Call.UpdateNode(node, state)
    ensures r.replies == [] ==> r.result == Raised(AddLbRun(ids, b.addLbFaults).fault.value)
  {
    var added := AddLbRun(ids, b.addLbFaults);
    if added.fault.Some? then Update([], added.calls, Raised(added.fault.value))
    else
      var progress := StartingUpdate(state, node, t.region, t.environment, t.balancer);
      var calls := added.calls + [Call.UpdateNode(node, state)];
      if b.updateNodeFault.Some? then Update([progress], calls, Raised(b.updateNodeFault.value))
      else Update([progress], calls, Returned(UpdateDone(t.balancer)))
  }

  function StateFor(action: string): (s: NodeState)
    ensures KnownAction(action) ==> (s == Draining <==> action == "drain") && (s == Enabled <==> action == "enable")
  {
    if action == "drain" then Draining else Enabled
  }

  /**
   * `lbcfg_router`: refuse direct messages, then unknown actions (after
   * lower-casing), then dispatch to the node update, reply what it returns and
   * translate what it raises.
   */
  function RouterEffect(h: Tree, b: Behaviour, c: Captures, isDirectMessage: bool): (r: Effect)
    requires ActionRoute(c)
    ensures r.calls == [] <==> isDirectMessage || !KnownAction(Lower(c["action"]))
  {
    if isDirectMessage then Effect([PrivateMessage()], [], None)
    else
      var action := Lower(c["action"]);
      if !KnownAction(action) then Effect([InvalidAction(action)], [], None)
      else
        var (t, node) := SplitLongParams(c);
        var u := UpdateEffect(h, b, t, node, StateFor(action));
        match u.result
        case Returned(m) => Effect(u.replies + [m], u.calls, None)
        case Raised(e) =>
          Effect(u.replies + RescueReplies(e, ActionErrorTitle(action), ActionGenericTitle(action)),
                 u.calls, RescueEscape(e))
  }

  // ---------------------------------------------------------------------
  // The handler

  /** The chat response a handler answers through: its captures, where it came from, the replies sent. */
  class Response {
    const captures: Captures
    const isDirectMessage: bool
    var replies: seq<Message>

    constructor (captures: Captures, isDirectMessage: bool)
      ensures this.captures == captures && this.isDirectMessage == isDirectMessage
      ensures replies == []
    {
      this.captures := captures;
      this.isDirectMessage := isDirectMessage;
      replies := [];
    }

    /** `response.reply`. */
    method Reply(m: Message)
      modifies this
      ensures replies == old(replies) + [m]
    {
      replies := replies + [m];
    }
  }

  class Handler {
    const lbHash: Tree
    const sdk: Sdk

    constructor (lbHash: Tree, sdk: Sdk)
      ensures this.lbHash == lbHash && this.sdk == sdk
    {
      this.lbHash := lbHash;
      this.sdk := sdk;
    }

    /** Registers each id on the client, in order, stopping at the first `add_lb` that raises. */
    method AddIds(client: LbClient, ids: seq<BackendId>) returns (fault: Option<Error>)
      modifies client, client.sdk
      ensures var run := AddLbRun(ids, client.sdk.behaviour.addLbFaults);
        client.sdk.trace == old(client.sdk.trace) + run.calls && fault == run.fault
      ensures client.lbIds == old(client.lbIds) + ids[..FirstFault(ids, client.sdk.behaviour.addLbFaults)]
    {
      ghost var faults := client.sdk.behaviour.addLbFaults;
      var i := 0;
      while i < |ids|
        invariant 0 <= i <= |ids|
        invariant forall j :: 0 <= j < i ==> ids[j] !in faults
        invariant client.sdk.trace == old(client.sdk.trace) + AddCalls(ids[..i])
        invariant client.lbIds == old(client.lbIds) + ids[..i]
      {
        assert AddCalls(ids[..i + 1]) == AddCalls(ids[..i]) + [Call.AddLb(ids[i])];
        assert ids[..i + 1] == ids[..i] + [ids[i]];
        fault := client.AddLb(ids[i]);
        if fault.Some? {
          assert FirstFault(ids, faults) == i;
          return;
        }
        i := i + 1;
      }
      assert ids[..i] == ids;
      fault := None;
    }

    /** The `rescue` clauses around an SDK call. */
    method Rescue(response: Response, e: Error, title: string, genericTitle: string) returns (escaped: Option<Error>)
      modifies response
      ensures response.replies == old(response.replies) + RescueReplies(e, title, genericTitle)
      ensures escaped == RescueEscape(e)
    {
      match e.kind
      case SpaceCadetError =>
        response.Reply(ExceptionMessage(title, e));
        escaped := None;
      case OtherStandardError =>
        response.Reply(ExceptionMessage(genericTitle, e));
        escaped := None;
      case NonStandardException =>
        escaped := Some(e);
    }

    /** The `status` command. */
    method Status(response: Response) returns (escaped: Option<Error>)
      requires StatusRoute(response.captures)
      modifies response, sdk
      ensures var e := StatusEffect(lbHash, sdk.behaviour, SplitParams(response.captures));
        && response.replies == old(response.replies) + e.replies
        && sdk.trace == old(sdk.trace) + e.calls
        && escaped == e.escaped
    {
      var t := SplitParams(response.captures);
      ghost var trace0 := sdk.trace;
      var created := sdk.NewLb(EnvKey(t));
      if created.Raised? {
        return Some(created.error);
      }
      var client := created.value;
      var resolved := BalancerIds(lbHash, t.region, t.environment, t.balancer);
      if resolved.Missing? {
        StatusEffectOfMissing(lbHash, sdk.behaviour, t, resolved.key);
        response.Reply(MissingKeyMessage(resolved.key));
        return None;
      }
      StatusEffectOfFound(lbHash, sdk.behaviour, t, resolved.ids);
      ghost var trace1 := sdk.trace;
      escaped := RegisterAndReport(response, client, t, resolved.ids);
      ghost var rest := StatusForIds(sdk.behaviour, t, resolved.ids);
      Regroup(trace0, [Call.NewLb(EnvKey(t))], rest.calls, trace1, [Call.NewLb(EnvKey(t))] + rest.calls, sdk.trace);
    }

    /** The ids' registration and the report that follows it. */
    method RegisterAndReport(response: Response, client: LbClient, t: Target, ids: seq<BackendId>)
      returns (escaped: Option<Error>)
      modifies response, client, client.sdk
      ensures var e := StatusForIds(client.sdk.behaviour, t, ids);
        && response.replies == old(response.replies) + e.replies
        && client.sdk.trace == old(client.sdk.trace) + e.calls
        && escaped == e.escaped
    {
      ghost var trace0 := client.sdk.trace;
      ghost var run := AddLbRun(ids, client.sdk.behaviour.addLbFaults);
      escaped := AddIds(client, ids);
      if escaped.Some? {
        return;
      }
      ghost var trace1 := client.sdk.trace;
      ghost var report := StatusReport(client.sdk.behaviour.statusAnswer, t);
      assert StatusForIds(client.sdk.behaviour, t, ids) == Effect(report.replies, run.calls + report.calls, report.escaped);
      escaped := Report(response, client, t);
      Regroup(trace0, run.calls, report.calls, trace1, run.calls + report.calls, client.sdk.trace);
    }

    /** The rescued part of `status`. */
    method Report(response: Response, client: LbClient, t: Target) returns (escaped: Option<Error>)
      modifies response, client.sdk
      ensures var e := StatusReport(client.sdk.behaviour.statusAnswer, t);
        && response.replies == old(response.replies) + e.replies
        && client.sdk.trace == old(client.sdk.trace) + e.calls
        && escaped == e.escaped
    {
      var details := client.Status();
      match details
      case Returned(d) =>
        if d == [] {
          response.Reply(NoDetails(t.region, t.environment, t.balancer));
        } else {
          var out := RenderStatus(d);
          response.Reply(Text(out));
        }
        escaped := None;
      case Raised(e) =>
        escaped := Rescue(response, e, StatusErrorTitle(t.region, t.environment, t.balancer),
                          StatusGenericTitle(t.region, t.environment, t.balancer));
    }

    /**
     * `lbcfg_drain` (state `Draining`) and `lbcfg_enable` (state `Enabled`),
     * which differ only in the state they ask for and the locale key of the
     * progress reply.
     */
    method ChangeNode(response: Response, state: NodeState) returns (result: Outcome<Message>)
      requires ActionRoute(response.captures)
      modifies response, sdk
      ensures var (t, node) := SplitLongParams(response.captures);
        var u := UpdateEffect(lbHash, sdk.behaviour, t, node, state);
        && response.replies == old(response.replies) + u.replies
        && sdk.trace == old(sdk.trace) + u.calls
        && result == u.result
    {
      var params := SplitLongParams(response.captures);
      var t, node := params.0, params.1;
      var created := sdk.NewLb(EnvKey(t));
      if created.Raised? {
        return Raised(created.error);
      }
      var client := created.value;
      match BalancerIds(lbHash, t.region, t.environment, t.balancer)
      case Missing(k) =>
        return Returned(MissingKeyMessage(k));
      case Found(ids) =>
        UpdateEffectOfFound(lbHash, sdk.behaviour, t, node, state, ids);
        ghost var trace1 := sdk.trace;
        result := RegisterAndUpdate(response, client, t, node, state, ids);
        ghost var rest := UpdateForIds(sdk.behaviour, t, node, state, ids);
        Regroup(old(sdk.trace), [Call.NewLb(EnvKey(t))], rest.calls, trace1, [Call.NewLb(EnvKey(t))] + rest.calls,
                sdk.trace);
    }

    /** The ids' registration, the progress reply and the node update. */
    method RegisterAndUpdate(response: Response, client: LbClient, t: Target, node: string, state: NodeState,
                             ids: seq<BackendId>) returns (result: Outcome<Message>)
      modifies response, client, client.sdk
      ensures var u := UpdateForIds(client.sdk.behaviour, t, node, state, ids);
        && response.replies == old(response.replies) + u.replies
        && client.sdk.trace == old(client.sdk.trace) + u.calls
        && result == u.result
    {
      var fault := AddIds(client, ids);
      if fault.Some? {
        return Raised(fault.value);
      }
      response.Reply(StartingUpdate(state, node, t.region, t.environment, t.balancer));
      fault := client.UpdateNode(node, state);
      if fault.Some? {
        return Raised(fault.value);
      }
      return Returned(UpdateDone(t.balancer));
    }

    /** `lbcfg_router`. */
    method Router(response: Response) returns (escaped: Option<Error>)
      requires ActionRoute(response.captures)
      modifies response, sdk
      ensures var e := RouterEffect(lbHash, sdk.behaviour, response.captures, response.isDirectMessage);
        && response.replies == old(response.replies) + e.replies
        && sdk.trace == old(sdk.trace) + e.calls
        && escaped == e.escaped
    {
      if response.isDirectMessage {
        response.Reply(PrivateMessage());
        return None;
      }
      var action := Lower(response.captures["action"]);
      if !KnownAction(action) {
        response.Reply(InvalidAction(action));
        return None;
      }
      var result := ChangeNode(response, StateFor(action));
      match result
      case Returned(m) =>
        response.Reply(m);
        escaped := None;
      case Raised(e) =>
        escaped := Rescue(response, e, ActionErrorTitle(action), ActionGenericTitle(action));
    }
  }
}
