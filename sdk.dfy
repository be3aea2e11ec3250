/**
 * A stand-in for the SpaceCadet load-balancer SDK that the handler drives
 * (`DoubleDutch::SpaceCadet::LB`). It does no network work: it records every
 * call it receives, in order, and answers each one with an outcome fixed in
 * advance. Ruby exceptions become `Raised` outcomes that carry the exception's
 * class name and message.
 */
module SpaceCadet {
  import opened Wrappers
  import opened Config
  import opened StatusRender

  /**
   * Which `rescue` clauses an exception meets: subclasses of
   * `DoubleDutch::SpaceCadet::Error`, other `StandardError`s, and exceptions
   * outside `StandardError`, which no clause of the handler catches.
   */
  datatype ErrorKind = SpaceCadetError | OtherStandardError | NonStandardException

  datatype Error = Error(kind: ErrorKind, className: string, message: string)

  /** What a Ruby call does: return a value or raise. */
  datatype Outcome<+T> = Returned(value: T) | Raised(error: Error)

  /** The node states the handler asks for (`:draining`, `:enabled`). */
  datatype NodeState = Draining | Enabled

  /** One call into the SDK. */
  datatype Call =
    | NewLb(env: string)
    | AddLb(id: BackendId)
    | UpdateNode(node: string, state: NodeState)
    | GetStatus

  /** How the SDK answers: the injected outcome of every kind of call. */
  datatype Behaviour = Behaviour(
    newLbFault: Option<Error>,
    addLbFaults: map<BackendId, Error>,
    updateNodeFault: Option<Error>,
    statusAnswer: Outcome<seq<LbStatus>>)

  /** The SDK as a whole: its fixed behaviour and the trace of calls so far. */
  class Sdk {
    const behaviour: Behaviour
    var trace: seq<Call>

    constructor (behaviour: Behaviour)
      ensures this.behaviour == behaviour
      ensures trace == []
    {
      this.behaviour := behaviour;
      trace := [];
    }

    /** `LB.new(env)`: a fresh client for the region-environment key, or the injected fault. */
    method NewLb(env: string) returns (r: Outcome<LbClient>)
      modifies this
      ensures trace == old(trace) + [Call.NewLb(env)]
      ensures r.Raised? <==> behaviour.newLbFault.Some?
      ensures r.Raised? ==> r.error == behaviour.newLbFault.value
      ensures r.Returned? ==>
        fresh(r.value) && r.value.env == env && r.value.sdk == this && r.value.lbIds == []
    {
      trace := trace + [Call.NewLb(env)];
      if behaviour.newLbFault.Some? {
        return Raised(behaviour.newLbFault.value);
      }
      var client := new LbClient(env, this);
      return Returned(client);
    }
  }

  /** One `LB` object: the balancers it was told about, and the SDK it reports to. */
  class LbClient {
    const env: string
    const sdk: Sdk
    var lbIds: seq<BackendId>

    constructor (env: string, sdk: Sdk)
      ensures this.env == env && this.sdk == sdk && lbIds == []
    {
      this.env := env;
      this.sdk := sdk;
      lbIds := [];
    }

    /** `add_lb(id)`: registers the id unless the SDK raises for it. */
    method AddLb(id: BackendId) returns (fault: Option<Error>)
      modifies this, sdk
      ensures sdk.trace == old(sdk.trace) + [Call.AddLb(id)]
      ensures fault == if id in sdk.behaviour.addLbFaults then Some(sdk.behaviour.addLbFaults[id]) else None
      ensures lbIds == if fault.None? then old(lbIds) + [id] else old(lbIds)
    {
      sdk.trace := sdk.trace + [Call.AddLb(id)];
      if id in sdk.behaviour.addLbFaults {
        fault := Some(sdk.behaviour.addLbFaults[id]);
      } else {
        fault := None;
        lbIds := lbIds + [id];
      }
    }

    /** `update_node(node, state)`; its return value is not used by the handler. */
    method UpdateNode(node: string, state: NodeState) returns (fault: Option<Error>)
      modifies sdk
      ensures sdk.trace == old(sdk.trace) + [Call.UpdateNode(node, state)]
      ensures fault == sdk.behaviour.updateNodeFault
    {
      sdk.trace := sdk.trace + [Call.UpdateNode(node, state)];
      fault := sdk.behaviour.updateNodeFault;
    }

    /** `status`: the balancer records, or the injected fault. */
    method Status() returns (r: Outcome<seq<LbStatus>>)
      modifies sdk
      ensures sdk.trace == old(sdk.trace) + [Call.GetStatus]
      ensures r == sdk.behaviour.statusAnswer
    {
      sdk.trace := sdk.trace + [Call.GetStatus];
      r := sdk.behaviour.statusAnswer;
    }
  }
}
