/**
 * The replies the handler sends. Where the project's tests assert a reply's
 * exact wording, the reply is that text; the wording of the other locale
 * entries is not part of this model, so those replies are the locale key and
 * its interpolation parameters.
 */
module Messages {
  import opened Config
  import opened SpaceCadet

  datatype Message = Text(body: string) | Translated(key: string, params: seq<(string, string)>)

  /** The message of each `MissingKey` raised by `balancer_ids`. */
  function MissingKeyMessage(k: MissingKey): Message {
    match k
    case MissingRegion(region) =>
      Text("Region '" + region + "' does not exist in the config")
    case MissingEnv(region, env) =>
      Text("Environment '" + env + "' does not exist in the config for " + region)
    case MissingBalancer(region, env, balancer) =>
      Text("Balancer '" + balancer + "' does not exist in the config for " + region + "." + env)
    case BalancerNotArr =>
      Translated("general.balancer_not_arr", [])
  }

  /** `general.private_message`: the refusal of a command sent by direct message. */
  function PrivateMessage(): Message {
    Translated("general.private_message", [])
  }

  /** `router.invalid_action`. */
  function InvalidAction(action: string): Message {
    Text(action + " is not a valid action, " + "please use 'drain' or 'enable'")
  }

  function Verb(state: NodeState): string {
    match state
    case Draining => "Draining"
    case Enabled => "Enabling"
  }

  /** `drain.starting_update` / `enable.starting_update`: the progress reply. */
  function StartingUpdate(state: NodeState, node: string, region: string, env: string, balancer: string): Message {
    Text(Verb(state) + " " + node + " within the " + region + "." + env + "." + balancer + " balancer...")
  }

  /** `general.update_done`: the closing reply of a drain or enable. */
  function UpdateDone(balancer: string): Message {
    Text("Finished updating the " + balancer + " load balancer")
  }

  /** `status.no_details`. */
  function NoDetails(region: string, env: string, balancer: string): Message {
    Translated("status.no_details", [("region", region), ("env", env), ("balancer", balancer)])
  }

  /** The `exception` template: the title, then the exception's class and message. */
  function ExceptionMessage(title: string, e: Error): Message {
    Text(title + "\n" + e.className + ": " + e.message)
  }

  function StatusErrorTitle(region: string, env: string, balancer: string): string {
    "An error has occured trying to get the status of " + region + "." + env + "." + balancer + ":"
  }

  function StatusGenericTitle(region: string, env: string, balancer: string): string {
    "A generic excpetion has been caught trying to get the status of " + region + "." + env + "." + balancer + ":"
  }

  function ActionErrorTitle(action: string): string {
    "An error has occured trying to " + action + " the requested node:"
  }

  function ActionGenericTitle(action: string): string {
    "A generic excpetion has been caught trying to " + action + " the requested node:"
  }

  // ---------------------------------------------------------------------
  // What the replies tell the reader

  /**
   * The two `rescue` clauses title their replies differently, so a reply
   * shows whether a SpaceCadet error or some other exception was caught:
   * the generic reply is always 15 characters longer.
   */
  lemma RescueTitlesDiffer(region: string, env: string, balancer: string, action: string, e: Error)
    ensures |ExceptionMessage(StatusGenericTitle(region, env, balancer), e).body| ==
            |ExceptionMessage(StatusErrorTitle(region, env, balancer), e).body| + 15
    ensures |ExceptionMessage(ActionGenericTitle(action), e).body| == |ExceptionMessage(ActionErrorTitle(action), e).body| + 15
    ensures ExceptionMessage(StatusErrorTitle(region, env, balancer), e) !=
            ExceptionMessage(StatusGenericTitle(region, env, balancer), e)
    ensures ExceptionMessage(ActionErrorTitle(action), e) != ExceptionMessage(ActionGenericTitle(action), e)
  {
  }

  /** The first letter of each missing-key text: 'R'egion, 'E'nvironment, 'B'alancer. */
  lemma MissingKeyInitial(k: MissingKey)
    ensures MissingKeyMessage(k).Text? <==> !k.BalancerNotArr?
    ensures k.MissingRegion? ==> MissingKeyMessage(k).body[0] == 'R'
    ensures k.MissingEnv? ==> MissingKeyMessage(k).body[0] == 'E'
    ensures k.MissingBalancer? ==> MissingKeyMessage(k).body[0] == 'B'
  {
  }

  /** Equal missing-key replies come from the same missing level. */
  lemma MissingKeyMessageNamesLevel(k1: MissingKey, k2: MissingKey)
    requires MissingKeyMessage(k1) == MissingKeyMessage(k2)
    ensures k1.MissingRegion? == k2.MissingRegion? && k1.MissingEnv? == k2.MissingEnv?
    ensures k1.MissingBalancer? == k2.MissingBalancer? && k1.BalancerNotArr? == k2.BalancerNotArr?
  {
    MissingKeyInitial(k1);
    MissingKeyInitial(k2);
  }
}
