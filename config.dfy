/**
 * The `lb_hash` configuration and the `balancer_ids` walk over it
 * (lib/lita/handlers/lbcfg.rb). The configuration is a nested Hash
 * region -> environment -> balancer -> value; the value should be an Array
 * of load-balancer ids, and anything else there is reported rather than used.
 */
module Config {

  /** An id from the configuration, handed to the SDK unchanged (the tests use integers). */
  datatype BackendId = IntId(n: int) | StrId(s: string)

  /** The value stored under region.environment.balancer. */
  datatype Leaf = IdArray(ids: seq<BackendId>) | NonArray

  type Tree = map<string, map<string, map<string, Leaf>>>

  /** The `MissingKey` exceptions that `balancer_ids` raises, one per check. */
  datatype MissingKey =
    | MissingRegion(region: string)
    | MissingEnv(region: string, env: string)
    | MissingBalancer(region: string, env: string, balancer: string)
    | BalancerNotArr

  datatype Resolved = Found(ids: seq<BackendId>) | Missing(key: MissingKey)

  /**
   * Looks up the ids of region.env.balancer, checking the shallowest level
   * first. The ids come back only when every level is present and the leaf is
   * an array; otherwise the error names the first level that is missing.
   */
  function BalancerIds(h: Tree, region: string, env: string, balancer: string): (r: Resolved)
    ensures r.Found? <==>
      region in h && env in h[region] && balancer in h[region][env] && h[region][env][balancer].IdArray?
    ensures r.Found? ==> r.ids == h[region][env][balancer].ids
    ensures r == Missing(MissingRegion(region)) <==> region !in h
    ensures r == Missing(MissingEnv(region, env)) <==> region in h && env !in h[region]
    ensures r == Missing(MissingBalancer(region, env, balancer)) <==>
      region in h && env in h[region] && balancer !in h[region][env]
    ensures r == Missing(BalancerNotArr) <==>
      region in h && env in h[region] && balancer in h[region][env] && h[region][env][balancer].NonArray?
  {
    if region !in h then Missing(MissingRegion(region))
    else if env !in h[region] then Missing(MissingEnv(region, env))
    else if balancer !in h[region][env] then Missing(MissingBalancer(region, env, balancer))
    else match h[region][env][balancer]
      case NonArray => Missing(BalancerNotArr)
      case IdArray(ids) => Found(ids)
  }

  /**
   * The walk only looks at the path it is asked about: two configurations that
   * agree along region.env.balancer resolve it alike.
   */
  lemma BalancerIdsReadsOnlyThePath(h1: Tree, h2: Tree, region: string, env: string, balancer: string)
    requires region in h1 <==> region in h2
    requires region in h1 ==> (env in h1[region] <==> env in h2[region])
    requires region in h1 && env in h1[region] ==>
      (balancer in h1[region][env] <==> balancer in h2[region][env])
    requires region in h1 && env in h1[region] && balancer in h1[region][env] ==>
      h1[region][env][balancer] == h2[region][env][balancer]
    ensures BalancerIds(h1, region, env, balancer) == BalancerIds(h2, region, env, balancer)
  {
  }
}
