/**
 * The handler's test cases (spec/unit/lita/handlers/lbcfg_spec.rb), restated
 * as lemmas about the model: same configurations, same commands, same SDK
 * answers, same expected replies and calls.
 */
module Scenarios {
  import opened Wrappers
  import opened Text
  import opened Config
  import opened StatusRender
  import opened SpaceCadet
  import opened Messages
  import opened Lbcfg
  import opened LbcfgProperties

  function Lita(): Leaf {
    IdArray([IntId(42), IntId(84)])
  }

  function HappyCfg(): Tree {
    map["sf" := map["test" := map["lita" := Lita()]]]
  }

  function SadRegionCfg(): Tree {
    map["sfx" := map["test" := map["lita" := Lita()]]]
  }

  function SadEnvCfg(): Tree {
    map["sf" := map["testx" := map["lita" := Lita()]]]
  }

  function SadBalancerCfg(): Tree {
    map["sf" := map["test" := map["litax" := Lita()]]]
  }

  function Lb01(): LbStatus {
    LbStatus("test-lb01", "42", [NodeStatus("app01", "ENABLED", "127.0.0.1", "142"),
                                 NodeStatus("app02", "DRAINING", "127.0.0.2", "184")])
  }

  function Lb02(): LbStatus {
    LbStatus("test-lb02", "84", [NodeStatus("app01", "ENABLED", "127.0.0.1", "242"),
                                 NodeStatus("app02", "DRAINING", "127.0.0.2", "284")])
  }

  /** The records the SDK double's `status` returns in the '.status' test. */
  function HappyData(): seq<LbStatus> {
    [Lb01(), Lb02()]
  }

  /** An SDK double on which nothing raises. */
  function Quiet(): Behaviour {
    Behaviour(None, map[], None, Returned(HappyData()))
  }

  /** "lbcfg <action> <region> <environment> <balancer> <node>" after route matching. */
  function Command(action: string, region: string, env: string, balancer: string, node: string): Captures {
    map["action" := action, "region" := region, "environment" := env, "balancer" := balancer, "node" := node]
  }

  function StatusCommand(): Captures {
    map["region" := "sf", "environment" := "test", "balancer" := "lita"]
  }

  function SfTestLita(): Target {
    Target("sf", "test", "lita")
  }

  function Ids(): seq<BackendId> {
    [IntId(42), IntId(84)]
  }

  /** The captures of a command, read back field by field. */
  lemma CommandFields(action: string, region: string, env: string, balancer: string, node: string)
    ensures var c := Command(action, region, env, balancer, node);
      && ActionRoute(c) && c["action"] == action && c["node"] == node
      && c["region"] == region && c["environment"] == env && c["balancer"] == balancer
  {
  }

  /** In the tests' configuration, sf.test.lita lists the ids 42 and 84. */
  lemma HappyCfgFacts()
    ensures BalancerIds(HappyCfg(), "sf", "test", "lita") == Found(Ids())
    ensures AddCalls(Ids()) == [Call.AddLb(IntId(42)), Call.AddLb(IntId(84))]
    ensures EnvKey(SfTestLita()) == "sf-test"
  {
  }

  /** What `split_params` reads from "lbcfg status sf test lita". */
  lemma StatusCommandSplit()
    ensures SplitParams(StatusCommand()) == SfTestLita()
  {
    LowerCasePathWords();
  }

  /** The progress reply of a drain, as the test spells it out. */
  lemma DrainingWording()
    ensures StartingUpdate(Draining, "app01", "sf", "test", "lita") ==
      Text("Draining app01 within the " + "sf.test.lita balancer...")
  {
    var x := "Draining" + " " + "app01" + " within the ";
    var y := "sf" + "." + "test" + "." + "lita" + " balancer...";
    assert x == "Draining app01 within the ";
    assert y == "sf.test.lita balancer...";
    assert StartingUpdate(Draining, "app01", "sf", "test", "lita").body == x + y;
  }

  /** The progress reply of an enable, as the test spells it out. */
  lemma EnablingWording()
    ensures StartingUpdate(Enabled, "app01", "sf", "test", "lita") ==
      Text("Enabling app01 within the " + "sf.test.lita balancer...")
  {
    var x := "Enabling" + " " + "app01" + " within the ";
    var y := "sf" + "." + "test" + "." + "lita" + " balancer...";
    assert x == "Enabling app01 within the ";
    assert y == "sf.test.lita balancer...";
    assert StartingUpdate(Enabled, "app01", "sf", "test", "lita").body == x + y;
  }

  /** The closing reply of a drain or enable, as the tests spell it out. */
  lemma DoneWording()
    ensures UpdateDone("lita") == Text("Finished updating the lita" + " load balancer")
  {
    var x := "Finished updating the " + "lita";
    assert x == "Finished updating the lita";
    assert UpdateDone("lita").body == x + " load balancer";
  }

  /** The reply for a configuration without the region, as the tests spell it out. */
  lemma MissingRegionWording()
    ensures MissingKeyMessage(MissingRegion("sf")) == Text("Region 'sf" + "' does not exist in the config")
  {
    var x := "Region '" + "sf";
    assert x == "Region 'sf";
    assert MissingKeyMessage(MissingRegion("sf")).body == x + "' does not exist in the config";
  }

  /** The reply for a configuration without the environment, as the tests spell it out. */
  lemma MissingEnvWording()
    ensures MissingKeyMessage(MissingEnv("sf", "test")) ==
      Text("Environment 'test" + "' does not exist in the config for sf")
  {
    var x := "Environment '" + "test";
    var y := "' does not exist in the config for " + "sf";
    assert x == "Environment 'test";
    assert y == "' does not exist in the config for sf";
    assert MissingKeyMessage(MissingEnv("sf", "test")).body == x + y;
  }

  /** The reply for a configuration without the balancer, as the tests spell it out. */
  lemma MissingBalancerWording()
    ensures MissingKeyMessage(MissingBalancer("sf", "test", "lita")) ==
      Text("Balancer 'lita" + "' does not exist in the config for sf.test")
  {
    var x := "Balancer '" + "lita";
    var y := "' does not exist in the config for " + "sf" + "." + "test";
    assert x == "Balancer 'lita";
    assert y == "' does not exist in the config for sf.test";
    assert MissingKeyMessage(MissingBalancer("sf", "test", "lita")).body == x + y;
  }

  /** The reply to an unknown action, as the test spells it out. */
  lemma InvalidActionWording()
    ensures InvalidAction("invalid") == Text("invalid is not a valid action, " + "please use 'drain' or 'enable'")
  {
    var x := "invalid" + " is not a valid action, ";
    assert x == "invalid is not a valid action, ";
    assert InvalidAction("invalid").body == x + "please use 'drain' or 'enable'";
  }

  /** How the reply to a SpaceCadet error during an action is put together. */
  lemma ActionErrorShape(action: string, e: Error)
    ensures ExceptionMessage(ActionErrorTitle(action), e).body ==
      "An error has occured trying to " + (action + " the requested node:" + "\n") + e.className + (": " + e.message)
  {
  }

  /** The reply to an unsafe balancer during a drain, as the test spells it out. */
  lemma UnsafeWording()
    ensures ExceptionMessage(ActionErrorTitle("drain"), Unsafe()) ==
      Text("An error has occured trying to " + "drain the requested node:\n" +
           "DoubleDutch::SpaceCadet::LBUnsafe" + ": testBody")
  {
    ActionErrorShape("drain", Unsafe());
    assert "drain" + " the requested node:" + "\n" == "drain the requested node:\n";
    assert ": " + "testBody" == ": testBody";
  }

  /** The reply to an inconsistent balancer during an enable, as the test spells it out. */
  lemma InconsistentWording()
    ensures ExceptionMessage(ActionErrorTitle("enable"), Inconsistent()) ==
      Text("An error has occured trying to " + "enable the requested node:\n" +
           "DoubleDutch::SpaceCadet::LBInconsistentState" + ": testBody")
  {
    ActionErrorShape("enable", Inconsistent());
    assert "enable" + " the requested node:" + "\n" == "enable the requested node:\n";
    assert ": " + "testBody" == ": testBody";
  }

  /** The two actions the router accepts are typed in lower case in the tests. */
  lemma KnownActionIsLowerCase(action: string)
    requires KnownAction(action)
    ensures Lower(action) == action
    ensures StateFor(action) == if action == "drain" then Draining else Enabled
  {
    LowerFixesExactlyLowerCase(action);
  }

  /** The calls of a command: the client's creation, the two registrations, then the last call. */
  lemma AroundTwo<T>(first: T, middle: seq<T>, last: T)
    requires |middle| == 2
    ensures [first] + middle + [last] == [first, middle[0], middle[1], last]
  {
  }

  /** What the router reads from "lbcfg <action> sf test lita app01". */
  lemma SfTestLitaCommand(c: Captures, action: string)
    requires KnownAction(action) && c == Command(action, "sf", "test", "lita", "app01")
    ensures ActionRoute(c) && KnownAction(Lower(c["action"]))
    ensures SplitParams(c) == SfTestLita() && Lower(c["node"]) == "app01" && Lower(c["action"]) == action
  {
    CommandFields(action, "sf", "test", "lita", "app01");
    LowerCasePathWords();
    LowerCaseCommandWords();
    KnownActionIsLowerCase(action);
  }

  /**
   * 'happy path' for drain and for enable: `add_lb` 42 and 84,
   * `update_node('app01', :draining)` or `update_node('app01', :enabled)`,
   * then the progress reply and the closing reply.
   */
  lemma HappyPath(h: Tree, b: Behaviour, c: Captures, action: string)
    requires KnownAction(action)
    requires h == HappyCfg() && b == Quiet() && c == Command(action, "sf", "test", "lita", "app01")
    ensures RouterEffect(h, b, c, false) ==
      Effect([StartingUpdate(StateFor(action), "app01", "sf", "test", "lita"), UpdateDone("lita")],
             [Call.NewLb(EnvKey(SfTestLita())), Call.AddLb(IntId(42)), Call.AddLb(IntId(84)),
              Call.UpdateNode("app01", StateFor(action))],
             None)
  {
    HappyCfgFacts();
    SfTestLitaCommand(c, action);
    RouterUpdatesNode(h, b, c, Ids());
    AroundTwo(Call.NewLb(EnvKey(SfTestLita())), AddCalls(Ids()), Call.UpdateNode("app01", StateFor(action)));
  }

  function Unsafe(): Error {
    Error(SpaceCadetError, "DoubleDutch::SpaceCadet::LBUnsafe", "testBody")
  }

  function Inconsistent(): Error {
    Error(SpaceCadetError, "DoubleDutch::SpaceCadet::LBInconsistentState", "testBody")
  }

  /**
   * 'when the LB is unsafe' (drain) and 'when the LB is inconsistent' (enable):
   * `update_node` raises a SpaceCadet error; the progress reply is followed by
   * the error's class and message, and nothing escapes.
   */
  lemma UpdateFaultPath(h: Tree, b: Behaviour, c: Captures, action: string, err: Error)
    requires KnownAction(action) && err.kind == SpaceCadetError
    requires h == HappyCfg() && c == Command(action, "sf", "test", "lita", "app01")
    requires b == Behaviour(None, map[], Some(err), Returned(HappyData()))
    ensures RouterEffect(h, b, c, false) ==
      Effect([StartingUpdate(StateFor(action), "app01", "sf", "test", "lita"),
              ExceptionMessage(ActionErrorTitle(action), err)],
             [Call.NewLb(EnvKey(SfTestLita())), Call.AddLb(IntId(42)), Call.AddLb(IntId(84)),
              Call.UpdateNode("app01", StateFor(action))],
             None)
  {
    HappyCfgFacts();
    SfTestLitaCommand(c, action);
    RouterReportsUpdateFault(h, b, c, Ids(), err);
    AroundTwo(Call.NewLb(EnvKey(SfTestLita())), AddCalls(Ids()), Call.UpdateNode("app01", StateFor(action)));
  }

  /** Each sad configuration misses the requested path at its own level. */
  lemma SadConfigsMiss()
    ensures BalancerIds(SadRegionCfg(), "sf", "test", "lita") == Missing(MissingRegion("sf"))
    ensures BalancerIds(SadEnvCfg(), "sf", "test", "lita") == Missing(MissingEnv("sf", "test"))
    ensures BalancerIds(SadBalancerCfg(), "sf", "test", "lita") == Missing(MissingBalancer("sf", "test", "lita"))
  {
  }

  /** 'action bad bot config' (drain and enable): each missing key gives its one reply. */
  lemma ActionBadConfig(b: Behaviour, c: Captures, action: string)
    requires KnownAction(action)
    requires b == Quiet() && c == Command(action, "sf", "test", "lita", "app01")
    ensures RouterEffect(SadRegionCfg(), b, c, false).replies == [MissingKeyMessage(MissingRegion("sf"))]
    ensures RouterEffect(SadEnvCfg(), b, c, false).replies == [MissingKeyMessage(MissingEnv("sf", "test"))]
    ensures RouterEffect(SadBalancerCfg(), b, c, false).replies ==
      [MissingKeyMessage(MissingBalancer("sf", "test", "lita"))]
  {
    SfTestLitaCommand(c, action);
    SadConfigsMiss();
    RouterReportsMissingKey(SadRegionCfg(), b, c, MissingRegion("sf"));
    RouterReportsMissingKey(SadEnvCfg(), b, c, MissingEnv("sf", "test"));
    RouterReportsMissingKey(SadBalancerCfg(), b, c, MissingBalancer("sf", "test", "lita"));
  }

  /** 'invalid command' on the action route: one reply, no SDK call. */
  lemma InvalidActionReply(h: Tree, b: Behaviour, c: Captures)
    requires h == HappyCfg() && b == Quiet() && c == Command("invalid", "sf", "test", "lita", "app01")
    ensures RouterEffect(h, b, c, false) == Effect([InvalidAction("invalid")], [], None)
  {
    LowerFixesExactlyLowerCase("invalid");
    assert Lower(c["action"]) == "invalid";
    RouterRefusesUnknownAction(h, b, c);
  }

  lemma UpperCaseCommandWords()
    ensures Lower("DRAIN") == "drain" && Lower("APP01") == "app01"
  {
    assert Lower("DRAIN") == "drain";
    assert Lower("APP01") == "app01";
  }

  lemma UpperCasePathWords()
    ensures Lower("SF") == "sf" && Lower("Test") == "test" && Lower("LITA") == "lita"
  {
    assert Lower("SF") == "sf";
    assert Lower("Test") == "test";
    assert Lower("LITA") == "lita";
  }

  lemma LowerCaseCommandWords()
    ensures Lower("drain") == "drain" && Lower("app01") == "app01"
  {
    LowerFixesExactlyLowerCase("drain");
    LowerFixesExactlyLowerCase("app01");
  }

  lemma LowerCasePathWords()
    ensures Lower("sf") == "sf" && Lower("test") == "test" && Lower("lita") == "lita"
  {
    LowerFixesExactlyLowerCase("sf");
    LowerFixesExactlyLowerCase("test");
    LowerFixesExactlyLowerCase("lita");
  }

  lemma SameWords(c1: Captures, c2: Captures)
    requires c1 == Command("DRAIN", "SF", "Test", "LITA", "APP01")
    requires c2 == Command("drain", "sf", "test", "lita", "app01")
    ensures ActionRoute(c1) && ActionRoute(c2)
    ensures Lower(c1["action"]) == Lower(c2["action"]) && Lower(c1["node"]) == Lower(c2["node"])
    ensures Lower(c1["region"]) == Lower(c2["region"]) && Lower(c1["environment"]) == Lower(c2["environment"])
    ensures Lower(c1["balancer"]) == Lower(c2["balancer"])
  {
    CommandFields("DRAIN", "SF", "Test", "LITA", "APP01");
    CommandFields("drain", "sf", "test", "lita", "app01");
    UpperCaseCommandWords();
    UpperCasePathWords();
    LowerCaseCommandWords();
    LowerCasePathWords();
  }

  /** The command words are lower-cased: "DRAIN SF Test LITA APP01" does what the lower-case command does. */
  lemma UpperCaseCommand(h: Tree, b: Behaviour, c1: Captures, c2: Captures)
    requires c1 == Command("DRAIN", "SF", "Test", "LITA", "APP01")
    requires c2 == Command("drain", "sf", "test", "lita", "app01")
    ensures RouterEffect(h, b, c1, false) == RouterEffect(h, b, c2, false)
  {
    SameWords(c1, c2);
    RouterIgnoresCase(h, b, c1, c2, false);
  }

  lemma Lb01App01Line()
    ensures NodeLine(NodeStatus("app01", "ENABLED", "127.0.0.1", "142")) == "  app01  ENABLED  127.0.0.1  142"
  {
    var s := NodeLine(NodeStatus("app01", "ENABLED", "127.0.0.1", "142"));
    var t := "  app01  ENABLED  127.0.0.1  142";
    assert |s| == |t|;
    forall i | 0 <= i < |s| ensures s[i] == t[i] {}
  }

  lemma Lb01App02Line()
    ensures NodeLine(NodeStatus("app02", "DRAINING", "127.0.0.2", "184")) == "  app02  DRAINING  127.0.0.2  184"
  {
    var s := NodeLine(NodeStatus("app02", "DRAINING", "127.0.0.2", "184"));
    var t := "  app02  DRAINING  127.0.0.2  184";
    assert |s| == |t|;
    forall i | 0 <= i < |s| ensures s[i] == t[i] {}
  }

  lemma Lb02App01Line()
    ensures NodeLine(NodeStatus("app01", "ENABLED", "127.0.0.1", "242")) == "  app01  ENABLED  127.0.0.1  242"
  {
    var s := NodeLine(NodeStatus("app01", "ENABLED", "127.0.0.1", "242"));
    var t := "  app01  ENABLED  127.0.0.1  242";
    assert |s| == |t|;
    forall i | 0 <= i < |s| ensures s[i] == t[i] {}
  }

  lemma Lb02App02Line()
    ensures NodeLine(NodeStatus("app02", "DRAINING", "127.0.0.2", "284")) == "  app02  DRAINING  127.0.0.2  284"
  {
    var s := NodeLine(NodeStatus("app02", "DRAINING", "127.0.0.2", "284"));
    var t := "  app02  DRAINING  127.0.0.2  284";
    assert |s| == |t|;
    forall i | 0 <= i < |s| ensures s[i] == t[i] {}
  }

  lemma Lb01Lines()
    ensures BlockLines(Lb01()) ==
      ["test-lb01 (42)", "  app01  ENABLED  127.0.0.1  142", "  app02  DRAINING  127.0.0.2  184", "---"]
  {
    Lb01App01Line();
    Lb01App02Line();
    assert HeaderLine(Lb01()) == "test-lb01 (42)";
    assert NodeLines(Lb01().nodes) == [NodeLine(Lb01().nodes[0]), NodeLine(Lb01().nodes[1])];
  }

  lemma Lb02Lines()
    ensures BlockLines(Lb02()) ==
      ["test-lb02 (84)", "  app01  ENABLED  127.0.0.1  242", "  app02  DRAINING  127.0.0.2  284", "---"]
  {
    Lb02App01Line();
    Lb02App02Line();
    assert HeaderLine(Lb02()) == "test-lb02 (84)";
    assert NodeLines(Lb02().nodes) == [NodeLine(Lb02().nodes[0]), NodeLine(Lb02().nodes[1])];
  }

  /** The records of the '.status' test render, line by line, as the test expects. */
  lemma HappyDataRendering()
    ensures StatusText(HappyData()) ==
      Unlines(["test-lb01 (42)", "  app01  ENABLED  127.0.0.1  142", "  app02  DRAINING  127.0.0.2  184", "---",
               "test-lb02 (84)", "  app01  ENABLED  127.0.0.1  242", "  app02  DRAINING  127.0.0.2  284", "---"])
  {
    var d := HappyData();
    StatusTextIsLines(d);
    Lb01Lines();
    Lb02Lines();
    assert [Lb01()][..0] == [];
    assert StatusLines([Lb01()]) == BlockLines(Lb01());
    assert d[..|d| - 1] == [Lb01()];
    assert StatusLines(d) == BlockLines(Lb01()) + BlockLines(Lb02()) ==
      ["test-lb01 (42)", "  app01  ENABLED  127.0.0.1  142", "  app02  DRAINING  127.0.0.2  184", "---",
       "test-lb02 (84)", "  app01  ENABLED  127.0.0.1  242", "  app02  DRAINING  127.0.0.2  284", "---"];
  }

  /** '.status happy-path': `add_lb` 42 and 84, one status call, and the rendered records as the one reply. */
  lemma StatusHappyPath(h: Tree, b: Behaviour, c: Captures)
    requires h == HappyCfg() && b == Quiet() && c == StatusCommand()
    ensures StatusEffect(h, b, SplitParams(c)) ==
      Effect([Text(StatusText(HappyData()))],
             [Call.NewLb(EnvKey(SfTestLita())), Call.AddLb(IntId(42)), Call.AddLb(IntId(84)), Call.GetStatus],
             None)
  {
    StatusCommandSplit();
    HappyCfgFacts();
    StatusRendersRecords(h, b, SfTestLita(), Ids(), HappyData());
    AroundTwo(Call.NewLb(EnvKey(SfTestLita())), AddCalls(Ids()), Call.GetStatus);
  }

  /** '.status' with a bad configuration: each missing key gives its one reply. */
  lemma StatusBadConfig(b: Behaviour, c: Captures)
    requires b == Quiet() && c == StatusCommand()
    ensures StatusEffect(SadRegionCfg(), b, SplitParams(c)).replies == [MissingKeyMessage(MissingRegion("sf"))]
    ensures StatusEffect(SadEnvCfg(), b, SplitParams(c)).replies == [MissingKeyMessage(MissingEnv("sf", "test"))]
    ensures StatusEffect(SadBalancerCfg(), b, SplitParams(c)).replies ==
      [MissingKeyMessage(MissingBalancer("sf", "test", "lita"))]
  {
    StatusCommandSplit();
    SadConfigsMiss();
    StatusReportsMissingKey(SadRegionCfg(), b, SfTestLita(), MissingRegion("sf"));
    StatusReportsMissingKey(SadEnvCfg(), b, SfTestLita(), MissingEnv("sf", "test"));
    StatusReportsMissingKey(SadBalancerCfg(), b, SfTestLita(), MissingBalancer("sf", "test", "lita"));
  }
}
