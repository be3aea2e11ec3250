# lita-lbcfg in Dafny

This project models the `Lbcfg` chat handler of the lita-lbcfg Lita plugin. Operators use the handler to inspect and change SpaceCadet load balancers from chat:

- `lbcfg status <region> <environment> <balancer>` reports the state of every load balancer that the bot's configuration lists under region.environment.balancer.
- `lbcfg <drain|enable> <region> <environment> <balancer> <node>` takes a node out of those balancers, or puts it back.

The model has these parts:

- `Config.BalancerIds` is the configuration walk (`balancer_ids`). It is a pure function over the nested `lb_hash` maps. It returns the stored ids, or the first missing level as a `MissingKey` value.
- `StatusRender` holds the status text. `RenderStatus` is the nested loop that builds it, and it is proved equal to the block-by-block function `StatusText`. Lemmas then relate that text to its list of lines: (nodes + 2) lines per balancer, in order, and `""` for no balancer.
- `SpaceCadet` is a recording stand-in for the load-balancer SDK.
  - `Sdk.NewLb` creates an `LbClient`. `LbClient.AddLb`, `UpdateNode` and `Status` are its calls.
  - Each call is appended to a trace.
  - Each call is answered by an injected `Behaviour`: return normally, or raise an error with a class name and a message.
  - Ruby exceptions become `Raised` outcomes. Their `ErrorKind` records which `rescue` clause catches them: SpaceCadet errors, other StandardErrors, or neither.
- `Lbcfg` holds the handler.
  - Spec functions (`StatusEffect`, `UpdateEffect`, `RouterEffect`, …) say what one command does: its replies, its SDK calls, and the exception that escapes, if any.
  - The class `Handler` has the methods `Status`, `ChangeNode` (which is `lbcfg_drain` and `lbcfg_enable`) and `Router` (which is `lbcfg_router`).
  - These methods append to a `Response`'s replies and drive the recording SDK. Each is proved to have exactly the effect its spec function describes.
- `LbcfgProperties` proves the handler's promises about those spec functions:
  - the router's gates and their order;
  - the order of SDK calls;
  - the reply count and order on every path;
  - exception translation;
  - case-insensitivity.
- `Scenarios` restates the handler's test cases as lemmas: the same configurations, commands and SDK answers, and the same expected replies and calls.

Replies are `Messages.Message` values.
- Where the tests assert the exact wording, the reply is that text.
- The wording of other locale entries (`general.private_message`, `general.balancer_not_arr`, `status.no_details`) is not known. Those replies are kept as the locale key and its parameters.

Some behaviour of the code is easy to overlook, and the model keeps it as written:
- The code creates the client before the configuration lookup (lib/lita/handlers/lbcfg.rb:77, 170, 186), so a missing key still creates a client. It then makes no `add_lb`, `update_node` or `status` call.
- In `status`, only the `status` call is inside the SDK-error rescue (lines 91-110). An exception raised by `new_client` or `add_lb` there leaves the handler unreplied (`StatusLetsClientFaultEscape`, `StatusLetsRegistrationFaultEscape`).
  - In `lbcfg_drain` and `lbcfg_enable`, the same exceptions happen inside the router's rescue (lines 126-140), so they are translated (`RouterReportsClientFault`, `RouterReportsRegistrationFault`).
- Configuration keys are looked up as written. Only the command words are lower-cased.
- The generic-error title keeps the source's spelling "excpetion".
- `e.to_s` (in drain) and `e.message` (in enable) give the same text for `MissingKey`.

## Model

| member | source | states |
|---|---|---|
| Text.Lower | lib/lita/handlers/lbcfg.rb:209-221 | downcasing lowers each character where it stands (same length, character by character) and leaves no upper-case letter |
| Text.LowerFixesExactlyLowerCase | lib/lita/handlers/lbcfg.rb:209-221 | downcasing leaves a word unchanged exactly when it is already lower case |
| Text.LowerIdempotent | lib/lita/handlers/lbcfg.rb:209-221 | downcasing twice is the same as downcasing once |
| Config.BalancerIds | lib/lita/handlers/lbcfg.rb:226-243 | ids come back exactly when region, environment and balancer all exist and the value is an array, and they are the stored array; otherwise the error names the shallowest missing level (region, then environment, then balancer), and a non-array leaf gives its own error; each case holds in both directions |
| Config.BalancerIdsReadsOnlyThePath | lib/lita/handlers/lbcfg.rb:226-243 | two configurations that agree along region.environment.balancer resolve it alike |
| StatusRender.HeaderLine | lib/lita/handlers/lbcfg.rb:155 | a balancer's header line is "<name> (<id>)" |
| StatusRender.NodeLine | lib/lita/handlers/lbcfg.rb:158 | a node's line is two spaces, then name, condition, ip and id, each pair separated by two spaces |
| StatusRender.BlockText | lib/lita/handlers/lbcfg.rb:155-161 | one balancer's block: the header line, its node lines in order, then the `Separator` line "---", each ended by a newline |
| StatusRender.StatusText | lib/lita/handlers/lbcfg.rb:154-162 | the status text: the blocks of all balancers, in the order the SDK returned them |
| StatusRender.RenderStatus | lib/lita/handlers/lbcfg.rb:149-165 | the appending loop produces, per balancer in order, the header line, each node line in order and the `---` line |
| StatusRender.StatusTextOfNothing | lib/lita/handlers/lbcfg.rb:149-165 | no balancers render as the empty string with no lines |
| StatusRender.StatusTextAppend | lib/lita/handlers/lbcfg.rb:154-162 | rendering two lists of balancers one after the other is rendering each in turn and concatenating |
| StatusRender.StatusTextIsLines | lib/lita/handlers/lbcfg.rb:149-165 | the rendered text is the lines "<name> (<id>)", "  <name>  <condition>  <ip>  <id>" per node and "---", each ended by a newline |
| StatusRender.StatusLineCount | lib/lita/handlers/lbcfg.rb:149-165 | the text has the sum over balancers of (nodes + 2) lines |
| StatusRender.StatusNewlineCount | lib/lita/handlers/lbcfg.rb:149-165 | when no record field holds a line break, the text holds exactly that many newlines |
| SpaceCadet.Sdk.NewLb | lib/lita/handlers/lbcfg.rb:145-147 | creating a client records the call and returns a fresh client for the key, or raises the injected error |
| SpaceCadet.LbClient.AddLb | lib/lita/handlers/lbcfg.rb:83 | `add_lb` records the call and registers the id unless it raises |
| SpaceCadet.LbClient.UpdateNode | lib/lita/handlers/lbcfg.rb:179 | `update_node` records the node and the requested state |
| SpaceCadet.LbClient.Status | lib/lita/handlers/lbcfg.rb:93 | `status` records the call and returns the injected records or raises |
| Messages.MissingKeyMessage | lib/lita/handlers/lbcfg.rb:230-239 | the text of each `MissingKey`: region, environment and balancer errors name the missing key and the path above it (wording checked in the `Scenarios` wording lemmas); the non-array error stays the locale key `general.balancer_not_arr` |
| Messages.MissingKeyInitial | lib/lita/handlers/lbcfg.rb:230-239 | the region, environment and balancer errors are texts beginning with 'R', 'E' and 'B'; only the non-array error is a bare locale key |
| Messages.MissingKeyMessageNamesLevel | lib/lita/handlers/lbcfg.rb:230-239 | two equal missing-key replies come from the same missing level, so the reply tells the operator which level is missing |
| Messages.PrivateMessage | lib/lita/handlers/lbcfg.rb:117 | the refusal of a direct message is the locale key `general.private_message` |
| Messages.InvalidAction | lib/lita/handlers/lbcfg.rb:122 | the refusal of an unknown action names the lower-cased action (wording in `Scenarios.InvalidActionWording`) |
| Messages.Verb | lib/lita/handlers/lbcfg.rb:178-194 | drain announces "Draining" and enable "Enabling" |
| Messages.StartingUpdate | lib/lita/handlers/lbcfg.rb:178-194 | the progress reply names the verb, the node and region.environment.balancer (wording in `Scenarios.DrainingWording` and `Scenarios.EnablingWording`) |
| Messages.UpdateDone | lib/lita/handlers/lbcfg.rb:180-196 | the completion reply names the balancer (wording in `Scenarios.DoneWording`) |
| Messages.NoDetails | lib/lita/handlers/lbcfg.rb:96 | the empty-status reply is the locale key `status.no_details` with the region, environment and balancer |
| Messages.ExceptionMessage | lib/lita/handlers/lbcfg.rb:103 | the `exception` template: the title, a line break, then the exception's class and message |
| Messages.StatusErrorTitle | lib/lita/handlers/lbcfg.rb:102 | the title for a SpaceCadet error during `status`, naming region.environment.balancer |
| Messages.StatusGenericTitle | lib/lita/handlers/lbcfg.rb:107 | the title for any other StandardError during `status`, with the source's spelling "excpetion" |
| Messages.ActionErrorTitle | lib/lita/handlers/lbcfg.rb:132 | the title for a SpaceCadet error during a drain or enable, naming the action |
| Messages.ActionGenericTitle | lib/lita/handlers/lbcfg.rb:137 | the title for any other StandardError during a drain or enable, with the source's spelling "excpetion" |
| Messages.RescueTitlesDiffer | lib/lita/handlers/lbcfg.rb:101-140 | for `status` and for the router, the generic-error reply is always 15 characters longer than the SpaceCadet-error reply for the same exception, so the two always differ |
| Lbcfg.SplitParams | lib/lita/handlers/lbcfg.rb:209-215 | region, environment and balancer are each the capture with every character lower-cased in place, and hold no upper-case letter |
| Lbcfg.SplitLongParams | lib/lita/handlers/lbcfg.rb:219-221 | the same three fields, plus the node capture lower-cased character by character |
| Lbcfg.KnownAction | lib/lita/handlers/lbcfg.rb:122 | the router accepts exactly the actions "enable" and "drain", compared after lower-casing |
| Lbcfg.EnvKey | lib/lita/handlers/lbcfg.rb:77 | the client key splits into the region, one `-`, and the environment |
| Lbcfg.AddLbRun | lib/lita/handlers/lbcfg.rb:83 | the `add_lb` calls are the ids in order, up to and including the first that raises; no fault exactly when no id raises, and then every id is sent; otherwise the fault is the last sent id's error and every earlier id registered cleanly |
| Lbcfg.RescueReplies | lib/lita/handlers/lbcfg.rb:131-140 | at most one reply, none exactly when the exception escapes; the reply is the exception text under the SpaceCadet title for SpaceCadet errors and under the generic title otherwise |
| Lbcfg.RescueEscape | lib/lita/handlers/lbcfg.rb:131-140 | an exception escapes exactly when it is outside StandardError, and it is that same exception |
| Lbcfg.StatusEffect | lib/lita/handlers/lbcfg.rb:74-111 | whatever the configuration and SDK do, the first SDK call creates the client for the region-environment key |
| Lbcfg.StatusForIds | lib/lita/handlers/lbcfg.rb:83-110 | when an `add_lb` raises, `status` sends no reply, never asks for the status, and lets that error escape; otherwise its last SDK call is the status call |
| Lbcfg.StatusReport | lib/lita/handlers/lbcfg.rb:91-110 | one status call; at most one reply, none exactly when an exception escapes; records that arrive never lead to an escape |
| Lbcfg.UpdateEffect | lib/lita/handlers/lbcfg.rb:167-197 | whatever the configuration and SDK do, the first SDK call of a drain or enable creates the client for the region-environment key |
| Lbcfg.UpdateForIds | lib/lita/handlers/lbcfg.rb:172-180 | at most one reply, the progress reply, sent exactly when every `add_lb` succeeded; it is then followed by `update_node` as the last call; otherwise the `add_lb` error is raised |
| Lbcfg.StateFor | lib/lita/handlers/lbcfg.rb:129 | for the two known actions, the state is `:draining` exactly for drain and `:enabled` exactly for enable |
| Lbcfg.RouterEffect | lib/lita/handlers/lbcfg.rb:114-141 | the router makes no SDK call exactly when it refuses the command: a direct message or an action other than drain and enable |
| Lbcfg.FirstFault | lib/lita/handlers/lbcfg.rb:83 | the position of the first id whose `add_lb` raises: every earlier id registers cleanly |
| Lbcfg.Response.Reply | lib/lita/handlers/lbcfg.rb:85 | a reply is appended to the replies already sent |
| Lbcfg.Handler.AddIds | lib/lita/handlers/lbcfg.rb:83 | `add_lb` is called for each id in configuration order and stops at the first that raises; the client holds exactly the ids before it |
| Lbcfg.Handler.Rescue | lib/lita/handlers/lbcfg.rb:101-110 | a SpaceCadet error and any other StandardError each give one reply with their own title; anything else escapes with no reply |
| Lbcfg.Handler.Status | lib/lita/handlers/lbcfg.rb:74-111 | the `status` command's replies, SDK calls and escaping exception are those of `StatusEffect` |
| Lbcfg.Handler.RegisterAndReport | lib/lita/handlers/lbcfg.rb:83-110 | registering the ids and then reporting has the effect of `StatusForIds` |
| Lbcfg.Handler.Report | lib/lita/handlers/lbcfg.rb:91-110 | the rescued part of `status`: the no-details reply, the rendered records, or the translated exception |
| Lbcfg.Handler.ChangeNode | lib/lita/handlers/lbcfg.rb:167-197 | `lbcfg_drain` and `lbcfg_enable` send, call and return or raise as `UpdateEffect` says |
| Lbcfg.Handler.RegisterAndUpdate | lib/lita/handlers/lbcfg.rb:172-180 | registering the ids, the progress reply and the node update have the effect of `UpdateForIds` |
| Lbcfg.Handler.Router | lib/lita/handlers/lbcfg.rb:114-141 | `lbcfg_router`'s replies, SDK calls and escaping exception are those of `RouterEffect` |
| LbcfgProperties.AddLbRunRegistersAll | lib/lita/handlers/lbcfg.rb:173 | when no `add_lb` raises, every id is registered once, in configuration order |
| LbcfgProperties.AddLbRunStopsAtFault | lib/lita/handlers/lbcfg.rb:173 | when an `add_lb` raises, the ids up to and including it were sent, no later id was, and its error is the one raised |
| LbcfgProperties.RouterRefusesDirectMessage | lib/lita/handlers/lbcfg.rb:117 | a direct message gets one refusal reply, whatever the action, and never touches the SDK |
| LbcfgProperties.RouterRefusesUnknownAction | lib/lita/handlers/lbcfg.rb:119-122 | an action other than drain or enable, after lower-casing, gets one reply naming it and no SDK call |
| LbcfgProperties.RouterCreatesClientFirst | lib/lita/handlers/lbcfg.rb:114-141 | the SDK is called exactly when the command passes both gates, and its first call creates a client for "<region>-<environment>" in lower case |
| LbcfgProperties.RouterUpdatesNode | lib/lita/handlers/lbcfg.rb:114-197 | on the happy path: client creation, `add_lb` per id in order, then `update_node` with the requested state; then exactly the progress reply and the completion reply |
| LbcfgProperties.RouterAsksForRequestedState | lib/lita/handlers/lbcfg.rb:167-197 | in any letter case, drain calls `update_node(node, :draining)` and never `:enabled`, and its first reply is the "Draining …" progress reply; enable is the same with `:enabled` and "Enabling …"; this holds whether or not `update_node` then raises |
| LbcfgProperties.RouterReportsMissingKey | lib/lita/handlers/lbcfg.rb:129-176 | a missing key gives exactly one reply, the lookup's error; a client was created, but no id is registered and no node is updated |
| LbcfgProperties.RouterReportsClientFault | lib/lita/handlers/lbcfg.rb:126-170 | when `new_client` raises during a drain or enable, the only SDK call is the creation, there is no progress reply, and the router's rescue gives its SpaceCadet or generic reply, or lets an exception outside StandardError escape |
| LbcfgProperties.RouterReportsRegistrationFault | lib/lita/handlers/lbcfg.rb:126-173 | when an `add_lb` raises during a drain or enable, the calls are the creation and the ids up to and including the failing one, no node is updated, there is no progress reply, and the router's rescue translates the error |
| LbcfgProperties.RouterReportsUpdateFault | lib/lita/handlers/lbcfg.rb:129-179 | when `update_node` raises, the progress reply is followed by the SpaceCadet-error reply or the generic one; an exception outside StandardError escapes after the progress reply alone |
| LbcfgProperties.AddLbRunHasNoUpdate | lib/lita/handlers/lbcfg.rb:173-179 | registering the ids never updates a node |
| LbcfgProperties.UpdateReplyProtocol | lib/lita/handlers/lbcfg.rb:167-197 | a node update sends at most one reply, the progress reply, and sends it exactly when it calls `update_node` |
| LbcfgProperties.RouterReplyProtocol | lib/lita/handlers/lbcfg.rb:114-141 | a handled command gets one or two replies, two exactly when the node was updated, with the progress reply first; an escaping exception leaves at most the progress reply |
| LbcfgProperties.RescueRepliesProtocol | lib/lita/handlers/lbcfg.rb:131-140 | a rescued exception gives one reply and an escaping one none |
| LbcfgProperties.RouterIgnoresCase | lib/lita/handlers/lbcfg.rb:119-221 | commands whose words differ only in case behave identically |
| LbcfgProperties.StatusRendersRecords | lib/lita/handlers/lbcfg.rb:74-99 | a successful `status` registers every id in order, asks once, and replies once: the rendered records, or no-details when there are none |
| LbcfgProperties.StatusReportsMissingKey | lib/lita/handlers/lbcfg.rb:77-86 | a missing key gives its one reply after the client is created, and the SDK is asked nothing |
| LbcfgProperties.StatusReportsFault | lib/lita/handlers/lbcfg.rb:91-110 | a raising `status` gives the SpaceCadet-error or generic reply titled with the balancer path; an exception outside StandardError escapes unreplied |
| LbcfgProperties.StatusLetsRegistrationFaultEscape | lib/lita/handlers/lbcfg.rb:82-86 | an `add_lb` error in `status` escapes with no reply and no status call |
| LbcfgProperties.StatusLetsClientFaultEscape | lib/lita/handlers/lbcfg.rb:77 | a raising `new_client` in `status` escapes with no reply and no further SDK call, whatever the exception's kind |
| LbcfgProperties.StatusReplyProtocol | lib/lita/handlers/lbcfg.rb:74-111 | `status` sends exactly one reply unless an exception escapes, and then none |
| Scenarios.HappyCfgFacts | spec/unit/lita/handlers/lbcfg_spec.rb:67-75 | the tests' configuration resolves sf.test.lita to the ids 42 and 84, under the client key "sf-test" |
| Scenarios.DrainingWording | spec/unit/lita/handlers/lbcfg_spec.rb:152 | the drain progress reply reads "Draining app01 within the sf.test.lita balancer..." |
| Scenarios.EnablingWording | spec/unit/lita/handlers/lbcfg_spec.rb:152 | the enable progress reply reads "Enabling app01 within the sf.test.lita balancer..." |
| Scenarios.DoneWording | spec/unit/lita/handlers/lbcfg_spec.rb:153 | the completion reply reads "Finished updating the lita load balancer" |
| Scenarios.MissingRegionWording | spec/unit/lita/handlers/lbcfg_spec.rb:242 | the missing-region reply reads "Region 'sf' does not exist in the config" |
| Scenarios.MissingEnvWording | spec/unit/lita/handlers/lbcfg_spec.rb:254 | the missing-environment reply reads "Environment 'test' does not exist in the config for sf" |
| Scenarios.MissingBalancerWording | spec/unit/lita/handlers/lbcfg_spec.rb:266 | the missing-balancer reply reads "Balancer 'lita' does not exist in the config for sf.test" |
| Scenarios.InvalidActionWording | spec/unit/lita/handlers/lbcfg_spec.rb:306 | the invalid-action reply reads "invalid is not a valid action, please use 'drain' or 'enable'" |
| Scenarios.UnsafeWording | spec/unit/lita/handlers/lbcfg_spec.rb:162-194 | an unsafe balancer during a drain is reported with the error title, the LBUnsafe class and its message |
| Scenarios.InconsistentWording | spec/unit/lita/handlers/lbcfg_spec.rb:197-229 | an inconsistent balancer during an enable is reported with the error title, the LBInconsistentState class and its message |
| Scenarios.HappyPath | spec/unit/lita/handlers/lbcfg_spec.rb:122-155 | drain and enable of app01: a client for sf-test, `add_lb` 42 then 84, `update_node('app01', state)`, then the progress and completion replies |
| Scenarios.UpdateFaultPath | spec/unit/lita/handlers/lbcfg_spec.rb:157-231 | when `update_node` raises a SpaceCadet error: the same calls, then the progress reply and the error reply, and nothing escapes |
| Scenarios.SadConfigsMiss | spec/unit/lita/handlers/lbcfg_spec.rb:77-105 | each bad configuration misses sf.test.lita at its own level |
| Scenarios.ActionBadConfig | spec/unit/lita/handlers/lbcfg_spec.rb:233-269 | for drain and enable, each bad configuration gives exactly its one missing-key reply |
| Scenarios.InvalidActionReply | spec/unit/lita/handlers/lbcfg_spec.rb:303-308 | the action "invalid" gets one reply and no SDK call |
| Scenarios.UpperCaseCommand | lib/lita/handlers/lbcfg.rb:119-221 | "DRAIN SF Test LITA APP01" does exactly what "drain sf test lita app01" does |
| Scenarios.HappyDataRendering | spec/unit/lita/handlers/lbcfg_spec.rb:312-369 | the two test records render as the eight lines the test expects, in order |
| Scenarios.StatusHappyPath | spec/unit/lita/handlers/lbcfg_spec.rb:338-370 | '.status': a client for sf-test, `add_lb` 42 then 84, one status call, and the rendered records as the one reply |
| Scenarios.StatusBadConfig | spec/unit/lita/handlers/lbcfg_spec.rb:372-406 | '.status' with each bad configuration gives exactly its one missing-key reply |

## Left out

- lib/lita-lbcfg/loader.rb is not part of this model. It forwards credentials to the SDK's own configuration registry, which cannot be seen here.
- `not_found`, which answers commands that match no route, is not modelled. It is chat-framework glue.
- `is_dm?` is a boolean on the `Response`. The adapter check behind it belongs to the chat framework.
- Route patterns and Lita's dispatch are left out. The handler receives the already-matched named captures.
- The `config` defaults of the handler (an empty `lb_hash` and empty credentials) are not modelled. No logic depends on them.
- The exact wording of `general.private_message`, `general.balancer_not_arr` and `status.no_details` is not modelled. The locale file is not part of this model, so these replies are kept as the locale key and its parameters.
- `render_template('status')` is taken to pass the rendered text through unchanged. `render_template('exception')` is taken to give the title, a newline, then "<class>: <message>". The templates are not part of this model; both readings are the ones the tests expect.
- Text.Lower: lowers ASCII letters only. Ruby's `downcase` also folds non-ASCII letters; the route patterns capture only word characters and `-`.
- Configuration values that are not Hashes at the region or environment level are not modelled. Ruby would raise `NoMethodError` there. The configuration is typed as nested maps.
- Record fields are kept as text. The rendering uses them exactly as string interpolation would print them.
- The SDK's network behaviour is not modelled. Each call's outcome is injected instead.
- What Lita does with an exception that escapes a handler is not modelled. The model reports that exception and the replies sent before it.
