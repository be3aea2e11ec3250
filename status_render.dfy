/**
 * `render_status` (lib/lita/handlers/lbcfg.rb): the text of a status reply,
 * built from the balancer records that the SDK's `status` call returns.
 * Record fields are kept as the text Ruby's string interpolation gives them.
 */
module StatusRender {

  datatype NodeStatus = NodeStatus(name: string, condition: string, ip: string, id: string)
  datatype LbStatus = LbStatus(name: string, id: string, nodes: seq<NodeStatus>)

  function HeaderLine(lb: LbStatus): string {
    lb.name + " (" + lb.id + ")"
  }

  function NodeLine(n: NodeStatus): string {
    "  " + n.name + "  " + n.condition + "  " + n.ip + "  " + n.id
  }

  const Separator: string := "---"

  // ---------------------------------------------------------------------
  // The rendered text, block by block

  /** The node lines of one balancer, each ended by a newline. */
  function NodesText(nodes: seq<NodeStatus>): string {
    if nodes == [] then ""
    else NodesText(nodes[..|nodes| - 1]) + NodeLine(nodes[|nodes| - 1]) + "\n"
  }

  /** One balancer's block: header line, node lines, separator line. */
  function BlockText(lb: LbStatus): string {
    HeaderLine(lb) + "\n" + NodesText(lb.nodes) + Separator + "\n"
  }

  /** The blocks of all balancers, in the order the SDK returned them. */
  function StatusText(details: seq<LbStatus>): string {
    if details == [] then ""
    else StatusText(details[..|details| - 1]) + BlockText(details[|details| - 1])
  }

  // ---------------------------------------------------------------------
  // The same text seen as a list of lines

  /** Each line followed by a newline. */
  function Unlines(lines: seq<string>): string {
    if lines == [] then ""
    else Unlines(lines[..|lines| - 1]) + lines[|lines| - 1] + "\n"
  }

  function NodeLines(nodes: seq<NodeStatus>): seq<string> {
    seq(|nodes|, i requires 0 <= i < |nodes| => NodeLine(nodes[i]))
  }

  function BlockLines(lb: LbStatus): seq<string> {
    [HeaderLine(lb)] + NodeLines(lb.nodes) + [Separator]
  }

  function StatusLines(details: seq<LbStatus>): seq<string> {
    if details == [] then []
    else StatusLines(details[..|details| - 1]) + BlockLines(details[|details| - 1])
  }

  /** Number of nodes plus two, summed over the balancers. */
  function LineCount(details: seq<LbStatus>): nat {
    if details == [] then 0
    else LineCount(details[..|details| - 1]) + |details[|details| - 1].nodes| + 2
  }

  /** Number of occurrences of `c` in `s`. */
  function Occurrences(s: string, c: char): nat {
    if s == [] then 0
    else Occurrences(s[..|s| - 1], c) + (if s[|s| - 1] == c then 1 else 0)
  }

  /** No field of any record holds a line break. */
  predicate SingleLineFields(details: seq<LbStatus>) {
    forall i :: 0 <= i < |details| ==> SingleLineRecord(details[i])
  }

  predicate SingleLineRecord(lb: LbStatus) {
    && '\n' !in lb.name && '\n' !in lb.id
    && forall j :: 0 <= j < |lb.nodes| ==>
      && '\n' !in lb.nodes[j].name && '\n' !in lb.nodes[j].condition
      && '\n' !in lb.nodes[j].ip && '\n' !in lb.nodes[j].id
  }

  // ---------------------------------------------------------------------
  // The loop the handler runs

  /** Appends each balancer's header, node lines and separator to `out`. */
  method RenderStatus(details: seq<LbStatus>) returns (out: string)
    ensures out == StatusText(details)
  {
    out := "";
    var i := 0;
    while i < |details|
      invariant 0 <= i <= |details|
      invariant out == StatusText(details[..i])
    {
      var lb := details[i];
      ghost var before := out;
      out := out + HeaderLine(lb) + "\n";
      ghost var head := out;
      var j := 0;
      while j < |lb.nodes|
        invariant 0 <= j <= |lb.nodes|
        invariant out == head + NodesText(lb.nodes[..j])
      {
        NodesTextStep(lb.nodes, j);
        AppendLine(head, NodesText(lb.nodes[..j]), NodeLine(lb.nodes[j]));
        out := out + NodeLine(lb.nodes[j]) + "\n";
        j := j + 1;
      }
      assert lb.nodes[..j] == lb.nodes;
      out := out + Separator + "\n";
      StatusTextStep(details, i);
      i := i + 1;
    }
    assert details[..i] == details;
  }

  /** Appending a line to a text already appended is appending both. */
  lemma AppendLine(head: string, text: string, line: string)
    ensures head + (text + line + "\n") == head + text + line + "\n"
  {
  }

  lemma NodesTextStep(nodes: seq<NodeStatus>, j: nat)
    requires j < |nodes|
    ensures NodesText(nodes[..j + 1]) == NodesText(nodes[..j]) + NodeLine(nodes[j]) + "\n"
  {
    assert nodes[..j + 1][..j] == nodes[..j];
  }

  lemma StatusTextStep(details: seq<LbStatus>, i: nat)
    requires i < |details|
    ensures StatusText(details[..i + 1]) ==
      StatusText(details[..i]) + HeaderLine(details[i]) + "\n" + NodesText(details[i].nodes) + Separator + "\n"
  {
    assert details[..i + 1][..i] == details[..i];
  }

  // ---------------------------------------------------------------------
  // Properties of the rendered text

  /** Rendering no balancers gives the empty string. */
  lemma StatusTextOfNothing()
    ensures StatusText([]) == ""
    ensures StatusLines([]) == []
  {
  }

  /** Rendering a concatenation renders each part in order. */
  lemma {:induction false} StatusTextAppend(a: seq<LbStatus>, b: seq<LbStatus>)
    ensures StatusText(a + b) == StatusText(a) + StatusText(b)
    decreases |b|
  {
    if b == [] {
      assert a + b == a;
    } else {
      var b', last := b[..|b| - 1], b[|b| - 1];
      StatusTextAppend(a, b');
      StatusTextAppendLast(a, b);
      StatusTextLast(b);
      Regroup(StatusText(a), StatusText(b'), BlockText(last), StatusText(a + b'), StatusText(b), StatusText(a + b));
    }
  }

  lemma StatusTextLast(d: seq<LbStatus>)
    requires d != []
    ensures StatusText(d) == StatusText(d[..|d| - 1]) + BlockText(d[|d| - 1])
  {
  }

  lemma StatusTextAppendLast(a: seq<LbStatus>, b: seq<LbStatus>)
    requires b != []
    ensures StatusText(a + b) == StatusText(a + b[..|b| - 1]) + BlockText(b[|b| - 1])
  {
    assert (a + b)[..|a + b| - 1] == a + b[..|b| - 1];
    StatusTextLast(a + b);
  }

  /** Appending in two steps is appending the two parts at once. */
  lemma Regroup<T>(x: seq<T>, y: seq<T>, z: seq<T>, xy: seq<T>, yz: seq<T>, xyz: seq<T>)
    requires xy == x + y && yz == y + z && xyz == xy + z
    ensures xyz == x + yz
  {
  }

  lemma {:induction false} UnlinesAppend(a: seq<string>, b: seq<string>)
    ensures Unlines(a + b) == Unlines(a) + Unlines(b)
    decreases |b|
  {
    if b == [] {
      assert a + b == a;
    } else {
      var b' := b[..|b| - 1];
      assert (a + b)[..|a + b| - 1] == a + b';
      UnlinesAppend(a, b');
    }
  }

  lemma {:induction false} NodesTextIsLines(nodes: seq<NodeStatus>)
    ensures NodesText(nodes) == Unlines(NodeLines(nodes))
    decreases |nodes|
  {
    if nodes != [] {
      var front := nodes[..|nodes| - 1];
      assert NodeLines(nodes)[..|nodes| - 1] == NodeLines(front);
      NodesTextIsLines(front);
    }
  }

  lemma BlockTextIsLines(lb: LbStatus)
    ensures BlockText(lb) == Unlines(BlockLines(lb))
  {
    NodesTextIsLines(lb.nodes);
    UnlinesAppend([HeaderLine(lb)], NodeLines(lb.nodes));
    UnlinesAppend([HeaderLine(lb)] + NodeLines(lb.nodes), [Separator]);
    assert Unlines([HeaderLine(lb)]) == HeaderLine(lb) + "\n";
    assert Unlines([Separator]) == Separator + "\n";
  }

  /**
   * The status text is the header line, the node lines and the separator line
   * of every balancer, in order, each followed by a newline.
   */
  lemma {:induction false} StatusTextIsLines(details: seq<LbStatus>)
    ensures StatusText(details) == Unlines(StatusLines(details))
    decreases |details|
  {
    if details != [] {
      var front, last := details[..|details| - 1], details[|details| - 1];
      StatusTextIsLines(front);
      BlockTextIsLines(last);
      UnlinesAppend(StatusLines(front), BlockLines(last));
    }
  }

  /** There are (nodes + 2) lines per balancer. */
  lemma {:induction false} StatusLineCount(details: seq<LbStatus>)
    ensures |StatusLines(details)| == LineCount(details)
    decreases |details|
  {
    if details != [] {
      StatusLineCount(details[..|details| - 1]);
    }
  }

  lemma {:induction false} OccurrencesAppend(a: string, b: string, c: char)
    ensures Occurrences(a + b, c) == Occurrences(a, c) + Occurrences(b, c)
    decreases |b|
  {
    if b == [] {
      assert a + b == a;
    } else {
      var b' := b[..|b| - 1];
      assert (a + b)[..|a + b| - 1] == a + b';
      OccurrencesAppend(a, b', c);
    }
  }

  lemma {:induction false} OccurrencesAbsent(s: string, c: char)
    requires c !in s
    ensures Occurrences(s, c) == 0
    decreases |s|
  {
    if s != [] {
      OccurrencesAbsent(s[..|s| - 1], c);
    }
  }

  lemma {:induction false} UnlinesNewlines(lines: seq<string>)
    requires forall k :: 0 <= k < |lines| ==> '\n' !in lines[k]
    ensures Occurrences(Unlines(lines), '\n') == |lines|
    decreases |lines|
  {
    if lines != [] {
      var front, last := lines[..|lines| - 1], lines[|lines| - 1];
      UnlinesNewlines(front);
      OccurrencesAppend(Unlines(front), last, '\n');
      OccurrencesAppend(Unlines(front) + last, "\n", '\n');
      OccurrencesAbsent(last, '\n');
    }
  }

  lemma {:induction false} StatusLinesSingleLine(details: seq<LbStatus>)
    requires SingleLineFields(details)
    ensures forall k :: 0 <= k < |StatusLines(details)| ==> '\n' !in StatusLines(details)[k]
    decreases |details|
  {
    if details != [] {
      var front, last := details[..|details| - 1], details[|details| - 1];
      assert SingleLineFields(front) by {
        forall i | 0 <= i < |front| ensures SingleLineRecord(front[i]) {
          assert front[i] == details[i];
        }
      }
      StatusLinesSingleLine(front);
      assert SingleLineRecord(last);
    }
  }

  /**
   * When no field holds a line break, the status text has exactly one newline
   * per line: (nodes + 2) per balancer.
   */
  lemma StatusNewlineCount(details: seq<LbStatus>)
    requires SingleLineFields(details)
    ensures Occurrences(StatusText(details), '\n') == LineCount(details)
  {
    StatusTextIsLines(details);
    StatusLinesSingleLine(details);
    UnlinesNewlines(StatusLines(details));
    StatusLineCount(details);
  }
}
