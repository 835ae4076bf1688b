/** go/internal/telegraph/article.go: how an article that is too large loses its tail.  `weight` is
    the length of a node's JSON; the length of a list is the sum of its nodes' plus separators. */
module Article {

  datatype Tag = P | Blockquote | Heading | Rule
  datatype Node = Node(tag: Tag, text: string)

  type Weight = Node -> nat

  function Weights(nodes: seq<Node>, w: Weight): nat {
    if nodes == [] then 0 else Weights(nodes[..|nodes| - 1], w) + w(nodes[|nodes| - 1]) + 1
  }

  /** `sizeOf`: brackets and commas around the nodes. */
  function SizeOf(nodes: seq<Node>, w: Weight): nat {
    if nodes == [] then 2 else 1 + Weights(nodes, w)
  }

  /** `lastNodeTag`; -1 when there is none. */
  function LastNodeTag(nodes: seq<Node>, tag: Tag): (r: int)
    ensures -1 <= r < |nodes| && (r >= 0 ==> nodes[r].tag == tag)
  {
    if nodes == [] then -1
    else if nodes[|nodes| - 1].tag == tag then |nodes| - 1
    else LastNodeTag(nodes[..|nodes| - 1], tag)
  }

  function Without(nodes: seq<Node>, i: nat): seq<Node>
    requires i < |nodes|
  {
    nodes[..i] + nodes[i + 1..]
  }

  // ---------------------------------------------------------------- the article before trimming

  datatype Quote = Quote(header: string, body: string)

  /** The pieces an article is laid out from: the meta line and optional source line, the post's
      paragraphs, and the comment section when there is one. */
  datatype Outline = Outline(lead: seq<string>, post: seq<string>, heading: string, comments: seq<Quote>)

  function Paragraphs(ps: seq<string>): seq<Node> {
    seq(|ps|, i requires 0 <= i < |ps| => Node(P, ps[i]))
  }

  /** `CommentNodes`, one after the other. */
  function CommentNodes(cs: seq<Quote>): seq<Node> {
    if cs == [] then []
    else CommentNodes(cs[..|cs| - 1]) + [Node(P, cs[|cs| - 1].header), Node(Blockquote, cs[|cs| - 1].body)]
  }

  /** The comment heading is there exactly when the untrimmed thread has a comment section. */
  function HeadingNodes(t: Outline): seq<Node> {
    if t.heading != "" && t.comments != [] then [Node(Rule, ""), Node(Heading, t.heading)] else []
  }

  function Shown(t: Outline): nat {
    if t.heading != "" then |t.comments| else 0
  }

  /** All lead lines and post paragraphs. */
  function Full(t: Outline): nat {
    |t.lead| + |t.post|
  }

  function LeadNodes(t: Outline, q: nat): seq<Node> {
    Paragraphs(t.lead[..if q < |t.lead| then q else |t.lead|])
  }

  function PostNodes(t: Outline, q: nat): seq<Node>
    requires q <= Full(t)
  {
    Paragraphs(t.post[..if q < |t.lead| then 0 else q - |t.lead|])
  }

  function Section(t: Outline, c: nat): seq<Node>
    requires c <= |t.comments|
  {
    HeadingNodes(t) + CommentNodes(t.comments[..c])
  }

  /** The article with `q` lead lines and post paragraphs and the first `c` comments left; lead lines
      stand before the first rule and the post after it. */
  function Layout(t: Outline, q: nat, c: nat): seq<Node>
    requires q <= Full(t) && c <= Shown(t)
  {
    LeadNodes(t, q) + [Node(Rule, "")] + PostNodes(t, q) + Section(t, c)
  }

  function Whole(t: Outline): seq<Node> {
    Layout(t, Full(t), Shown(t))
  }

  /** The comments, a header and a quote each. */
  lemma {:induction false} CommentNodesAt(cs: seq<Quote>)
    ensures |CommentNodes(cs)| == 2 * |cs|
    ensures forall k :: 0 <= k < |cs| ==>
              && CommentNodes(cs)[2 * k] == Node(P, cs[k].header)
              && CommentNodes(cs)[2 * k + 1] == Node(Blockquote, cs[k].body)
  {
    if cs != [] {
      CommentNodesAt(cs[..|cs| - 1]);
    }
  }

  /** An article: `l` lead lines, a rule, `p` paragraphs, then, when the thread has a comment section, a rule and
      the heading, and the first `c` comments. */
  lemma LayoutIs(t: Outline, l: nat, p: nat, c: nat)
    requires l <= |t.lead| && p <= |t.post| && (p > 0 ==> l == |t.lead|) && c <= Shown(t)
    ensures Layout(t, l + p, c)
         == seq(l, i requires 0 <= i < l => Node(P, t.lead[i])) + [Node(Rule, "")]
            + seq(p, i requires 0 <= i < p => Node(P, t.post[i]))
            + (if t.heading != "" && t.comments != [] then [Node(Rule, ""), Node(Heading, t.heading)] else [])
            + CommentNodes(t.comments[..c])
  {
    var (lead, post) := (LeadNodes(t, l + p), PostNodes(t, l + p));
    assert lead == seq(l, i requires 0 <= i < l => Node(P, t.lead[i]));
    assert post == seq(p, i requires 0 <= i < p => Node(P, t.post[i]));
    var (a, h, b) := (lead + [Node(Rule, "")] + post, HeadingNodes(t), CommentNodes(t.comments[..c]));
    assert a + (h + b) == a + h + b;
  }

  // ---------------------------------------------------------------- where the tail nodes are

  lemma {:induction false} LastTagIs(nodes: seq<Node>, tag: Tag, i: nat)
    requires i < |nodes| && nodes[i].tag == tag && forall j :: i < j < |nodes| ==> nodes[j].tag != tag
    ensures LastNodeTag(nodes, tag) == i
  {
    if i < |nodes| - 1 {
      LastTagIs(nodes[..|nodes| - 1], tag, i);
    }
  }

  lemma {:induction false} NoSuchTag(nodes: seq<Node>, tag: Tag)
    requires forall j :: 0 <= j < |nodes| ==> nodes[j].tag != tag
    ensures LastNodeTag(nodes, tag) == -1
  {
    if nodes != [] {
      NoSuchTag(nodes[..|nodes| - 1], tag);
    }
  }

  lemma CommentsGrow(cs: seq<Quote>, c: nat)
    requires c < |cs|
    ensures CommentNodes(cs[..c + 1]) == CommentNodes(cs[..c]) + [Node(P, cs[c].header), Node(Blockquote, cs[c].body)]
  {
    assert cs[..c + 1][..c] == cs[..c];
  }

  /** With a comment left, the last quote and the header before it are the last two nodes. */
  lemma {:induction false} LastComment(t: Outline, q: nat, c: nat)
    requires q <= Full(t) && c < Shown(t)
    ensures var nodes := Layout(t, q, c + 1); var n := |nodes|;
            && n >= 2 && LastNodeTag(nodes, Blockquote) == n - 1 && nodes[n - 2].tag == P
            && nodes[..n - 2] == Layout(t, q, c)
  {
    CommentsGrow(t.comments, c);
    var nodes := Layout(t, q, c + 1);
    assert nodes == Layout(t, q, c) + [Node(P, t.comments[c].header), Node(Blockquote, t.comments[c].body)];
    LastTagIs(nodes, Blockquote, |nodes| - 1);
  }

  lemma LastPRemoved(front: seq<Node>, x: Node, rest: seq<Node>)
    requires x.tag == P && forall j :: 0 <= j < |rest| ==> rest[j].tag != P
    ensures var nodes := front + [x] + rest;
            LastNodeTag(nodes, P) == |front| && Without(nodes, |front|) == front + rest
  {
    LastTagIs(front + [x] + rest, P, |front|);
  }

  lemma NoComments(t: Outline)
    ensures Section(t, 0) == HeadingNodes(t)
  {
    assert t.comments[..0] == [];
  }

  lemma {:induction false} LeadMore(t: Outline, q: nat)
    requires 0 < q <= |t.lead|
    ensures PostNodes(t, q) == PostNodes(t, q - 1)
    ensures LeadNodes(t, q) == LeadNodes(t, q - 1) + [Node(P, t.lead[q - 1])]
  {
  }

  lemma {:induction false} LastLead(t: Outline, q: nat)
    requires 0 < q <= |t.lead|
    ensures var nodes := Layout(t, q, 0);
            LastNodeTag(nodes, P) >= 0 && Without(nodes, LastNodeTag(nodes, P)) == Layout(t, q - 1, 0)
  {
    NoComments(t);
    var rest := [Node(Rule, "")] + PostNodes(t, q) + Section(t, 0);
    LeadMore(t, q);
    LastPRemoved(LeadNodes(t, q - 1), Node(P, t.lead[q - 1]), rest);
    assert Layout(t, q, 0) == LeadNodes(t, q) + rest;
    assert Layout(t, q - 1, 0) == LeadNodes(t, q - 1) + rest;
  }

  lemma {:induction false} LastPost(t: Outline, q: nat)
    requires |t.lead| < q <= Full(t)
    ensures var nodes := Layout(t, q, 0);
            LastNodeTag(nodes, P) >= 0 && Without(nodes, LastNodeTag(nodes, P)) == Layout(t, q - 1, 0)
  {
    NoComments(t);
    var k := q - |t.lead|;
    var front := LeadNodes(t, q) + [Node(Rule, "")] + PostNodes(t, q - 1);
    assert LeadNodes(t, q) == LeadNodes(t, q - 1);
    assert PostNodes(t, q) == PostNodes(t, q - 1) + [Node(P, t.post[k - 1])];
    LastPRemoved(front, Node(P, t.post[k - 1]), Section(t, 0));
    assert Layout(t, q, 0) == front + [Node(P, t.post[k - 1])] + Section(t, 0);
    assert Layout(t, q - 1, 0) == front + Section(t, 0);
  }

  /** Without comments no quote is left, and the last line is the last lead line or paragraph. */
  lemma {:induction false} LastParagraph(t: Outline, q: nat)
    requires q <= Full(t)
    ensures var nodes := Layout(t, q, 0);
            && LastNodeTag(nodes, Blockquote) == -1
            && (q == 0 ==> LastNodeTag(nodes, P) == -1)
            && (q > 0 ==> LastNodeTag(nodes, P) >= 0 && Without(nodes, LastNodeTag(nodes, P)) == Layout(t, q - 1, 0))
  {
    NoComments(t);
    NoSuchTag(Layout(t, q, 0), Blockquote);
    if q == 0 {
      NoSuchTag(Layout(t, q, 0), P);
    } else if q <= |t.lead| {
      LastLead(t, q);
    } else {
      LastPost(t, q);
    }
  }

  // ---------------------------------------------------------------- sizes

  lemma {:induction false} WeightsConcat(a: seq<Node>, b: seq<Node>, w: Weight)
    ensures Weights(a + b, w) == Weights(a, w) + Weights(b, w)
  {
    if b == [] {
      assert a + b == a;
    } else {
      assert (a + b)[..|a + b| - 1] == a + b[..|b| - 1];
      WeightsConcat(a, b[..|b| - 1], w);
    }
  }

  /** What a size is: the JSON of a list has its brackets, the JSON of its nodes, and a comma between any two. */
  lemma SizeLaws(a: seq<Node>, b: seq<Node>, n: Node, w: Weight)
    ensures SizeOf([], w) == 2 && SizeOf([n], w) == w(n) + 2
    ensures a != [] && b != [] ==> SizeOf(a + b, w) == SizeOf(a, w) + SizeOf(b, w) - 1
  {
    assert [n][..0] == [];
    WeightsConcat(a, b, w);
  }

  /** The sizes of the nodes, added up from the left. */
  ghost predicate RunningSum(nodes: seq<Node>, w: Weight, sum: seq<nat>) {
    |sum| == |nodes| + 1 && sum[0] == 0 && forall i :: 0 <= i < |nodes| ==> sum[i + 1] == sum[i] + w(nodes[i])
  }

  lemma {:induction false} SizeIsSum(nodes: seq<Node>, w: Weight) returns (sum: seq<nat>)
    ensures RunningSum(nodes, w, sum) && Weights(nodes, w) == sum[|nodes|] + |nodes|
  {
    if nodes == [] {
      sum := [0];
    } else {
      var front := SizeIsSum(nodes[..|nodes| - 1], w);
      sum := front + [front[|nodes| - 1] + w(nodes[|nodes| - 1])];
    }
  }

  lemma WithoutSmaller(nodes: seq<Node>, i: nat, w: Weight)
    requires i < |nodes| && |nodes| > 1
    ensures SizeOf(Without(nodes, i), w) < SizeOf(nodes, w)
  {
    assert nodes == nodes[..i] + ([nodes[i]] + nodes[i + 1..]);
    WeightsConcat(nodes[..i], [nodes[i]] + nodes[i + 1..], w);
    WeightsConcat([nodes[i]], nodes[i + 1..], w);
    WeightsConcat(nodes[..i], nodes[i + 1..], w);
    assert [nodes[i]][..0] == [];
  }

  predicate Fits(t: Outline, q: nat, c: nat, w: Weight, limit: nat)
    requires q <= Full(t) && c <= Shown(t)
  {
    SizeOf(Layout(t, q, c), w) <= limit
  }

  lemma FewerParagraphsSmaller(t: Outline, q: nat, w: Weight)
    requires 0 < q <= Full(t)
    ensures SizeOf(Layout(t, q - 1, 0), w) < SizeOf(Layout(t, q, 0), w)
  {
    LastParagraph(t, q);
    var nodes := Layout(t, q, 0);
    WithoutSmaller(nodes, LastNodeTag(nodes, P), w);
  }

  lemma FewerCommentsSmaller(t: Outline, q: nat, c: nat, w: Weight)
    requires q <= Full(t) && c < Shown(t)
    ensures SizeOf(Layout(t, q, c), w) < SizeOf(Layout(t, q, c + 1), w)
  {
    LastComment(t, q, c);
    var nodes := Layout(t, q, c + 1);
    WithoutSmaller(nodes, |nodes| - 1, w);
    assert Without(nodes, |nodes| - 1) == nodes[..|nodes| - 1];
    var less := nodes[..|nodes| - 1];
    assert less[..|less| - 1] == nodes[..|nodes| - 2];
    WithoutSmaller(less, |less| - 1, w);
    assert Without(less, |less| - 1) == less[..|less| - 1];
  }

  /** More comments or more paragraphs never fit where fewer did not. */
  lemma {:induction false} CommentsMonotone(t: Outline, q: nat, c: nat, d: nat, w: Weight, limit: nat)
    requires q <= Full(t) && c <= d <= Shown(t) && Fits(t, q, d, w, limit)
    ensures Fits(t, q, c, w, limit)
    decreases d - c
  {
    if c < d {
      FewerCommentsSmaller(t, q, d - 1, w);
      CommentsMonotone(t, q, c, d - 1, w, limit);
    }
  }

  lemma {:induction false} ParagraphsMonotone(t: Outline, q: nat, r: nat, w: Weight, limit: nat)
    requires q <= r <= Full(t) && Fits(t, r, 0, w, limit)
    ensures Fits(t, q, 0, w, limit)
    decreases r - q
  {
    if q < r {
      FewerParagraphsSmaller(t, r, w);
      ParagraphsMonotone(t, q, r - 1, w, limit);
    }
  }

  // ---------------------------------------------------------------- the trim loop

  /** Nothing larger than what is left would have fitted. */
  ghost predicate Trimming(t: Outline, q: nat, c: nat, w: Weight, limit: nat) {
    && q <= Full(t) && c <= Shown(t)
    && (c > 0 ==> q == Full(t))
    && (forall d :: c < d <= Shown(t) ==> !Fits(t, Full(t), d, w, limit))
    && (forall r :: q < r <= Full(t) ==> !Fits(t, r, 0, w, limit))
  }

  /** What trimming must leave: the longest prefix of the comments that fits with the whole post; if
      not even none does, the longest prefix of lead lines and paragraphs that fits without comments;
      and if nothing fits, the bare rules and heading. */
  ghost predicate BestTrim(t: Outline, q: nat, c: nat, w: Weight, limit: nat) {
    Trimming(t, q, c, w, limit) && (Fits(t, q, c, w, limit) || (q == 0 && c == 0))
  }

  lemma {:induction false} CommentStep(t: Outline, q: nat, c: nat)
    requires q <= Full(t) && 0 < c <= Shown(t)
    ensures var nodes := Layout(t, q, c); var last := LastNodeTag(nodes, Blockquote);
            && last == |nodes| - 1 && last > 0
            && Without(nodes, last)[last - 1].tag == P
            && Without(Without(nodes, last), last - 1) == Layout(t, q, c - 1)
  {
    LastComment(t, q, c - 1);
    var nodes := Layout(t, q, c);
    var less := Without(nodes, |nodes| - 1);
    assert less == nodes[..|nodes| - 1];
    assert Without(less, |less| - 1) == nodes[..|nodes| - 2];
  }

  /** One pass of the loop body on a list that is still too large. */
  method TrimOnce(ghost t: Outline, ghost q: nat, ghost c: nat, ghost w: Weight, ghost limit: nat, nodes: seq<Node>)
    returns (less: seq<Node>, stuck: bool)
    requires Trimming(t, q, c, w, limit) && !Fits(t, q, c, w, limit) && nodes == Layout(t, q, c)
    ensures stuck <==> q == 0 && c == 0
    ensures stuck ==> less == nodes
    ensures c > 0 ==> less == Layout(t, q, c - 1)
    ensures c == 0 && q > 0 ==> less == Layout(t, q - 1, 0)
  {
    if c > 0 {
      CommentStep(t, q, c);
    } else {
      LastParagraph(t, q);
    }
    var last := LastNodeTag(nodes, Blockquote);
    if last >= 0 {
      less := Without(nodes, last);
      // the header line right before the quote goes too
      if last > 0 && less[last - 1].tag == P {
        less := Without(less, last - 1);
      }
      return less, false;
    }
    last := LastNodeTag(nodes, P);
    if last >= 0 {
      return Without(nodes, last), false;
    }
    less, stuck := nodes, true;
  }

  lemma {:induction false} Shrinks(t: Outline, q: nat, c: nat)
    requires q <= Full(t) && c <= Shown(t)
    ensures c > 0 ==> |Layout(t, q, c - 1)| == |Layout(t, q, c)| - 2
    ensures c == 0 && q > 0 ==> |Layout(t, q - 1, 0)| == |Layout(t, q, 0)| - 1
    ensures |Layout(t, q, c)| <= 1 ==> q == 0 && c == 0
  {
    if c > 0 {
      LastComment(t, q, c - 1);
    } else {
      LastParagraph(t, q);
    }
  }

  /** What a pass leaves is all that is still in question. */
  lemma {:induction false} TrimmingOn(t: Outline, q: nat, c: nat, w: Weight, limit: nat)
    requires Trimming(t, q, c, w, limit) && !Fits(t, q, c, w, limit)
    ensures c > 0 ==> Trimming(t, q, c - 1, w, limit)
    ensures c == 0 && q > 0 ==> Trimming(t, q - 1, 0, w, limit)
  {
  }

  /** No paragraph and no quote is left. */
  predicate Bare(nodes: seq<Node>) {
    forall i :: 0 <= i < |nodes| ==> nodes[i].tag != P && nodes[i].tag != Blockquote
  }

  /** The article fits unless no paragraph and no quote remains. */
  lemma {:induction false} TrimmedFits(t: Outline, q: nat, c: nat, w: Weight, limit: nat)
    requires BestTrim(t, q, c, w, limit) && SizeOf(Layout(t, q, c), w) > limit
    ensures Bare(Layout(t, q, c))
  {
    assert t.comments[..0] == [];
  }

  /** The trimmed list fits, node sizes, commas and brackets added up, or has nothing left to drop. */
  lemma FitsInSum(t: Outline, q: nat, c: nat, w: Weight, limit: nat) returns (sum: seq<nat>)
    requires BestTrim(t, q, c, w, limit)
    ensures var nodes := Layout(t, q, c);
            && RunningSum(nodes, w, sum)
            && (2 + sum[|nodes|] + |nodes| - 1 <= limit || Bare(nodes))
  {
    sum := SizeIsSum(Layout(t, q, c), w);
    if SizeOf(Layout(t, q, c), w) > limit {
      TrimmedFits(t, q, c, w, limit);
    }
  }

  /** `Article`'s loop over the node list. */
  method Trim(t: Outline, w: Weight, limit: nat) returns (nodes: seq<Node>, ghost sum: seq<nat>)
    ensures exists q: nat, c: nat :: BestTrim(t, q, c, w, limit) && nodes == Layout(t, q, c)
    ensures RunningSum(nodes, w, sum) && (2 + sum[|nodes|] + |nodes| - 1 <= limit || Bare(nodes))
  {
    nodes := Whole(t);
    ghost var q: nat, c: nat := Full(t), Shown(t);
    var stuck := false;
    while |nodes| > 1 && SizeOf(nodes, w) > limit && !stuck
      invariant Trimming(t, q, c, w, limit) && nodes == Layout(t, q, c)
      invariant stuck ==> q == 0 && c == 0
      decreases |nodes|, !stuck
    {
      assert !Fits(t, q, c, w, limit);
      nodes, stuck := TrimOnce(t, q, c, w, limit, nodes);
      Shrinks(t, q, c);
      TrimmingOn(t, q, c, w, limit);
      if c > 0 {
        c := c - 1;
      } else if q > 0 {
        q := q - 1;
      }
    }
    Shrinks(t, q, c);
    assert BestTrim(t, q, c, w, limit);
    sum := FitsInSum(t, q, c, w, limit);
  }

  /** The result is the only best trim: the loop's answer does not depend on how it got there. */
  lemma {:induction false} BestTrimUnique(t: Outline, q: nat, c: nat, q': nat, c': nat, w: Weight, limit: nat)
    requires BestTrim(t, q, c, w, limit) && BestTrim(t, q', c', w, limit)
    ensures q == q' && c == c'
  {
    if c > 0 {
      CommentsMonotone(t, Full(t), 0, c, w, limit);
    }
    if c' > 0 {
      CommentsMonotone(t, Full(t), 0, c', w, limit);
    }
  }

  /** A prefix of the comments is kept exactly when it fits with the whole post. */
  lemma KeptIffFits(t: Outline, q: nat, c: nat, d: nat, w: Weight, limit: nat)
    requires BestTrim(t, q, c, w, limit) && 0 < d <= Shown(t)
    ensures d <= c <==> SizeOf(Layout(t, |t.lead| + |t.post|, d), w) <= limit
  {
    if d <= c {
      CommentsMonotone(t, Full(t), d, c, w, limit);
      assert Fits(t, Full(t), d, w, limit);
    } else {
      assert !Fits(t, Full(t), d, w, limit);
    }
  }

  /** A prefix of the lead lines and paragraphs is kept exactly when it fits without comments, or some comments
      fit with all of them. */
  lemma PostKeptIff(t: Outline, q: nat, c: nat, r: nat, w: Weight, limit: nat)
    requires BestTrim(t, q, c, w, limit) && 0 < r <= |t.lead| + |t.post|
    ensures r <= q <==> SizeOf(Layout(t, r, 0), w) <= limit
  {
    if r <= q {
      if c > 0 {
        CommentsMonotone(t, q, 0, c, w, limit);
      }
      ParagraphsMonotone(t, r, q, w, limit);
      assert Fits(t, r, 0, w, limit);
    } else {
      assert !Fits(t, r, 0, w, limit);
    }
  }

  /** The article before trimming, with every comment when it has a comment section. */
  lemma WholeIs(t: Outline)
    ensures Whole(t) == Paragraphs(t.lead) + [Node(Rule, "")] + Paragraphs(t.post)
                        + (if t.heading == "" || t.comments == [] then []
                           else [Node(Rule, ""), Node(Heading, t.heading)] + CommentNodes(t.comments))
  {
    assert t.lead[..|t.lead|] == t.lead && t.post[..|t.post|] == t.post && t.comments[..|t.comments|] == t.comments;
    assert t.comments[..0] == [];
    var (a, h, b) := (LeadNodes(t, Full(t)) + [Node(Rule, "")] + PostNodes(t, Full(t)), HeadingNodes(t),
                      CommentNodes(t.comments[..Shown(t)]));
    assert h == [] || a + h + b == a + (h + b);
  }

  /** An article that fits is left whole. */
  lemma {:induction false} FittingKept(t: Outline, q: nat, c: nat, w: Weight, limit: nat)
    requires BestTrim(t, q, c, w, limit) && SizeOf(Whole(t), w) <= limit
    ensures Layout(t, q, c) == Whole(t)
  {
    assert Fits(t, Full(t), Shown(t), w, limit);
  }
}
