/** The chunking and the concurrent translation of go/internal/worker/telegraph.go.  The translator
    is any function of the chunk. */
module Translate {
  import opened Text

  const MAX_CHUNK := 3500
  const SLOTS := 4

  // ---------------------------------------------------------------- chunkRunes

  function CutFrom(r: string, max: nat, i: nat): (cut: nat)
    requires i <= max < |r| && 0 < max
    ensures max / 2 < cut <= max
    ensures cut < max ==> r[cut - 1] == ' '
    ensures forall k :: max / 2 <= k < i && r[k] == ' ' ==> k < cut <= i && r[cut - 1] == ' '
  {
    if i <= max / 2 then max else if r[i - 1] == ' ' then i else CutFrom(r, max, i - 1)
  }

  /** Where the next piece of an over-long text ends: after the last space in its second half, or at
      `max`. */
  function Cut(r: string, max: nat): nat
    requires 0 < max < |r|
  {
    CutFrom(r, max, max)
  }

  function Chunks(r: string, max: nat): (out: seq<string>)
    requires max > 0
    ensures out != []
    decreases |r|
  {
    if |r| <= max then [r] else [r[..Cut(r, max)]] + Chunks(r[Cut(r, max)..], max)
  }

  /** The inner loop. */
  method FindCut(r: string, max: nat) returns (cut: nat)
    requires 0 < max < |r|
    ensures cut == Cut(r, max)
  {
    var i := max;
    while i > max / 2
      invariant max / 2 <= i <= max && Cut(r, max) == CutFrom(r, max, i)
    {
      if r[i - 1] == ' ' {
        return i;
      }
      i := i - 1;
    }
    cut := max;
  }

  method ChunkRunes(s: string, max: nat) returns (out: seq<string>)
    requires max > 0
    ensures out == Chunks(s, max)
  {
    var r := s;
    if |r| <= max {
      return [s];
    }
    out := [];
    while |r| > max
      invariant r != "" && Chunks(s, max) == out + Chunks(r, max)
      decreases |r|
    {
      var cut := FindCut(r, max);
      out := out + [r[..cut]];
      r := r[cut..];
    }
    if |r| > 0 {
      out := out + [r];
    }
  }

  function Concat(parts: seq<string>): string {
    if parts == [] then "" else parts[0] + Concat(parts[1..])
  }

  /** What `Concat` is on every list: parts in order. */
  lemma {:induction false} ConcatLaws(a: seq<string>, b: seq<string>, x: string)
    ensures Concat([]) == "" && Concat([x]) == x && Concat(a + b) == Concat(a) + Concat(b)
    decreases |a|
  {
    assert [x][1..] == [];
    if a == [] {
      assert a + b == b;
    } else {
      assert (a + b)[1..] == a[1..] + b;
      ConcatLaws(a[1..], b, x);
    }
  }

  lemma {:induction false} ChunksConcat(r: string, max: nat)
    requires max > 0
    ensures Concat(Chunks(r, max)) == r
    decreases |r|
  {
    var out := Chunks(r, max);
    if |r| > max {
      var cut := Cut(r, max);
      ChunksConcat(r[cut..], max);
      assert out[1..] == Chunks(r[cut..], max);
      assert r == r[..cut] + r[cut..];
    } else {
      assert out[1..] == [];
    }
  }

  /** A piece that is followed by another: more than half full, and full or ending at a space. */
  predicate Cuts(piece: string, max: nat) {
    max / 2 < |piece| <= max && (|piece| == max || piece[|piece| - 1] == ' ')
  }

  /** One more cut, and what follows it. */
  lemma ChunksCut(r: string, max: nat)
    requires max > 0 && |r| > max
    ensures var cut := Cut(r, max);
            Chunks(r, max) == [r[..cut]] + Chunks(r[cut..], max) && Cuts(r[..cut], max)
  {
  }

  /** A text that is too long is cut behind the last space in the second half of its first `max` runes, or at `max`
      when there is none; the rest is cut in the same way. */
  lemma ChunksStep(r: string, max: nat) returns (cut: nat)
    requires max > 0 && |r| > max
    ensures max / 2 < cut <= max && Cuts(r[..cut], max)
    ensures forall k :: cut <= k < max ==> r[k] != ' '
    ensures r[cut - 1] == ' ' || forall k :: max / 2 <= k < max ==> r[k] != ' '
    ensures Chunks(r, max) == [r[..cut]] + Chunks(r[cut..], max)
  {
    cut := Cut(r, max);
    ChunksCut(r, max);
  }

  lemma {:induction false} EveryPiece(r: string, max: nat, k: nat)
    requires max > 0 && k < |Chunks(r, max)|
    ensures var piece := Chunks(r, max)[k];
            && |piece| <= max && (r != "" ==> piece != "")
            && (k + 1 < |Chunks(r, max)| ==> Cuts(piece, max))
    decreases k
  {
    if |r| > max {
      ChunksCut(r, max);
      if k > 0 {
        EveryPiece(r[Cut(r, max)..], max, k - 1);
      }
    }
  }

  lemma SeveralIff(r: string, max: nat)
    requires max > 0
    ensures |r| > max <==> |Chunks(r, max)| > 1
  {
  }

  predicate NoneEmpty(parts: seq<string>) {
    forall k :: 0 <= k < |parts| ==> parts[k] != ""
  }

  /** Nothing is lost, every piece is at most `max` long, and all but the last fill more than half of
      it and end at a space unless they are full. */
  lemma {:induction false} ChunksCover(r: string, max: nat)
    requires max > 0
    ensures var out := Chunks(r, max);
            && Concat(out) == r
            && (forall k :: 0 <= k < |out| ==> |out[k]| <= max)
            && (forall k :: 0 <= k < |out| - 1 ==> Cuts(out[k], max))
            && (|r| > max <==> |out| > 1)
            && (r != "" ==> NoneEmpty(out))
  {
    ChunksConcat(r, max);
    SeveralIff(r, max);
    forall k | 0 <= k < |Chunks(r, max)|
      ensures |Chunks(r, max)[k]| <= max && (r != "" ==> Chunks(r, max)[k] != "")
      ensures k < |Chunks(r, max)| - 1 ==> Cuts(Chunks(r, max)[k], max)
    {
      EveryPiece(r, max, k);
    }
  }

  // ---------------------------------------------------------------- goroutines

  function Mapped<A, B>(items: seq<A>, f: A -> B): seq<B> {
    seq(|items|, i requires 0 <= i < |items| => f(items[i]))
  }

  /** One goroutine per item, each taking a slot, storing its result at its own index and giving the
      slot back, in any order the scheduler likes: the results are those of a plain loop. */
  method RunAll<A, B(0)>(items: seq<A>, f: A -> B, slots: nat) returns (out: seq<B>)
    requires slots > 0
    ensures out == Mapped(items, f)
    ensures |out| == |items| && forall i :: 0 <= i < |items| ==> out[i] == f(items[i])
  {
    var results := new B[|items|];
    var waiting := Below(|items|);
    var working: set<nat> := {};
    while waiting != {} || working != {}
      invariant forall i :: i in waiting || i in working ==> 0 <= i < |items|
      invariant forall i :: i in waiting ==> i !in working
      invariant |working| <= slots
      invariant forall i :: 0 <= i < |items| && i !in waiting && i !in working ==> results[i] == f(items[i])
      decreases 2 * |waiting| + |working|
    {
      var enter := *;
      if waiting != {} && |working| < slots && (enter || working == {}) {
        var i :| i in waiting;
        waiting, working := waiting - {i}, working + {i};
      } else {
        var i :| i in working;
        results[i] := f(items[i]);
        working := working - {i};
      }
    }
    out := results[..];
  }

  /** A chunk's goroutine, by block and position. */
  datatype Place = Place(block: nat, index: nat)

  predicate Inside<A>(items: seq<seq<A>>, p: Place) {
    p.block < |items| && p.index < |items[p.block]|
  }

  function Row<A>(items: seq<seq<A>>, i: nat): (r: set<Place>)
    requires i < |items|
    ensures forall p: Place :: p in r <==> p.block == i && Inside(items, p)
  {
    set j | j in Below(|items[i]|) :: Place(i, j)
  }

  function Places<A>(items: seq<seq<A>>, n: nat): (r: set<Place>)
    requires n <= |items|
    ensures forall p: Place :: p in r <==> p.block < n && Inside(items, p)
  {
    if n == 0 then {} else Places(items, n - 1) + Row(items, n - 1)
  }

  function OfBlock(working: set<Place>, i: nat): set<Place> {
    set p | p in working && p.block == i
  }

  predicate At<A, B(==)>(items: seq<seq<A>>, f: A -> B, results: map<Place, B>, p: Place) {
    Inside(items, p) ==> p in results && results[p] == f(items[p.block][p.index])
  }

  /** Everything that has left both sets has its result at its own place. */
  ghost predicate Filled<A(!new), B(!new)>(items: seq<seq<A>>, f: A -> B, waiting: set<Place>, working: set<Place>,
                                           results: map<Place, B>)
  {
    && (forall p :: p in waiting || p in working ==> Inside(items, p))
    && (forall p :: p in waiting ==> p !in working)
    && (forall p: Place :: p !in waiting && p !in working ==> At(items, f, results, p))
  }

  lemma EnterKeeps<A(!new), B(!new)>(items: seq<seq<A>>, f: A -> B, waiting: set<Place>, working: set<Place>,
                                      results: map<Place, B>, p: Place)
    requires Filled(items, f, waiting, working, results) && p in waiting
    ensures Filled(items, f, waiting - {p}, working + {p}, results)
    ensures |waiting - {p}| == |waiting| - 1 && |working + {p}| == |working| + 1
  {
  }

  lemma FinishKeeps<A(!new), B(!new)>(items: seq<seq<A>>, f: A -> B, waiting: set<Place>, working: set<Place>,
                                       results: map<Place, B>, p: Place)
    requires Filled(items, f, waiting, working, results) && p in working
    ensures Inside(items, p)
    ensures Filled(items, f, waiting, working - {p}, results[p := f(items[p.block][p.index])])
    ensures |working - {p}| == |working| - 1
  {
    var after := results[p := f(items[p.block][p.index])];
    forall q: Place | q !in waiting && q !in working - {p}
      ensures At(items, f, after, q)
    {
      assert q != p ==> At(items, f, results, q);
    }
  }

  lemma Entering(working: set<Place>, p: Place, slots: nat)
    requires |OfBlock(working, p.block)| < slots && forall i: nat :: |OfBlock(working, i)| <= slots
    ensures forall i: nat :: |OfBlock(working + {p}, i)| <= slots
  {
    forall i: nat
      ensures |OfBlock(working + {p}, i)| <= slots
    {
      assert OfBlock(working + {p}, i) == if i == p.block then OfBlock(working, i) + {p} else OfBlock(working, i);
    }
  }

  lemma Finishing(working: set<Place>, p: Place, slots: nat)
    requires forall i: nat :: |OfBlock(working, i)| <= slots
    ensures forall i: nat :: |OfBlock(working - {p}, i)| <= slots
  {
    forall i: nat
      ensures |OfBlock(working - {p}, i)| <= slots
    {
      assert OfBlock(working - {p}, i) == OfBlock(working, i) - {p};
    }
  }

  /** The goroutines of all blocks together, each block with its own slots: chunks of one block go in and come out
      between those of another, in any order the scheduler likes. */
  method Schedule<A(!new), B(!new, ==)>(items: seq<seq<A>>, f: A -> B, slots: nat) returns (results: map<Place, B>)
    requires slots > 0
    ensures forall p: Place :: At(items, f, results, p)
  {
    results := map[];
    var waiting := Places(items, |items|);
    var working: set<Place> := {};
    while waiting != {} || working != {}
      invariant Filled(items, f, waiting, working, results)
      invariant forall i: nat :: |OfBlock(working, i)| <= slots
      decreases 2 * |waiting| + |working|
    {
      var entered := false;
      if waiting != {} {
        var p :| p in waiting;
        var enter := *;
        assert working == {} ==> OfBlock(working, p.block) == {};
        if |OfBlock(working, p.block)| < slots && (enter || working == {}) {
          Entering(working, p, slots);
          EnterKeeps(items, f, waiting, working, results, p);
          waiting, working, entered := waiting - {p}, working + {p}, true;
        }
      }
      if !entered {
        var p :| p in working;
        Finishing(working, p, slots);
        FinishKeeps(items, f, waiting, working, results, p);
        results := results[p := f(items[p.block][p.index])];
        working := working - {p};
      }
    }
  }

  method RunBlocks<A(!new), B(!new, ==)>(items: seq<seq<A>>, f: A -> B, slots: nat) returns (out: seq<seq<B>>)
    requires slots > 0
    ensures |out| == |items| && forall i :: 0 <= i < |items| ==> out[i] == Mapped(items[i], f)
    ensures forall i :: 0 <= i < |items| ==>
              |out[i]| == |items[i]| && forall j :: 0 <= j < |items[i]| ==> out[i][j] == f(items[i][j])
  {
    var results := Schedule(items, f, slots);
    out := [];
    for i := 0 to |items|
      invariant |out| == i && forall k :: 0 <= k < i ==> out[k] == Mapped(items[k], f)
    {
      forall j: nat | j < |items[i]|
        ensures Place(i, j) in results && results[Place(i, j)] == f(items[i][j])
      {
        assert At(items, f, results, Place(i, j)) && Inside(items, Place(i, j));
      }
      out := out + [seq(|items[i]|, j requires 0 <= j < |items[i]| => results[Place(i, j)])];
    }
  }

  // ---------------------------------------------------------------- blocks

  /** Parts joined by blank lines, empty parts left out. */
  function Joined(parts: seq<string>): string {
    if parts == [] then ""
    else
      var (front, last) := (Joined(parts[..|parts| - 1]), parts[|parts| - 1]);
      if last == "" then front else if front == "" then last else front + "\n\n" + last
  }

  /** Nothing, one part, and one list of parts after another, with a blank line between them when both have any
      text: this determines `Joined` on every list. */
  lemma {:induction false} JoinedLaws(a: seq<string>, b: seq<string>, x: string)
    ensures Joined([]) == "" && Joined([x]) == x
    ensures Joined(a + b) ==
            Joined(a) + (if Joined(a) != "" && Joined(b) != "" then "\n\n" else "") + Joined(b)
    decreases |b|
  {
    assert [x][..0] == [];
    if b == [] {
      assert a + b == a;
    } else {
      var (front, last) := (b[..|b| - 1], b[|b| - 1]);
      assert (a + b)[..|a + b| - 1] == a + front;
      JoinedLaws(a, front, x);
    }
  }

  lemma {:induction false} EmptyPart(a: seq<string>, b: seq<string>)
    ensures Joined(a + [""] + b) == Joined(a + b)
  {
    JoinedLaws(a, [""], "");
    JoinedLaws(a + [""], b, "");
    JoinedLaws(a, b, "");
  }

  function Total(parts: seq<string>): nat {
    if parts == [] then 0 else Total(parts[..|parts| - 1]) + |parts[|parts| - 1]|
  }

  lemma {:induction false} JoinedNonEmpty(parts: seq<string>)
    requires NoneEmpty(parts) && parts != []
    ensures Joined(parts) != ""
  {
  }

  lemma {:induction false} JoinedLength(parts: seq<string>)
    requires NoneEmpty(parts)
    ensures |Joined(parts)| == if parts == [] then 0 else Total(parts) + 2 * (|parts| - 1)
  {
    if parts != [] {
      JoinedLength(parts[..|parts| - 1]);
      if |parts| > 1 {
        JoinedNonEmpty(parts[..|parts| - 1]);
      } else {
        assert Joined(parts[..0]) == "";
      }
    }
  }

  lemma {:induction false} TotalConcat(a: seq<string>, b: seq<string>)
    ensures Total(a + b) == Total(a) + Total(b)
  {
    if b == [] {
      assert a + b == a;
    } else {
      assert (a + b)[..|a + b| - 1] == a + b[..|b| - 1];
      TotalConcat(a, b[..|b| - 1]);
    }
  }

  predicate StandsAt(s: string, i: int, part: string) {
    0 <= i && i + |part| <= |s| && s[i..i + |part|] == part
  }

  lemma {:induction false} AllEmpty(parts: seq<string>)
    ensures (forall k :: 0 <= k < |parts| ==> parts[k] == "") ==> Joined(parts) == ""
  {
    if parts != [] {
      AllEmpty(parts[..|parts| - 1]);
    }
  }

  lemma StandsLonger(a: string, more: string, i: int, part: string)
    requires StandsAt(a, i, part)
    ensures StandsAt(a + more, i, part)
  {
  }

  lemma StandsLast(a: string, part: string)
    ensures StandsAt(a + part, |a|, part)
  {
  }

  /** The last of several parts. */
  lemma JoinedLast(front: seq<string>, last: string)
    requires NoneEmpty(front) && front != [] && last != ""
    ensures Joined(front + [last]) == Joined(front) + "\n\n" + last
  {
    JoinedLaws(front, [last], last);
    JoinedNonEmpty(front);
  }

  lemma JoinedEnd(front: seq<string>, last: string)
    requires NoneEmpty(front) && front != [] && last != ""
    ensures StandsAt(Joined(front + [last]), Total(front) + 2 * |front|, last)
    ensures StandsAt(Joined(front + [last]), Total(front) + 2 * |front| - 2, "\n\n")
  {
    var body := Joined(front);
    JoinedLast(front, last);
    JoinedLength(front);
    StandsLast(body, "\n\n");
    StandsLonger(body + "\n\n", last, |body|, "\n\n");
    StandsLast(body + "\n\n", last);
  }

  lemma JoinedKeeps(front: seq<string>, last: string, i: int, part: string)
    requires NoneEmpty(front) && front != [] && last != "" && StandsAt(Joined(front), i, part)
    ensures StandsAt(Joined(front + [last]), i, part)
  {
    JoinedLast(front, last);
    assert Joined(front) + "\n\n" + last == Joined(front) + ("\n\n" + last);
    StandsLonger(Joined(front), "\n\n" + last, i, part);
  }

  /** Each part stands behind the ones before it and a blank line for each of them. */
  lemma {:induction false} JoinedAt(parts: seq<string>, k: nat)
    requires NoneEmpty(parts) && k < |parts|
    ensures StandsAt(Joined(parts), Total(parts[..k]) + 2 * k, parts[k])
    ensures k > 0 ==> StandsAt(Joined(parts), Total(parts[..k]) + 2 * k - 2, "\n\n")
  {
    var (front, last) := (parts[..|parts| - 1], parts[|parts| - 1]);
    assert parts == front + [last];
    if front == [] {
      JoinedLaws([], [], last);
      assert parts[..0] == [];
    } else if k < |front| {
      JoinedAt(front, k);
      assert front[..k] == parts[..k];
      JoinedKeeps(front, last, Total(front[..k]) + 2 * k, front[k]);
      if k > 0 {
        JoinedKeeps(front, last, Total(front[..k]) + 2 * k - 2, "\n\n");
      }
    } else {
      JoinedEnd(front, last);
    }
  }

  /** Every part stands behind the ones before it and a blank line for each of them. */
  ghost predicate InPlace(parts: seq<string>, out: string) {
    && (forall k :: 0 <= k < |parts| ==> StandsAt(out, Total(parts[..k]) + 2 * k, parts[k]))
    && (forall k :: 0 < k < |parts| ==> StandsAt(out, Total(parts[..k]) + 2 * k - 2, "\n\n"))
  }

  lemma JoinedEach(parts: seq<string>)
    requires NoneEmpty(parts)
    ensures InPlace(parts, Joined(parts))
  {
    forall k | 0 <= k < |parts|
      ensures StandsAt(Joined(parts), Total(parts[..k]) + 2 * k, parts[k])
      ensures k > 0 ==> StandsAt(Joined(parts), Total(parts[..k]) + 2 * k - 2, "\n\n")
    {
      JoinedAt(parts, k);
    }
  }

  method JoinParagraphs(parts: seq<string>) returns (out: string)
    ensures out == Joined(parts)
    ensures (forall k :: 0 <= k < |parts| ==> parts[k] == "") ==> out == ""
    ensures NoneEmpty(parts) ==> InPlace(parts, out)
  {
    out := "";
    for i := 0 to |parts|
      invariant out == Joined(parts[..i])
    {
      assert parts[..i + 1][..i] == parts[..i];
      assert i == 0 ==> out == "";
      if parts[i] == "" {
        continue;
      }
      if i > 0 && out != "" {
        out := out + "\n\n";
      }
      out := out + parts[i];
    }
    assert parts[..|parts|] == parts;
    AllEmpty(parts);
    if NoneEmpty(parts) {
      JoinedEach(parts);
    }
  }

  function AllChunks(paragraphs: seq<string>, max: nat): seq<string>
    requires max > 0
  {
    if paragraphs == [] then []
    else AllChunks(paragraphs[..|paragraphs| - 1], max) + Chunks(paragraphs[|paragraphs| - 1], max)
  }

  /** The chunks of a text are the pieces of its paragraphs in order: nothing is lost, moved or added. */
  lemma {:induction false} AllChunksConcat(paragraphs: seq<string>, max: nat)
    requires max > 0
    ensures Concat(AllChunks(paragraphs, max)) == Concat(paragraphs)
    ensures forall k :: 0 <= k < |AllChunks(paragraphs, max)| ==> |AllChunks(paragraphs, max)[k]| <= max
  {
    if paragraphs != [] {
      var (front, last) := (paragraphs[..|paragraphs| - 1], paragraphs[|paragraphs| - 1]);
      AllChunksConcat(front, max);
      ChunksCover(last, max);
      ConcatLaws(AllChunks(front, max), Chunks(last, max), last);
      ConcatLaws(front, [last], last);
      assert paragraphs == front + [last];
    }
  }

  /** `translateBlock` on the paragraphs of a text. */
  method TranslateBlock(paragraphs: seq<string>, f: string -> string) returns (out: string)
    ensures out == Joined(Mapped(AllChunks(paragraphs, 3500), f))
  {
    var chunks: seq<string> := [];
    for i := 0 to |paragraphs|
      invariant chunks == AllChunks(paragraphs[..i], MAX_CHUNK)
    {
      assert paragraphs[..i + 1][..i] == paragraphs[..i];
      var pieces := ChunkRunes(paragraphs[i], MAX_CHUNK);
      chunks := chunks + pieces;
    }
    assert paragraphs[..|paragraphs|] == paragraphs;
    var translated := RunAll(chunks, f, SLOTS);
    out := JoinParagraphs(translated);
  }

  /** The chunks of a text, none for the empty one. */
  function ChunksOf(text: string, paragraphs: string -> seq<string>): seq<string> {
    if text == "" then [] else AllChunks(paragraphs(text), MAX_CHUNK)
  }

  /** A block translated chunk by chunk, in order; `paragraphs` splits a text into paragraphs. */
  function BlockOf(text: string, paragraphs: string -> seq<string>, f: string -> string): string {
    Joined(Mapped(ChunksOf(text, paragraphs), f))
  }

  datatype Comment = Comment(author: string, body: string)
  datatype Thread = Thread(title: string, selftext: string, comments: seq<Comment>)

  method AllBlocks(comments: seq<Comment>, paragraphs: string -> seq<string>) returns (chunks: seq<seq<string>>)
    ensures |chunks| == |comments|
    ensures forall k :: 0 <= k < |comments| ==> chunks[k] == ChunksOf(comments[k].body, paragraphs)
  {
    chunks := [];
    for i := 0 to |comments|
      invariant |chunks| == i
      invariant forall k :: 0 <= k < i ==> chunks[k] == ChunksOf(comments[k].body, paragraphs)
    {
      chunks := chunks + [ChunksOf(comments[i].body, paragraphs)];
    }
  }

  method Rejoined(comments: seq<Comment>, paragraphs: string -> seq<string>, f: string -> string,
                  translated: seq<seq<string>>)
    returns (out: seq<Comment>)
    requires |translated| == |comments|
    requires forall k :: 0 <= k < |comments| ==> translated[k] == Mapped(ChunksOf(comments[k].body, paragraphs), f)
    ensures |out| == |comments|
    ensures forall k :: 0 <= k < |comments| ==> out[k] == comments[k].(body := BlockOf(comments[k].body, paragraphs, f))
  {
    out := [];
    for i := 0 to |comments|
      invariant |out| == i
      invariant forall k :: 0 <= k < i ==> out[k] == comments[k].(body := BlockOf(comments[k].body, paragraphs, f))
    {
      var body := JoinParagraphs(translated[i]);
      out := out + [comments[i].(body := body)];
    }
  }

  /** `translateThread`: one goroutine per comment, and one per chunk of each, whatever the schedule. */
  method TranslateThread(t: Thread, paragraphs: string -> seq<string>, f: string -> string) returns (out: Thread)
    ensures out.title == if t.title == "" then ""
                         else Joined(Mapped(AllChunks(paragraphs(t.title), 3500), f))
    ensures out.selftext == if t.selftext == "" then ""
                            else Joined(Mapped(AllChunks(paragraphs(t.selftext), 3500), f))
    ensures |out.comments| == |t.comments|
    ensures forall i :: 0 <= i < |t.comments| ==>
              && out.comments[i].author == t.comments[i].author
              && out.comments[i].body == if t.comments[i].body == "" then ""
                   else Joined(Mapped(AllChunks(paragraphs(t.comments[i].body), 3500), f))
  {
    var title, selftext := t.title, t.selftext;
    if title != "" {
      title := TranslateBlock(paragraphs(title), f);
    }
    if selftext != "" {
      selftext := TranslateBlock(paragraphs(selftext), f);
    }
    var chunks := AllBlocks(t.comments, paragraphs);
    var translated := RunBlocks(chunks, f, SLOTS);
    var comments := Rejoined(t.comments, paragraphs, f, translated);
    out := Thread(title, selftext, comments);
  }

  // ---------------------------------------------------------------- what chunking does to the layout

  lemma {:induction false} TotalIsConcat(parts: seq<string>)
    ensures Total(parts) == |Concat(parts)|
  {
    if parts != [] {
      TotalIsConcat(parts[1..]);
      assert parts == [parts[0]] + parts[1..];
      TotalConcat([parts[0]], parts[1..]);
      assert [parts[0]][..0] == [];
    }
  }

  lemma {:induction false} AllChunksTotal(ps: seq<string>, max: nat)
    requires max > 0 && NoneEmpty(ps)
    ensures NoneEmpty(AllChunks(ps, max)) && Total(AllChunks(ps, max)) == Total(ps)
  {
    if ps != [] {
      var (front, last) := (ps[..|ps| - 1], ps[|ps| - 1]);
      AllChunksTotal(front, max);
      ChunksCover(last, max);
      TotalConcat(AllChunks(front, max), Chunks(last, max));
      TotalIsConcat(Chunks(last, max));
    }
  }

  predicate Short(ps: seq<string>, max: nat) {
    forall k :: 0 <= k < |ps| ==> |ps[k]| <= max
  }

  lemma {:induction false} AllChunksCount(ps: seq<string>, max: nat)
    requires max > 0
    ensures |AllChunks(ps, max)| >= |ps|
    ensures |AllChunks(ps, max)| == |ps| <==> Short(ps, max)
    ensures Short(ps, max) ==> AllChunks(ps, max) == ps
  {
    if ps != [] {
      var (front, last) := (ps[..|ps| - 1], ps[|ps| - 1]);
      AllChunksCount(front, max);
      SeveralIff(last, max);
      assert ps == front + [last];
      assert Short(ps, max) <==> Short(front, max) && |last| <= max;
    }
  }

  /** Where translation changes nothing (text already Russian, or the service down), the block comes
      back with its paragraphs exactly when none of them is longer than a chunk: the pieces of a
      longer one are set apart as paragraphs of their own. */
  lemma LayoutKeptIff(paragraphs: seq<string>)
    requires NoneEmpty(paragraphs)
    ensures Joined(Mapped(AllChunks(paragraphs, MAX_CHUNK), (c: string) => c)) == Joined(paragraphs)
       <==> forall k :: 0 <= k < |paragraphs| ==> |paragraphs[k]| <= 3500
  {
    var chunks := AllChunks(paragraphs, MAX_CHUNK);
    assert Mapped(chunks, (c: string) => c) == chunks;
    AllChunksTotal(paragraphs, MAX_CHUNK);
    AllChunksCount(paragraphs, MAX_CHUNK);
    JoinedLength(chunks);
    JoinedLength(paragraphs);
  }
}
