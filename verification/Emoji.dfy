/** go/internal/tgemoji/render.go: escaping a bot message and upgrading its emoji to custom ones.
    A character of these strings stands for one byte of the Go string. */
module Emoji {
  import opened Text

  /** The pack: fallback character to the custom emoji ids that use it. */
  type Catalog = map<string, seq<string>>

  const SPECIAL := {'<', '>', '&', '\'', '"'}

  predicate Plain(s: string) {
    forall k :: 0 <= k < |s| ==> s[k] !in SPECIAL
  }

  /** What the generated catalogue guarantees: non-empty plain keys and plain ids. */
  predicate WellFormed(cat: Catalog) {
    forall k <- cat :: k != "" && Plain(k) && forall i :: 0 <= i < |cat[k]| ==> Plain(cat[k][i])
  }

  predicate HasIcon(cat: Catalog, k: string) {
    k in cat && cat[k] != []
  }

  // ---------------------------------------------------------------- html.EscapeString

  function Entity(c: char): string {
    match c
    case '<' => "&lt;"
    case '>' => "&gt;"
    case '&' => "&amp;"
    case '\'' => "&#39;"
    case '"' => "&#34;"
    case _ => [c]
  }

  function Escape(s: string): string {
    if s == "" then "" else Entity(s[0]) + Escape(s[1..])
  }

  function Unescape(s: string): string
    decreases |s|
  {
    if s == "" then ""
    else if "&lt;" <= s then "<" + Unescape(s[4..])
    else if "&gt;" <= s then ">" + Unescape(s[4..])
    else if "&amp;" <= s then "&" + Unescape(s[5..])
    else if "&#39;" <= s then "'" + Unescape(s[5..])
    else if "&#34;" <= s then "\"" + Unescape(s[5..])
    else [s[0]] + Unescape(s[1..])
  }

  lemma UnescapeNumeric(c: char, rest: string)
    requires c == '\'' || c == '"'
    ensures Unescape(Entity(c) + rest) == [c] + Unescape(rest)
  {
    var s := Entity(c) + rest;
    assert s[5..] == rest;
    assert s[1] == '#' && s[3] == Entity(c)[3];
  }

  lemma UnescapeEntity(c: char, rest: string)
    ensures Unescape(Entity(c) + rest) == [c] + Unescape(rest)
  {
    var s := Entity(c) + rest;
    assert s[|Entity(c)|..] == rest;
    assert s[0] == Entity(c)[0];
    if c == '<' || c == '>' || c == '&' {
      assert s[1] == Entity(c)[1];
    } else if c == '\'' || c == '"' {
      UnescapeNumeric(c, rest);
    }
  }

  lemma {:induction false} UnescapeEscape(s: string)
    ensures Unescape(Escape(s)) == s
  {
    if s != "" {
      UnescapeEntity(s[0], Escape(s[1..]));
      UnescapeEscape(s[1..]);
    }
  }

  lemma {:induction false} EscapeFree(s: string)
    ensures Free(Escape(s), '<') && Free(Escape(s), '>')
  {
    if s != "" {
      EscapeFree(s[1..]);
    }
  }

  lemma {:induction false} EscapePlain(s: string)
    requires Plain(s)
    ensures Escape(s) == s
  {
    if s != "" {
      EscapePlain(s[1..]);
    }
  }

  lemma {:induction false} EscapeConcat(a: string, b: string)
    ensures Escape(a + b) == Escape(a) + Escape(b)
  {
    if a == "" {
      assert a + b == b;
    } else {
      assert (a + b)[1..] == a[1..] + b;
      EscapeConcat(a[1..], b);
    }
  }

  /** What becomes of single characters; together with `EscapeConcat`, of every text. */
  lemma EscapeOne(c: char)
    ensures Escape("<") == "&lt;" && Escape(">") == "&gt;" && Escape("&") == "&amp;"
    ensures Escape("'") == "&#39;" && Escape("\"") == "&#34;" && Escape("") == ""
    ensures c !in {'<', '>', '&', '\'', '"'} ==> Escape([c]) == [c]
  {
    assert Escape([c]) == Entity(c);
  }

  // ---------------------------------------------------------------- the replacement

  function OpenTag(id: string): string {
    "<tg-emoji emoji-id=\"" + id + "\">"
  }

  const CLOSE_TAG := "</tg-emoji>"

  function TgEmoji(id: string, fallback: string): string {
    OpenTag(id) + Escape(fallback) + CLOSE_TAG
  }

  datatype Pair = Pair(old': string, new': string)

  /** The first pattern of the table that matches at the start of the text. */
  function FirstMatch(table: seq<Pair>, s: string): Option<Pair> {
    if table == [] then None
    else if table[0].old' != "" && table[0].old' <= s then Some(table[0])
    else FirstMatch(table[1..], s)
  }

  lemma {:induction false} FirstMatches(table: seq<Pair>, s: string)
    ensures FirstMatch(table, s).Some? ==>
              var p := FirstMatch(table, s).value; p in table && p.old' != "" && p.old' <= s
  {
    if table != [] {
      FirstMatches(table[1..], s);
    }
  }

  /** `strings.Replacer.Replace`: left to right, without overlaps, patterns in argument order. */
  function Replace(table: seq<Pair>, s: string): string
    decreases |s|
  {
    if s == "" then ""
    else
      match FirstMatch(table, s)
      case Some(p) => FirstMatches(table, s); p.new' + Replace(table, s[|p.old'|..])
      case None => [s[0]] + Replace(table, s[1..])
  }

  // ---------------------------------------------------------------- the cached table

  predicate LexLess(a: string, b: string) {
    b != "" && (a == "" || a[0] < b[0] || (a[0] == b[0] && LexLess(a[1..], b[1..])))
  }

  /** The comparison handed to `sort.Slice`. */
  predicate Before(a: string, b: string) {
    if |a| != |b| then |a| > |b| else LexLess(a, b)
  }

  function Insert(k: string, sorted: seq<string>): seq<string> {
    if sorted == [] || Before(k, sorted[0]) then [k] + sorted else [sorted[0]] + Insert(k, sorted[1..])
  }

  function Sort(keys: seq<string>): seq<string> {
    if keys == [] then [] else Insert(keys[0], Sort(keys[1..]))
  }

  predicate LongestFirst(keys: seq<string>) {
    forall i, j :: 0 <= i < j < |keys| ==> |keys[i]| >= |keys[j]|
  }

  /** No key occurs twice. */
  predicate Once(keys: seq<string>) {
    forall i, j :: 0 <= i < j < |keys| ==> keys[i] != keys[j]
  }

  lemma {:induction false} InsertKeeps(k: string, sorted: seq<string>)
    requires LongestFirst(sorted)
    ensures LongestFirst(Insert(k, sorted))
    ensures forall x :: x in Insert(k, sorted) <==> x == k || x in sorted
  {
    if sorted != [] && !Before(k, sorted[0]) {
      InsertKeeps(k, sorted[1..]);
      assert sorted == [sorted[0]] + sorted[1..];
      assert forall x :: x in Insert(k, sorted[1..]) ==> |x| <= |sorted[0]|;
    }
  }

  lemma {:induction false} InsertOnce(k: string, sorted: seq<string>)
    requires LongestFirst(sorted) && Once(sorted) && k !in sorted
    ensures Once(Insert(k, sorted))
  {
    if sorted != [] && !Before(k, sorted[0]) {
      assert sorted == [sorted[0]] + sorted[1..];
      InsertOnce(k, sorted[1..]);
      InsertKeeps(k, sorted[1..]);
      assert sorted[0] !in Insert(k, sorted[1..]);
    }
  }

  lemma {:induction false} SortKeeps(keys: seq<string>)
    ensures LongestFirst(Sort(keys))
    ensures forall x :: x in Sort(keys) <==> x in keys
  {
    if keys != [] {
      SortKeeps(keys[1..]);
      InsertKeeps(keys[0], Sort(keys[1..]));
      assert keys == [keys[0]] + keys[1..];
    }
  }

  lemma {:induction false} SortOnce(keys: seq<string>)
    requires Once(keys)
    ensures Once(Sort(keys))
  {
    if keys != [] {
      SortOnce(keys[1..]);
      SortKeeps(keys[1..]);
      InsertOnce(keys[0], Sort(keys[1..]));
    }
  }

  /** Longest pattern first, one pattern per covered key, each with the key's first id. */
  ghost predicate IsTable(table: seq<Pair>, cat: Catalog) {
    && (forall i, j :: 0 <= i < j < |table| ==> |table[i].old'| >= |table[j].old'| && table[i].old' != table[j].old')
    && (forall i :: 0 <= i < |table| ==>
          HasIcon(cat, table[i].old') && table[i].new' == TgEmoji(cat[table[i].old'][0], table[i].old'))
    && (forall k :: HasIcon(cat, k) ==> exists i :: 0 <= i < |table| && table[i].old' == k)
  }

  /** The map's keys in whatever order the iteration yields them. */
  method Fallbacks(cat: Catalog) returns (fallbacks: seq<string>)
    ensures Once(fallbacks) && forall k :: k in cat <==> k in fallbacks
  {
    fallbacks := [];
    var rest := cat.Keys;
    while rest != {}
      invariant rest <= cat.Keys
      invariant forall k :: k in cat <==> k in rest || k in fallbacks
      invariant Once(fallbacks) && forall k :: k in fallbacks ==> k !in rest
    {
      var k :| k in rest;
      fallbacks := fallbacks + [k];
      rest := rest - {k};
    }
  }

  ghost predicate RightPair(cat: Catalog, p: Pair) {
    HasIcon(cat, p.old') && p.new' == TgEmoji(cat[p.old'][0], p.old')
  }

  ghost predicate Has(table: seq<Pair>, k: string) {
    exists i :: 0 <= i < |table| && table[i].old' == k
  }

  lemma HasMore(table: seq<Pair>, p: Pair)
    ensures forall k :: Has(table + [p], k) <==> Has(table, k) || k == p.old'
  {
    forall k
      ensures Has(table + [p], k) <==> Has(table, k) || k == p.old'
    {
      assert (table + [p])[|table|] == p;
      if Has(table, k) {
        var i :| 0 <= i < |table| && table[i].old' == k;
        assert (table + [p])[i].old' == k;
      }
    }
  }

  /** The pairing loop: each covered key with its first id. */
  method Paired(cat: Catalog, keys: seq<string>) returns (table: seq<Pair>)
    requires LongestFirst(keys) && Once(keys) && forall k <- keys :: k in cat
    ensures forall i, j :: 0 <= i < j < |table| ==> |table[i].old'| >= |table[j].old'| && table[i].old' != table[j].old'
    ensures forall i :: 0 <= i < |table| ==> RightPair(cat, table[i])
    ensures forall k :: k in keys && HasIcon(cat, k) ==> Has(table, k)
  {
    table := [];
    for n := 0 to |keys|
      invariant forall i, j :: 0 <= i < j < |table|
                  ==> |table[i].old'| >= |table[j].old'| && table[i].old' != table[j].old'
      invariant forall i, j :: 0 <= i < |table| && n <= j < |keys|
                  ==> |table[i].old'| >= |keys[j]| && table[i].old' != keys[j]
      invariant forall i :: 0 <= i < |table| ==> RightPair(cat, table[i])
      invariant forall j :: 0 <= j < n && HasIcon(cat, keys[j]) ==> Has(table, keys[j])
    {
      var ids := cat[keys[n]];
      if |ids| == 0 {
        continue;
      }
      var p := Pair(keys[n], TgEmoji(ids[0], keys[n]));
      HasMore(table, p);
      table := table + [p];
    }
  }

  /** `replacer`: the keys, sorted and paired. */
  method Replacer(cat: Catalog) returns (table: seq<Pair>)
    ensures IsTable(table, cat)
  {
    var fallbacks := Fallbacks(cat);
    SortKeeps(fallbacks);
    SortOnce(fallbacks);
    table := Paired(cat, Sort(fallbacks));
    forall k | HasIcon(cat, k)
      ensures exists i :: 0 <= i < |table| && table[i].old' == k
    {
      assert Has(table, k);
    }
  }

  // ---------------------------------------------------------------- the reference: longest key wins

  ghost predicate IsLongest(cat: Catalog, s: string, k: string) {
    HasIcon(cat, k) && k <= s && forall j :: HasIcon(cat, j) && j <= s ==> |j| <= |k|
  }

  /** At each position the longest covered key is wrapped in its tag; other characters stay. */
  ghost function Decorated(cat: Catalog, s: string): string
    requires WellFormed(cat)
    decreases |s|
  {
    if s == "" then ""
    else if k :| IsLongest(cat, s, k) then TgEmoji(cat[k][0], k) + Decorated(cat, s[|k|..])
    else [s[0]] + Decorated(cat, s[1..])
  }

  lemma LongestUnique(cat: Catalog, s: string, j: string, k: string)
    requires IsLongest(cat, s, j) && IsLongest(cat, s, k)
    ensures j == k
  {
    assert j == s[..|j|] && k == s[..|k|];
  }

  lemma DecoratedAt(cat: Catalog, s: string, j: string)
    requires WellFormed(cat) && s != "" && IsLongest(cat, s, j)
    ensures Decorated(cat, s) == TgEmoji(cat[j][0], j) + Decorated(cat, s[|j|..])
  {
    var k :| IsLongest(cat, s, k) && Decorated(cat, s) == TgEmoji(cat[k][0], k) + Decorated(cat, s[|k|..]);
    LongestUnique(cat, s, k, j);
  }

  /** None of the first `i` patterns matches. */
  ghost predicate Misses(table: seq<Pair>, s: string, i: nat)
    requires i <= |table|
  {
    forall j :: 0 <= j < i ==> table[j].old' == "" || !(table[j].old' <= s)
  }

  lemma MissesMore(table: seq<Pair>, s: string, i: nat)
    requires i < |table| && (table[0].old' == "" || !(table[0].old' <= s)) && Misses(table[1..], s, i)
    ensures Misses(table, s, i + 1)
  {
    assert forall j :: 0 < j < i + 1 ==> table[j] == table[1..][j - 1];
  }

  /** Where the match was found. */
  lemma {:induction false} FoundFirst(table: seq<Pair>, s: string) returns (i: nat)
    requires FirstMatch(table, s).Some?
    ensures i < |table| && table[i] == FirstMatch(table, s).value && Misses(table, s, i)
    ensures table[i].old' != "" && table[i].old' <= s
  {
    if table[0].old' != "" && table[0].old' <= s {
      i := 0;
    } else {
      var k := FoundFirst(table[1..], s);
      MissesMore(table, s, k);
      i := k + 1;
    }
  }

  lemma {:induction false} NoneFound(table: seq<Pair>, s: string)
    requires FirstMatch(table, s).None?
    ensures Misses(table, s, |table|)
  {
    if table != [] {
      NoneFound(table[1..], s);
      MissesMore(table, s, |table| - 1);
    }
  }

  /** A pattern that matches is no longer than the first that does. */
  lemma EarliestIsLongest(table: seq<Pair>, s: string, i: nat, j: nat)
    requires i < |table| && j < |table| && Misses(table, s, i) && table[j].old' != "" && table[j].old' <= s
    requires forall m, n :: 0 <= m < n < |table| ==> |table[m].old'| >= |table[n].old'|
    ensures |table[j].old'| <= |table[i].old'|
  {
    assert j >= i;
  }

  /** The priority table finds exactly the longest covered key. */
  lemma FirstMatchIsLongest(table: seq<Pair>, cat: Catalog, s: string)
    requires WellFormed(cat) && IsTable(table, cat)
    ensures match FirstMatch(table, s)
            case Some(p) => IsLongest(cat, s, p.old') && p.new' == TgEmoji(cat[p.old'][0], p.old')
            case None => forall k :: HasIcon(cat, k) ==> !(k <= s)
  {
    if FirstMatch(table, s).Some? {
      var i := FoundFirst(table, s);
      forall k | HasIcon(cat, k) && k <= s
        ensures |k| <= |table[i].old'|
      {
        var j :| 0 <= j < |table| && table[j].old' == k;
        EarliestIsLongest(table, s, i, j);
      }
    } else {
      NoneFound(table, s);
      forall k | HasIcon(cat, k)
        ensures !(k <= s)
      {
        var j :| 0 <= j < |table| && table[j].old' == k;
      }
    }
  }

  /** Whatever order the map was iterated in, the cached table decorates as the reference does. */
  lemma {:induction false} ReplaceIsDecorated(table: seq<Pair>, cat: Catalog, s: string)
    requires WellFormed(cat) && IsTable(table, cat)
    ensures Replace(table, s) == Decorated(cat, s)
    decreases |s|
  {
    if s != "" {
      FirstMatchIsLongest(table, cat, s);
      match FirstMatch(table, s)
      case Some(p) =>
        FirstMatches(table, s);
        DecoratedAt(cat, s, p.old');
        ReplaceIsDecorated(table, cat, s[|p.old'|..]);
      case None =>
        ReplaceIsDecorated(table, cat, s[1..]);
    }
  }

  // ---------------------------------------------------------------- rendering can be undone

  /** What follows the next '>'. */
  function AfterTag(s: string): (r: string)
    ensures |r| <= |s| && (s != "" ==> |r| < |s|)
  {
    if s == "" then "" else if s[0] == '>' then s[1..] else AfterTag(s[1..])
  }

  function StripTags(s: string): string
    decreases |s|
  {
    if s == "" then "" else if s[0] == '<' then StripTags(AfterTag(s)) else [s[0]] + StripTags(s[1..])
  }

  lemma {:induction false} AfterTagSkips(a: string, rest: string)
    requires Free(a, '>')
    ensures AfterTag(a + ">" + rest) == rest
  {
    var s := a + ">" + rest;
    if a == "" {
      assert s[1..] == rest;
    } else {
      assert s[1..] == a[1..] + ">" + rest;
      AfterTagSkips(a[1..], rest);
    }
  }

  lemma {:induction false} StripFree(a: string, rest: string)
    requires Free(a, '<')
    ensures StripTags(a + rest) == a + StripTags(rest)
  {
    if a == "" {
      assert a + rest == rest;
    } else {
      assert (a + rest)[1..] == a[1..] + rest;
      StripFree(a[1..], rest);
      assert a == [a[0]] + a[1..];
    }
  }

  predicate TagBody(t: string) {
    t != "" && t[0] == '<' && Free(t[1..], '<') && Free(t, '>')
  }

  lemma StripTag(t: string, rest: string)
    requires TagBody(t)
    ensures StripTags(t + ">" + rest) == StripTags(rest)
  {
    AfterTagSkips(t, rest);
    assert (t + ">" + rest)[0] == '<';
  }

  function OpenBody(id: string): string {
    "<tg-emoji emoji-id=\"" + id + "\""
  }

  lemma OpenShape(id: string)
    requires Plain(id)
    ensures TagBody(OpenBody(id)) && OpenTag(id) == OpenBody(id) + ">"
  {
  }

  const CLOSE_BODY := "</tg-emoji"

  lemma CloseShape()
    ensures TagBody(CLOSE_BODY) && CLOSE_TAG == CLOSE_BODY + ">"
  {
  }

  lemma EmojiShape(id: string, k: string, rest: string)
    requires Plain(k)
    ensures TgEmoji(id, k) + rest == OpenTag(id) + (k + (CLOSE_TAG + rest))
  {
    EscapePlain(k);
  }

  lemma StripEmoji(id: string, k: string, rest: string)
    requires Plain(id) && Plain(k)
    ensures StripTags(TgEmoji(id, k) + rest) == k + StripTags(rest)
  {
    EmojiShape(id, k, rest);
    OpenShape(id);
    StripTag(OpenBody(id), k + (CLOSE_TAG + rest));
    StripFree(k, CLOSE_TAG + rest);
    CloseShape();
    StripTag(CLOSE_BODY, rest);
  }

  lemma UnfoldPlain(cat: Catalog, s: string)
    requires WellFormed(cat) && s != "" && !exists k :: IsLongest(cat, s, k)
    ensures Decorated(cat, s) == [s[0]] + Decorated(cat, s[1..])
  {
  }

  lemma StripIcon(cat: Catalog, s: string, k: string)
    requires WellFormed(cat) && s != "" && IsLongest(cat, s, k)
    ensures k != "" && StripTags(Decorated(cat, s)) == k + StripTags(Decorated(cat, s[|k|..]))
  {
    DecoratedAt(cat, s, k);
    StripEmoji(cat[k][0], k, Decorated(cat, s[|k|..]));
  }

  lemma StripPlain(cat: Catalog, s: string)
    requires WellFormed(cat) && s != "" && s[0] != '<' && !exists k :: IsLongest(cat, s, k)
    ensures StripTags(Decorated(cat, s)) == [s[0]] + StripTags(Decorated(cat, s[1..]))
  {
    UnfoldPlain(cat, s);
    StripFree([s[0]], Decorated(cat, s[1..]));
  }

  /** One key or one character at a time. */
  lemma StripStep(cat: Catalog, s: string) returns (n: nat)
    requires WellFormed(cat) && s != "" && s[0] != '<'
    ensures 1 <= n <= |s| && StripTags(Decorated(cat, s)) == s[..n] + StripTags(Decorated(cat, s[n..]))
  {
    if k :| IsLongest(cat, s, k) {
      StripIcon(cat, s, k);
      n := |k|;
      assert s[..n] == k;
    } else {
      StripPlain(cat, s);
      n := 1;
      assert s[..1] == [s[0]];
    }
  }

  lemma {:induction false} StripDecorated(cat: Catalog, s: string)
    requires WellFormed(cat) && Free(s, '<')
    ensures StripTags(Decorated(cat, s)) == s
    decreases |s|
  {
    if s != "" {
      var n := StripStep(cat, s);
      StripDecorated(cat, s[n..]);
      assert s == s[..n] + s[n..];
    }
  }

  /** `Render` and `Decorate` with a built table. */
  function Render(table: seq<Pair>, text: string): string {
    if text == "" then text else Replace(table, Escape(text))
  }

  /** Removing the tags from a rendered message and unescaping gives back exactly the message. */
  lemma RenderUndone(table: seq<Pair>, cat: Catalog, text: string)
    requires WellFormed(cat) && IsTable(table, cat)
    ensures StripTags(Render(table, text)) == Escape(text)
    ensures Unescape(StripTags(Render(table, text))) == text
  {
    EscapeFree(text);
    if text != "" {
      ReplaceIsDecorated(table, cat, Escape(text));
      StripDecorated(cat, Escape(text));
    }
    UnescapeEscape(text);
  }

  // ---------------------------------------------------------------- the longest key wins in a rendered text

  /** Rendering escapes the text and then decorates it as the reference does. */
  lemma RenderIsDecorated(table: seq<Pair>, cat: Catalog, text: string)
    requires WellFormed(cat) && IsTable(table, cat)
    ensures Render(table, text) == Decorated(cat, Escape(text))
  {
    ReplaceIsDecorated(table, cat, Escape(text));
  }

  ghost predicate Starts(cat: Catalog, s: string) {
    exists k :: IsLongest(cat, s, k)
  }

  /** From position `p` one goes over the longest key that starts there, or over one character. */
  ghost predicate Goes(cat: Catalog, s: string, p: nat, q: nat) {
    p < q <= |s| && if Starts(cat, s[p..]) then IsLongest(cat, s[p..], s[p..q]) else q == p + 1
  }

  /** A way through the text from its beginning: no key covers any of its positions but from its start. */
  ghost predicate Path(cat: Catalog, s: string, path: seq<nat>) {
    path != [] && path[0] == 0 && forall j :: 0 <= j < |path| - 1 ==> Goes(cat, s, path[j], path[j + 1])
  }

  /** Tags aside, `before` is `done`, whatever comes after it. */
  ghost predicate Shows(before: string, done: string) {
    forall rest :: StripTags(before + rest) == done + StripTags(rest)
  }

  lemma Glue(a: string, b: string, c: string)
    ensures a + b + c == a + (b + c)
  {
  }

  lemma ShowsTwo(a: string, x: string, b: string, y: string)
    requires Shows(a, x) && Shows(b, y)
    ensures Shows(a + b, x + y)
  {
    forall rest
      ensures StripTags(a + b + rest) == x + y + StripTags(rest)
    {
      Glue(a, b, rest);
      Glue(x, y, StripTags(rest));
    }
  }

  lemma ShowsTag(id: string, k: string)
    requires Plain(id) && Plain(k)
    ensures Shows(TgEmoji(id, k), k)
  {
    forall rest
      ensures StripTags(TgEmoji(id, k) + rest) == k + StripTags(rest)
    {
      StripEmoji(id, k, rest);
    }
  }

  lemma ShowsChar(c: char)
    requires c != '<'
    ensures Shows([c], [c])
  {
    forall rest
      ensures StripTags([c] + rest) == [c] + StripTags(rest)
    {
      StripFree([c], rest);
    }
  }

  lemma ShowsNothing()
    ensures Shows("", "")
  {
    forall rest
      ensures StripTags("" + rest) == "" + StripTags(rest)
    {
      assert "" + rest == rest && "" + StripTags(rest) == StripTags(rest);
    }
  }

  lemma ShowsAll(before: string, done: string)
    requires Shows(before, done)
    ensures StripTags(before) == done
  {
    assert before + "" == before && StripTags("") == "" && done + "" == done;
  }

  /** From `p` to `q` the text becomes `piece`. */
  ghost predicate Becomes(cat: Catalog, s: string, p: nat, q: nat, piece: string)
    requires WellFormed(cat)
  {
    p <= q <= |s| && Decorated(cat, s[p..]) == piece + Decorated(cat, s[q..]) && Shows(piece, s[p..q])
  }

  lemma MakeBecomes(cat: Catalog, s: string, p: nat, q: nat, piece: string, shown: string)
    requires WellFormed(cat) && p <= q <= |s| && Decorated(cat, s[p..]) == piece + Decorated(cat, s[q..])
    requires s[p..q] == shown && Shows(piece, shown)
    ensures Becomes(cat, s, p, q, piece)
  {
  }

  lemma KeyHere(s: string, p: nat, q: nat, k: string)
    requires p <= |s| && k <= s[p..] && q == p + |k|
    ensures q <= |s| && s[p..][|k|..] == s[q..] && s[p..q] == k
  {
  }

  lemma TagHere(cat: Catalog, s: string, p: nat, q: nat, k: string)
    requires WellFormed(cat) && p < |s| && IsLongest(cat, s[p..], k) && q == p + |k|
    ensures q <= |s| && s[p..q] == k && Decorated(cat, s[p..]) == TgEmoji(cat[k][0], k) + Decorated(cat, s[q..])
  {
    KeyHere(s, p, q, k);
    DecoratedAt(cat, s[p..], k);
  }

  lemma BecomesTag(cat: Catalog, s: string, p: nat, q: nat, k: string)
    requires WellFormed(cat) && p < |s| && IsLongest(cat, s[p..], k) && q == p + |k|
    ensures Becomes(cat, s, p, q, TgEmoji(cat[k][0], k))
  {
    TagHere(cat, s, p, q, k);
    ShowsTag(cat[k][0], k);
    MakeBecomes(cat, s, p, q, TgEmoji(cat[k][0], k), k);
  }

  lemma BecomesChar(cat: Catalog, s: string, p: nat, q: nat)
    requires WellFormed(cat) && p < |s| && s[p] != '<' && !Starts(cat, s[p..]) && q == p + 1
    ensures Becomes(cat, s, p, q, [s[p]])
  {
    assert s[p..][1..] == s[q..] && s[p..q] == [s[p]];
    UnfoldPlain(cat, s[p..]);
    ShowsChar(s[p]);
  }

  lemma BecomesTwo(cat: Catalog, s: string, p: nat, q: nat, r: nat, a: string, b: string)
    requires WellFormed(cat) && Becomes(cat, s, p, q, a) && Becomes(cat, s, q, r, b)
    ensures Becomes(cat, s, p, r, a + b)
  {
    Glue(a, b, Decorated(cat, s[r..]));
    ShowsTwo(a, s[p..q], b, s[q..r]);
    Neighbours(s, p, q, r);
    MakeBecomes(cat, s, p, r, a + b, s[p..q] + s[q..r]);
  }

  lemma Neighbours(s: string, p: nat, q: nat, r: nat)
    requires p <= q <= r <= |s|
    ensures s[p..r] == s[p..q] + s[q..r]
  {
  }

  lemma BecomesNothing(cat: Catalog, s: string)
    requires WellFormed(cat)
    ensures Becomes(cat, s, 0, 0, "")
  {
    ShowsNothing();
    assert s[0..0] == "" && "" + Decorated(cat, s[0..]) == Decorated(cat, s[0..]);
  }

  lemma Piece(cat: Catalog, s: string, p: nat, q: nat) returns (piece: string)
    requires WellFormed(cat) && p < |s| && s[p] != '<' && Goes(cat, s, p, q)
    ensures Becomes(cat, s, p, q, piece)
  {
    if Starts(cat, s[p..]) {
      var k := s[p..q];
      BecomesTag(cat, s, p, q, k);
      piece := TgEmoji(cat[k][0], k);
    } else {
      BecomesChar(cat, s, p, q);
      piece := [s[p]];
    }
  }

  lemma {:induction false} PathBecomes(cat: Catalog, s: string, path: seq<nat>) returns (before: string)
    requires WellFormed(cat) && Free(s, '<') && Path(cat, s, path)
    ensures Becomes(cat, s, 0, path[|path| - 1], before)
    decreases |path|
  {
    if |path| == 1 {
      before := "";
      BecomesNothing(cat, s);
    } else {
      var p, q := path[|path| - 2], path[|path| - 1];
      var front := PathBecomes(cat, s, path[..|path| - 1]);
      assert Goes(cat, s, path[|path| - 2], path[|path| - 2 + 1]);
      var piece := Piece(cat, s, p, q);
      BecomesTwo(cat, s, 0, p, q, front, piece);
      before := front + piece;
    }
  }

  /** The way through a text is determined step by step and reaches its end. */
  lemma {:induction false} PathOn(cat: Catalog, s: string, path: seq<nat>) returns (whole: seq<nat>)
    requires WellFormed(cat) && Path(cat, s, path) && path[|path| - 1] <= |s|
    ensures Path(cat, s, whole) && path <= whole && whole[|whole| - 1] == |s|
    decreases |s| - path[|path| - 1]
  {
    var p := path[|path| - 1];
    if p == |s| {
      whole := path;
    } else {
      var q := p + 1;
      if k :| IsLongest(cat, s[p..], k) {
        q := p + |k|;
        KeyHere(s, p, q, k);
      }
      var longer := path + [q];
      assert forall j :: 0 <= j < |path| - 1 ==> Goes(cat, s, longer[j], longer[j + 1]);
      whole := PathOn(cat, s, longer);
    }
  }

  lemma PathThrough(cat: Catalog, s: string) returns (whole: seq<nat>)
    requires WellFormed(cat)
    ensures Path(cat, s, whole) && whole[|whole| - 1] == |s|
  {
    whole := PathOn(cat, s, [0]);
  }

  lemma TagText(id: string, k: string)
    requires Plain(k)
    ensures TgEmoji(id, k) == "<tg-emoji emoji-id=\"" + id + "\">" + k + "</tg-emoji>"
  {
    EscapePlain(k);
  }

  /** What stands before and after the piece behind a path. */
  lemma Around(cat: Catalog, s: string, path: seq<nat>, q: nat, piece: string) returns (before: string, after: string)
    requires WellFormed(cat) && Free(s, '<') && Path(cat, s, path) && Becomes(cat, s, path[|path| - 1], q, piece)
    ensures Decorated(cat, s) == before + piece + after
    ensures StripTags(before) == s[..path[|path| - 1]] && StripTags(after) == s[q..]
  {
    var i := path[|path| - 1];
    before := PathBecomes(cat, s, path);
    after := Decorated(cat, s[q..]);
    assert s[0..] == s && s[0..i] == s[..i];
    Glue(before, piece, after);
    ShowsAll(before, s[..i]);
    StripDecorated(cat, s[q..]);
  }

  /** At each position of the escaped text that no earlier key covers, the longest covered key stands in the
      rendered text inside its tag, with the key's first identifier; before and after it comes, tags
      aside, what came before and after it. */
  lemma RenderWraps(table: seq<Pair>, cat: Catalog, text: string, path: seq<nat>, q: nat, k: string)
    returns (before: string, after: string)
    requires WellFormed(cat) && IsTable(table, cat) && Path(cat, Escape(text), path)
    requires var s := Escape(text); var i := path[|path| - 1]; i < |s| && IsLongest(cat, s[i..], k) && q == i + |k|
    ensures Render(table, text) == before + ("<tg-emoji emoji-id=\"" + cat[k][0] + "\">" + k + "</tg-emoji>") + after
    ensures StripTags(before) == Escape(text)[..path[|path| - 1]]
    ensures q <= |Escape(text)| && StripTags(after) == Escape(text)[q..]
  {
    var s := Escape(text);
    EscapeFree(text);
    RenderIsDecorated(table, cat, text);
    BecomesTag(cat, s, path[|path| - 1], q, k);
    before, after := Around(cat, s, path, q, TgEmoji(cat[k][0], k));
    TagText(cat[k][0], k);
  }

  /** And a character at which no covered key starts stays as it is. */
  lemma RenderKeeps(table: seq<Pair>, cat: Catalog, text: string, path: seq<nat>)
    returns (before: string, after: string)
    requires WellFormed(cat) && IsTable(table, cat) && Path(cat, Escape(text), path)
    requires var s := Escape(text); var i := path[|path| - 1]; i < |s| && !Starts(cat, s[i..])
    ensures var s := Escape(text); var i := path[|path| - 1];
            && Render(table, text) == before + [s[i]] + after
            && StripTags(before) == s[..i] && StripTags(after) == s[i + 1..]
  {
    var s, i := Escape(text), path[|path| - 1];
    EscapeFree(text);
    RenderIsDecorated(table, cat, text);
    var q := i + 1;
    BecomesChar(cat, s, i, q);
    before, after := Around(cat, s, path, q, [s[i]]);
  }

  // ---------------------------------------------------------------- no markup but the renderer's own

  /** Position `i` starts an opening tag of some covered key, or the closing tag. */
  ghost predicate TagAt(cat: Catalog, s: string, i: nat)
    requires i <= |s|
  {
    CLOSE_TAG <= s[i..] || exists k :: HasIcon(cat, k) && OpenTag(cat[k][0]) <= s[i..]
  }

  lemma TagLater(cat: Catalog, a: string, b: string, i: nat)
    requires i <= |b| && TagAt(cat, b, i)
    ensures TagAt(cat, a + b, |a| + i)
  {
    assert (a + b)[|a| + i..] == b[i..];
  }

  /** The two tags around one emoji. */
  lemma EmojiTags(cat: Catalog, k: string, rest: string, i: nat)
    requires HasIcon(cat, k) && Plain(k) && Plain(cat[k][0])
    requires i < |TgEmoji(cat[k][0], k)| && (TgEmoji(cat[k][0], k) + rest)[i] == '<'
    ensures TagAt(cat, TgEmoji(cat[k][0], k) + rest, i)
  {
    var id := cat[k][0];
    var open := OpenTag(id);
    var out := TgEmoji(id, k) + rest;
    EmojiShape(id, k, rest);
    EscapePlain(k);
    OpenShape(id);
    CloseShape();
    if i < |open| {
      assert i == 0;
      assert out[0..] == out && open <= out;
    } else {
      var j := i - |open|;
      assert out[i] == (k + (CLOSE_TAG + rest))[j];
      assert j >= |k|;
      assert out[i] == (CLOSE_TAG + rest)[j - |k|];
      assert j == |k|;
      assert out[i..] == CLOSE_TAG + rest;
    }
  }

  ghost predicate OwnTags(cat: Catalog, s: string) {
    forall i: nat :: i < |s| && s[i] == '<' ==> TagAt(cat, s, i)
  }

  lemma OwnTagsConcat(cat: Catalog, a: string, b: string)
    requires OwnTags(cat, b) && forall i: nat :: i < |a| && a[i] == '<' ==> TagAt(cat, a + b, i)
    ensures OwnTags(cat, a + b)
  {
    var s := a + b;
    forall i: nat | i < |s| && s[i] == '<'
      ensures TagAt(cat, s, i)
    {
      if i < |a| {
        assert s[i] == a[i];
      } else {
        assert s[i] == b[i - |a|];
        TagLater(cat, a, b, i - |a|);
      }
    }
  }

  lemma IconTags(cat: Catalog, s: string, k: string)
    requires WellFormed(cat) && s != "" && IsLongest(cat, s, k)
    ensures k != "" && Decorated(cat, s) == TgEmoji(cat[k][0], k) + Decorated(cat, s[|k|..])
    ensures forall i: nat :: i < |TgEmoji(cat[k][0], k)| && TgEmoji(cat[k][0], k)[i] == '<'
              ==> TagAt(cat, Decorated(cat, s), i)
  {
    DecoratedAt(cat, s, k);
    forall i: nat | i < |TgEmoji(cat[k][0], k)| && TgEmoji(cat[k][0], k)[i] == '<'
      ensures TagAt(cat, Decorated(cat, s), i)
    {
      EmojiTags(cat, k, Decorated(cat, s[|k|..]), i);
    }
  }

  lemma {:induction false} DecoratedTags(cat: Catalog, s: string)
    requires WellFormed(cat) && Free(s, '<')
    ensures OwnTags(cat, Decorated(cat, s))
    decreases |s|
  {
    if s != "" {
      if k :| IsLongest(cat, s, k) {
        IconTags(cat, s, k);
        DecoratedTags(cat, s[|k|..]);
        OwnTagsConcat(cat, TgEmoji(cat[k][0], k), Decorated(cat, s[|k|..]));
      } else {
        UnfoldPlain(cat, s);
        DecoratedTags(cat, s[1..]);
        assert [s[0]][0] != '<';
        OwnTagsConcat(cat, [s[0]], Decorated(cat, s[1..]));
      }
    }
  }

  /** Every '<' of a rendered message, for any text, belongs to a tag the renderer inserted. */
  lemma OnlyOwnTags(table: seq<Pair>, cat: Catalog, text: string, i: nat)
    requires WellFormed(cat) && IsTable(table, cat)
    requires i < |Render(table, text)| && Render(table, text)[i] == '<'
    ensures TagAt(cat, Render(table, text), i)
  {
    EscapeFree(text);
    ReplaceIsDecorated(table, cat, Escape(text));
    DecoratedTags(cat, Escape(text));
  }
}
