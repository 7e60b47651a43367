/** Query strings: the adapter's parser against the client's printer. */
module Query {
  import opened Wrappers
  import opened Protocol

  /** The index of the first c in s, or |s|. */
  function IndexOf(s: string, c: char): (i: nat)
    ensures i <= |s| && c !in s[..i]
    ensures i < |s| ==> s[i] == c
  {
    if s == "" || s[0] == c then 0
    else
      var rest := IndexOf(s[1..], c);
      assert s[..1 + rest] == [s[0]] + s[1..][..rest];
      1 + rest
  }

  /** All pieces between separators, empty ones included. */
  function Split(s: string, sep: char): seq<string>
    decreases |s|
  {
    var i := IndexOf(s, sep);
    if i == |s| then [s] else [s[..i]] + Split(s[i + 1..], sep)
  }

  function Join(parts: seq<string>, sep: char): string {
    if parts == [] then ""
    else if |parts| == 1 then parts[0]
    else parts[0] + [sep] + Join(parts[1..], sep)
  }

  /** Cut at the first `=`; a piece without one is no pair. */
  function SplitOnce(piece: string): Option<(string, string)> {
    var i := IndexOf(piece, '=');
    if i == |piece| then None else Some((piece[..i], piece[i + 1..]))
  }

  /** Collect the pairs into a map; a later pair for the same key replaces an earlier one. */
  function Collect(pieces: seq<string>): StringMap {
    if pieces == [] then map[]
    else
      var n := |pieces| - 1;
      match SplitOnce(pieces[n])
      case None => Collect(pieces[..n])
      case Some((k, v)) => Collect(pieces[..n])[k := v]
  }

  function ParseQuery(raw: Option<string>): StringMap {
    match raw
    case None => map[]
    case Some(qs) => Collect(Split(qs, '&'))
  }

  // ---- The printer ----

  /** One possible iteration order of the map. */
  ghost predicate IterationOrder(order: seq<string>, m: StringMap) {
    && (forall k <- order :: k in m)
    && (forall k <- m :: k in order)
    && (forall i, j | 0 <= i < j < |order| :: order[i] != order[j])
  }

  function Pairs(m: StringMap, order: seq<string>): seq<string>
    requires forall k <- order :: k in m
  {
    seq(|order|, i requires 0 <= i < |order| => order[i] + "=" + m[order[i]])
  }

  function TrimSlashes(s: string): string {
    if s != "" && s[|s| - 1] == '/' then TrimSlashes(s[..|s| - 1]) else s
  }

  /** What the printer writes after the `?`; nothing, not even the `?`, for an empty map. */
  function QueryText(m: StringMap, order: seq<string>): Option<string>
    requires forall k <- order :: k in m
  {
    if m == map[] then None else Some(Join(Pairs(m, order), '&'))
  }

  function ForwardUrl(forwardTo: string, path: string, m: StringMap, order: seq<string>): string
    requires forall k <- order :: k in m
  {
    TrimSlashes(forwardTo) + "/" + path +
    match QueryText(m, order)
    case None => ""
    case Some(qs) => "?" + qs
  }

  // ---- Splitting and joining are inverse ----

  lemma {:induction false} IndexOfAppend(a: string, b: string, c: char)
    requires c !in a
    ensures IndexOf(a + [c] + b, c) == |a|
  {
    if a != "" {
      IndexOfAppend(a[1..], b, c);
      assert (a + [c] + b)[1..] == a[1..] + [c] + b;
      assert (a + [c] + b)[0] == a[0];
    }
  }

  lemma {:induction false} SplitJoin(parts: seq<string>, sep: char)
    requires parts != [] && forall p <- parts :: sep !in p
    ensures Split(Join(parts, sep), sep) == parts
  {
    if |parts| == 1 {
      assert parts[0] in parts;
      var i := IndexOf(parts[0], sep);
      assert i == |parts[0]|;
    } else {
      var head, rest := parts[0], Join(parts[1..], sep);
      assert head in parts;
      var s := head + [sep] + rest;
      IndexOfAppend(head, rest, sep);
      assert s[..|head|] == head && s[|head| + 1..] == rest;
      SplitJoin(parts[1..], sep);
    }
  }

  lemma {:induction false} JoinSplit(s: string, sep: char)
    ensures Join(Split(s, sep), sep) == s
    ensures Split(s, sep) != [] && forall p <- Split(s, sep) :: sep !in p
    decreases |s|
  {
    var i := IndexOf(s, sep);
    if i < |s| {
      JoinSplit(s[i + 1..], sep);
      assert Split(s, sep)[1..] == Split(s[i + 1..], sep);
      assert s == s[..i] + [sep] + s[i + 1..];
    } else {
      assert s[..i] == s;
    }
  }

  /** Pieces come in the order of the text, cut at every separator. */
  lemma SplitCuts(head: string, rest: string, sep: char)
    requires sep !in head
    ensures Split(head, sep) == [head] && Split(head + [sep] + rest, sep) == [head] + Split(rest, sep)
  {
    IndexOfAppend(head, rest, sep);
    assert head[..|head|] == head;
    assert IndexOf(head, sep) == |head|;
    assert (head + [sep] + rest)[..|head|] == head && (head + [sep] + rest)[|head| + 1..] == rest;
  }

  // ---- What the parser yields ----

  /** The piece is a pair for k with value v: k up to the first `=`, v behind it. */
  ghost predicate IsPair(piece: string, k: string, v: string) {
    piece == k + "=" + v && '=' !in k
  }

  lemma SplitOnceExactly(piece: string, k: string, v: string)
    ensures SplitOnce(piece) == Some((k, v)) <==> IsPair(piece, k, v)
  {
    if IsPair(piece, k, v) {
      PairSplits(k, v);
    }
    var i := IndexOf(piece, '=');
    if i < |piece| {
      assert piece == piece[..i] + ['='] + piece[i + 1..];
    }
  }

  predicate PairFor(piece: string, k: string) {
    SplitOnce(piece).Some? && SplitOnce(piece).value.0 == k
  }

  /** Piece i is the last pair for k. */
  ghost predicate LastPairFor(pieces: seq<string>, k: string, i: nat) {
    i < |pieces| && PairFor(pieces[i], k) && forall j | i < j < |pieces| :: !PairFor(pieces[j], k)
  }

  /** A key is in the result iff some piece is a pair for it, and the last such piece decides
      its value. */
  lemma {:induction false} LastPairWins(pieces: seq<string>, k: string)
    ensures k in Collect(pieces) <==> exists i: nat :: LastPairFor(pieces, k, i)
    ensures forall i: nat | LastPairFor(pieces, k, i) ::
              k in Collect(pieces) && SplitOnce(pieces[i]) == Some((k, Collect(pieces)[k]))
    decreases |pieces|
  {
    if pieces != [] {
      var n := |pieces| - 1;
      var shorter := pieces[..n];
      LastPairWins(shorter, k);
      if PairFor(pieces[n], k) {
        assert LastPairFor(pieces, k, n);
      } else {
        forall i: nat ensures LastPairFor(pieces, k, i) <==> LastPairFor(shorter, k, i) {
          if LastPairFor(shorter, k, i) {
            forall j | i < j < |pieces| ensures !PairFor(pieces[j], k) {
              assert j < n ==> pieces[j] == shorter[j];
            }
          }
          if LastPairFor(pieces, k, i) {
            forall j | i < j < n ensures !PairFor(shorter[j], k) {
              assert pieces[j] == shorter[j];
            }
          }
        }
        assert k in Collect(pieces) <==> k in Collect(shorter);
      }
    }
  }

  lemma {:induction false} KeysHavePairs(pieces: seq<string>, k: string)
    ensures k in Collect(pieces) <==> exists i :: 0 <= i < |pieces| && PairFor(pieces[i], k)
    decreases |pieces|
  {
    if pieces != [] {
      var n := |pieces| - 1;
      KeysHavePairs(pieces[..n], k);
      assert forall i :: 0 <= i < n ==> pieces[..n][i] == pieces[i];
      if SplitOnce(pieces[n]).Some? && SplitOnce(pieces[n]).value.0 != k {
        assert k in Collect(pieces) <==> k in Collect(pieces[..n]);
      }
    }
  }

  /** Piece i is a pair for k with value v, and no later piece is a pair for k. */
  ghost predicate LastPair(pieces: seq<string>, k: string, i: nat, v: string) {
    && i < |pieces| && IsPair(pieces[i], k, v)
    && forall j, w | i < j < |pieces| :: !IsPair(pieces[j], k, w)
  }

  lemma LastPairDecides(pieces: seq<string>, k: string, i: nat, v: string)
    requires LastPair(pieces, k, i, v)
    ensures k in Collect(pieces) && Collect(pieces)[k] == v
  {
    SplitOnceExactly(pieces[i], k, v);
    forall j | i < j < |pieces| ensures !PairFor(pieces[j], k) {
      if PairFor(pieces[j], k) {
        SplitOnceExactly(pieces[j], k, SplitOnce(pieces[j]).value.1);
      }
    }
    LastPairWins(pieces, k);
    assert LastPairFor(pieces, k, i);
  }

  /** The whole parser: a key is there when some piece of the text is a pair for it, and the last
      such piece gives its value. Pieces without `=` are dropped. */
  lemma ParseQueryKeepsLastPair(qs: string, k: string)
    ensures k in ParseQuery(Some(qs)) <==> exists piece, v :: piece in Split(qs, '&') && IsPair(piece, k, v)
    ensures forall i: nat, v | LastPair(Split(qs, '&'), k, i, v) ::
              k in ParseQuery(Some(qs)) && ParseQuery(Some(qs))[k] == v
  {
    var pieces := Split(qs, '&');
    KeysHavePairs(pieces, k);
    if k in ParseQuery(Some(qs)) {
      var i :| 0 <= i < |pieces| && PairFor(pieces[i], k);
      var v := SplitOnce(pieces[i]).value.1;
      SplitOnceExactly(pieces[i], k, v);
      assert pieces[i] in pieces && IsPair(pieces[i], k, v);
    }
    if piece, v :| piece in pieces && IsPair(piece, k, v) {
      SplitOnceExactly(piece, k, v);
      var i :| 0 <= i < |pieces| && pieces[i] == piece;
      assert PairFor(pieces[i], k);
    }
    forall i: nat, v | LastPair(pieces, k, i, v) ensures k in Collect(pieces) && Collect(pieces)[k] == v {
      LastPairDecides(pieces, k, i, v);
    }
  }

  /** Without any `=`, or without a query, there are no keys. */
  lemma NoPairsNoKeys(raw: Option<string>)
    requires raw.Some? ==> '=' !in raw.value
    ensures ParseQuery(raw) == map[]
  {
    if raw.Some? {
      SplitFree(raw.value, '&', '=');
      forall k ensures k !in ParseQuery(raw) {
        ParseQueryKeepsLastPair(raw.value, k);
        forall piece, v | '=' !in piece ensures !IsPair(piece, k, v) {
          assert (k + "=" + v)[|k|] == '=';
        }
      }
    }
  }

  /** Keys free of `=` and `&`, values free of `&`. */
  ghost predicate Clean(m: StringMap) {
    forall k <- m :: '=' !in k && '&' !in k && '&' !in m[k]
  }

  lemma {:induction false} CollectClean(pieces: seq<string>)
    requires forall p <- pieces :: '&' !in p
    ensures Clean(Collect(pieces))
    decreases |pieces|
  {
    if pieces != [] {
      var n := |pieces| - 1;
      assert pieces[n] in pieces;
      CollectClean(pieces[..n]);
    }
  }

  lemma ParsedIsClean(raw: Option<string>)
    ensures Clean(ParseQuery(raw))
  {
    if raw.Some? {
      JoinSplit(raw.value, '&');
      CollectClean(Split(raw.value, '&'));
    }
  }

  // ---- The round trip ----

  lemma PairSplits(k: string, v: string)
    requires '=' !in k
    ensures SplitOnce(k + "=" + v) == Some((k, v))
  {
    IndexOfAppend(k, v, '=');
    assert k + "=" + v == k + ['='] + v;
    assert (k + ['='] + v)[..|k|] == k && (k + ['='] + v)[|k| + 1..] == v;
  }

  lemma {:induction false} CollectPairs(m: StringMap, order: seq<string>)
    requires Clean(m) && (forall k <- order :: k in m)
    ensures Collect(Pairs(m, order)) == map k | k in order :: m[k]
    decreases |order|
  {
    if order != [] {
      var n := |order| - 1;
      var k := order[n];
      assert k in order;
      CollectPairs(m, order[..n]);
      PairSplits(k, m[k]);
      assert Pairs(m, order)[..n] == Pairs(m, order[..n]);
      assert Collect(Pairs(m, order)) == Collect(Pairs(m, order[..n]))[k := m[k]];
      assert forall x :: x in order <==> x in order[..n] || x == k;
    }
  }

  lemma PairsFreeOfSeparator(m: StringMap, order: seq<string>)
    requires Clean(m) && (forall k <- order :: k in m)
    ensures forall p <- Pairs(m, order) :: '&' !in p
  {
    forall i | 0 <= i < |order| ensures '&' !in Pairs(m, order)[i] {
      assert order[i] in order;
    }
  }

  lemma OrderCoversMap(m: StringMap, order: seq<string>)
    requires IterationOrder(order, m)
    ensures (map k | k in order :: m[k]) == m
  {
  }

  lemma CleanPrintParses(m: StringMap, order: seq<string>)
    requires IterationOrder(order, m) && m != map[] && Clean(m)
    ensures ParseQuery(QueryText(m, order)) == m
  {
    OrderCoversMap(m, order);
    assert order != [];
    PairsFreeOfSeparator(m, order);
    SplitJoin(Pairs(m, order), '&');
    CollectPairs(m, order);
  }

  /** Printing a map and parsing the text gives the map back, in whatever order it is iterated,
      exactly when its keys are free of `=` and `&` and its values of `&`. Nothing is escaped,
      so for any other map the receiving side sees something else. */
  lemma PrintParse(m: StringMap, order: seq<string>)
    requires IterationOrder(order, m)
    ensures ParseQuery(QueryText(m, order)) == m <==> Clean(m)
  {
    ParsedIsClean(QueryText(m, order));
    if m != map[] && Clean(m) {
      CleanPrintParses(m, order);
    }
  }

  /** For every raw query string and every iteration order: what the client prints from the
      parsed query parses to the same query. */
  lemma QueryRoundTrip(raw: Option<string>, order: seq<string>)
    requires IterationOrder(order, ParseQuery(raw))
    ensures ParseQuery(QueryText(ParseQuery(raw), order)) == ParseQuery(raw)
  {
    ParsedIsClean(raw);
    PrintParse(ParseQuery(raw), order);
  }

  // ---- On the URL ----

  /** The query text of a URL: what follows its first `?`, up to the fragment. The HTTP client
      keeps the fragment, which begins at the first `#`, to itself. */
  function QueryOf(url: string): Option<string> {
    var sent := url[..IndexOf(url, '#')];
    var i := IndexOf(sent, '?');
    if i == |sent| then None else Some(sent[i + 1..])
  }

  lemma IndexOfNone(s: string, c: char)
    requires c !in s
    ensures IndexOf(s, c) == |s| && s[..|s|] == s
  {
  }

  lemma QueryStarts(head: string, rest: string)
    requires '?' !in head && '#' !in head && '#' !in rest
    ensures QueryOf(head + ['?'] + rest) == Some(rest)
  {
    var url := head + ['?'] + rest;
    IndexOfNone(url, '#');
    IndexOfAppend(head, rest, '?');
    assert url[|head| + 1..] == rest;
  }

  lemma NoQuery(url: string)
    requires '?' !in url && '#' !in url
    ensures QueryOf(url) == None
  {
    IndexOfNone(url, '#');
    IndexOfNone(url, '?');
  }

  lemma FragmentHidden(head: string, rest: string)
    requires '#' !in head
    ensures QueryOf(head + ['#'] + rest) == QueryOf(head)
  {
    IndexOfAppend(head, rest, '#');
    assert (head + ['#'] + rest)[..|head|] == head;
    IndexOfNone(head, '#');
  }

  lemma {:induction false} TrimSlashesTrims(s: string)
    ensures TrimSlashes(s) <= s && (TrimSlashes(s) == "" || TrimSlashes(s)[|TrimSlashes(s)| - 1] != '/')
    ensures forall i | |TrimSlashes(s)| <= i < |s| :: s[i] == '/'
    decreases |s|
  {
    if s != "" && s[|s| - 1] == '/' {
      TrimSlashesTrims(s[..|s| - 1]);
    }
  }

  /** Trimming takes no character but slashes. */
  lemma TrimSlashesKeeps(s: string, c: char)
    requires c != '/'
    ensures c in TrimSlashes(s) <==> c in s
  {
    TrimSlashesTrims(s);
  }

  lemma UrlText(forwardTo: string, path: string, m: StringMap, order: seq<string>)
    requires forall k <- order :: k in m
    ensures var prefix := TrimSlashes(forwardTo) + "/" + path;
      ForwardUrl(forwardTo, path, m, order)
      == if QueryText(m, order).Some? then prefix + ['?'] + QueryText(m, order).value else prefix
  {
    var prefix := TrimSlashes(forwardTo) + "/" + path;
    assert prefix + "" == prefix;
    if QueryText(m, order).Some? {
      assert prefix + ("?" + QueryText(m, order).value) == prefix + ['?'] + QueryText(m, order).value;
    }
  }

  /** The URL is the base without the slashes at its end, the path and, unless there are none, the
      pairs, each as key, `=` and value. */
  lemma UrlParts(forwardTo: string, path: string, m: StringMap, order: seq<string>)
    returns (base: string, slashes: string, pairs: seq<string>)
    requires IterationOrder(order, m)
    ensures forwardTo == base + slashes && (forall c <- slashes :: c == '/') && (base == "" || base[|base| - 1] != '/')
    ensures |pairs| == |order| && forall i | 0 <= i < |order| :: pairs[i] == order[i] + "=" + m[order[i]]
    ensures m == map[] ==> ForwardUrl(forwardTo, path, m, order) == base + "/" + path
    ensures m != map[] ==> ForwardUrl(forwardTo, path, m, order) == base + "/" + path + ['?'] + Join(pairs, '&')
  {
    TrimSlashesTrims(forwardTo);
    UrlText(forwardTo, path, m, order);
    base, pairs := TrimSlashes(forwardTo), Pairs(m, order);
    slashes := forwardTo[|base|..];
    assert forwardTo == base + slashes;
  }

  // ---- What a query is free of, its parsed map and the printed text are free of ----

  ghost predicate Free(m: StringMap, c: char) {
    forall k <- m :: c !in k && c !in m[k]
  }

  lemma {:induction false} CollectFree(pieces: seq<string>, c: char)
    requires forall p <- pieces :: c !in p
    ensures Free(Collect(pieces), c)
    decreases |pieces|
  {
    if pieces != [] {
      var n := |pieces| - 1;
      assert pieces[n] in pieces;
      CollectFree(pieces[..n], c);
    }
  }

  lemma {:induction false} SplitFree(s: string, sep: char, c: char)
    requires c !in s
    ensures forall p <- Split(s, sep) :: c !in p
    decreases |s|
  {
    var i := IndexOf(s, sep);
    if i < |s| {
      SplitFree(s[i + 1..], sep, c);
    }
  }

  lemma {:induction false} JoinFree(parts: seq<string>, sep: char, c: char)
    requires c != sep && forall p <- parts :: c !in p
    ensures c !in Join(parts, sep)
  {
    if parts != [] {
      assert parts[0] in parts;
      if |parts| > 1 {
        JoinFree(parts[1..], sep, c);
      }
    }
  }

  lemma PairsFree(m: StringMap, order: seq<string>, c: char)
    requires Free(m, c) && c != '=' && forall k <- order :: k in m
    ensures forall p <- Pairs(m, order) :: c !in p
  {
    forall i | 0 <= i < |order| ensures c !in Pairs(m, order)[i] {
      assert order[i] in order;
    }
  }

  lemma PrintedFree(raw: Option<string>, order: seq<string>, c: char)
    requires raw.Some? ==> c !in raw.value
    requires c != '=' && c != '&' && IterationOrder(order, ParseQuery(raw))
    ensures var text := QueryText(ParseQuery(raw), order); text.Some? ==> c !in text.value
  {
    if raw.Some? {
      SplitFree(raw.value, '&', c);
      CollectFree(Split(raw.value, '&'), c);
      PairsFree(ParseQuery(raw), order, c);
      JoinFree(Pairs(ParseQuery(raw), order), '&', c);
    }
  }

  // ---- Which bases and paths let every query through ----

  /** A request line carries no `#`, so no raw query holds one. */
  ghost predicate OnTheWire(raw: Option<string>) {
    raw.Some? ==> '#' !in raw.value
  }

  /** The URL the client calls carries the query of the request, as long as neither the
      configured base nor the path brings a `?` or a `#` of its own. */
  lemma QueryOnUrl(forwardTo: string, path: string, raw: Option<string>, order: seq<string>)
    requires OnTheWire(raw) && IterationOrder(order, ParseQuery(raw))
    requires '?' !in forwardTo && '?' !in path && '#' !in forwardTo && '#' !in path
    ensures ParseQuery(QueryOf(ForwardUrl(forwardTo, path, ParseQuery(raw), order))) == ParseQuery(raw)
  {
    var m := ParseQuery(raw);
    var prefix := TrimSlashes(forwardTo) + "/" + path;
    TrimSlashesTrims(forwardTo);
    assert '?' !in prefix && '#' !in prefix;
    QueryRoundTrip(raw, order);
    PrintedFree(raw, order, '#');
    UrlText(forwardTo, path, m, order);
    if QueryText(m, order).Some? {
      QueryStarts(prefix, QueryText(m, order).value);
    } else {
      NoQuery(prefix);
    }
  }

  /** The adapter hands over decoded paths, so a `?` can reach the path. Then the query the local
      service sees starts too early: with the text x=y behind that `?` the key k is lost and x
      appears, its value running on through the query proper. */
  lemma QuestionMarkInPath(forwardTo: string, before: string, x: string, y: string, k: string, v: string)
    requires '?' !in forwardTo && '?' !in before && '#' !in forwardTo + before + x + y + k + v
    requires '=' !in x && '&' !in x && '&' !in y && '=' !in k && '&' !in k && '&' !in v
    ensures var path := before + "?" + (x + "=" + y);
      && ParseQuery(Some(k + "=" + v)) == map[k := v] && IterationOrder([k], map[k := v])
      && ParseQuery(QueryOf(ForwardUrl(forwardTo, path, map[k := v], [k]))) == map[x := y + "?" + (k + "=" + v)]
  {
    var base, stray, qs := TrimSlashes(forwardTo) + "/", x + "=" + y, k + "=" + v;
    TrimSlashesTrims(forwardTo);
    OnePair(k, v);
    OnePairUrl(forwardTo, before + "?" + stray, k, v, qs);
    Regroup(base, before, stray, qs);
    QueryStarts(base + before, stray + "?" + qs);
    StrayPair(x, y, qs);
  }

  lemma Regroup(base: string, before: string, stray: string, qs: string)
    ensures base + (before + "?" + stray) + ['?'] + qs == (base + before) + ['?'] + (stray + "?" + qs)
  {
  }

  lemma StrayPair(x: string, y: string, qs: string)
    requires '=' !in x && '&' !in x && '&' !in y && '&' !in qs
    ensures ParseQuery(Some(x + "=" + y + "?" + qs)) == map[x := y + "?" + qs]
  {
    OnePair(x, y + "?" + qs);
    assert x + "=" + (y + "?" + qs) == x + "=" + y + "?" + qs;
  }

  /** For one: under the base http://h and the path `x?a=1`, the query b=2 reads back as a=1?b=2. */
  lemma QuestionMarkExample()
    ensures ParseQuery(QueryOf(ForwardUrl("http://h", "x?a=1", map["b" := "2"], ["b"]))) == map["a" := "1?b=2"]
  {
    ExampleTexts();
    QuestionMarkInPath("http://h", "x", "a", "1", "b", "2");
  }

  lemma ExampleTexts()
    ensures "x" + "?" + ("a" + "=" + "1") == "x?a=1" && "1" + "?" + ("b" + "=" + "2") == "1?b=2"
  {
  }

  /** A `#` can reach the path the same way. Then everything after it, the query included, is a
      fragment, and the local service sees no query at all. */
  lemma HashInPath(forwardTo: string, before: string, rest: string, m: StringMap, order: seq<string>)
    requires '?' !in forwardTo + before && '#' !in forwardTo + before && forall k <- order :: k in m
    ensures QueryOf(ForwardUrl(forwardTo, before + ['#'] + rest, m, order)) == None
  {
    var head := TrimSlashes(forwardTo) + "/" + before;
    TrimSlashesTrims(forwardTo);
    UrlText(forwardTo, before + ['#'] + rest, m, order);
    var tail := if QueryText(m, order).Some? then rest + ['?'] + QueryText(m, order).value else rest;
    BehindHash(TrimSlashes(forwardTo) + "/", before, rest, if QueryText(m, order).Some? then QueryText(m, order).value else "");
    FragmentHidden(head, tail);
    NoQuery(head);
  }

  lemma BehindHash(base: string, before: string, rest: string, qs: string)
    ensures base + (before + ['#'] + rest) == base + before + ['#'] + rest
    ensures base + (before + ['#'] + rest) + ['?'] + qs == base + before + ['#'] + (rest + ['?'] + qs)
  {
  }

  /** For one: under the base http://h and the path `x#y`, the query b=2 is not there any more. */
  lemma HashExample()
    ensures ParseQuery(Some("b=2")) == map["b" := "2"] && IterationOrder(["b"], map["b" := "2"])
    ensures ParseQuery(QueryOf(ForwardUrl("http://h", "x#y", map["b" := "2"], ["b"]))) == map[]
  {
    OnePairText("b", "2", "b=2");
    assert "x" + ['#'] + "y" == "x#y";
    HashInPath("http://h", "x", "y", map["b" := "2"], ["b"]);
  }

  /** A text that is one pair. */
  lemma OnePair(k: string, v: string)
    requires '=' !in k && '&' !in k && '&' !in v
    ensures ParseQuery(Some(k + "=" + v)) == map[k := v]
  {
    var pair := k + "=" + v;
    PairSplits(k, v);
    assert Join([pair], '&') == pair;
    SplitJoin([pair], '&');
    assert [pair][..0] == [];
    assert Collect([pair]) == Collect([])[k := v];
  }

  lemma OnePairText(k: string, v: string, text: string)
    requires '=' !in k && '&' !in k && '&' !in v && text == k + "=" + v
    ensures ParseQuery(Some(text)) == map[k := v]
  {
    OnePair(k, v);
  }

  /** Behind a stretch of text t and a `?`, a key longer than t is not found again. */
  lemma {:induction false} LongKeyHidden(t: string, k: string)
    requires |k| > |t| && '&' !in k && '?' !in k
    ensures forall p <- Split(t + "?" + k + "=", '&') :: !PairFor(p, k)
    decreases |t|
  {
    var whole := t + "?" + k + "=";
    assert whole[|t|] == '?' && whole[|t| + 1..] == k + "=";
    var i := IndexOf(whole, '&');
    if i == |whole| {
      forall j | |t| < j <= |whole| ensures '?' in whole[..j] {
        assert whole[..j][|t|] == '?';
      }
    } else {
      forall j | |t| < j < |whole| ensures whole[j] != '&' {
        assert whole[j] == (k + "=")[j - |t| - 1];
      }
      assert whole[i + 1..] == t[i + 1..] + "?" + k + "=";
      LongKeyHidden(t[i + 1..], k);
    }
  }

  /** A text holds no key as long as itself. */
  lemma {:induction false} KeysAreShort(t: string, k: string)
    requires |k| >= |t|
    ensures forall p <- Split(t, '&') :: !PairFor(p, k)
    decreases |t|
  {
    var i := IndexOf(t, '&');
    if i < |t| {
      KeysAreShort(t[i + 1..], k);
    }
  }

  lemma CutAt(prefix: string, c: char) returns (head: string, rest: string)
    requires c in prefix
    ensures prefix == head + [c] + rest && c !in head
  {
    var i := IndexOf(prefix, c);
    assert prefix[..|prefix|] == prefix;
    head, rest := prefix[..i], prefix[i + 1..];
  }

  lemma Reassociate(head: string, c: char, rest: string, qs: string)
    ensures head + [c] + rest + ['?'] + qs == head + [c] + (rest + "?" + qs)
  {
  }

  /** Under a prefix with a `?` or a `#` some query is lost: a pair whose key is long enough. */
  lemma QueryLost(forwardTo: string, path: string) returns (k: string)
    requires '?' in forwardTo || '?' in path || '#' in forwardTo || '#' in path
    ensures var raw := Some(k + "=");
      && OnTheWire(raw) && ParseQuery(raw) == map[k := ""] && IterationOrder([k], ParseQuery(raw))
      && k !in ParseQuery(QueryOf(ForwardUrl(forwardTo, path, ParseQuery(raw), [k])))
  {
    var prefix := TrimSlashes(forwardTo) + "/" + path;
    TrimSlashesKeeps(forwardTo, '?');
    TrimSlashesKeeps(forwardTo, '#');
    k := seq(|prefix|, _ => 'a');
    EmptyValue(k);
    OnePairUrl(forwardTo, path, k, "", k + "=");
    if '#' in prefix {
      LostToFragment(prefix, k);
    } else {
      LostToQuery(prefix, k);
    }
  }

  lemma LostToFragment(prefix: string, k: string)
    requires '#' in prefix && |k| >= |prefix|
    ensures k !in ParseQuery(QueryOf(prefix + ['?'] + (k + "=")))
  {
    var head, rest := CutAt(prefix, '#');
    Reassociate(head, '#', rest, k + "=");
    FragmentHidden(head, rest + "?" + (k + "="));
    KeyTooLong(head, k);
  }

  lemma LostToQuery(prefix: string, k: string)
    requires '?' in prefix && '#' !in prefix && |k| >= |prefix| && '&' !in k && '?' !in k && '#' !in k
    ensures k !in ParseQuery(QueryOf(prefix + ['?'] + (k + "=")))
  {
    var head, t := CutAt(prefix, '?');
    Reassociate(head, '?', t, k + "=");
    QueryStarts(head, t + "?" + (k + "="));
    KeyNotFound(t, k);
  }

  lemma KeyTooLong(url: string, k: string)
    requires |k| >= |url|
    ensures k !in ParseQuery(QueryOf(url))
  {
    var query := QueryOf(url);
    if query.Some? {
      KeysAreShort(query.value, k);
      LastPairWins(Split(query.value, '&'), k);
    }
  }

  lemma EmptyValue(k: string)
    requires '=' !in k && '&' !in k
    ensures k + "=" == k + "=" + "" && ParseQuery(Some(k + "=")) == map[k := ""]
  {
    OnePair(k, "");
  }

  lemma OnePairUrl(forwardTo: string, path: string, k: string, v: string, qs: string)
    requires qs == k + "=" + v
    ensures ForwardUrl(forwardTo, path, map[k := v], [k]) == TrimSlashes(forwardTo) + "/" + path + ['?'] + qs
  {
    assert k in map[k := v];
    assert Pairs(map[k := v], [k]) == [qs];
    UrlText(forwardTo, path, map[k := v], [k]);
  }

  lemma KeyNotFound(t: string, k: string)
    requires |k| > |t| && '&' !in k && '?' !in k
    ensures k !in ParseQuery(Some(t + "?" + (k + "=")))
  {
    assert t + "?" + (k + "=") == t + "?" + k + "=";
    LongKeyHidden(t, k);
    LastPairWins(Split(t + "?" + k + "=", '&'), k);
  }

  /** Whatever query a request brings, the local service is called with the same one. */
  ghost predicate QueriesSurvive(forwardTo: string, path: string) {
    forall raw, order | OnTheWire(raw) && IterationOrder(order, ParseQuery(raw)) ::
      ParseQuery(QueryOf(ForwardUrl(forwardTo, path, ParseQuery(raw), order))) == ParseQuery(raw)
  }

  /** Every query survives on the URL exactly when neither the configured base nor the path
      holds a `?` or a `#`. */
  lemma UrlRoundTrip(forwardTo: string, path: string)
    ensures QueriesSurvive(forwardTo, path)
       <==> '?' !in forwardTo && '#' !in forwardTo && '?' !in path && '#' !in path
  {
    if '?' in forwardTo || '?' in path || '#' in forwardTo || '#' in path {
      var k := QueryLost(forwardTo, path);
      assert IterationOrder([k], ParseQuery(Some(k + "=")));
    } else {
      forall raw, order | OnTheWire(raw) && IterationOrder(order, ParseQuery(raw))
        ensures ParseQuery(QueryOf(ForwardUrl(forwardTo, path, ParseQuery(raw), order))) == ParseQuery(raw)
      {
        QueryOnUrl(forwardTo, path, raw, order);
      }
    }
  }
}
