/** The link discovery route: given a shop's address, fetch its page, turn
    every link-like element into a candidate, and pick the home, cart and
    orders links by keyword and then by path. The page fetch and the HTML
    selection `a, [role="link"], button` are given to the handler as a
    function from address to the matched elements in document order. */
module LinkDiscovery {
  import opened JsRuntime
  import opened WebUrl

  const HomeKeywords: seq<string> := ["anasayfa", "ana sayfa", "home", "homepage"]
  const CartKeywords: seq<string> := ["sepet", "sepetim", "cart", "basket", "bag", "shopping cart"]
  const OrderKeywords: seq<string> :=
    ["sipari\U{015F}lerim", "siparislerim", "sipari\U{015F}", "siparis", "orders", "my orders",
     "order history", "sipari\U{015F} takip", "siparis takip"]

  const HomePaths: seq<string> := ["/", "/home"]
  const CartPaths: seq<string> := ["/cart", "/basket", "/bag", "/sepet", "/sepetim"]
  const OrderPaths: seq<string> :=
    ["/orders", "/order", "/account/orders", "/hesabim", "/hesab\U{0131}m", "/siparis", "/sipari\U{015F}"]

  /** A matched element: its text content and its attributes. */
  datatype Element = Element(content: string, attributes: map<string, string>)

  /** `$el.attr(name) || ''` */
  function Attr(el: Element, name: string): string
  {
    if name in el.attributes then el.attributes[name] else ""
  }

  /* ===== Search text ===== */

  /** `textOf($el)`: text, aria-label and title joined by spaces,
      lower-cased and trimmed. */
  function TextOf(el: Element): (r: string)
    ensures r == [] || (!IsSpace(r[0]) && !IsSpace(r[|r| - 1]))
  {
    TrimSpec(LowerCase(el.content + " " + Attr(el, "aria-label") + " " + Attr(el, "title")));
    Trim(LowerCase(el.content + " " + Attr(el, "aria-label") + " " + Attr(el, "title")))
  }

  lemma IncludesInConcat(a: string, b: string, word: string)
    ensures Includes(a, word) ==> Includes(a + b, word)
    ensures Includes(b, word) ==> Includes(a + b, word)
  {
    IncludesSpec(a, word);
    IncludesSpec(b, word);
    IncludesSpec(a + b, word);
    if Includes(a, word) {
      var i :| OccursAt(a, word, i);
      assert (a + b)[i..i + |word|] == a[i..i + |word|];
      assert OccursAt(a + b, word, i);
    }
    if Includes(b, word) {
      var i :| OccursAt(b, word, i);
      assert (a + b)[|a| + i..|a| + i + |word|] == b[i..i + |word|];
      assert OccursAt(a + b, word, |a| + i);
    }
  }

  /** A keyword that appears in the lower-cased text, aria-label or title of
      an element appears in its search text (trimming loses nothing inside). */
  lemma TextOfFindsKeyword(el: Element, word: string)
    requires |word| > 0 && !IsSpace(word[0]) && !IsSpace(word[|word| - 1])
    requires Includes(LowerCase(el.content), word)
             || Includes(LowerCase(Attr(el, "aria-label")), word)
             || Includes(LowerCase(Attr(el, "title")), word)
    ensures Includes(TextOf(el), word)
  {
    var c, a, t := el.content, Attr(el, "aria-label"), Attr(el, "title");
    var joined := c + " " + a + " " + t;
    LowerCaseConcat(c + " " + a + " ", t);
    LowerCaseConcat(c + " " + a, " ");
    LowerCaseConcat(c + " ", a);
    LowerCaseConcat(c, " ");
    var lc, la, lt := LowerCase(c), LowerCase(a), LowerCase(t);
    var sp := LowerCase(" ");
    assert LowerCase(joined) == lc + sp + la + sp + lt;
    IncludesInConcat(lc, sp, word);
    IncludesInConcat(lc + sp, la, word);
    IncludesInConcat(lc + sp + la, sp, word);
    IncludesInConcat(lc + sp + la + sp, lt, word);
    TrimKeepsWord(LowerCase(joined), word);
  }

  /** An upper-case Turkish label reaches its keyword: "SIPARIŞ" lower-cases
      to "sipariş", S-cedilla included, as `toLowerCase` does. */
  lemma UpperCaseOrderLabel()
    ensures Includes(TextOf(Element("SIPARI\U{015E}", map[])), "sipari\U{015F}")
  {
    var el := Element("SIPARI\U{015E}", map[]);
    var word := "sipari\U{015F}";
    assert LowerCase(el.content) == word;
    IncludesSpec(word, word);
    assert OccursAt(word, word, 0);
    TextOfFindsKeyword(el, word);
  }

  /* ===== Link target ===== */

  predicate IsQuote(c: char)
  {
    c == '\'' || c == '"'
  }

  /** The end of the run of non-quote characters starting at `i`. */
  function NonQuoteEnd(s: string, i: nat): (r: nat)
    requires i <= |s|
    ensures i <= r <= |s|
    ensures forall k :: i <= k < r ==> !IsQuote(s[k])
    ensures r < |s| ==> IsQuote(s[r])
    decreases |s| - i
  {
    if i < |s| && !IsQuote(s[i]) then NonQuoteEnd(s, i + 1) else i
  }

  /** Whether `/location\.href\s*=\s*['"]([^'"]+)['"]/i` matches starting at
      index `i`, and what group 1 then captures. Each part of the pattern
      can match in one way only (white space runs end before '=' or a quote,
      the non-quote run ends at a quote), so no backtracking can help. */
  function MatchAt(s: string, i: nat): (r: Option<string>)
    ensures r.Some? ==> |r.value| > 0 && forall k :: 0 <= k < |r.value| ==> !IsQuote(r.value[k])
  {
    if !(i + 13 <= |s| && ToLowerAscii(s[i..i + 13]) == "location.href") then None
    else
      var eq := SkipSpaces(s, i + 13);
      if eq == |s| || s[eq] != '=' then None
      else
        var open := SkipSpaces(s, eq + 1);
        if open == |s| || !IsQuote(s[open]) then None
        else
          var close := NonQuoteEnd(s, open + 1);
          if close == open + 1 || close == |s| then None
          else Some(s[open + 1..close])
  }

  /** Every character of `s[lo..hi]` is matched by `\s`. */
  predicate AllSpace(s: string, lo: nat, hi: nat)
    requires lo <= hi <= |s|
  {
    forall k :: lo <= k < hi ==> IsSpace(s[k])
  }

  /** The pattern `/location\.href\s*=\s*['"]([^'"]+)['"]/i` matched at
      index `i`, read declaratively: `eq` is the position of '=', `open` and
      `close` those of the two quotes, and group 1 is `s[open + 1..close]`.
      Under the `i` flag without `u`, a non-ASCII character never matches
      an ASCII letter, so ASCII case folding is exact here. */
  predicate RegexSplit(s: string, i: nat, eq: nat, open: nat, close: nat)
  {
    i + 13 <= eq < open < close < |s|
    && ToLowerAscii(s[i..i + 13]) == "location.href"
    && AllSpace(s, i + 13, eq) && s[eq] == '='
    && AllSpace(s, eq + 1, open) && IsQuote(s[open])
    && open + 1 < close
    && (forall k :: open < k < close ==> !IsQuote(s[k]))
    && IsQuote(s[close])
  }

  ghost predicate RegexAt(s: string, i: nat)
  {
    exists eq: nat, open: nat, close: nat :: RegexSplit(s, i, eq, open, close)
  }

  /** A way of matching the pattern fixes every position: the white space
      runs end at the first non-space, the capture at the first quote. */
  lemma RegexSplitIsMatchAt(s: string, i: nat, eq: nat, open: nat, close: nat)
    requires RegexSplit(s, i, eq, open, close)
    ensures MatchAt(s, i) == Some(s[open + 1..close])
  {
    assert !IsSpace(s[eq]) && !IsSpace(s[open]) && IsQuote(s[close]);
    assert SkipSpaces(s, i + 13) == eq;
    assert SkipSpaces(s, eq + 1) == open;
    assert NonQuoteEnd(s, open + 1) == close;
  }

  /** `MatchAt` succeeds exactly where the regular expression matches, and
      then captures what group 1 captures. */
  lemma MatchAtIsRegex(s: string, i: nat)
    ensures MatchAt(s, i).Some? <==> RegexAt(s, i)
    ensures forall eq: nat, open: nat, close: nat :: RegexSplit(s, i, eq, open, close)
              ==> MatchAt(s, i) == Some(s[open + 1..close])
  {
    forall eq: nat, open: nat, close: nat | RegexSplit(s, i, eq, open, close)
      ensures MatchAt(s, i) == Some(s[open + 1..close])
    {
      RegexSplitIsMatchAt(s, i, eq, open, close);
    }
    if MatchAt(s, i).Some? {
      var eq := SkipSpaces(s, i + 13);
      var open := SkipSpaces(s, eq + 1);
      var close := NonQuoteEnd(s, open + 1);
      assert RegexSplit(s, i, eq, open, close);
    }
  }

  /** What the pattern matching at each index of `s` yields. */
  function Matches(s: string): (ms: seq<Option<string>>)
    ensures |ms| == |s|
    ensures forall j :: 0 <= j < |s| ==> ms[j] == MatchAt(s, j)
  {
    seq(|s|, j requires 0 <= j < |s| => MatchAt(s, j))
  }

  /** The first entry at or after `i` that holds something. */
  function FirstFrom<T>(ms: seq<Option<T>>, i: nat): (r: Option<T>)
    ensures r.Some? ==> r in ms
    decreases |ms| - i
  {
    if i >= |ms| then None
    else if ms[i].Some? then ms[i]
    else FirstFrom(ms, i + 1)
  }

  lemma {:induction false} FirstFromSpec<T>(ms: seq<Option<T>>, i: nat)
    ensures FirstFrom(ms, i).None? <==> forall j :: i <= j < |ms| ==> ms[j].None?
    ensures forall j :: i <= j < |ms| && ms[j].Some? && (forall k :: i <= k < j ==> ms[k].None?)
                        ==> FirstFrom(ms, i) == ms[j]
    decreases |ms| - i
  {
    if i < |ms| && ms[i].None? {
      FirstFromSpec(ms, i + 1);
    }
  }

  /** `onclick.match(...)?.[1]`: the capture of the leftmost match. */
  function OnclickTarget(s: string): (r: Option<string>)
    ensures r.Some? ==> |r.value| > 0 && forall k :: 0 <= k < |r.value| ==> !IsQuote(r.value[k])
  {
    FirstFrom(Matches(s), 0)
  }

  /** The onclick scan finds the leftmost match: it fails exactly when no
      index matches, and otherwise returns the capture at the first index
      that does. */
  lemma OnclickTargetIsLeftmost(s: string)
    ensures OnclickTarget(s).None? <==> forall j :: 0 <= j < |s| ==> MatchAt(s, j).None?
    ensures forall j :: 0 <= j < |s| && MatchAt(s, j).Some? && (forall k :: 0 <= k < j ==> MatchAt(s, k).None?)
                        ==> OnclickTarget(s) == MatchAt(s, j)
  {
    var ms := Matches(s);
    FirstFromSpec(ms, 0);
    forall j | 0 <= j < |s| && MatchAt(s, j).Some? && (forall k :: 0 <= k < j ==> MatchAt(s, k).None?)
      ensures OnclickTarget(s) == MatchAt(s, j)
    {
      assert ms[j].Some? && forall k :: 0 <= k < j ==> ms[k].None?;
    }
  }

  /** `hrefOf($el)`: the trimmed href when it is not empty, else the
      onclick target, else ''. */
  function HrefOf(el: Element): (r: string)
    ensures Trim(Attr(el, "href")) != "" ==> r == Trim(Attr(el, "href"))
    ensures Trim(Attr(el, "href")) == "" && OnclickTarget(Attr(el, "onclick")).Some?
            ==> r == OnclickTarget(Attr(el, "onclick")).value && r != ""
    ensures Trim(Attr(el, "href")) == "" && OnclickTarget(Attr(el, "onclick")).None? ==> r == ""
  {
    var direct := Trim(Attr(el, "href"));
    if direct != "" then direct
    else match OnclickTarget(Attr(el, "onclick"))
      case Some(target) => target
      case None => ""
  }

  /** A button with no href whose click handler assigns `location.href`
      yields the assigned path as its link target. */
  lemma OnclickExample()
    ensures HrefOf(Element("Sepet", map["onclick" := "location.href='/cart'"])) == "/cart"
  {
    var s := "location.href='/cart'";
    assert ToLowerAscii(s[0..13]) == "location.href";
    assert SkipSpaces(s, 13) == 13;
    assert SkipSpaces(s, 14) == 14;
    assert NonQuoteEnd(s, 15) == 20 by {
      assert NonQuoteEnd(s, 20) == 20;
    }
    assert s[15..20] == "/cart";
    assert Trim("") == "";
  }

  /* ===== Candidates ===== */

  datatype Candidate = Candidate(href: string, abs: string, text: string)

  /** `absolutize(href, base)`: the resolved address, or '' when resolution throws. */
  function Absolutize(href: string, base: Url, p: UrlParser): (r: string)
    ensures p.resolve(href, base).Abrupt? ==> r == ""
    ensures p.resolve(href, base).Normal? ==> r == p.resolve(href, base).value.href
    ensures Serialises(p) ==> (r == "" <==> p.resolve(href, base).Abrupt?)
  {
    match p.resolve(href, base)
    case Normal(u) => u.href
    case Abrupt(_) => ""
  }

  function CandidateOf(el: Element, base: Url, p: UrlParser): Candidate
  {
    var href := HrefOf(el);
    Candidate(href, Absolutize(href, base, p), TextOf(el))
  }

  /** `$('a, [role="link"], button').toArray().map(...)`: one candidate per
      matched element, in document order, none dropped (an empty href or an
      unresolvable one is kept). */
  function Candidates(els: seq<Element>, base: Url, p: UrlParser): (r: seq<Candidate>)
    ensures |r| == |els|
    ensures forall i :: 0 <= i < |els| ==> r[i] == CandidateOf(els[i], base, p)
  {
    seq(|els|, i requires 0 <= i < |els| => CandidateOf(els[i], base, p))
  }

  /* ===== Classification ===== */

  datatype Phase = ByText | ByPath

  /** The test each phase applies to a candidate:
      `n.text.includes(k)` or `n.abs.toLowerCase().includes(p)`. */
  predicate Hits(n: Candidate, key: string, phase: Phase)
  {
    match phase
    case ByText => Includes(n.text, key)
    case ByPath => Includes(LowerCase(n.abs), key)
  }

  /** `nodes.find(...)` from index `i`: the first candidate that hits. */
  function FindFrom(nodes: seq<Candidate>, key: string, phase: Phase, i: nat): (r: Option<nat>)
    requires i <= |nodes|
    ensures r.Some? ==> i <= r.value < |nodes| && Hits(nodes[r.value], key, phase)
                        && forall j :: i <= j < r.value ==> !Hits(nodes[j], key, phase)
    ensures r.None? ==> forall j :: i <= j < |nodes| ==> !Hits(nodes[j], key, phase)
    decreases |nodes| - i
  {
    if i == |nodes| then None
    else if Hits(nodes[i], key, phase) then Some(i)
    else FindFrom(nodes, key, phase, i + 1)
  }

  /** `hit?.abs` for one key: the address of the first candidate that hits
      (possibly empty), or '' when none does. */
  function HitAbs(nodes: seq<Candidate>, key: string, phase: Phase): (r: string)
    ensures (forall i :: 0 <= i < |nodes| ==> !Hits(nodes[i], key, phase)) ==> r == ""
    ensures r != "" ==> exists i :: 0 <= i < |nodes| && Hits(nodes[i], key, phase) && nodes[i].abs == r
  {
    match FindFrom(nodes, key, phase, 0)
    case Some(i) => nodes[i].abs
    case None => ""
  }

  /** One phase of `findBy`: the keys in their declared order; the first key
      whose first hit has a non-empty address decides. */
  function Search(nodes: seq<Candidate>, keys: seq<string>, phase: Phase): (r: Option<string>)
    ensures r.Some? ==> r.value != "" && exists k :: 0 <= k < |keys| && r.value == HitAbs(nodes, keys[k], phase)
    decreases |keys|
  {
    if keys == [] then None
    else if HitAbs(nodes, keys[0], phase) != "" then Some(HitAbs(nodes, keys[0], phase))
    else Search(nodes, keys[1..], phase)
  }

  /** What `findBy(keys, paths)` returns: the text phase's answer, else the
      path phase's, else ''. */
  function Classify(nodes: seq<Candidate>, keys: seq<string>, paths: seq<string>): string
  {
    match Search(nodes, keys, ByText)
    case Some(a) => a
    case None =>
      match Search(nodes, paths, ByPath)
      case Some(a) => a
      case None => ""
  }

  /** A phase answers with the first hit of the first key, in declared order,
      whose first hit has an address; it answers nothing exactly when no key
      has such a hit. */
  lemma {:induction false} SearchSpec(nodes: seq<Candidate>, keys: seq<string>, phase: Phase)
    ensures Search(nodes, keys, phase).None? <==> forall k :: 0 <= k < |keys| ==> HitAbs(nodes, keys[k], phase) == ""
    ensures forall k :: 0 <= k < |keys| && HitAbs(nodes, keys[k], phase) != ""
                        && (forall j :: 0 <= j < k ==> HitAbs(nodes, keys[j], phase) == "")
                        ==> Search(nodes, keys, phase) == Some(HitAbs(nodes, keys[k], phase))
    decreases |keys|
  {
    if keys != [] {
      SearchSpec(nodes, keys[1..], phase);
      assert forall k :: 1 <= k < |keys| ==> keys[1..][k - 1] == keys[k];
      forall k | 0 <= k < |keys| && HitAbs(nodes, keys[k], phase) != ""
                 && (forall j :: 0 <= j < k ==> HitAbs(nodes, keys[j], phase) == "")
        ensures Search(nodes, keys, phase) == Some(HitAbs(nodes, keys[k], phase))
      {
        if k > 0 {
          assert HitAbs(nodes, keys[1..][k - 1], phase) != "";
          assert forall j :: 0 <= j < k - 1 ==> HitAbs(nodes, keys[1..][j], phase) == "" by {
            forall j | 0 <= j < k - 1 ensures HitAbs(nodes, keys[1..][j], phase) == "" {
              assert keys[1..][j] == keys[j + 1];
            }
          }
        }
      }
      if Search(nodes, keys, phase).None? {
        forall k | 0 <= k < |keys| ensures HitAbs(nodes, keys[k], phase) == "" {
          if k > 0 { assert keys[1..][k - 1] == keys[k]; }
        }
      }
    }
  }

  /** A phase only ever answers with the address of one of the candidates. */
  lemma {:induction false} SearchPicksCandidate(nodes: seq<Candidate>, keys: seq<string>, phase: Phase)
    ensures Search(nodes, keys, phase).Some? ==>
              Search(nodes, keys, phase).value != ""
              && exists i :: 0 <= i < |nodes| && nodes[i].abs == Search(nodes, keys, phase).value
    decreases |keys|
  {
    if keys != [] {
      if HitAbs(nodes, keys[0], phase) != "" {
        var i := FindFrom(nodes, keys[0], phase, 0).value;
        assert nodes[i].abs == Search(nodes, keys, phase).value;
      } else {
        SearchPicksCandidate(nodes, keys[1..], phase);
      }
    }
  }

  /** `findBy` never invents an address: it returns '' or the non-empty
      address of some candidate. */
  lemma ClassifyPicksCandidate(nodes: seq<Candidate>, keys: seq<string>, paths: seq<string>)
    ensures Classify(nodes, keys, paths) == ""
            || exists i :: 0 <= i < |nodes| && nodes[i].abs == Classify(nodes, keys, paths)
  {
    SearchPicksCandidate(nodes, keys, ByText);
    SearchPicksCandidate(nodes, paths, ByPath);
  }

  /** Keyword priority: any key of the text phase that yields an address
      beats every path hint, whatever the candidates' addresses contain. */
  lemma TextPhaseFirst(nodes: seq<Candidate>, keys: seq<string>, paths: seq<string>, k: nat)
    requires k < |keys| && HitAbs(nodes, keys[k], ByText) != ""
    ensures Search(nodes, keys, ByText).Some?
    ensures Classify(nodes, keys, paths) == Search(nodes, keys, ByText).value
  {
    SearchSpec(nodes, keys, ByText);
  }

  /** The path phase runs only when no key yields an address. */
  lemma PathPhaseOnlyAfterText(nodes: seq<Candidate>, keys: seq<string>, paths: seq<string>)
    requires forall k :: 0 <= k < |keys| ==> HitAbs(nodes, keys[k], ByText) == ""
    ensures Classify(nodes, keys, paths) == (if Search(nodes, paths, ByPath).Some? then Search(nodes, paths, ByPath).value else "")
  {
    SearchSpec(nodes, keys, ByText);
  }

  /** For one key only the first candidate in document order counts: when
      its address is empty the search moves on to the next key, even if a
      later candidate with the same key has an address. */
  lemma FirstHitShadowsLaterOnes(nodes: seq<Candidate>, key: string, rest: seq<string>, phase: Phase, i: nat)
    requires i < |nodes| && Hits(nodes[i], key, phase) && nodes[i].abs == ""
    requires forall j :: 0 <= j < i ==> !Hits(nodes[j], key, phase)
    ensures Search(nodes, [key] + rest, phase) == Search(nodes, rest, phase)
  {
    assert FindFrom(nodes, key, phase, 0) == Some(i);
    assert ([key] + rest)[1..] == rest;
  }

  /** Two candidates hit the same key in document order A then B: A's
      address is the answer. */
  lemma FirstInDocumentOrder(nodes: seq<Candidate>, key: string, a: nat, b: nat)
    requires a < b < |nodes| && Hits(nodes[a], key, ByText) && Hits(nodes[b], key, ByText)
    requires forall j :: 0 <= j < a ==> !Hits(nodes[j], key, ByText)
    requires nodes[a].abs != ""
    ensures Classify(nodes, [key], []) == nodes[a].abs
  {
    assert FindFrom(nodes, key, ByText, 0) == Some(a);
  }

  /** With no candidates, `findBy` finds nothing. */
  lemma NothingFoundOnEmptyPage(keys: seq<string>, paths: seq<string>)
    ensures Classify([], keys, paths) == ""
  {
    SearchSpec([], keys, ByText);
    SearchSpec([], paths, ByPath);
  }

  /** `nodes.find(...)`, as a loop. */
  method FirstHit(nodes: seq<Candidate>, key: string, phase: Phase) returns (hit: Option<nat>)
    ensures hit == FindFrom(nodes, key, phase, 0)
  {
    var i := 0;
    while i < |nodes|
      invariant 0 <= i <= |nodes|
      invariant FindFrom(nodes, key, phase, i) == FindFrom(nodes, key, phase, 0)
    {
      if Hits(nodes[i], key, phase) {
        return Some(i);
      }
      i := i + 1;
    }
    return None;
  }

  /** `findBy(keys, fallbackPaths)`: two loops with early returns. */
  method FindBy(nodes: seq<Candidate>, keys: seq<string>, paths: seq<string>) returns (r: string)
    ensures r == Classify(nodes, keys, paths)
  {
    for k := 0 to |keys|
      invariant Search(nodes, keys, ByText) == Search(nodes, keys[k..], ByText)
    {
      assert keys[k..][1..] == keys[k + 1..];
      var hit := FirstHit(nodes, keys[k], ByText);
      if hit.Some? && nodes[hit.value].abs != "" {
        return nodes[hit.value].abs;
      }
    }
    for k := 0 to |paths|
      invariant Search(nodes, keys, ByText).None?
      invariant Search(nodes, paths, ByPath) == Search(nodes, paths[k..], ByPath)
    {
      assert paths[k..][1..] == paths[k + 1..];
      var hit := FirstHit(nodes, paths[k], ByPath);
      if hit.Some? && nodes[hit.value].abs != "" {
        return nodes[hit.value].abs;
      }
    }
    return "";
  }

  /** The cart example: text "sepetim" pointing to /xyz123 wins over text
      "random" pointing to /cart, because keywords come before paths. */
  lemma KeywordBeatsPathExample()
    ensures var nodes := [Candidate("/xyz123", "https://s.example/xyz123", "sepetim"),
                          Candidate("/cart", "https://s.example/cart", "random")];
            Classify(nodes, CartKeywords, CartPaths) == "https://s.example/xyz123"
  {
    var nodes := [Candidate("/xyz123", "https://s.example/xyz123", "sepetim"),
                  Candidate("/cart", "https://s.example/cart", "random")];
    assert StartsWith("sepetim", "sepet");
    assert FindFrom(nodes, "sepet", ByText, 0) == Some(0);
  }

  /* ===== The GET handler ===== */

  datatype Response =
    | Links(home: string, cart: string, orders: string)
    | Failure(status: nat, error: string)

  /** The outcome of the checks made before any request is sent. */
  datatype Checked = Accepted(base: Url) | Rejected(response: Response)

  /** `url` missing or empty: 400 "Missing url"; not parseable: 400 "Bad url". */
  function Validate(url: Option<string>, p: UrlParser): (r: Checked)
    ensures r.Rejected? ==> r.response.Failure? && r.response.status == 400
    ensures (url.None? || url == Some("")) <==> r == Rejected(Failure(400, "Missing url"))
    ensures (url.Some? && url.value != "" && p.parse(url.value).Abrupt?) <==> r == Rejected(Failure(400, "Bad url"))
    ensures r.Accepted? ==> url.Some? && p.parse(url.value) == Normal(r.base)
  {
    if url.None? || url.value == "" then Rejected(Failure(400, "Missing url"))
    else match p.parse(url.value)
      case Abrupt(_) => Rejected(Failure(400, "Bad url"))
      case Normal(base) => Accepted(base)
  }

  /** The links the handler answers with, given what `findBy` found for each
      role: the home fallback is the origin followed by '/', the cart and
      orders fallbacks resolve '/cart' and '/account/orders' against the base.
      A fallback that does not resolve throws, and the route's catch turns
      that into 500 with the error's message. */
  function WithFallbacks(base: Url, home: string, cart: string, orders: string, p: UrlParser): (r: Response)
    ensures r.Failure? ==> r.status == 500
    ensures r.Failure? <==> (cart == "" && p.resolve("/cart", base).Abrupt?)
                            || (orders == "" && p.resolve("/account/orders", base).Abrupt?)
    ensures r.Failure? ==> r.error == (if cart == "" && p.resolve("/cart", base).Abrupt?
                                       then MessageOf(p.resolve("/cart", base).thrown, "fetch-failed")
                                       else MessageOf(p.resolve("/account/orders", base).thrown, "fetch-failed"))
    ensures r.Links? ==> r.home == (if home != "" then home else base.origin + "/")
    ensures r.Links? ==> r.cart == (if cart != "" then cart else p.resolve("/cart", base).value.href)
    ensures r.Links? ==> r.orders == (if orders != "" then orders else p.resolve("/account/orders", base).value.href)
  {
    var homeOut := if home != "" then home else base.origin + "/";
    var cartAt := p.resolve("/cart", base);
    var ordersAt := p.resolve("/account/orders", base);
    if cart == "" && cartAt.Abrupt? then Failure(500, MessageOf(cartAt.thrown, "fetch-failed"))
    else if orders == "" && ordersAt.Abrupt? then Failure(500, MessageOf(ordersAt.thrown, "fetch-failed"))
    else
      Links(homeOut, if cart != "" then cart else cartAt.value.href,
            if orders != "" then orders else ordersAt.value.href)
  }

  /** What the handler answers once the page has been fetched (or the fetch
      threw; 500 with the thrown error's message, 'fetch-failed' for a
      thrown non-Error). */
  function Respond(base: Url, page: Completion<seq<Element>>, p: UrlParser): (r: Response)
    ensures r.Failure? ==> r.status == 500
    ensures page.Abrupt? ==> r.Failure? && r.error == MessageOf(page.thrown, "fetch-failed")
  {
    match page
    case Abrupt(t) => Failure(500, MessageOf(t, "fetch-failed"))
    case Normal(els) =>
      var nodes := Candidates(els, base, p);
      WithFallbacks(base, Classify(nodes, HomeKeywords, HomePaths), Classify(nodes, CartKeywords, CartPaths),
                    Classify(nodes, OrderKeywords, OrderPaths), p)
  }

  /** `GET(req)` as a whole, the fetch being the function `fetch`. */
  function Handle(url: Option<string>, fetch: string -> Completion<seq<Element>>, p: UrlParser): (r: Response)
    ensures r.Failure? ==> r.status == 400 || r.status == 500
  {
    match Validate(url, p)
    case Rejected(response) => response
    case Accepted(base) => Respond(base, fetch(base.href), p)
  }

  /** `home || base.origin + '/'` and the two like it for the cart and the
      orders page, `new URL('/cart', base).toString()` and
      `new URL('/account/orders', base).toString()`. */
  method ApplyFallbacks(base: Url, foundHome: string, foundCart: string, foundOrders: string, p: UrlParser)
    returns (response: Response)
    ensures response == WithFallbacks(base, foundHome, foundCart, foundOrders, p)
  {
    var home, cart, orders := foundHome, foundCart, foundOrders;
    if home == "" {
      home := base.origin + "/";
    }
    if cart == "" {
      var resolved := p.resolve("/cart", base);
      if resolved.Abrupt? {
        return Failure(500, MessageOf(resolved.thrown, "fetch-failed"));
      }
      cart := resolved.value.href;
    }
    if orders == "" {
      var resolved := p.resolve("/account/orders", base);
      if resolved.Abrupt? {
        return Failure(500, MessageOf(resolved.thrown, "fetch-failed"));
      }
      orders := resolved.value.href;
    }
    response := Links(home, cart, orders);
  }

  /** The handler: checks, one fetch of the parsed address, candidates,
      three `findBy` calls and the fallbacks. `requested` lists the addresses
      fetched: none when the input is rejected, exactly one otherwise. */
  method Get(url: Option<string>, fetch: string -> Completion<seq<Element>>, p: UrlParser)
    returns (response: Response, requested: seq<string>)
    ensures response == Handle(url, fetch, p)
    ensures Validate(url, p).Rejected? ==> requested == []
    ensures Validate(url, p).Accepted? ==> requested == [Validate(url, p).base.href]
  {
    requested := [];
    if url.None? || url.value == "" {
      return Failure(400, "Missing url"), requested;
    }
    var parsed := p.parse(url.value);
    if parsed.Abrupt? {
      return Failure(400, "Bad url"), requested;
    }
    var base := parsed.value;
    requested := [base.href];
    var page := fetch(base.href);
    if page.Abrupt? {
      return Failure(500, MessageOf(page.thrown, "fetch-failed")), requested;
    }
    var nodes := Candidates(page.value, base, p);
    var home := FindBy(nodes, HomeKeywords, HomePaths);
    var cart := FindBy(nodes, CartKeywords, CartPaths);
    var orders := FindBy(nodes, OrderKeywords, OrderPaths);
    response := ApplyFallbacks(base, home, cart, orders, p);
  }

  /** A 400 answer comes from the input checks and from nowhere else, and it
      does not depend on what a fetch would have returned. */
  lemma RejectedBeforeFetch(url: Option<string>, f: string -> Completion<seq<Element>>,
                            g: string -> Completion<seq<Element>>, p: UrlParser)
    ensures (Handle(url, f, p).Failure? && Handle(url, f, p).status == 400) <==> Validate(url, p).Rejected?
    ensures Validate(url, p).Rejected? ==> Handle(url, f, p) == Handle(url, g, p)
  {
  }

  /** A fetch that throws becomes 500 with the error's message. */
  lemma FetchFailureIs500(url: Option<string>, fetch: string -> Completion<seq<Element>>, p: UrlParser)
    requires Validate(url, p).Accepted?
    requires fetch(Validate(url, p).base.href).Abrupt?
    ensures Handle(url, fetch, p) == Failure(500, MessageOf(fetch(Validate(url, p).base.href).thrown, "fetch-failed"))
  {
  }

  /** A link that was found is kept; one that was not becomes its fallback. */
  lemma FoundOrFallback(nodes: seq<Candidate>, base: Url, home: string, cart: string, orders: string, p: UrlParser)
    requires home == "" || exists i :: 0 <= i < |nodes| && nodes[i].abs == home
    requires cart == "" || exists i :: 0 <= i < |nodes| && nodes[i].abs == cart
    requires orders == "" || exists i :: 0 <= i < |nodes| && nodes[i].abs == orders
    requires WithFallbacks(base, home, cart, orders, p).Links?
    ensures var r := WithFallbacks(base, home, cart, orders, p);
            (r.home == base.origin + "/" || exists i :: 0 <= i < |nodes| && nodes[i].abs == r.home)
            && ((p.resolve("/cart", base).Normal? && r.cart == p.resolve("/cart", base).value.href)
                || exists i :: 0 <= i < |nodes| && nodes[i].abs == r.cart)
            && ((p.resolve("/account/orders", base).Normal? && r.orders == p.resolve("/account/orders", base).value.href)
                || exists i :: 0 <= i < |nodes| && nodes[i].abs == r.orders)
  {
  }

  /** Every link of a successful answer is either the address of one of the
      page's candidates or the fallback for its role. */
  lemma LinksComeFromCandidatesOrFallbacks(nodes: seq<Candidate>, base: Url, p: UrlParser)
    requires WithFallbacks(base, Classify(nodes, HomeKeywords, HomePaths), Classify(nodes, CartKeywords, CartPaths),
                           Classify(nodes, OrderKeywords, OrderPaths), p).Links?
    ensures var r := WithFallbacks(base, Classify(nodes, HomeKeywords, HomePaths),
                                   Classify(nodes, CartKeywords, CartPaths),
                                   Classify(nodes, OrderKeywords, OrderPaths), p);
            (r.home == base.origin + "/" || exists i :: 0 <= i < |nodes| && nodes[i].abs == r.home)
            && ((p.resolve("/cart", base).Normal? && r.cart == p.resolve("/cart", base).value.href)
                || exists i :: 0 <= i < |nodes| && nodes[i].abs == r.cart)
            && ((p.resolve("/account/orders", base).Normal? && r.orders == p.resolve("/account/orders", base).value.href)
                || exists i :: 0 <= i < |nodes| && nodes[i].abs == r.orders)
  {
    ClassifyPicksCandidate(nodes, HomeKeywords, HomePaths);
    ClassifyPicksCandidate(nodes, CartKeywords, CartPaths);
    ClassifyPicksCandidate(nodes, OrderKeywords, OrderPaths);
    FoundOrFallback(nodes, base, Classify(nodes, HomeKeywords, HomePaths), Classify(nodes, CartKeywords, CartPaths),
                    Classify(nodes, OrderKeywords, OrderPaths), p);
  }

  /** The links `findBy` can return are either empty or a candidate's address,
      and with a parser that serialises every URL it accepts the fallbacks
      are never empty: so neither is any link of a successful answer. */
  lemma FallbacksNonEmpty(base: Url, home: string, cart: string, orders: string, p: UrlParser)
    requires Serialises(p)
    requires WithFallbacks(base, home, cart, orders, p).Links?
    ensures WithFallbacks(base, home, cart, orders, p).home != ""
    ensures WithFallbacks(base, home, cart, orders, p).cart != ""
    ensures WithFallbacks(base, home, cart, orders, p).orders != ""
  {
  }

  /** With a parser that serialises every URL it accepts, a successful
      answer never has an empty link. */
  lemma LinksNonEmpty(url: Option<string>, fetch: string -> Completion<seq<Element>>, p: UrlParser)
    requires Serialises(p)
    requires Handle(url, fetch, p).Links?
    ensures Handle(url, fetch, p).home != ""
    ensures Handle(url, fetch, p).cart != ""
    ensures Handle(url, fetch, p).orders != ""
  {
    var base := Validate(url, p).base;
    var nodes := Candidates(fetch(base.href).value, base, p);
    var home, cart, orders := Classify(nodes, HomeKeywords, HomePaths), Classify(nodes, CartKeywords, CartPaths),
                              Classify(nodes, OrderKeywords, OrderPaths);
    assert Handle(url, fetch, p) == WithFallbacks(base, home, cart, orders, p);
    FallbacksNonEmpty(base, home, cart, orders, p);
  }

  /** A page without any link-like element gets all three fallbacks. */
  lemma EmptyPageFallbacks(url: Option<string>, fetch: string -> Completion<seq<Element>>, p: UrlParser)
    requires Validate(url, p).Accepted?
    requires fetch(Validate(url, p).base.href) == Normal([])
    requires p.resolve("/cart", Validate(url, p).base).Normal?
    requires p.resolve("/account/orders", Validate(url, p).base).Normal?
    ensures var base := Validate(url, p).base;
            Handle(url, fetch, p) == Links(base.origin + "/", p.resolve("/cart", base).value.href,
                                           p.resolve("/account/orders", base).value.href)
  {
    var base := Validate(url, p).base;
    assert Candidates([], base, p) == [];
    NothingFoundOnEmptyPage(HomeKeywords, HomePaths);
    NothingFoundOnEmptyPage(CartKeywords, CartPaths);
    NothingFoundOnEmptyPage(OrderKeywords, OrderPaths);
    assert Handle(url, fetch, p) == WithFallbacks(base, "", "", "", p);
  }
}
