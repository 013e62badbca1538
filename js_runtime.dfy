/** The slice of JavaScript runtime behaviour the editor and the link
    discovery route rely on: parsed JSON values, property access on them,
    `String.prototype.trim`, `toLowerCase` and the case folding of a
    case-insensitive regular expression, `String.prototype.includes`,
    the `String(x)` coercion, and completions that may throw. */
module JsRuntime {

  datatype Option<+T> = None | Some(value: T)

  /** A value as `JSON.parse` produces it. Numbers are kept as integers:
      nothing in the model reads a number except through `String(x)`. */
  datatype Json =
    | JNull
    | JBool(b: bool)
    | JNumber(n: int)
    | JString(s: string)
    | JArray(items: seq<Json>)
    | JObject(fields: map<string, Json>)

  /** What a `throw` carries: an `Error` object with its message, or any other value. */
  datatype Thrown = Error(message: string) | NonError

  /** The completion of an expression that may throw. */
  datatype Completion<+T> = Normal(value: T) | Abrupt(thrown: Thrown)

  /** `(v ?? {}).key` on a possibly undefined (None) JSON value: only an
      object with `key` as an own property yields something; null, undefined,
      strings, numbers, booleans and arrays have none of the keys used here. */
  function Prop(v: Option<Json>, key: string): Option<Json>
  {
    if v.Some? && v.value.JObject? && key in v.value.fields then Some(v.value.fields[key]) else None
  }

  /** `typeof v === 'string'`, with the string. */
  function AsString(v: Option<Json>): (r: Option<string>)
    ensures r.Some? <==> v.Some? && v.value.JString?
    ensures r.Some? ==> v == Some(JString(r.value))
  {
    if v.Some? && v.value.JString? then Some(v.value.s) else None
  }

  /** The code points ECMAScript counts as WhiteSpace or LineTerminator:
      what `trim` removes and what `\s` matches in a regular expression. */
  predicate IsSpace(c: char)
  {
    c == '\t' || c == '\n' || c == '\U{000B}' || c == '\U{000C}' || c == '\r' || c == ' '
    || c == '\U{00A0}' || c == '\U{1680}' || ('\U{2000}' <= c <= '\U{200A}')
    || c == '\U{2028}' || c == '\U{2029}' || c == '\U{202F}' || c == '\U{205F}'
    || c == '\U{3000}' || c == '\U{FEFF}'
  }

  /** The first index at or after `i` that does not hold white space. */
  function SkipSpaces(s: string, i: nat): (r: nat)
    requires i <= |s|
    ensures i <= r <= |s|
    ensures forall j :: i <= j < r ==> IsSpace(s[j])
    ensures r < |s| ==> !IsSpace(s[r])
    decreases |s| - i
  {
    if i < |s| && IsSpace(s[i]) then SkipSpaces(s, i + 1) else i
  }

  /** Walking back from `j` towards `lo`: the end of `s[lo..j]` once the
      white space at its end is cut off. */
  function BackOverSpaces(s: string, lo: nat, j: nat): (r: nat)
    requires lo <= j <= |s|
    ensures lo <= r <= j
    ensures forall k :: r <= k < j ==> IsSpace(s[k])
    ensures r > lo ==> !IsSpace(s[r - 1])
    decreases j
  {
    if j > lo && IsSpace(s[j - 1]) then BackOverSpaces(s, lo, j - 1) else j
  }

  function TrimLo(s: string): nat
    ensures TrimLo(s) <= |s|
  {
    SkipSpaces(s, 0)
  }

  function TrimHi(s: string): nat
    ensures TrimLo(s) <= TrimHi(s) <= |s|
  {
    BackOverSpaces(s, TrimLo(s), |s|)
  }

  /** `s.trim()` */
  function Trim(s: string): string
  {
    s[TrimLo(s)..TrimHi(s)]
  }

  /** `trim` removes exactly a run of white space at each end: the result is
      a contiguous slice of the input, everything cut off is white space, and
      the result neither starts nor ends with white space. */
  lemma TrimSpec(s: string)
    ensures Trim(s) == s[TrimLo(s)..TrimHi(s)]
    ensures forall j :: 0 <= j < TrimLo(s) ==> IsSpace(s[j])
    ensures forall j :: TrimHi(s) <= j < |s| ==> IsSpace(s[j])
    ensures Trim(s) == [] || (!IsSpace(Trim(s)[0]) && !IsSpace(Trim(s)[|Trim(s)| - 1]))
  {
    var a, b := TrimLo(s), TrimHi(s);
    if a < b {
      assert Trim(s)[0] == s[a];
      assert Trim(s)[|Trim(s)| - 1] == s[b - 1];
    }
  }

  /** A string that neither starts nor ends with white space is its own trim. */
  lemma TrimOfUnpadded(t: string)
    requires t == [] || (!IsSpace(t[0]) && !IsSpace(t[|t| - 1]))
    ensures Trim(t) == t
  {
    assert TrimLo(t) == 0;
    if t != [] {
      assert TrimHi(t) == |t|;
    }
  }

  /** Trimming twice is trimming once. */
  lemma TrimIdempotent(s: string)
    ensures Trim(Trim(s)) == Trim(s)
  {
    TrimSpec(s);
    TrimOfUnpadded(Trim(s));
  }

  function LowerChar(c: char): char
  {
    if 'A' <= c <= 'Z' then (c as int + 32) as char else c
  }

  /** ASCII case folding, as a regular expression with the `i` flag and
      without `u` compares an ASCII pattern: every other character is kept. */
  function ToLowerAscii(s: string): (r: string)
    ensures |r| == |s|
    ensures forall i :: 0 <= i < |s| ==> r[i] == LowerChar(s[i])
  {
    seq(|s|, i requires 0 <= i < |s| => LowerChar(s[i]))
  }

  /** The Unicode lower case of one character, for the blocks the model
      covers: ASCII, Latin-1 Supplement, Latin Extended-A and the Kelvin
      sign. 'İ' (U+0130) becomes two characters, 'i' and a combining dot
      above; every other character is kept. */
  function LowerOf(c: char): (r: string)
    ensures |r| == 1 || c == '\U{0130}'
  {
    var n := c as int;
    if 'A' <= c <= 'Z' || (0xC0 <= n <= 0xDE && n != 0xD7) then [(n + 32) as char]
    else if n == 0x130 then "i\U{0307}"
    else if (0x100 <= n <= 0x12F || 0x132 <= n <= 0x137 || 0x14A <= n <= 0x177) && n % 2 == 0
      then [(n + 1) as char]
    else if (0x139 <= n <= 0x148 || 0x179 <= n <= 0x17E) && n % 2 == 1 then [(n + 1) as char]
    else if n == 0x178 then "\U{00FF}"
    else if n == 0x212A then "k"
    else [c]
  }

  /** `s.toLowerCase()`: each character replaced by its lower case. Only
      'İ' changes the length. */
  function LowerCase(s: string): (r: string)
    ensures |r| >= |s|
    ensures (forall i :: 0 <= i < |s| ==> s[i] != '\U{0130}') ==> |r| == |s|
  {
    if s == [] then [] else LowerOf(s[0]) + LowerCase(s[1..])
  }

  /** Lower-casing works character by character, so it distributes over
      concatenation. */
  lemma {:induction false} LowerCaseConcat(a: string, b: string)
    ensures LowerCase(a + b) == LowerCase(a) + LowerCase(b)
  {
    if a == [] {
      assert a + b == b;
    } else {
      assert (a + b)[0] == a[0];
      assert (a + b)[1..] == a[1..] + b;
      LowerCaseConcat(a[1..], b);
      assert LowerCase(a + b) == LowerOf(a[0]) + LowerCase(a[1..] + b);
    }
  }

  /** Every character `LowerOf` produces is already lower case. */
  lemma LowerOfFixed(c: char)
    ensures LowerCase(LowerOf(c)) == LowerOf(c)
  {
    var r := LowerOf(c);
    if |r| == 1 {
      assert LowerCase(r) == LowerOf(r[0]) + LowerCase([]);
    } else {
      assert r == "i\U{0307}";
      assert LowerCase(r) == LowerOf('i') + LowerCase(r[1..]);
      assert LowerCase(r[1..]) == LowerOf('\U{0307}') + LowerCase([]);
    }
  }

  /** Lower-casing twice equals lower-casing once. */
  lemma {:induction false} LowerCaseIdempotent(s: string)
    ensures LowerCase(LowerCase(s)) == LowerCase(s)
  {
    if s != [] {
      LowerCaseConcat(LowerOf(s[0]), LowerCase(s[1..]));
      LowerOfFixed(s[0]);
      LowerCaseIdempotent(s[1..]);
    }
  }

  predicate StartsWith(s: string, prefix: string)
  {
    |prefix| <= |s| && s[..|prefix|] == prefix
  }

  /** `s.includes(sub)` */
  predicate Includes(s: string, sub: string)
    decreases |s|
  {
    StartsWith(s, sub) || (|s| > 0 && Includes(s[1..], sub))
  }

  predicate OccursAt(s: string, sub: string, i: int)
  {
    0 <= i <= |s| - |sub| && s[i..i + |sub|] == sub
  }

  /** `includes` holds exactly when the substring occurs at some index. */
  lemma {:induction false} IncludesSpec(s: string, sub: string)
    ensures Includes(s, sub) <==> exists i :: OccursAt(s, sub, i)
    decreases |s|
  {
    if StartsWith(s, sub) {
      assert OccursAt(s, sub, 0);
    } else if |s| > 0 {
      IncludesSpec(s[1..], sub);
      if Includes(s[1..], sub) {
        var i :| OccursAt(s[1..], sub, i);
        assert s[1..][i..i + |sub|] == s[i + 1..i + 1 + |sub|];
        assert OccursAt(s, sub, i + 1);
      }
      if exists i :: OccursAt(s, sub, i) {
        var i :| OccursAt(s, sub, i);
        assert i != 0;
        assert s[1..][i - 1..i - 1 + |sub|] == s[i..i + |sub|];
        assert OccursAt(s[1..], sub, i - 1);
      }
    }
  }

  /** An occurrence of a word that neither starts nor ends with white space
      lies inside the part of the string `trim` keeps. */
  lemma OccurrenceInsideTrim(s: string, word: string, i: int)
    requires |word| > 0 && !IsSpace(word[0]) && !IsSpace(word[|word| - 1])
    requires OccursAt(s, word, i)
    ensures TrimLo(s) <= i && i + |word| <= TrimHi(s)
  {
    TrimSpec(s);
    var w := s[i..i + |word|];
    assert w[0] == s[i] && w[|word| - 1] == s[i + |word| - 1];
  }

  /** An occurrence inside a slice is an occurrence in the slice, shifted. */
  lemma OccursInSlice(s: string, word: string, i: int, lo: int, hi: int)
    requires 0 <= lo <= i && i + |word| <= hi <= |s|
    requires OccursAt(s, word, i)
    ensures OccursAt(s[lo..hi], word, i - lo)
  {
    var t := s[lo..hi];
    forall k | 0 <= k < |word|
      ensures t[i - lo..i - lo + |word|][k] == word[k]
    {
      assert word[k] == s[i..i + |word|][k] == s[i + k];
    }
  }

  /** Trimming never hides an occurrence of a word that neither starts nor
      ends with white space: such a word found in a string is found in its trim. */
  lemma TrimKeepsWord(s: string, word: string)
    requires |word| > 0 && !IsSpace(word[0]) && !IsSpace(word[|word| - 1])
    requires Includes(s, word)
    ensures Includes(Trim(s), word)
  {
    IncludesSpec(s, word);
    var i :| OccursAt(s, word, i);
    OccurrenceInsideTrim(s, word, i);
    OccursInSlice(s, word, i, TrimLo(s), TrimHi(s));
    IncludesSpec(Trim(s), word);
  }

  predicate IsDigit(c: char)
  {
    '0' <= c <= '9'
  }

  /** The number a run of decimal digits denotes, most significant first. */
  function DigitsValue(ds: string): nat
    requires forall i :: 0 <= i < |ds| ==> IsDigit(ds[i])
  {
    if ds == [] then 0
    else
      assert IsDigit(ds[|ds| - 1]);
      10 * DigitsValue(ds[..|ds| - 1]) + (ds[|ds| - 1] as int - '0' as int)
  }

  /** Decimal digits of a non-negative integer, as `String(n)` writes them
      below 10^21; the digits denote `n`. */
  function NatToString(n: nat): (r: string)
    ensures |r| > 0
    ensures forall i :: 0 <= i < |r| ==> IsDigit(r[i])
    ensures DigitsValue(r) == n
    decreases n
  {
    var d := ['0' + (n % 10) as char];
    if n < 10 then d
    else
      var r := NatToString(n / 10) + d;
      assert r[..|r| - 1] == NatToString(n / 10);
      r
  }

  function IntToString(n: int): string
  {
    if n < 0 then "-" + NatToString(-n) else NatToString(n)
  }

  /** The TypeError's message when an object cannot be made a primitive. */
  const NoPrimitive := "Cannot convert object to primitive value"

  /** Whether `String(v)` throws: v is an object with an own `toString` key,
      or an array with such an element at any depth of arrays. */
  predicate ThrowsOnString(v: Json)
    decreases v
  {
    match v
    case JObject(fields) => "toString" in fields
    case JArray(items) => exists i :: 0 <= i < |items| && ThrowsOnString(items[i])
    case _ => false
  }

  /** `String(v)` for a parsed JSON value. An array joins its elements with
      commas, writing null as the empty string; a plain object becomes
      "[object Object]", but an object that has an own `toString` key (which
      JSON can only make a non-callable value) makes the conversion throw a
      TypeError. */
  function ToJsString(v: Json): (r: Completion<string>)
    ensures v.JString? ==> r == Normal(v.s)
    ensures v.JObject? && "toString" !in v.fields ==> r == Normal("[object Object]")
    ensures r.Abrupt? <==> ThrowsOnString(v)
    ensures r.Abrupt? ==> r.thrown == Error(NoPrimitive)
    decreases v, 1
  {
    match v
    case JNull => Normal("null")
    case JBool(b) => Normal(if b then "true" else "false")
    case JNumber(n) => Normal(IntToString(n))
    case JString(s) => Normal(s)
    case JArray(items) => JoinItems(items)
    case JObject(fields) =>
      if "toString" in fields then Abrupt(Error(NoPrimitive))
      else Normal("[object Object]")
  }

  /** `items.join(',')`, where null elements contribute the empty string. */
  function JoinItems(items: seq<Json>): (r: Completion<string>)
    ensures r.Abrupt? <==> exists i :: 0 <= i < |items| && ThrowsOnString(items[i])
    ensures r.Abrupt? ==> r.thrown == Error(NoPrimitive)
    decreases items, 0
  {
    if items == [] then Normal("")
    else
      var head := if items[0].JNull? then Normal("") else ToJsString(items[0]);
      if |items| == 1 then head
      else match head
        case Abrupt(t) => Abrupt(t)
        case Normal(h) =>
          match JoinItems(items[1..])
          case Abrupt(t) => Abrupt(t)
          case Normal(rest) => Normal(h + "," + rest)
  }

  /** The message a `catch` turns a thrown value into:
      `err instanceof Error ? err.message : fallback`. */
  function MessageOf(t: Thrown, fallback: string): string
  {
    match t
    case Error(m) => m
    case NonError => fallback
  }
}
