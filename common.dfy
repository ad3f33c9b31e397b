/**
 * Values and string operations of the JavaScript runtime that the
 * application relies on: optional values, success/failure of a request,
 * `toLowerCase`, `trim`, `split`/`join`, the `^[0-9]*$` test and the
 * rendering of numbers inside template strings.
 */
module Common {

  datatype Option<T> = None | Some(value: T) {
    /** `a ?? b` for a value that may be null or undefined. */
    function GetOr(default: T): T {
      match this
      case Some(v) => v
      case None => default
    }
  }

  /** The outcome of an HTTP request: the response body or an error. */
  datatype Outcome<T> = Ok(body: T) | Failed

  /** Truthiness of a string that may be null or undefined. */
  predicate Truthy(s: Option<string>) {
    s.Some? && s.value != ""
  }

  /** `a || b` on strings that may be null: the first truthy one, else `b`. */
  function OrElse(a: Option<string>, b: Option<string>): (r: Option<string>)
    ensures Truthy(a) ==> r == a
    ensures !Truthy(a) ==> r == b
  {
    if Truthy(a) then a else b
  }

  /** The text a template literal shows for a string that may be undefined. */
  function Shown(s: Option<string>): string {
    s.GetOr("undefined")
  }

  // ---------------------------------------------------------------- case

  /** String.prototype.toLowerCase on ASCII and Latin-1 letters. */
  function LowerChar(c: char): char {
    if 'A' <= c <= 'Z' then (c as int + 32) as char
    else if '\U{00C0}' <= c <= '\U{00DE}' && c != '\U{00D7}' then (c as int + 32) as char
    else c
  }

  function Lower(s: string): (r: string)
    ensures |r| == |s|
    ensures forall i :: 0 <= i < |s| ==> r[i] == LowerChar(s[i])
  {
    if s == [] then [] else [LowerChar(s[0])] + Lower(s[1..])
  }

  lemma LowerCharIdempotent(c: char)
    ensures LowerChar(LowerChar(c)) == LowerChar(c)
  {
  }

  /** Lower-casing twice is lower-casing once. */
  lemma LowerIdempotent(s: string)
    ensures Lower(Lower(s)) == Lower(s)
  {
    forall i | 0 <= i < |s| ensures Lower(Lower(s))[i] == Lower(s)[i] {
      LowerCharIdempotent(s[i]);
    }
  }

  // ---------------------------------------------------------------- trim

  /** The white space and line terminators that String.prototype.trim removes. */
  predicate IsSpace(c: char) {
    c == ' ' || ('\U{0009}' <= c <= '\U{000D}') || c == '\U{00A0}' || c == '\U{FEFF}'
    || c == '\U{1680}' || ('\U{2000}' <= c <= '\U{200A}') || c == '\U{2028}' || c == '\U{2029}'
    || c == '\U{202F}' || c == '\U{205F}' || c == '\U{3000}'
  }

  function TrimStart(s: string): (r: string)
    ensures |r| <= |s| && r == s[|s| - |r|..]
    ensures r == [] || !IsSpace(r[0])
    ensures forall i :: 0 <= i < |s| - |r| ==> IsSpace(s[i])
  {
    if s != [] && IsSpace(s[0]) then TrimStart(s[1..]) else s
  }

  function TrimEnd(s: string): (r: string)
    ensures |r| <= |s| && r == s[..|r|]
    ensures r == [] || !IsSpace(r[|r| - 1])
    ensures forall i :: |r| <= i < |s| ==> IsSpace(s[i])
  {
    if s != [] && IsSpace(s[|s| - 1]) then TrimEnd(s[..|s| - 1]) else s
  }

  /** String.prototype.trim. */
  function Trim(s: string): (r: string)
    ensures r == [] || (!IsSpace(r[0]) && !IsSpace(r[|r| - 1]))
    ensures var k := |s| - |TrimStart(s)|;
      k + |r| <= |s| && r == s[k..k + |r|]
      && (forall i :: 0 <= i < k ==> IsSpace(s[i]))
      && (forall i :: k + |r| <= i < |s| ==> IsSpace(s[i]))
  {
    TrimEnd(TrimStart(s))
  }

  // ---------------------------------------------------------- split / join

  /** String.prototype.split with a one-character separator. */
  function Split(s: string, sep: char): (parts: seq<string>)
    ensures |parts| >= 1
  {
    if s == [] then [""]
    else
      var rest := Split(s[1..], sep);
      if s[0] == sep then [""] + rest
      else [[s[0]] + rest[0]] + rest[1..]
  }

  /** Array.prototype.join on strings. */
  function Join(parts: seq<string>, glue: string): (r: string)
    ensures parts != [] ==> |parts[0]| <= |r| && r[..|parts[0]|] == parts[0]
  {
    if parts == [] then ""
    else if |parts| == 1 then parts[0]
    else parts[0] + glue + Join(parts[1..], glue)
  }

  /** Every occurrence of `c` replaced by `d`. */
  function Replace(s: string, c: char, d: char): (r: string)
    ensures |r| == |s|
    ensures forall i :: 0 <= i < |s| ==> r[i] == (if s[i] == c then d else s[i])
  {
    if s == [] then [] else [if s[0] == c then d else s[0]] + Replace(s[1..], c, d)
  }

  /** Joining after extending the first part by `x` is `x` before the join. */
  lemma {:induction false} JoinExtendFirst(x: string, parts: seq<string>, glue: string)
    requires parts != []
    ensures Join([x + parts[0]] + parts[1..], glue) == x + Join(parts, glue)
  {
    var q := [x + parts[0]] + parts[1..];
    if |parts| > 1 {
      assert q[1..] == parts[1..];
      assert Join(q, glue) == (x + parts[0]) + glue + Join(parts[1..], glue);
    }
  }

  /** `s.split(c).join(d)` replaces each `c` by `d`. */
  lemma {:induction false} JoinSplit(s: string, c: char, d: char)
    ensures Join(Split(s, c), [d]) == Replace(s, c, d)
  {
    if s != [] {
      JoinSplit(s[1..], c, d);
      var rest := Split(s[1..], c);
      assert Replace(s, c, d) == [if s[0] == c then d else s[0]] + Replace(s[1..], c, d);
      if s[0] != c {
        JoinExtendFirst([s[0]], rest, [d]);
      } else {
        assert ([""] + rest)[1..] == rest;
      }
    }
  }

  /** Replacing `c` by `d` and then `d` by `c` restores a string without `d`. */
  lemma ReplaceBack(s: string, c: char, d: char)
    requires forall i :: 0 <= i < |s| ==> s[i] != d
    ensures Replace(Replace(s, c, d), d, c) == s
  {
  }

  // ------------------------------------------------------------- numbers

  predicate IsDigit(c: char) {
    '0' <= c <= '9'
  }

  /** The regular expression `^[0-9]*$` (the empty string included). */
  predicate AllDigits(s: string) {
    forall i :: 0 <= i < |s| ==> IsDigit(s[i])
  }

  function DigitsValue(s: string): (n: nat)
    requires AllDigits(s)
  {
    if s == [] then 0 else DigitsValue(s[..|s| - 1]) * 10 + (s[|s| - 1] as int - '0' as int)
  }

  /** The decimal text of a natural number, as a template literal shows it. */
  function NatToString(n: nat): (s: string)
    ensures s != [] && AllDigits(s)
    decreases n
  {
    if n < 10 then [('0' as int + n) as char]
    else NatToString(n / 10) + [('0' as int + n % 10) as char]
  }

  function IntToString(n: int): (s: string)
    ensures s != []
  {
    if n < 0 then "-" + NatToString(-n) else NatToString(n)
  }

  /** Reading back the decimal text of a number gives the number. */
  lemma {:induction false} NatToStringValue(n: nat)
    ensures DigitsValue(NatToString(n)) == n
    decreases n
  {
    if n >= 10 {
      NatToStringValue(n / 10);
      var s := NatToString(n / 10) + [('0' as int + n % 10) as char];
      assert s[..|s| - 1] == NatToString(n / 10);
    }
  }

  /** A rendering starts with `-` exactly for a negative number. */
  lemma IntToStringSign(n: int)
    ensures IntToString(n)[0] == '-' <==> n < 0
  {
    if n >= 0 {
      assert IsDigit(NatToString(n)[0]);
    }
  }

  /** Different numbers render differently. */
  lemma IntToStringInjective(a: int, b: int)
    requires IntToString(a) == IntToString(b)
    ensures a == b
  {
    IntToStringSign(a);
    IntToStringSign(b);
    if a < 0 {
      var s := IntToString(a);
      assert s[1..] == NatToString(-a) && s[1..] == NatToString(-b);
      NatToStringValue(-a);
      NatToStringValue(-b);
    } else {
      NatToStringValue(a);
      NatToStringValue(b);
    }
  }

  /** No `/` occurs in the string. */
  predicate NoSlash(s: string) {
    forall i :: 0 <= i < |s| ==> s[i] != '/'
  }

  lemma IntToStringNoSlash(n: int)
    ensures NoSlash(IntToString(n))
  {
    if n < 0 {
      var d := NatToString(-n);
      assert forall i :: 1 <= i < |IntToString(n)| ==> IntToString(n)[i] == d[i - 1];
    }
  }

  /** Equal strings with a common head have equal tails. */
  lemma DropPrefix(a: string, x: string, y: string)
    requires a + x == a + y
    ensures x == y
  {
    assert x == (a + x)[|a|..] && y == (a + y)[|a|..];
  }

  /** A `/`-free head cannot be longer than one that stops at a `/`. */
  lemma SlashBound(s: string, t: string, s2: string, t2: string)
    requires NoSlash(s2) && t != [] && t[0] == '/' && s + t == s2 + t2
    ensures |s2| <= |s|
  {
    if |s| < |s2| {
      CharAtJoin(s, t, s2, t2);
    }
  }

  /** Where the shorter head ends, the longer one holds the first character of the other's rest. */
  lemma CharAtJoin(s: string, t: string, s2: string, t2: string)
    requires t != [] && s + t == s2 + t2 && |s| < |s2|
    ensures s2[|s|] == t[0]
  {
    assert (s + t)[|s|] == t[0];
  }

  /** A URL piece without `/` followed by a `/`-led rest splits in only one way. */
  lemma SplitAtSlash(s: string, t: string, s2: string, t2: string)
    requires NoSlash(s) && NoSlash(s2) && t != [] && t2 != [] && t[0] == '/' && t2[0] == '/'
    requires s + t == s2 + t2
    ensures s == s2 && t == t2
  {
    SlashBound(s, t, s2, t2);
    SlashBound(s2, t2, s, t);
    var u := s + t;
    assert s == u[..|s|] && s2 == (s2 + t2)[..|s2|];
    assert t == u[|s|..] && t2 == (s2 + t2)[|s2|..];
  }

  // ------------------------------------------------------ string ordering

  /** The `<` relation JavaScript uses on strings (code-unit lexicographic). */
  predicate StrLess(a: string, b: string) {
    if a == [] then b != []
    else if b == [] then false
    else if a[0] != b[0] then a[0] < b[0]
    else StrLess(a[1..], b[1..])
  }

  lemma {:induction false} StrLessIrreflexive(a: string)
    ensures !StrLess(a, a)
  {
    if a != [] { StrLessIrreflexive(a[1..]); }
  }

  lemma {:induction false} StrLessTotal(a: string, b: string)
    ensures a == b || StrLess(a, b) || StrLess(b, a)
  {
    if a != [] && b != [] && a[0] == b[0] {
      StrLessTotal(a[1..], b[1..]);
      if a[1..] == b[1..] {
        assert a == [a[0]] + a[1..] && b == [b[0]] + b[1..];
      }
    }
  }

  lemma {:induction false} StrLessTransitive(a: string, b: string, c: string)
    requires StrLess(a, b) && StrLess(b, c)
    ensures StrLess(a, c)
  {
    if a != [] && b != [] && c != [] && a[0] == b[0] && b[0] == c[0] {
      StrLessTransitive(a[1..], b[1..], c[1..]);
    }
  }

  lemma {:induction false} StrLessAsymmetric(a: string, b: string)
    requires StrLess(a, b)
    ensures !StrLess(b, a)
  {
    if a != [] && b != [] && a[0] == b[0] {
      StrLessAsymmetric(a[1..], b[1..]);
    }
  }

  /** `a` and `b` agree before position `k`, where `a` has the smaller character. */
  predicate LessAt(a: string, b: string, k: nat) {
    k < |a| && k < |b| && a[..k] == b[..k] && a[k] < b[k]
  }

  /** The textbook reading of lexicographic order: a proper prefix, or a smaller character at the first difference. */
  ghost predicate FirstDifferenceLess(a: string, b: string) {
    (|a| < |b| && a == b[..|a|]) || exists k: nat :: LessAt(a, b, k)
  }

  /** A difference found after the first position leaves the first characters equal. */
  lemma LessAtHead(a: string, b: string, k: nat)
    requires LessAt(a, b, k)
    ensures k == 0 || a[0] == b[0]
  {
    if k > 0 {
      assert a[0] == a[..k][0] && b[0] == b[..k][0];
    }
  }

  /** Dropping an equal first character keeps the textbook order. */
  lemma FirstDifferenceShift(a: string, b: string)
    requires a != [] && b != [] && a[0] == b[0]
    ensures FirstDifferenceLess(a, b) <==> FirstDifferenceLess(a[1..], b[1..])
  {
    var a', b' := a[1..], b[1..];
    if |a| < |b| && a == b[..|a|] {
      assert a' == b'[..|a'|];
    }
    if |a'| < |b'| && a' == b'[..|a'|] {
      assert b[..|a|] == [b[0]] + b'[..|a'|];
      assert a == [a[0]] + a';
    }
    if exists k: nat :: LessAt(a, b, k) {
      var k: nat :| LessAt(a, b, k);
      assert k != 0;
      assert a'[..k - 1] == a[..k][1..] && b'[..k - 1] == b[..k][1..];
      assert LessAt(a', b', k - 1);
    }
    if exists k: nat :: LessAt(a', b', k) {
      var k: nat :| LessAt(a', b', k);
      assert a[..k + 1] == [a[0]] + a'[..k] && b[..k + 1] == [b[0]] + b'[..k];
      assert LessAt(a, b, k + 1);
    }
  }

  /** The recursive `StrLess` is the textbook lexicographic order. */
  lemma {:induction false} StrLessReference(a: string, b: string)
    ensures StrLess(a, b) <==> FirstDifferenceLess(a, b)
  {
    if a == [] || b == [] {
    } else if a[0] != b[0] {
      if StrLess(a, b) {
        assert LessAt(a, b, 0);
      }
      if exists k: nat :: LessAt(a, b, k) {
        var k: nat :| LessAt(a, b, k);
        LessAtHead(a, b, k);
      }
    } else {
      StrLessReference(a[1..], b[1..]);
      FirstDifferenceShift(a, b);
    }
  }

  // ------------------------------------------------- objects as records

  /** A JavaScript object with string keys, as its entries in enumeration order. */
  type Entries<V> = seq<(string, V)>

  function EntryKeys<V>(e: Entries<V>): set<string> {
    if e == [] then {} else {e[0].0} + EntryKeys(e[1..])
  }

  /** `Object.keys`: the keys in enumeration order. */
  function KeyOrder<V>(e: Entries<V>): (keys: seq<string>)
    ensures |keys| == |e|
    ensures forall i :: 0 <= i < |e| ==> keys[i] == e[i].0
  {
    if e == [] then [] else [e[0].0] + KeyOrder(e[1..])
  }

  /** `obj[key]`: None for a missing key. */
  function Get<V>(e: Entries<V>, key: string): (r: Option<V>)
    ensures r.Some? <==> key in EntryKeys(e)
  {
    if e == [] then None
    else if e[0].0 == key then Some(e[0].1)
    else Get(e[1..], key)
  }

  /** Each key occurs once, as in an object. */
  predicate UniqueKeys<V>(e: Entries<V>) {
    e == [] || (e[0].0 !in EntryKeys(e[1..]) && UniqueKeys(e[1..]))
  }

  /**
   * `obj[key] = v`: an existing key keeps its place and takes the new
   * value, a new key is added at the end.
   */
  function Put<V>(e: Entries<V>, key: string, v: V): (r: Entries<V>)
    ensures EntryKeys(r) == EntryKeys(e) + {key}
    ensures UniqueKeys(e) ==> UniqueKeys(r)
    ensures Get(r, key) == Some(v)
    ensures forall k :: k != key ==> Get(r, k) == Get(e, k)
    ensures |r| == if key in EntryKeys(e) then |e| else |e| + 1
    ensures key !in EntryKeys(e) ==> r == e + [(key, v)]
    decreases |e|
  {
    if e == [] then [(key, v)]
    else if e[0].0 == key then [(key, v)] + e[1..]
    else [e[0]] + Put(e[1..], key, v)
  }

  /** A key no entry carries is not a key of the object. */
  lemma {:induction false} AbsentKey<V>(e: Entries<V>, k: string)
    requires forall i :: 0 <= i < |e| ==> e[i].0 != k
    ensures k !in EntryKeys(e)
    decreases |e|
  {
    if e != [] {
      AbsentKey(e[1..], k);
    }
  }

  /** Entries with pairwise different keys have unique keys. */
  lemma {:induction false} DistinctUnique<V>(e: Entries<V>)
    requires forall i, j :: 0 <= i < j < |e| ==> e[i].0 != e[j].0
    ensures UniqueKeys(e)
    decreases |e|
  {
    if e != [] {
      AbsentKey(e[1..], e[0].0);
      DistinctUnique(e[1..]);
    }
  }

  /** The keys in enumeration order are the object's keys, each once. */
  lemma {:induction false} KeyOrderKeys<V>(e: Entries<V>)
    requires UniqueKeys(e)
    ensures forall k :: k in KeyOrder(e) <==> k in EntryKeys(e)
    ensures |EntryKeys(e)| == |e|
    decreases |e|
  {
    if e != [] {
      KeyOrderKeys(e[1..]);
      assert KeyOrder(e) == [e[0].0] + KeyOrder(e[1..]);
    }
  }
}
