/**
 * The `orderBy` pipe: it sorts the given array IN PLACE with a comparator
 * on one field of each element (or on the elements themselves when no
 * field is given), then returns that same array, reversed in place unless
 * the direction is `asc`.
 */
module OrderBy {
  import opened Common

  /**
   * A JavaScript value as the comparator sees it: `undefined` (a missing
   * field), a number, a string, or an object with its identity.
   */
  datatype Value = Undefined | Num(n: int) | Text(s: string) | Object(ref: nat)

  /** An array element: the element itself and its fields by name. */
  datatype Row = Row(self: Value, fields: map<string, Value>)

  /** What a plain object turns into before `<` compares it. */
  const ObjectText := "[object Object]"

  /** The value the comparator looks at: `a[field]` when `field` is truthy, else `a`. */
  function Key(r: Row, field: Option<string>): Value {
    if Truthy(field) then
      if field.value in r.fields then r.fields[field.value] else Undefined
    else r.self
  }

  /** `x < y`: objects become their string form; `undefined` and an object against a number compare as NaN. */
  predicate Less(x: Value, y: Value) {
    var p := if x.Object? then Text(ObjectText) else x;
    var q := if y.Object? then Text(ObjectText) else y;
    if p.Num? && q.Num? then p.n < q.n
    else if p.Text? && q.Text? then StrLess(p.s, q.s)
    else false
  }

  /** Two numbers or two strings: the values `<` orders consistently. */
  predicate SameKind(x: Value, y: Value) {
    (x.Num? && y.Num?) || (x.Text? && y.Text?)
  }

  /** Between two numbers or two strings, `<` is a strict total order. */
  lemma LessOrder(x: Value, y: Value)
    requires SameKind(x, y)
    ensures !Less(x, x)
    ensures Less(x, y) ==> !Less(y, x)
    ensures x == y || Less(x, y) || Less(y, x)
  {
    if x.Text? {
      StrLessIrreflexive(x.s);
      StrLessTotal(x.s, y.s);
      if StrLess(x.s, y.s) { StrLessAsymmetric(x.s, y.s); }
    }
  }

  /** "Not after" is transitive among values of one kind. */
  lemma NotLessTransitive(x: Value, y: Value, z: Value)
    requires SameKind(x, y) && SameKind(y, z)
    requires !Less(y, x) && !Less(z, y)
    ensures !Less(z, x)
  {
    if x.Text? && Less(z, x) {
      StrLessTotal(x.s, y.s);
      if StrLess(x.s, y.s) { StrLessTransitive(z.s, x.s, y.s); }
    }
  }

  /**
   * The pipe's comparator: -1 when `a[field] < b[field]`, 1 when `>`, 0
   * when `===`, and 1 when none of them holds.
   */
  function Compare(a: Row, b: Row, field: Option<string>): (c: int)
    ensures c == -1 || c == 0 || c == 1
    ensures c == -1 <==> Less(Key(a, field), Key(b, field))
    ensures Key(a, field) == Key(b, field) && !Less(Key(a, field), Key(a, field)) ==> c == 0
    ensures Key(a, field).Undefined? != Key(b, field).Undefined? ==> c == 1
  {
    var ka, kb := Key(a, field), Key(b, field);
    if Less(ka, kb) then -1
    else if Less(kb, ka) then 1
    else if ka == kb then 0
    else 1
  }

  /** With two numbers or two strings, the comparator's sign is the order of the keys. */
  lemma CompareAgrees(a: Row, b: Row, field: Option<string>)
    requires SameKind(Key(a, field), Key(b, field))
    ensures Compare(a, b, field) < 0 <==> Less(Key(a, field), Key(b, field))
    ensures Compare(a, b, field) == 0 <==> Key(a, field) == Key(b, field)
    ensures Compare(a, b, field) > 0 <==> Less(Key(b, field), Key(a, field))
  {
    LessOrder(Key(a, field), Key(b, field));
  }

  /**
   * Two distinct objects with no field to sort by are neither `<`, `>` nor
   * `===`: each is put after the other, so the comparator is inconsistent.
   */
  lemma DistinctObjectsUnordered(x: nat, y: nat)
    requires x != y
    ensures Compare(Row(Object(x), map[]), Row(Object(y), map[]), None) == 1
    ensures Compare(Row(Object(y), map[]), Row(Object(x), map[]), None) == 1
  {
    StrLessIrreflexive(ObjectText);
  }

  /** Every key is a number (`numeric`) or every key is a string. */
  predicate AllKind(s: seq<Row>, field: Option<string>, numeric: bool) {
    forall k :: 0 <= k < |s| ==> if numeric then Key(s[k], field).Num? else Key(s[k], field).Text?
  }

  /** The keys are all numbers or all strings. */
  predicate Uniform(s: seq<Row>, field: Option<string>) {
    AllKind(s, field, true) || AllKind(s, field, false)
  }

  /** Non-decreasing by key: no key is `<` an earlier one. */
  predicate Ascending(s: seq<Row>, field: Option<string>) {
    forall k, l :: 0 <= k < l < |s| ==> !Less(Key(s[l], field), Key(s[k], field))
  }

  /** Non-increasing by key: no key is `<` a later one. */
  predicate Descending(s: seq<Row>, field: Option<string>) {
    forall k, l :: 0 <= k < l < |s| ==> !Less(Key(s[k], field), Key(s[l], field))
  }

  /** Ascending means `<=` on numeric keys and "equal or `<`" on string keys. */
  lemma AscendingMeans(s: seq<Row>, field: Option<string>, numeric: bool)
    requires AllKind(s, field, numeric) && Ascending(s, field)
    ensures numeric ==> forall k, l :: 0 <= k < l < |s| ==> Key(s[k], field).n <= Key(s[l], field).n
    ensures !numeric ==> forall k, l :: 0 <= k < l < |s| ==>
      Key(s[k], field) == Key(s[l], field) || StrLess(Key(s[k], field).s, Key(s[l], field).s)
  {
    forall k, l | 0 <= k < l < |s|
      ensures Key(s[k], field) == Key(s[l], field) || Less(Key(s[k], field), Key(s[l], field))
    {
      LessOrder(Key(s[k], field), Key(s[l], field));
    }
  }

  function Reversed(s: seq<Row>): (r: seq<Row>)
    ensures |r| == |s|
  {
    if s == [] then [] else Reversed(s[1..]) + [s[0]]
  }

  lemma {:induction false} ReversedAt(s: seq<Row>, k: nat)
    requires k < |s|
    ensures Reversed(s)[k] == s[|s| - 1 - k]
  {
    if k < |s| - 1 {
      ReversedAt(s[1..], k);
    }
  }

  /** Reversing keeps the elements and their kinds and turns an ascending sequence into a descending one. */
  lemma {:induction false} ReversedDescending(s: seq<Row>, field: Option<string>, numeric: bool)
    requires Ascending(s, field)
    ensures multiset(Reversed(s)) == multiset(s)
    ensures Descending(Reversed(s), field)
    ensures AllKind(s, field, numeric) ==> AllKind(Reversed(s), field, numeric)
  {
    ReversedMultiset(s);
    forall k | 0 <= k < |s| ensures Reversed(s)[k] == s[|s| - 1 - k] {
      ReversedAt(s, k);
    }
  }

  lemma {:induction false} ReversedMultiset(s: seq<Row>)
    ensures multiset(Reversed(s)) == multiset(s)
  {
    if s != [] {
      ReversedMultiset(s[1..]);
      assert s == [s[0]] + s[1..];
    }
  }

  /** The first `n` elements are non-decreasing by key. */
  predicate SortedPrefix(s: seq<Row>, n: int, field: Option<string>) {
    forall k, l :: 0 <= k < l < n && l < |s| ==> !Less(Key(s[l], field), Key(s[k], field))
  }

  /** Exchanges `a[j - 1]` and `a[j]`. */
  method Swap(a: array<Row>, j: int)
    requires 0 < j < a.Length
    modifies a
    ensures a[..] == old(a[..])[j - 1 := old(a[j])][j := old(a[j - 1])]
    ensures multiset(a[..]) == multiset(old(a[..]))
  {
    a[j - 1], a[j] := a[j], a[j - 1];
  }

  /**
   * While `s[j]` travels left during the pass that inserts `s[i]`: every
   * pair among the first `i + 1` elements that does not end at `j` is in
   * order.
   */
  predicate Inserting(s: seq<Row>, i: int, j: int, field: Option<string>) {
    forall k, l :: 0 <= k < l <= i && l < |s| && l != j ==> !Less(Key(s[l], field), Key(s[k], field))
  }

  /** Swapping `s[j]` left past a key it is `<` keeps every other pair in order. */
  lemma InsertingStep(s: seq<Row>, i: int, j: int, field: Option<string>, numeric: bool)
    requires 0 < j <= i < |s| && AllKind(s, field, numeric) && Inserting(s, i, j, field)
    requires Compare(s[j - 1], s[j], field) > 0
    ensures AllKind(s[j - 1 := s[j]][j := s[j - 1]], field, numeric)
    ensures Inserting(s[j - 1 := s[j]][j := s[j - 1]], i, j - 1, field)
  {
    var t := s[j - 1 := s[j]][j := s[j - 1]];
    CompareAgrees(s[j - 1], s[j], field);
    LessOrder(Key(s[j], field), Key(s[j - 1], field));
    forall k | 0 <= k < |t| ensures if numeric then Key(t[k], field).Num? else Key(t[k], field).Text? {
      assert t[k] == s[k] || t[k] == s[j] || t[k] == s[j - 1];
    }
    forall k, l | 0 <= k < l <= i && l != j - 1 ensures !Less(Key(t[l], field), Key(t[k], field)) {
      if l == j && k < j - 1 {
        assert !Less(Key(s[j - 1], field), Key(s[k], field));
      } else if l > j && k == j - 1 {
        assert !Less(Key(s[l], field), Key(s[j], field));
      } else if l > j && k == j {
        assert !Less(Key(s[l], field), Key(s[j - 1], field));
      }
    }
  }

  /** Once `s[j]` is not `<` its left neighbour, the first `i + 1` elements are in order. */
  lemma InsertingDone(s: seq<Row>, i: int, j: int, field: Option<string>, numeric: bool)
    requires 0 <= j <= i < |s| && AllKind(s, field, numeric) && Inserting(s, i, j, field)
    requires j == 0 || Compare(s[j - 1], s[j], field) <= 0
    ensures SortedPrefix(s, i + 1, field)
  {
    forall k, l | 0 <= k < l < i + 1 && l < |s| ensures !Less(Key(s[l], field), Key(s[k], field)) {
      if l == j && k < j - 1 {
        CompareAgrees(s[j - 1], s[j], field);
        NotLessTransitive(Key(s[k], field), Key(s[j - 1], field), Key(s[j], field));
      } else if l == j && k == j - 1 {
        CompareAgrees(s[j - 1], s[j], field);
      }
    }
  }

  /**
   * One pass of insertion: moves `a[i]` left past every element the
   * comparator puts after it.
   */
  method Insert(a: array<Row>, i: int, field: Option<string>, ghost defined: bool, ghost numeric: bool)
    requires 0 < i < a.Length
    requires defined ==> AllKind(a[..], field, numeric) && SortedPrefix(a[..], i, field)
    modifies a
    ensures multiset(a[..]) == multiset(old(a[..]))
    ensures defined ==> AllKind(a[..], field, numeric) && SortedPrefix(a[..], i + 1, field)
  {
    var j := i;
    while j > 0 && Compare(a[j - 1], a[j], field) > 0
      invariant 0 <= j <= i
      invariant multiset(a[..]) == multiset(old(a[..]))
      invariant defined ==> AllKind(a[..], field, numeric) && Inserting(a[..], i, j, field)
    {
      ghost var s := a[..];
      Swap(a, j);
      if defined {
        InsertingStep(s, i, j, field, numeric);
      }
      j := j - 1;
    }
    if defined {
      InsertingDone(a[..], i, j, field, numeric);
    }
  }

  /**
   * `array.sort(comparator)`: sorts `a` in place. The result is always a
   * permutation of the input, and when the keys are all numbers or all
   * strings (the comparator is then consistent) it is ascending by key,
   * with the keys still of that one kind.
   */
  method SortInPlace(a: array<Row>, field: Option<string>)
    modifies a
    ensures multiset(a[..]) == multiset(old(a[..]))
    ensures forall numeric :: AllKind(old(a[..]), field, numeric) ==> AllKind(a[..], field, numeric)
    ensures Uniform(old(a[..]), field) ==> Ascending(a[..], field)
  {
    ghost var numeric := AllKind(a[..], field, true);
    ghost var defined := Uniform(a[..], field);
    if a.Length > 1 {
      var i := 1;
      while i < a.Length
        invariant 1 <= i <= a.Length
        invariant multiset(a[..]) == multiset(old(a[..]))
        invariant defined ==> AllKind(a[..], field, numeric) && SortedPrefix(a[..], i, field)
      {
        Insert(a, i, field, defined, numeric);
        i := i + 1;
      }
    }
  }

  /** Reverses `a` in place (`Array.prototype.reverse`). */
  method ReverseInPlace(a: array<Row>)
    modifies a
    ensures a[..] == Reversed(old(a[..]))
  {
    var n, i := a.Length, 0;
    while i < n / 2
      invariant 0 <= i <= n / 2
      invariant forall k :: 0 <= k < i ==> a[k] == old(a[n - 1 - k]) && a[n - 1 - k] == old(a[k])
      invariant forall k :: i <= k < n - i ==> a[k] == old(a[k])
    {
      a[i], a[n - 1 - i] := a[n - 1 - i], a[i];
      i := i + 1;
    }
    ghost var was := old(a[..]);
    forall k | 0 <= k < n ensures a[..][k] == Reversed(was)[k] {
      ReversedAt(was, k);
    }
  }

  /**
   * `OrderByPipe.transform(array, field, sort)`: the same array comes back,
   * holding a permutation of its elements; when the keys are all numbers or
   * all strings it is ascending by key for `asc` and descending for any
   * other direction.
   */
  method Transform(a: array<Row>, field: Option<string>, sort: string) returns (r: array<Row>)
    modifies a
    ensures r == a
    ensures multiset(a[..]) == multiset(old(a[..]))
    ensures Uniform(old(a[..]), field) ==> Uniform(a[..], field)
    ensures Uniform(old(a[..]), field) && sort == "asc" ==> Ascending(a[..], field)
    ensures Uniform(old(a[..]), field) && sort != "asc" ==> Descending(a[..], field)
  {
    SortInPlace(a, field);
    if sort != "asc" {
      ghost var sorted := a[..];
      ReverseInPlace(a);
      ReversedMultiset(sorted);
      if Uniform(old(a[..]), field) {
        ghost var numeric := AllKind(old(a[..]), field, true);
        ReversedDescending(sorted, field, numeric);
      }
    }
    r := a;
  }
}
