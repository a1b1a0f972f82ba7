/** Shared vocabulary of the TickSight model: the sighting record, PHP and
    JavaScript string truthiness, PHP's `trim`, order-preserving filtering,
    and the abstract date functions the controllers call. */
module Base {

  datatype Option<+T> = None | Some(value: T)

  /** A point in time; `DateTime` objects are compared by this value. */
  type Timestamp = int

  /** A sighting as the associative arrays of the PHP code and the objects of
      map.js carry it. A missing key and a null value are both `None`. */
  datatype Sighting = Sighting(
    date: Option<string>,
    location: Option<string>,
    species: Option<string>,
    latinName: Option<string>,
    imagePath: Option<string>,
    source: Option<string>,
    city: Option<string>)

  /** A relative offset as written in `modify('-7 days')`, `modify('-6 months')`, ... */
  datatype Offset = Days(n: nat) | Months(n: nat) | Years(n: nat)

  /** The date handling the PHP runtime provides, kept abstract:
      `parse` is `date_create` / `new DateTime(...)` (None when it fails or throws),
      `back(t, o)` is `(clone t)->modify('-o')`,
      `yearOf` and `monthOf` are `(int)format('Y')` and `(int)format('n')`. */
  datatype Calendar = Calendar(
    parse: string -> Option<Timestamp>,
    back: (Timestamp, Offset) -> Timestamp,
    yearOf: Timestamp -> int,
    monthOf: Timestamp -> int)

  /** Length of a month or year offset in months. */
  function MonthSpan(o: Offset): nat
  {
    match o
    case Days(_) => 0
    case Months(n) => n
    case Years(n) => 12 * n
  }

  /** The one calendar fact the code relies on: going back further in months
      (a year being twelve of them) lands strictly earlier. */
  ghost predicate MonthsBackOrdered(cal: Calendar)
  {
    forall t: Timestamp, a: Offset, b: Offset {:trigger cal.back(t, a), cal.back(t, b)} ::
      !a.Days? && !b.Days? && MonthSpan(a) < MonthSpan(b) ==> cal.back(t, b) < cal.back(t, a)
  }

  // ---------------------------------------------------------------- truthiness

  /** PHP truthiness of a string: `''` and `'0'` are falsy (`empty`, `!$x`, `?:`). */
  predicate PhpTruthy(s: string)
  {
    s != "" && s != "0"
  }

  /** `!empty($record[key])` for a string-valued key. */
  predicate Filled(o: Option<string>)
  {
    o.Some? && PhpTruthy(o.value)
  }

  /** JavaScript truthiness of an optional string: undefined, null and `''` are falsy. */
  predicate JsTruthy(o: Option<string>)
  {
    o.Some? && o.value != ""
  }

  // ---------------------------------------------------------------- trim

  /** The characters PHP's `trim` strips by default: " \t\n\r\0\x0B". */
  predicate IsTrimChar(c: char)
  {
    c == ' ' || c == '\t' || c == '\n' || c == '\r' || c == '\0' || c == '\U{000B}'
  }

  /** `ltrim`. */
  function TrimLeft(s: string): string
  {
    if s != [] && IsTrimChar(s[0]) then TrimLeft(s[1..]) else s
  }

  /** `rtrim`. */
  function TrimRight(s: string): string
  {
    if s != [] && IsTrimChar(s[|s| - 1]) then TrimRight(s[..|s| - 1]) else s
  }

  /** `ltrim` keeps a suffix that does not start with a trim character and
      cuts only trim characters. */
  lemma {:induction false} TrimLeftSuffix(s: string)
    ensures var r := TrimLeft(s);
      |r| <= |s| && r == s[|s| - |r|..] && (r == [] || !IsTrimChar(r[0])) &&
      forall i :: 0 <= i < |s| - |r| ==> IsTrimChar(s[i])
  {
    if s != [] && IsTrimChar(s[0]) {
      TrimLeftSuffix(s[1..]);
      var r := TrimLeft(s);
      forall i | 0 <= i < |s| - |r| ensures IsTrimChar(s[i]) {
        if i > 0 {
          assert s[i] == s[1..][i - 1];
        }
      }
    }
  }

  /** `rtrim` keeps a prefix that does not end with a trim character and
      cuts only trim characters. */
  lemma {:induction false} TrimRightPrefix(s: string)
    ensures var r := TrimRight(s);
      |r| <= |s| && r == s[..|r|] && (r == [] || !IsTrimChar(r[|r| - 1])) &&
      forall i :: |r| <= i < |s| ==> IsTrimChar(s[i])
  {
    if s != [] && IsTrimChar(s[|s| - 1]) {
      TrimRightPrefix(s[..|s| - 1]);
      var r := TrimRight(s);
      forall i | |r| <= i < |s| ensures IsTrimChar(s[i]) {
        if i < |s| - 1 {
          assert s[i] == s[..|s| - 1][i];
        }
      }
    }
  }

  /** PHP's `trim`: strip trim characters at both ends. */
  function Trim(s: string): (r: string)
    ensures |r| <= |s|
  {
    TrimLeftSuffix(s);
    TrimRightPrefix(TrimLeft(s));
    TrimRight(TrimLeft(s))
  }

  lemma {:induction false} TrimRightKeepsHead(s: string)
    requires s != [] && !IsTrimChar(s[0])
    ensures TrimRight(s) != [] && TrimRight(s)[0] == s[0]
  {
    if IsTrimChar(s[|s| - 1]) {
      TrimRightKeepsHead(s[..|s| - 1]);
    }
  }

  /** `trim` leaves no trim character at either end, the result is a
      contiguous piece of the input, and everything cut before and after
      it is a trim character. */
  lemma TrimEnds(s: string)
    ensures var r := Trim(s);
      (r == [] || (!IsTrimChar(r[0]) && !IsTrimChar(r[|r| - 1]))) &&
      var k := |s| - |TrimLeft(s)|;
      0 <= k && k + |r| <= |s| && r == s[k..k + |r|] &&
      (forall i :: 0 <= i < k ==> IsTrimChar(s[i])) &&
      (forall i :: k + |r| <= i < |s| ==> IsTrimChar(s[i]))
  {
    var l := TrimLeft(s);
    var r := TrimRight(l);
    TrimLeftSuffix(s);
    TrimRightPrefix(l);
    if r != [] {
      TrimRightKeepsHead(l);
    }
    var k := |s| - |l|;
    assert r == s[k..k + |r|];
    forall i | k + |r| <= i < |s| ensures IsTrimChar(s[i]) {
      assert s[i] == l[i - k];
    }
  }

  /** Trimming twice is trimming once. */
  lemma TrimIdempotent(s: string)
    ensures Trim(Trim(s)) == Trim(s)
  {
    var r := Trim(s);
    TrimEnds(s);
    if r != [] {
      assert TrimLeft(r) == r;
      assert TrimRight(r) == r;
    }
  }

  // ---------------------------------------------------------------- filtering

  /** `array_values(array_filter($xs, $keep))`: the elements that pass, in order. */
  function Select<T>(xs: seq<T>, keep: T -> bool): (r: seq<T>)
    ensures |r| <= |xs|
    ensures forall x :: x in r ==> x in xs && keep(x)
    ensures forall x :: x in xs && keep(x) ==> x in r
  {
    if xs == [] then []
    else if keep(xs[0]) then [xs[0]] + Select(xs[1..], keep)
    else Select(xs[1..], keep)
  }

  /** `a` can be obtained from `b` by deleting elements (order preserved). */
  predicate IsSubsequence<T(==)>(a: seq<T>, b: seq<T>)
    decreases |b|
  {
    if a == [] then true
    else if b == [] then false
    else if a[0] == b[0] then IsSubsequence(a[1..], b[1..])
    else IsSubsequence(a, b[1..])
  }

  lemma {:induction false} SubsequenceDropHead<T>(a: seq<T>, b: seq<T>)
    requires a != [] && IsSubsequence(a, b)
    ensures IsSubsequence(a[1..], b)
    decreases |b|, 0
  {
    if a[0] == b[0] {
      if a[1..] != [] {
        SubsequenceDropHead(a[1..], b[1..]);
        SubsequenceCons(b[0], a[1..], b[1..]);
      }
    } else {
      SubsequenceDropHead(a, b[1..]);
      if a[1..] != [] {
        SubsequenceCons(b[0], a[1..], b[1..]);
      }
    }
  }

  /** A subsequence of `b` is a subsequence of `[x] + b`. */
  lemma {:induction false} SubsequenceCons<T>(x: T, a: seq<T>, b: seq<T>)
    requires IsSubsequence(a, b)
    ensures IsSubsequence(a, [x] + b)
    decreases |b|, 1
  {
    var xb := [x] + b;
    assert xb[1..] == b;
    if a != [] && a[0] == x {
      SubsequenceDropHead(a, b);
    }
  }

  /** Filtering keeps every occurrence of a survivor and none of the rest. */
  lemma {:induction false} SelectCounts<T>(xs: seq<T>, keep: T -> bool)
    ensures forall x :: multiset(Select(xs, keep))[x] == if keep(x) then multiset(xs)[x] else 0
  {
    if xs != [] {
      SelectCounts(xs[1..], keep);
      assert xs == [xs[0]] + xs[1..];
    }
  }

  /** Filtering keeps the survivors in their original order. */
  lemma {:induction false} SelectIsSubsequence<T>(xs: seq<T>, keep: T -> bool)
    ensures IsSubsequence(Select(xs, keep), xs)
  {
    if xs != [] {
      SelectIsSubsequence(xs[1..], keep);
      if keep(xs[0]) {
        var r := Select(xs, keep);
        assert r[0] == xs[0] && r[1..] == Select(xs[1..], keep);
      } else {
        SubsequenceCons(xs[0], Select(xs[1..], keep), xs[1..]);
        assert [xs[0]] + xs[1..] == xs;
      }
    }
  }

  /** Filtering a list with one more element at the end. */
  lemma {:induction false} SelectAppend<T>(xs: seq<T>, x: T, keep: T -> bool)
    ensures Select(xs + [x], keep) == Select(xs, keep) + (if keep(x) then [x] else [])
  {
    if xs != [] {
      assert (xs + [x])[1..] == xs[1..] + [x];
      SelectAppend(xs[1..], x, keep);
    }
  }

  /** A filter whose predicate holds everywhere passes its input through unchanged. */
  lemma {:induction false} SelectAll<T>(xs: seq<T>, keep: T -> bool)
    requires forall x :: x in xs ==> keep(x)
    ensures Select(xs, keep) == xs
  {
    if xs != [] {
      SelectAll(xs[1..], keep);
    }
  }

  /** A filter nothing passes leaves nothing. */
  lemma {:induction false} SelectNone<T>(xs: seq<T>, keep: T -> bool)
    requires forall x :: x in xs ==> !keep(x)
    ensures Select(xs, keep) == []
  {
    if xs != [] {
      SelectNone(xs[1..], keep);
    }
  }

  /** Filtering twice with the same predicate is filtering once. */
  lemma SelectIdempotent<T>(xs: seq<T>, keep: T -> bool)
    ensures Select(Select(xs, keep), keep) == Select(xs, keep)
  {
    SelectAll(Select(xs, keep), keep);
  }

  /** Two filters in a row are one filter on the conjunction. */
  lemma {:induction false} SelectThenSelect<T>(xs: seq<T>, p: T -> bool, q: T -> bool, both: T -> bool)
    requires forall x :: both(x) == (p(x) && q(x))
    ensures Select(Select(xs, p), q) == Select(xs, both)
  {
    if xs != [] {
      SelectThenSelect(xs[1..], p, q, both);
    }
  }

  // ---------------------------------------------------------------- string order

  /** Byte-wise (code point) lexicographic order of strings, PHP's `strcmp`
      order and the order `sort` uses for non-numeric strings. */
  predicate StrLess(a: string, b: string)
  {
    if a == [] then b != []
    else if b == [] then false
    else if a[0] == b[0] then StrLess(a[1..], b[1..])
    else a[0] < b[0]
  }

  lemma {:induction false} StrLessIrreflexive(a: string)
    ensures !StrLess(a, a)
  {
    if a != [] {
      StrLessIrreflexive(a[1..]);
    }
  }

  lemma {:induction false} StrLessTransitive(a: string, b: string, c: string)
    requires StrLess(a, b) && StrLess(b, c)
    ensures StrLess(a, c)
  {
    if a != [] && b != [] && c != [] && a[0] == b[0] && b[0] == c[0] {
      StrLessTransitive(a[1..], b[1..], c[1..]);
    }
  }

  lemma {:induction false} StrLessTotal(a: string, b: string)
    ensures a == b || StrLess(a, b) || StrLess(b, a)
  {
    if a != [] && b != [] && a[0] == b[0] {
      StrLessTotal(a[1..], b[1..]);
      if a[1..] == b[1..] {
        assert a == [a[0]] + a[1..] && b == [b[0]] + b[1..];
      }
    }
  }

  /** `lt` is a strict total order. */
  ghost predicate StrictTotalOrder<T(!new)>(lt: (T, T) -> bool)
  {
    && (forall a :: !lt(a, a))
    && (forall a, b, c :: lt(a, b) && lt(b, c) ==> lt(a, c))
    && (forall a, b :: a == b || lt(a, b) || lt(b, a))
  }

  lemma StrLessIsStrictTotalOrder()
    ensures StrictTotalOrder(StrLess)
  {
    forall a: string { StrLessIrreflexive(a); }
    forall a: string, b: string, c: string | StrLess(a, b) && StrLess(b, c)
      ensures StrLess(a, c)
    {
      StrLessTransitive(a, b, c);
    }
    forall a: string, b: string { StrLessTotal(a, b); }
  }

  /** Strictly ascending: sorted and free of duplicates. */
  predicate StrictlySorted<T>(xs: seq<T>, lt: (T, T) -> bool)
  {
    forall i, j :: 0 <= i < j < |xs| ==> lt(xs[i], xs[j])
  }

  /** The head of a strictly ascending list is below every other element. */
  lemma HeadIsLeast<T>(a: seq<T>, lt: (T, T) -> bool)
    requires a != [] && StrictlySorted(a, lt)
    ensures forall x :: x in a ==> x == a[0] || lt(a[0], x)
  {
    forall x | x in a ensures x == a[0] || lt(a[0], x) {
      var i :| 0 <= i < |a| && a[i] == x;
      assert i == 0 || lt(a[0], a[i]);
    }
  }

  /** A strictly ascending list is determined by its set of elements, so any
      algorithm producing a strictly ascending list of the same elements
      computes `sort(array_unique(...))`. */
  lemma {:induction false} StrictlySortedUnique<T(!new)>(a: seq<T>, b: seq<T>, lt: (T, T) -> bool)
    requires StrictTotalOrder(lt)
    requires StrictlySorted(a, lt) && StrictlySorted(b, lt)
    requires (set x | x in a) == (set x | x in b)
    ensures a == b
  {
    var setA := set x | x in a;
    var setB := set x | x in b;
    if a != [] {
      assert a[0] in setA;
    }
    if b != [] {
      assert b[0] in setB;
    }
    if a != [] && b != [] {
      HeadIsLeast(a, lt);
      HeadIsLeast(b, lt);
      assert a[0] in b && b[0] in a;
      assert a[0] == b[0];
      var sa := set x | x in a[1..];
      var sb := set x | x in b[1..];
      forall x | x in sa ensures x in sb {
        var i :| 1 <= i < |a| && a[i] == x;
        assert lt(a[0], x);
        assert x in setA;
        assert x in b;
        assert x != b[0];
      }
      forall x | x in sb ensures x in sa {
        var i :| 1 <= i < |b| && b[i] == x;
        assert lt(b[0], x);
        assert x in setB;
        assert x in a;
        assert x != a[0];
      }
      StrictlySortedUnique(a[1..], b[1..], lt);
      assert a == [a[0]] + a[1..] && b == [b[0]] + b[1..];
    }
  }
}
