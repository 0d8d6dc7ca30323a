/** Helpers shared by every module of the model: optional values, the
    JavaScript string operations the front end relies on (`trim`,
    `toLowerCase`, `startsWith`, `endsWith`, `includes`), order-preserving
    filters, a stable sort, set-like deduplication and calendar arithmetic
    on millisecond timestamps and day numbers. */
module Common {

  /** `undefined`/`null` versus a present value. */
  datatype Option<T> = None | Some(value: T)

  /** A date field read as a `Date`: nothing for a missing or empty field,
      an invalid date for text that does not parse, else a timestamp in
      milliseconds. */
  datatype Stamp = Absent | Unreadable | At(ms: int)

  /** The value, if any, as a sequence of zero or one elements. */
  function AsSeq<T>(o: Option<T>): (r: seq<T>)
    ensures |r| <= 1
    ensures o.Some? ==> r == [o.value]
    ensures o.None? ==> r == []
  {
    match o
    case Some(x) => [x]
    case None => []
  }

  /** Maps every element through `f` and keeps the present results, in
      order (a loop that pushes only some of its results). */
  function FilterMap<A, B>(s: seq<A>, f: A -> Option<B>): (r: seq<B>)
    ensures |r| <= |s|
  {
    if s == [] then [] else FilterMap(s[..|s| - 1], f) + AsSeq(f(s[|s| - 1]))
  }

  lemma FilterMapSnoc<A, B>(s: seq<A>, x: A, f: A -> Option<B>)
    ensures FilterMap(s + [x], f) == FilterMap(s, f) + AsSeq(f(x))
  {
    assert (s + [x])[..|s|] == s;
  }

  /** Every kept result comes from some element. */
  lemma {:induction false} FilterMapFrom<A, B>(s: seq<A>, f: A -> Option<B>)
    ensures forall k :: 0 <= k < |FilterMap(s, f)| ==>
              exists j :: 0 <= j < |s| && f(s[j]) == Some(FilterMap(s, f)[k])
  {
    if s != [] {
      var init := s[..|s| - 1];
      FilterMapFrom(init, f);
      var before := FilterMap(init, f);
      var tail := AsSeq(f(s[|s| - 1]));
      assert FilterMap(s, f) == before + tail;
      forall k | 0 <= k < |before + tail|
        ensures exists j :: 0 <= j < |s| && f(s[j]) == Some((before + tail)[k])
      {
        if k < |before| {
          var j :| 0 <= j < |init| && f(init[j]) == Some(before[k]);
          assert s[j] == init[j];
        } else {
          assert f(s[|s| - 1]) == Some((before + tail)[k]);
        }
      }
    } else {
      assert FilterMap(s, f) == [];
    }
  }

  /* ---------------------------------------------------------------------
     Characters and strings
     --------------------------------------------------------------------- */

  /** The characters matched by a regular-expression `\s` and removed by
      `String.prototype.trim`: the ECMAScript white-space and line-terminator
      code points. */
  predicate IsSpace(c: char) {
    c == ' ' || c == '\t' || c == '\n' || c == '\r' || c == '\U{B}' || c == '\U{C}'
    || c == '\U{A0}' || c == '\U{1680}' || ('\U{2000}' <= c <= '\U{200A}')
    || c == '\U{2028}' || c == '\U{2029}' || c == '\U{202F}' || c == '\U{205F}'
    || c == '\U{3000}' || c == '\U{FEFF}'
  }

  /** The characters a regular-expression `.` does not match. */
  predicate IsLineTerminator(c: char) {
    c == '\n' || c == '\r' || c == '\U{2028}' || c == '\U{2029}'
  }

  predicate IsDigit(c: char) { '0' <= c <= '9' }

  predicate IsBlank(s: string) {
    forall i :: 0 <= i < |s| ==> IsSpace(s[i])
  }

  function TrimStart(s: string): (r: string)
    ensures |r| <= |s| && r == s[|s| - |r|..]
    ensures r == [] || !IsSpace(r[0])
    ensures forall i :: 0 <= i < |s| - |r| ==> IsSpace(s[i])
  {
    if s != [] && IsSpace(s[0]) then TrimStart(s[1..]) else s
  }

  function TrimEnd(s: string): (r: string)
    ensures |r| <= |s| && r == s[..|r|]
    ensures r == [] || !IsSpace(r[|r| - 1])
    ensures forall i :: |r| <= i < |s| ==> IsSpace(s[i])
  {
    if s != [] && IsSpace(s[|s| - 1]) then TrimEnd(s[..|s| - 1]) else s
  }

  /** `String.prototype.trim`: strips the white space at both ends and
      nothing else. */
  function Trim(s: string): (r: string)
    ensures |r| <= |s|
    ensures r == [] || (!IsSpace(r[0]) && !IsSpace(r[|r| - 1]))
    ensures r == [] <==> IsBlank(s)
    ensures (s == [] || (!IsSpace(s[0]) && !IsSpace(s[|s| - 1]))) ==> r == s
  {
    TrimEnd(TrimStart(s))
  }

  lemma TrimIdempotent(s: string)
    ensures Trim(Trim(s)) == Trim(s)
  {
  }

  /** ASCII upper-case letters are lowered; every other code point is kept. */
  function LowerChar(c: char): char {
    if 'A' <= c <= 'Z' then (c as int + 32) as char else c
  }

  /** `String.prototype.toLowerCase`, restricted to ASCII letters. */
  function Lower(s: string): (r: string)
    ensures |r| == |s|
    ensures forall i :: 0 <= i < |s| ==> r[i] == LowerChar(s[i])
  {
    seq(|s|, i requires 0 <= i < |s| => LowerChar(s[i]))
  }

  lemma LowerIdempotent(s: string)
    ensures Lower(Lower(s)) == Lower(s)
  {
  }

  predicate StartsWith<T(==)>(s: seq<T>, p: seq<T>) {
    |p| <= |s| && s[..|p|] == p
  }

  predicate EndsWith<T(==)>(s: seq<T>, p: seq<T>) {
    |p| <= |s| && s[|s| - |p|..] == p
  }

  /** `includes`: `sub` occurs in `s` at some position. */
  predicate Contains<T(==)>(s: seq<T>, sub: seq<T>)
    decreases |s|
  {
    StartsWith(s, sub) || (s != [] && Contains(s[1..], sub))
  }

  /** `text.toLowerCase().includes(lowered)`, the case-insensitive match of
      every search box (the query is lowered once by the caller). */
  predicate Mentions(text: string, lowered: string) {
    Contains(Lower(text), lowered)
  }

  /** `texts.some(t => t.toLowerCase().includes(lowered))`. */
  predicate AnyMentions(texts: seq<string>, lowered: string) {
    exists i :: 0 <= i < |texts| && Mentions(texts[i], lowered)
  }

  /** `Contains` holds exactly when `sub` occurs at some index. */
  lemma {:induction false} ContainsAt<T>(s: seq<T>, sub: seq<T>, k: nat)
    requires k + |sub| <= |s| && s[k..k + |sub|] == sub
    ensures Contains(s, sub)
    decreases k
  {
    if k > 0 {
      assert s[1..][k - 1..k - 1 + |sub|] == sub;
      ContainsAt(s[1..], sub, k - 1);
    }
  }

  lemma {:induction false} ContainsInPrefix<T>(s: seq<T>, t: seq<T>, sub: seq<T>)
    requires Contains(s, sub)
    ensures Contains(s + t, sub)
    decreases |s|
  {
    if StartsWith(s, sub) {
      assert (s + t)[..|sub|] == s[..|sub|];
    } else {
      assert (s + t)[1..] == s[1..] + t;
      ContainsInPrefix(s[1..], t, sub);
    }
  }

  /** Whatever contains a text contains each of its prefixes, so a longer
      query never matches more. */
  lemma {:induction false} ContainsShorter<T>(s: seq<T>, a: seq<T>, b: seq<T>)
    requires Contains(s, a + b)
    ensures Contains(s, a)
    decreases |s|
  {
    if StartsWith(s, a + b) {
      assert s[..|a|] == (a + b)[..|a|] == a;
    } else {
      ContainsShorter(s[1..], a, b);
    }
  }

  /** `String(n)` of a natural number: its decimal digits, without
      leading zeros. */
  function Decimal(n: nat): (r: string)
    ensures r != [] && DigitString(r)
    decreases n
  {
    if n < 10 then [('0' as int + n) as char]
    else Decimal(n / 10) + [('0' as int + n % 10) as char]
  }

  predicate DigitString(t: string) {
    forall k :: 0 <= k < |t| ==> IsDigit(t[k])
  }

  function Pow10(n: nat): (r: nat)
    ensures r >= 1
  {
    if n == 0 then 1 else 10 * Pow10(n - 1)
  }

  /** `parseInt(t, 10)` of a string of decimal digits. */
  function DigitsValue(t: string): (v: nat)
    requires DigitString(t)
    ensures v < Pow10(|t|)
  {
    if t == [] then 0
    else DigitsValue(t[..|t| - 1]) * 10 + (t[|t| - 1] as int - '0' as int)
  }

  /** Reading the digits back gives the number: `Decimal` is injective. */
  lemma {:induction false} DecimalRoundTrip(n: nat)
    ensures DigitsValue(Decimal(n)) == n
    decreases n
  {
    var r := Decimal(n);
    if n >= 10 {
      DecimalRoundTrip(n / 10);
      assert r[..|r| - 1] == Decimal(n / 10);
    }
  }

  /** `String(t)` of an integer. */
  function IntText(t: int): (r: string)
    ensures r != []
  {
    if t < 0 then "-" + Decimal(-t) else Decimal(t)
  }

  /** The position of the first `c` in `s`. */
  function FirstIndex<T(==)>(s: seq<T>, c: T): (k: nat)
    requires c in s
    ensures k < |s| && s[k] == c && forall j :: 0 <= j < k ==> s[j] != c
  {
    if s[0] == c then 0 else 1 + FirstIndex(s[1..], c)
  }

  /** `replace(/<[^>]*>/g, '')`: from each `<` that a later `>` closes,
      everything up to the first such `>` is removed. */
  function StripTags(s: string): (r: string)
    ensures |r| <= |s|
    ensures '<' !in s ==> r == s
    ensures forall c :: c in r ==> c in s
    decreases |s|
  {
    if s == [] then []
    else if s[0] == '<' && '>' in s[1..] then StripTags(s[1..][FirstIndex(s[1..], '>') + 1..])
    else [s[0]] + StripTags(s[1..])
  }

  /** No `<...>` tag is left: no `<` is followed, anywhere later, by a
      `>`. */
  lemma {:induction false} StripTagsClean(s: string)
    ensures forall i, j :: 0 <= i < j < |StripTags(s)| && StripTags(s)[i] == '<' ==> StripTags(s)[j] != '>'
    decreases |s|
  {
    if s == [] {
    } else if s[0] == '<' && '>' in s[1..] {
      StripTagsClean(s[1..][FirstIndex(s[1..], '>') + 1..]);
    } else {
      var rest := StripTags(s[1..]);
      StripTagsClean(s[1..]);
      assert StripTags(s) == [s[0]] + rest;
      if s[0] == '<' {
        forall j | 0 <= j < |rest| ensures rest[j] != '>' {
          assert rest[j] in rest;
        }
      }
    }
  }

  /** Stripping tags twice is stripping them once. */
  lemma {:induction false} StripTagsIdempotent(s: string)
    ensures StripTags(StripTags(s)) == StripTags(s)
  {
    StripTagsClean(s);
    CleanStripsNothing(StripTags(s));
  }

  lemma {:induction false} CleanStripsNothing(s: string)
    requires forall i, j :: 0 <= i < j < |s| && s[i] == '<' ==> s[j] != '>'
    ensures StripTags(s) == s
    decreases |s|
  {
    if s != [] {
      CleanStripsNothing(s[1..]);
    }
  }

  /** Repeats a sequence `n` times (`'#'.repeat(n)`). */
  function Repeat<T>(x: T, n: nat): (r: seq<T>)
    ensures |r| == n && forall i :: 0 <= i < n ==> r[i] == x
  {
    if n == 0 then [] else [x] + Repeat(x, n - 1)
  }

  /** A calendar cell's list: `s.slice(0, k)` is shown, followed by a
      `+n` count of the rest. */
  function Preview<T>(s: seq<T>, k: nat): (r: (seq<T>, nat))
    ensures |r.0| == (if |s| < k then |s| else k)
    ensures r.0 == s[..|r.0|]
    ensures |r.0| + r.1 == |s|
  {
    if |s| <= k then (s, 0) else (s[..k], |s| - k)
  }

  /** Removes every occurrence of one element (`replace(/-/g, '')`). */
  function RemoveAll<T(==,!new)>(s: seq<T>, x: T): (r: seq<T>)
    ensures x !in r
    ensures |r| <= |s|
    ensures forall y :: y != x ==> (y in r <==> y in s)
    ensures x !in s ==> r == s
  {
    if s == [] then []
    else if s[0] == x then RemoveAll(s[1..], x)
    else [s[0]] + RemoveAll(s[1..], x)
  }

  lemma {:induction false} RemoveAllConcat<T(!new)>(a: seq<T>, b: seq<T>, x: T)
    ensures RemoveAll(a + b, x) == RemoveAll(a, x) + RemoveAll(b, x)
    decreases |a|
  {
    if a == [] {
      assert a + b == b;
    } else {
      assert (a + b)[1..] == a[1..] + b;
      RemoveAllConcat(a[1..], b, x);
    }
  }

  /* ---------------------------------------------------------------------
     Sequences: subsequences, filters, deduplication, sorting
     --------------------------------------------------------------------- */

  /** `a` is obtained from `b` by deleting elements, keeping order. */
  predicate IsSubseq<T(==)>(a: seq<T>, b: seq<T>)
    decreases |b|
  {
    a == [] || (b != [] && ((a[0] == b[0] && IsSubseq(a[1..], b[1..])) || IsSubseq(a, b[1..])))
  }

  /** Moving the head of the part still ahead onto the part already seen. */
  lemma ShiftHead<T>(all: seq<T>, seen: seq<T>, x: T, rest: seq<T>)
    requires all == seen + ([x] + rest)
    ensures all == (seen + [x]) + rest
  {
  }

  /** A prefix of `s` grown by one element, after a fixed front part. */
  lemma AppendSlice<T>(front: seq<T>, s: seq<T>, j: nat)
    requires j < |s|
    ensures front + s[..j + 1] == (front + s[..j]) + [s[j]]
    ensures front + s[..0] == front && s[..|s|] == s
  {
    assert s[..j + 1] == s[..j] + [s[j]];
  }

  lemma {:induction false} SubseqRefl<T>(s: seq<T>)
    ensures IsSubseq(s, s)
  {
    if s != [] {
      SubseqRefl(s[1..]);
    }
  }

  predicate NoDups<T(==)>(s: seq<T>) {
    forall i, j :: 0 <= i < j < |s| ==> s[i] != s[j]
  }

  /** `Array.prototype.findIndex`, with `None` for -1: the first index
      whose element passes. */
  function FindIndex<T>(s: seq<T>, p: T -> bool): (r: Option<nat>)
    ensures r.None? ==> forall j :: 0 <= j < |s| ==> !p(s[j])
    ensures r.Some? ==> r.value < |s| && p(s[r.value])
                        && forall j :: 0 <= j < r.value ==> !p(s[j])
  {
    if s == [] then None
    else if p(s[0]) then Some(0)
    else
      var rest := FindIndex(s[1..], p);
      if rest.None? then None else Some(rest.value + 1)
  }

  /** `Array.prototype.filter`. */
  function Filter<T(==,!new)>(s: seq<T>, p: T -> bool): (r: seq<T>)
    ensures |r| <= |s|
    ensures forall x :: x in r <==> x in s && p(x)
  {
    if s == [] then []
    else if p(s[0]) then [s[0]] + Filter(s[1..], p)
    else Filter(s[1..], p)
  }

  /** A filter keeps the order of what it keeps. */
  lemma {:induction false} FilterSubseq<T(!new)>(s: seq<T>, p: T -> bool)
    ensures IsSubseq(Filter(s, p), s)
  {
    if s != [] {
      FilterSubseq(s[1..], p);
    }
  }

  lemma {:induction false} FilterConcat<T(!new)>(a: seq<T>, b: seq<T>, p: T -> bool)
    ensures Filter(a + b, p) == Filter(a, p) + Filter(b, p)
    decreases |a|
  {
    if a == [] {
      assert a + b == b;
    } else {
      assert (a + b)[1..] == a[1..] + b;
      FilterConcat(a[1..], b, p);
    }
  }

  lemma FilterSnoc<T(!new)>(s: seq<T>, x: T, p: T -> bool)
    ensures Filter(s + [x], p) == Filter(s, p) + (if p(x) then [x] else [])
  {
    FilterConcat(s, [x], p);
  }

  /** A filter that keeps nothing gives the empty list. */
  lemma FilterNone<T(!new)>(s: seq<T>, p: T -> bool)
    requires forall x :: x in s ==> !p(x)
    ensures Filter(s, p) == []
  {
  }

  /** A filter keeps a sub-multiset of the elements. */
  lemma {:induction false} FilterMultiset<T(!new)>(s: seq<T>, p: T -> bool)
    ensures multiset(Filter(s, p)) <= multiset(s)
  {
    if s != [] {
      FilterMultiset(s[1..], p);
      assert s == [s[0]] + s[1..];
    }
  }

  /** Keeping everything keeps the sequence unchanged. */
  lemma {:induction false} FilterKeepsAll<T(!new)>(s: seq<T>, p: T -> bool)
    requires forall x :: x in s ==> p(x)
    ensures Filter(s, p) == s
  {
    if s != [] {
      FilterKeepsAll(s[1..], p);
    }
  }

  /** Two predicates that agree on the elements filter alike. */
  lemma {:induction false} FilterSame<T(!new)>(s: seq<T>, p: T -> bool, q: T -> bool)
    requires forall x :: x in s ==> p(x) == q(x)
    ensures Filter(s, p) == Filter(s, q)
  {
    if s != [] {
      FilterSame(s[1..], p, q);
    }
  }

  /** Filtering twice with the same predicate is filtering once. */
  lemma FilterIdempotent<T(!new)>(s: seq<T>, p: T -> bool)
    ensures Filter(Filter(s, p), p) == Filter(s, p)
  {
    FilterKeepsAll(Filter(s, p), p);
  }

  lemma {:induction false} NoDupsFilter<T(!new)>(s: seq<T>, p: T -> bool)
    requires NoDups(s)
    ensures NoDups(Filter(s, p))
  {
    if s != [] {
      NoDupsFilter(s[1..], p);
    }
  }

  /** The distinct elements of `s` in order of first occurrence: the
      iteration order of a JavaScript `Set` filled from `s`. */
  function Dedupe<T(==,!new)>(s: seq<T>): (r: seq<T>)
    ensures forall x :: x in r <==> x in s
    ensures NoDups(r)
    ensures |r| <= |s|
  {
    if s == [] then []
    else
      var d := Dedupe(s[..|s| - 1]);
      if s[|s| - 1] in d then d else d + [s[|s| - 1]]
  }

  /** An index holding `x` with no `x` before it is the first one. */
  lemma FirstIndexOf<T>(s: seq<T>, x: T, i: nat)
    requires i < |s| && s[i] == x && forall j :: 0 <= j < i ==> s[j] != x
    ensures FirstIndex(s, x) == i
  {
  }

  /** `Dedupe` lists the elements in the order of their first occurrences
      in `s`; with its membership and distinctness this fixes the result. */
  lemma {:induction false} DedupeFirstOccurrence<T(!new)>(s: seq<T>)
    ensures forall i, j :: 0 <= i < j < |Dedupe(s)| ==> FirstIndex(s, Dedupe(s)[i]) < FirstIndex(s, Dedupe(s)[j])
  {
    if s != [] {
      var p, y := s[..|s| - 1], s[|s| - 1];
      DedupeFirstOccurrence(p);
      forall x | x in p
        ensures FirstIndex(s, x) == FirstIndex(p, x)
      {
        FirstIndexOf(s, x, FirstIndex(p, x));
      }
      if y !in Dedupe(p) {
        FirstIndexOf(s, y, |s| - 1);
      }
    }
  }

  lemma {:induction false} DedupeOfDistinct<T(!new)>(s: seq<T>)
    requires NoDups(s)
    ensures Dedupe(s) == s
  {
    if s != [] {
      DedupeOfDistinct(s[..|s| - 1]);
    }
  }

  /** Adding one more element to a `Set` appends it unless it is present. */
  lemma DedupeSnoc<T(!new)>(s: seq<T>, x: T)
    ensures Dedupe(s + [x]) == if x in Dedupe(s) then Dedupe(s) else Dedupe(s) + [x]
  {
    assert (s + [x])[..|s|] == s;
  }

  /** `xs.forEach(x => set.add(x))` on a `Set` that was filled from `seen`:
      the set then iterates as if it had been filled from `seen + xs`. */
  method AddEach<T(==,!new)>(d: seq<T>, xs: seq<T>, ghost seen: seq<T>) returns (r: seq<T>)
    requires d == Dedupe(seen)
    ensures r == Dedupe(seen + xs)
  {
    r := d;
    if xs == [] {
      assert seen + xs == seen;
      return;
    }
    var j := 0;
    AppendSlice(seen, xs, 0);
    while j < |xs|
      invariant 0 <= j <= |xs|
      invariant r == Dedupe(seen + xs[..j])
    {
      var x := xs[j];
      AppendSlice(seen, xs, j);
      DedupeSnoc(seen + xs[..j], x);
      if x !in r {
        r := r + [x];
      }
      j := j + 1;
    }
  }

  /** The number of distinct elements is the size of their set. */
  lemma {:induction false} DistinctCount<T>(s: seq<T>)
    requires NoDups(s)
    ensures |set x | x in s| == |s|
  {
    if s != [] {
      var init := s[..|s| - 1];
      DistinctCount(init);
      assert (set x | x in s) == (set x | x in init) + {s[|s| - 1]};
    }
  }

  /** `le` is total and transitive: a comparator the stable sort can use. */
  ghost predicate TotalPreorder<T(!new)>(le: (T, T) -> bool) {
    (forall a, b :: le(a, b) || le(b, a))
    && (forall a, b, c :: le(a, b) && le(b, c) ==> le(a, c))
  }

  predicate Sorted<T>(s: seq<T>, le: (T, T) -> bool) {
    forall i, j :: 0 <= i < j < |s| ==> le(s[i], s[j])
  }

  /** Places `x` after every element of `t` that is not strictly greater. */
  function Insert<T(!new)>(t: seq<T>, x: T, le: (T, T) -> bool): (r: seq<T>)
    ensures |r| == |t| + 1
    ensures multiset(r) == multiset(t) + multiset{x}
    ensures forall z :: z in r <==> z in t || z == x
  {
    if t == [] then [x]
    else if !le(t[0], x) then [x] + t
    else
      assert t == [t[0]] + t[1..];
      [t[0]] + Insert(t[1..], x, le)
  }

  /** Inserting into a sorted sequence keeps it sorted. */
  lemma {:induction false} InsertSorted<T(!new)>(t: seq<T>, x: T, le: (T, T) -> bool)
    requires TotalPreorder(le) && Sorted(t, le)
    ensures Sorted(Insert(t, x, le), le)
  {
    var r := Insert(t, x, le);
    if t != [] && !le(t[0], x) {
      forall i, j | 0 <= i < j < |r| ensures le(r[i], r[j]) {
        if i == 0 {
          assert le(x, t[0]);
          if j > 1 { assert le(t[0], t[j - 1]); }
        }
      }
    } else if t != [] {
      var rest := Insert(t[1..], x, le);
      InsertSorted(t[1..], x, le);
      forall j | 0 <= j < |rest| ensures le(t[0], rest[j]) {
        assert rest[j] in rest;
        if rest[j] != x {
          var k :| 0 <= k < |t[1..]| && t[1..][k] == rest[j];
          assert t[k + 1] == rest[j];
        }
      }
    }
  }

  /** JavaScript's stable `Array.prototype.sort` with a comparator whose
      "not after" relation is `le`. */
  function Sort<T(!new)>(s: seq<T>, le: (T, T) -> bool): (r: seq<T>)
    requires TotalPreorder(le)
    ensures |r| == |s|
    ensures multiset(r) == multiset(s)
    ensures Sorted(r, le)
  {
    if s == [] then []
    else
      assert s == s[..|s| - 1] + [s[|s| - 1]];
      InsertSorted(Sort(s[..|s| - 1], le), s[|s| - 1], le);
      Insert(Sort(s[..|s| - 1], le), s[|s| - 1], le)
  }

  /** The keys of a sorted sequence without duplicate keys increase
      strictly. */
  lemma SortedDistinctIncreasing(s: seq<int>)
    requires Sorted(s, (a: int, b: int) => a <= b) && NoDups(s)
    ensures forall i, j :: 0 <= i < j < |s| ==> s[i] < s[j]
  {
    forall i, j | 0 <= i < j < |s| ensures s[i] < s[j] {
      assert s[i] <= s[j];
    }
  }

  lemma {:induction false} NoDupsCount<T>(s: seq<T>)
    requires NoDups(s)
    ensures forall x :: multiset(s)[x] <= 1
  {
    if s != [] {
      var init := s[..|s| - 1];
      NoDupsCount(init);
      assert s == init + [s[|s| - 1]];
      assert s[|s| - 1] !in init;
    }
  }

  lemma DupCount<T>(s: seq<T>, i: nat, j: nat)
    requires i < j < |s| && s[i] == s[j]
    ensures multiset(s)[s[i]] >= 2
  {
    assert s == s[..j] + [s[j]] + s[j + 1..];
    assert s[..j][i] == s[i];
  }

  /** A permutation of a sequence without duplicates has none. */
  lemma MultisetNoDups<T>(a: seq<T>, b: seq<T>)
    requires multiset(a) == multiset(b) && NoDups(a)
    ensures NoDups(b)
  {
    NoDupsCount(a);
    forall i, j | 0 <= i < j < |b| ensures b[i] != b[j] {
      if b[i] == b[j] {
        DupCount(b, i, j);
        assert false;
      }
    }
  }

  /** Sum of a sequence of naturals. */
  function Sum(s: seq<nat>): (r: nat)
  {
    if s == [] then 0 else Sum(s[..|s| - 1]) + s[|s| - 1]
  }

  lemma {:induction false} SumConcat(a: seq<nat>, b: seq<nat>)
    ensures Sum(a + b) == Sum(a) + Sum(b)
    decreases |b|
  {
    if b != [] {
      assert (a + b)[..|a + b| - 1] == a + b[..|b| - 1];
      assert (a + b)[|a + b| - 1] == b[|b| - 1];
      SumConcat(a, b[..|b| - 1]);
    } else {
      assert a + b == a;
    }
  }

  /* ---------------------------------------------------------------------
     Time: integer milliseconds, day numbers and civil dates
     --------------------------------------------------------------------- */

  const Second: int := 1000
  const Minute: int := 60 * Second
  const Hour: int := 60 * Minute
  const Day: int := 24 * Hour

  /** The day number (days since 1970-01-01) of a timestamp. */
  function DayOf(t: int): int { t / Day }

  /** `startOfDay`: midnight of the timestamp's day. */
  function StartOfDay(t: int): (r: int)
    ensures r <= t < r + Day && r % Day == 0
  {
    DayOf(t) * Day
  }

  /** `addDays(t, k)` without daylight-saving changes: `k` days later,
      the same time of day. */
  lemma DaysLater(t: int, k: int)
    ensures DayOf(t + k * Day) == DayOf(t) + k
    ensures StartOfDay(t + k * Day) == StartOfDay(t) + k * Day
  {
    var offset := t - StartOfDay(t);
    assert t + k * Day == (DayOf(t) + k) * Day + offset;
    assert 0 <= offset < Day;
  }

  /** `getDay()`: 0 = Sunday .. 6 = Saturday; 1970-01-01 was a Thursday. */
  function Weekday(day: int): (r: int)
    ensures 0 <= r < 7
  {
    (day + 4) % 7
  }

  predicate IsLeapYear(y: int) {
    y % 4 == 0 && (y % 100 != 0 || y % 400 == 0)
  }

  /** `new Date(y, m + 1, 0).getDate()` for a month index `m` in 0..11. */
  function DaysInMonth(y: int, m: int): (r: int)
    requires 0 <= m < 12
    ensures 28 <= r <= 31
    ensures m == 1 ==> r == (if IsLeapYear(y) then 29 else 28)
  {
    if m == 1 then (if IsLeapYear(y) then 29 else 28)
    else if m == 3 || m == 5 || m == 8 || m == 10 then 30
    else 31
  }

  /** Day number of the civil date `y-m-d` with `m` in 1..12. */
  function DaysFromCivil(y: int, m: int, d: int): int
    requires 1 <= m <= 12
  {
    var y1 := if m <= 2 then y - 1 else y;
    var era := y1 / 400;
    var yoe := y1 - era * 400;
    var mp := (m + 9) % 12;
    var doy := (153 * mp + 2) / 5 + d - 1;
    var doe := yoe * 365 + yoe / 4 - yoe / 100 + doy;
    era * 146097 + doe - 719468
  }

  /** `new Date(y, monthIndex, d)` as a day number, with JavaScript's
      roll-over of out-of-range month indices and days. */
  function DateToDay(y: int, monthIndex: int, d: int): int {
    DaysFromCivil(y + monthIndex / 12, monthIndex % 12 + 1, 1) + d - 1
  }

  /** The year argument of the `Date` constructor: 0..99 stand for
      1900..1999. */
  function FullYear(y: int): int {
    if 0 <= y <= 99 then 1900 + y else y
  }

  /** `new Date(y, monthIndex, d, h, min)`: out-of-range months, days,
      hours and minutes roll over into the next unit. */
  function LocalTime(y: int, monthIndex: int, d: int, h: int, min: int): int {
    DateToDay(FullYear(y), monthIndex, d) * Day + h * Hour + min * Minute
  }

  /** The civil date `(year, month 1..12, day of month)` of a day number. */
  function CivilFromDays(day: int): (r: (int, int, int))
    ensures 1 <= r.1 <= 12 && 1 <= r.2 <= 31
  {
    var z := day + 719468;
    var era := z / 146097;
    var doe := z - era * 146097;
    var yoe := (doe - doe / 1460 + doe / 36524 - doe / 146096) / 365;
    var doy := doe - (365 * yoe + yoe / 4 - yoe / 100);
    var mp := (5 * doy + 2) / 153;
    var d := doy - (153 * mp + 2) / 5 + 1;
    var m := if mp < 10 then mp + 3 else mp - 9;
    var y := yoe + era * 400;
    (if m <= 2 then y + 1 else y, m, d)
  }

  /** The civil year of a day number. */
  function YearOf(day: int): int {
    CivilFromDays(day).0
  }

  /** `Math.round` on a non-negative real. */
  function Round(x: real): (r: int)
    requires x >= 0.0
    ensures r >= 0
    ensures (r as real) - 0.5 <= x < (r as real) + 0.5
  {
    (x + 0.5).Floor
  }
}
