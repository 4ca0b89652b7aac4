/** The array primitives the TypeScript code builds on: `filter`, `map`,
    `join`, `split` and the `new Map(rows.map(r => [key(r), r]))` index. */
module Lists {

  /** `Array.prototype.filter`: the elements `keep` accepts, in their order. */
  function Filter<T>(s: seq<T>, keep: T -> bool): (r: seq<T>)
    ensures |r| <= |s|
    ensures forall x :: x in r ==> x in s && keep(x)
  {
    if s == [] then [] else (if keep(s[0]) then [s[0]] else []) + Filter(s[1..], keep)
  }

  /** `Array.prototype.map`. */
  function Map<T, U>(s: seq<T>, f: T -> U): (r: seq<U>)
    ensures |r| == |s|
    ensures forall i :: 0 <= i < |s| ==> r[i] == f(s[i])
  {
    seq(|s|, i requires 0 <= i < |s| => f(s[i]))
  }

  /** Filtering distributes over concatenation: the relative order of the
      kept elements is the order of the input. */
  lemma {:induction false} FilterConcat<T>(a: seq<T>, b: seq<T>, keep: T -> bool)
    ensures Filter(a + b, keep) == Filter(a, keep) + Filter(b, keep)
  {
    if a == [] {
      assert a + b == b;
    } else {
      assert (a + b)[0] == a[0];
      assert (a + b)[1..] == a[1..] + b;
      FilterConcat(a[1..], b, keep);
    }
  }

  /** An element survives exactly when it occurs and is accepted. */
  lemma {:induction false} FilterMember<T>(s: seq<T>, keep: T -> bool, x: T)
    ensures x in Filter(s, keep) <==> x in s && keep(x)
  {
    if s != [] {
      FilterMember(s[1..], keep, x);
      assert x in s <==> x == s[0] || x in s[1..];
    }
  }

  /** Every accepted element is kept as often as it occurs, every rejected
      one never. */
  lemma {:induction false} FilterCount<T>(s: seq<T>, keep: T -> bool, x: T)
    ensures multiset(Filter(s, keep))[x] == if keep(x) then multiset(s)[x] else 0
  {
    if s != [] {
      FilterCount(s[1..], keep, x);
      assert s == [s[0]] + s[1..];
      assert multiset(s) == multiset([s[0]]) + multiset(s[1..]);
    }
  }

  /** When `keep` accepts everything, filtering changes nothing. */
  lemma {:induction false} FilterKeepsAll<T>(s: seq<T>, keep: T -> bool)
    requires forall i :: 0 <= i < |s| ==> keep(s[i])
    ensures Filter(s, keep) == s
  {
    if s != [] {
      FilterKeepsAll(s[1..], keep);
    }
  }

  /** Filtering with a stronger condition after a weaker one is filtering with
      the stronger one alone. */
  lemma {:induction false} FilterFilter<T>(s: seq<T>, weak: T -> bool, strong: T -> bool)
    requires forall x :: strong(x) ==> weak(x)
    ensures Filter(Filter(s, weak), strong) == Filter(s, strong)
  {
    if s != [] {
      FilterFilter(s[1..], weak, strong);
      var head := if weak(s[0]) then [s[0]] else [];
      FilterConcat(head, Filter(s[1..], weak), strong);
    }
  }

  /** Two conditions that agree on every element filter alike. */
  lemma {:induction false} FilterAgree<T>(s: seq<T>, k1: T -> bool, k2: T -> bool)
    requires forall x :: x in s ==> k1(x) == k2(x)
    ensures Filter(s, k1) == Filter(s, k2)
  {
    if s != [] {
      assert forall x :: x in s[1..] ==> x in s;
      FilterAgree(s[1..], k1, k2);
    }
  }

  /** `Array.prototype.join(sep)`. */
  function Join(parts: seq<string>, sep: string): string
  {
    if |parts| == 0 then ""
    else if |parts| == 1 then parts[0]
    else parts[0] + sep + Join(parts[1..], sep)
  }

  /** `String.prototype.split(sep)` for a one-character separator: the pieces
      between separators, so always at least one piece and none holding `sep`. */
  function Split(s: string, sep: char): (r: seq<string>)
    ensures |r| >= 1
    ensures forall k :: 0 <= k < |r| ==> sep !in r[k]
  {
    if s == [] then [""]
    else
      var rest := Split(s[1..], sep);
      if s[0] == sep then [""] + rest
      else [[s[0]] + rest[0]] + rest[1..]
  }

  /** A string without the separator is one piece. */
  lemma {:induction false} SplitNoSeparator(s: string, sep: char)
    requires sep !in s
    ensures Split(s, sep) == [s]
  {
    if s != [] {
      SplitNoSeparator(s[1..], sep);
      assert s == [s[0]] + s[1..];
    }
  }

  /** The text before the first separator is the first piece. */
  lemma {:induction false} SplitFirst(a: string, b: string, sep: char)
    requires sep !in a
    ensures Split(a + [sep] + b, sep) == [a] + Split(b, sep)
  {
    var s := a + [sep] + b;
    if a == [] {
      assert s[1..] == b;
    } else {
      assert s[1..] == a[1..] + [sep] + b;
      SplitFirst(a[1..], b, sep);
      assert [s[0]] + a[1..] == a;
    }
  }

  /** Joining the pieces of a split with the separator gives back the string. */
  lemma {:induction false} JoinSplit(s: string, sep: char)
    ensures Join(Split(s, sep), [sep]) == s
  {
    if s != [] {
      var rest := Split(s[1..], sep);
      JoinSplit(s[1..], sep);
      assert s == [s[0]] + s[1..];
      if s[0] == sep {
        assert ([""] + rest)[1..] == rest;
      } else {
        var r := [[s[0]] + rest[0]] + rest[1..];
        assert r[1..] == rest[1..];
        if |rest| > 1 {
          assert Join(rest, [sep]) == rest[0] + [sep] + Join(rest[1..], [sep]);
          assert Join(r, [sep]) == [s[0]] + rest[0] + [sep] + Join(rest[1..], [sep]);
        }
      }
    }
  }

  /** `new Map(s.map(x => [key(x), x]))`: a later element overrides an
      earlier one with the same key. */
  function IndexBy<T>(s: seq<T>, key: T -> string): (m: map<string, T>)
    ensures forall k :: k in m <==> exists i :: 0 <= i < |s| && key(s[i]) == k
  {
    if s == [] then map[]
    else
      var m := IndexBy(s[..|s| - 1], key);
      assert forall i :: 0 <= i < |s| - 1 ==> s[..|s| - 1][i] == s[i];
      m[key(s[|s| - 1]) := s[|s| - 1]]
  }

  /** The entry of a key is its last occurrence. */
  lemma {:induction false} IndexByLast<T>(s: seq<T>, key: T -> string, i: nat)
    requires i < |s|
    requires forall j :: i < j < |s| ==> key(s[j]) != key(s[i])
    ensures key(s[i]) in IndexBy(s, key) && IndexBy(s, key)[key(s[i])] == s[i]
  {
    if i < |s| - 1 {
      var init := s[..|s| - 1];
      assert init[i] == s[i];
      assert forall j :: i < j < |init| ==> init[j] == s[j];
      IndexByLast(init, key, i);
    }
  }

  /** The index entry of a present key is an element of the input with that key. */
  lemma {:induction false} IndexByFrom<T>(s: seq<T>, key: T -> string, k: string)
    requires k in IndexBy(s, key)
    ensures IndexBy(s, key)[k] in s && key(IndexBy(s, key)[k]) == k
  {
    var last := s[|s| - 1];
    if key(last) != k {
      IndexByFrom(s[..|s| - 1], key, k);
      assert s == s[..|s| - 1] + [last];
    }
  }

  /** The condition "the key of `x` is one of `ids`" (a `.in(column, ids)` query). */
  function KeyIn<T>(key: T -> string, ids: set<string>): T -> bool
  {
    x => key(x) in ids
  }

  /** Restricting the input to the keys in `ids` restricts the index to those
      keys and changes no entry. */
  lemma {:induction false} IndexByRestrict<T>(s: seq<T>, key: T -> string, ids: set<string>)
    ensures var m, r := IndexBy(s, key), IndexBy(Filter(s, KeyIn(key, ids)), key);
      forall k :: (k in r <==> k in m && k in ids) && (k in r ==> r[k] == m[k])
  {
    if s != [] {
      var keep := KeyIn(key, ids);
      var init, last := s[..|s| - 1], s[|s| - 1];
      assert s == init + [last];
      FilterConcat(init, [last], keep);
      IndexByRestrict(init, key, ids);
      var f := Filter(init, keep);
      if key(last) in ids {
        assert Filter(s, keep) == f + [last];
        assert (f + [last])[..|f|] == f;
      } else {
        assert Filter(s, keep) == f;
      }
    }
  }
}
