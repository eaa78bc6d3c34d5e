/**
 * Shared helpers for the analysis engine model: optional values, Python
 * truthiness of optional numbers, ASCII string tests, and the stable sort
 * that Python's `list.sort`/`sorted` perform.
 */
module Common {

  datatype Option<T> = None | Some(value: T)

  // ---------------------------------------------------------------------
  // Python truthiness of a dictionary value that may be missing
  // ---------------------------------------------------------------------

  /** `bool(v)` for a number read with `dict.get`: present and non-zero. */
  predicate Truthy(o: Option<real>)
  {
    o.Some? && o.value != 0.0
  }

  /** `d.get(k1, 0) or d.get(k2, 0) or ... or 0`: the first truthy value, else 0. */
  function FirstTruthy(xs: seq<Option<real>>): (r: real)
    ensures r == 0.0 <==> forall i :: 0 <= i < |xs| ==> !Truthy(xs[i])
    ensures r != 0.0 ==> Some(r) in xs
    ensures |xs| > 0 && Truthy(xs[0]) ==> r == xs[0].value
  {
    if |xs| == 0 then 0.0
    else if Truthy(xs[0]) then xs[0].value
    else FirstTruthy(xs[1..])
  }

  /** `d.get(k) or default` for a value that is already a number. */
  function OrZero(o: Option<real>): real
  {
    if Truthy(o) then o.value else 0.0
  }

  /** Python truthiness of an optional string: present and non-empty. */
  predicate TruthyText(o: Option<string>)
  {
    o.Some? && |o.value| > 0
  }

  /** Python's `int()` on a float: truncation toward zero. */
  function TruncateToInt(x: real): (n: int)
    ensures 0.0 <= x ==> n as real <= x < n as real + 1.0
    ensures x < 0.0 ==> n as real - 1.0 < x <= n as real
  {
    if x >= 0.0 then x.Floor else -((-x).Floor)
  }

  function Max(a: real, b: real): real { if a >= b then a else b }
  function Min(a: real, b: real): real { if a <= b then a else b }
  function MaxInt(a: int, b: int): int { if a >= b then a else b }

  // ---------------------------------------------------------------------
  // Strings (ASCII case mapping; Python's Unicode tables are not modelled)
  // ---------------------------------------------------------------------

  function LowerChar(c: char): char
  {
    if 'A' <= c <= 'Z' then (c as int + 32) as char else c
  }

  function UpperChar(c: char): char
  {
    if 'a' <= c <= 'z' then (c as int - 32) as char else c
  }

  /** `str.lower()` on ASCII letters. */
  function Lower(s: string): (r: string)
    ensures |r| == |s|
    ensures forall i :: 0 <= i < |s| ==> r[i] == LowerChar(s[i])
  {
    if |s| == 0 then [] else [LowerChar(s[0])] + Lower(s[1..])
  }

  /** `str.upper()` on ASCII letters. */
  function Upper(s: string): (r: string)
    ensures |r| == |s|
    ensures forall i :: 0 <= i < |s| ==> r[i] == UpperChar(s[i])
  {
    if |s| == 0 then [] else [UpperChar(s[0])] + Upper(s[1..])
  }

  predicate StartsWith(s: string, p: string)
  {
    |p| <= |s| && s[..|p|] == p
  }

  predicate EndsWith(s: string, p: string)
  {
    |p| <= |s| && s[|s| - |p|..] == p
  }

  /** Python `sub in s` for strings. */
  predicate Contains(s: string, sub: string)
    decreases |s|
  {
    StartsWith(s, sub) || (|s| > 0 && Contains(s[1..], sub))
  }

  /** Python `any(k in s for k in ks)`. */
  predicate ContainsAny(s: string, ks: seq<string>)
  {
    exists i :: 0 <= i < |ks| && Contains(s, ks[i])
  }

  /** Whitespace removed by `str.strip()` (the ASCII subset). */
  predicate IsSpace(c: char)
  {
    c == ' ' || c == '\t' || c == '\n' || c == '\r' || c as int == 11 || c as int == 12
  }

  function StripLeft(s: string): (r: string)
    ensures |r| <= |s|
    ensures |r| > 0 ==> !IsSpace(r[0])
  {
    if |s| > 0 && IsSpace(s[0]) then StripLeft(s[1..]) else s
  }

  function StripRight(s: string): (r: string)
    ensures |r| <= |s|
    ensures |r| > 0 ==> !IsSpace(r[|r| - 1])
  {
    if |s| > 0 && IsSpace(s[|s| - 1]) then StripRight(s[..|s| - 1]) else s
  }

  /** `str.strip()`. */
  function Strip(s: string): string
  {
    StripRight(StripLeft(s))
  }

  /** The first position of `sub` in `s`, when it occurs (`s.find(sub)`). */
  function Find(s: string, sub: string): (i: nat)
    requires Contains(s, sub)
    ensures i + |sub| <= |s| && s[i..i + |sub|] == sub
    decreases |s|
  {
    if StartsWith(s, sub) then 0
    else
      var j := Find(s[1..], sub);
      SubSlice(s, 1, |s|, j, |sub|);
      j + 1
  }

  /** A slice of a slice is a slice. */
  lemma SubSlice(s: string, i: nat, k: nat, j: nat, n: nat)
    requires i <= k <= |s| && j + n <= k - i
    ensures s[i..k][j..j + n] == s[i + j..i + j + n]
  {
    var t, u := s[i..k][j..j + n], s[i + j..i + j + n];
    assert forall m :: 0 <= m < n ==> t[m] == u[m];
  }

  lemma {:induction false} ContainsAt(s: string, sub: string, i: nat)
    requires i + |sub| <= |s| && s[i..i + |sub|] == sub
    ensures Contains(s, sub)
    decreases i
  {
    if i > 0 {
      SubSlice(s, 1, |s|, i - 1, |sub|);
      ContainsAt(s[1..], sub, i - 1);
    }
  }

  /** A text lacking one of the characters of `sub` does not contain `sub`. */
  lemma {:induction false} MissingCharNotContained(s: string, sub: string, c: char)
    requires c in sub && c !in s
    ensures !Contains(s, sub)
    decreases |s|
  {
    if |s| > 0 {
      assert forall x :: x in s[1..] ==> x in s;
      MissingCharNotContained(s[1..], sub, c);
    }
  }

  /** A text containing `a` contains everything `a` contains. */
  lemma ContainsTrans(s: string, a: string, b: string)
    requires Contains(s, a) && Contains(a, b)
    ensures Contains(s, b)
  {
    var i, j := Find(s, a), Find(a, b);
    SubSlice(s, i, i + |a|, j, |b|);
    ContainsAt(s, b, i + j);
  }

  lemma {:induction false} StartsWithStripRight(t: string, k: string)
    requires StartsWith(StripRight(t), k)
    ensures StartsWith(t, k)
    decreases |t|
  {
    if |t| > 0 && IsSpace(t[|t| - 1]) {
      StartsWithStripRight(t[..|t| - 1], k);
      assert t[..|t| - 1][..|k|] == t[..|k|];
    }
  }

  lemma {:induction false} ContainsOfStripLeft(s: string, k: string)
    requires StartsWith(StripLeft(s), k)
    ensures Contains(s, k)
    decreases |s|
  {
    if |s| > 0 && IsSpace(s[0]) {
      ContainsOfStripLeft(s[1..], k);
    }
  }

  /** A prefix of the stripped text occurs in the text. */
  lemma StartsWithStripContains(s: string, k: string)
    requires StartsWith(Strip(s), k)
    ensures Contains(s, k)
  {
    StartsWithStripRight(StripLeft(s), k);
    ContainsOfStripLeft(s, k);
  }

  /** `str.replace(c, rep)` for a one-character pattern. */
  function ReplaceChar(s: string, c: char, rep: string): (r: string)
    ensures c !in r || c in rep
  {
    if |s| == 0 then []
    else (if s[0] == c then rep else [s[0]]) + ReplaceChar(s[1..], c, rep)
  }

  // ---------------------------------------------------------------------
  // Sequences
  // ---------------------------------------------------------------------

  predicate NoDuplicates<T(==)>(s: seq<T>)
  {
    forall i, j :: 0 <= i < j < |s| ==> s[i] != s[j]
  }

  /** The keys whose flag is set, in key order (a filtered dict comprehension). */
  function Selected(keys: seq<string>, flags: seq<bool>): (r: seq<string>)
    requires |flags| == |keys|
    ensures |r| <= |keys|
    ensures forall x :: x in r <==> exists i :: 0 <= i < |keys| && keys[i] == x && flags[i]
  {
    if |keys| == 0 then []
    else
      var rest := Selected(keys[1..], flags[1..]);
      assert forall i :: 1 <= i < |keys| ==> keys[1..][i - 1] == keys[i] && flags[1..][i - 1] == flags[i];
      (if flags[0] then [keys[0]] else []) + rest
  }

  lemma {:induction false} SelectedNoDuplicates(keys: seq<string>, flags: seq<bool>)
    requires |flags| == |keys| && NoDuplicates(keys)
    ensures NoDuplicates(Selected(keys, flags))
  {
    if |keys| > 0 {
      SelectedNoDuplicates(keys[1..], flags[1..]);
      assert forall i :: 0 <= i < |keys| - 1 ==> keys[1..][i] != keys[0];
      var rest := Selected(keys[1..], flags[1..]);
      assert keys[0] !in rest;
      var r := (if flags[0] then [keys[0]] else []) + rest;
      assert r == Selected(keys, flags);
      assert forall i, j :: 0 <= i < j < |r| ==> r[i] != r[j] by {
        forall i, j | 0 <= i < j < |r| ensures r[i] != r[j] {
          if flags[0] && i == 0 {
            assert r[j] == rest[j - 1];
          }
        }
      }
    }
  }

  function Take<T>(s: seq<T>, n: nat): (r: seq<T>)
    ensures |r| == if n <= |s| then n else |s|
    ensures r == s[..|r|]
  {
    if n <= |s| then s[..n] else s
  }

  // ---------------------------------------------------------------------
  // Stable sort by a numeric key (Python's `sorted(xs, key=...)`, which is
  // guaranteed stable; `reverse=True` keeps it stable and is the same as
  // sorting by the negated key)
  // ---------------------------------------------------------------------

  ghost predicate SortedBy<T>(s: seq<T>, key: T -> real)
  {
    forall i, j :: 0 <= i < j < |s| ==> key(s[i]) <= key(s[j])
  }

  /** Insert `x` in front of the first element whose key is greater. */
  function InsertBy<T>(t: seq<T>, x: T, key: T -> real): seq<T>
  {
    if |t| == 0 then [x]
    else if key(x) < key(t[0]) then [x] + t
    else [t[0]] + InsertBy(t[1..], x, key)
  }

  /** Insertion sort from the left: equal keys keep their input order. */
  function SortBy<T>(s: seq<T>, key: T -> real): seq<T>
  {
    if |s| == 0 then [] else InsertBy(SortBy(s[..|s| - 1], key), s[|s| - 1], key)
  }

  /** The elements with key `k`, in order. Stability is stated with it. */
  function KeyFilter<T>(s: seq<T>, key: T -> real, k: real): seq<T>
  {
    if |s| == 0 then []
    else (if key(s[0]) == k then [s[0]] else []) + KeyFilter(s[1..], key, k)
  }

  lemma {:induction false} KeyFilterAppend<T>(a: seq<T>, b: seq<T>, key: T -> real, k: real)
    ensures KeyFilter(a + b, key, k) == KeyFilter(a, key, k) + KeyFilter(b, key, k)
  {
    if |a| > 0 {
      assert (a + b)[1..] == a[1..] + b;
      KeyFilterAppend(a[1..], b, key, k);
    } else {
      assert a + b == b;
    }
  }

  lemma {:induction false} KeyFilterAbove<T>(t: seq<T>, key: T -> real, k: real)
    requires SortedBy(t, key)
    requires |t| > 0 ==> key(t[0]) > k
    ensures KeyFilter(t, key, k) == []
  {
    if |t| > 0 {
      if |t| > 1 {
        assert key(t[0]) <= key(t[1]);
      }
      KeyFilterAbove(t[1..], key, k);
    }
  }

  lemma {:induction false} InsertByMultiset<T>(t: seq<T>, x: T, key: T -> real)
    ensures multiset(InsertBy(t, x, key)) == multiset(t) + multiset{x}
    ensures |InsertBy(t, x, key)| == |t| + 1
  {
    if |t| > 0 && key(x) >= key(t[0]) {
      InsertByMultiset(t[1..], x, key);
      assert t == [t[0]] + t[1..];
    }
  }

  lemma {:induction false} InsertBySorted<T>(t: seq<T>, x: T, key: T -> real)
    requires SortedBy(t, key)
    ensures SortedBy(InsertBy(t, x, key), key)
  {
    if |t| == 0 {
    } else if key(x) < key(t[0]) {
      var r := [x] + t;
      forall i, j | 0 <= i < j < |r| ensures key(r[i]) <= key(r[j]) {
        assert r[j] == t[j - 1];
        if i > 0 {
          assert r[i] == t[i - 1];
        }
      }
    } else {
      var rest := InsertBy(t[1..], x, key);
      InsertBySorted(t[1..], x, key);
      InsertByLowerBound(t[1..], x, key, key(t[0]));
      var r := [t[0]] + rest;
      forall i, j | 0 <= i < j < |r| ensures key(r[i]) <= key(r[j]) {
        assert r[j] == rest[j - 1];
        if i > 0 {
          assert r[i] == rest[i - 1];
        }
      }
    }
  }

  /** Inserting an element no lower than a bound keeps every key above it. */
  lemma {:induction false} InsertByLowerBound<T>(t: seq<T>, x: T, key: T -> real, lo: real)
    requires forall i :: 0 <= i < |t| ==> lo <= key(t[i])
    requires lo <= key(x)
    ensures forall i :: 0 <= i < |InsertBy(t, x, key)| ==> lo <= key(InsertBy(t, x, key)[i])
  {
    if |t| > 0 && key(x) >= key(t[0]) {
      InsertByLowerBound(t[1..], x, key, lo);
      var rest := InsertBy(t[1..], x, key);
      assert forall i :: 0 < i < |rest| + 1 ==> ([t[0]] + rest)[i] == rest[i - 1];
    }
  }

  /** An element placed before a sorted sequence with higher keys filters to the front. */
  lemma InsertFrontKeyFilter<T>(t: seq<T>, x: T, key: T -> real, k: real)
    requires SortedBy(t, key) && |t| > 0 && key(x) < key(t[0])
    ensures KeyFilter([x] + t, key, k) == KeyFilter(t, key, k) + (if key(x) == k then [x] else [])
  {
    var r := [x] + t;
    assert r[1..] == t;
    if key(x) == k {
      KeyFilterAbove(t, key, k);
    }
  }

  lemma SortedByTail<T>(t: seq<T>, key: T -> real)
    requires SortedBy(t, key) && |t| > 0
    ensures SortedBy(t[1..], key)
  {
    forall i, j | 0 <= i < j < |t[1..]| ensures key(t[1..][i]) <= key(t[1..][j]) {
      assert t[1..][i] == t[i + 1] && t[1..][j] == t[j + 1];
    }
  }

  lemma {:induction false} InsertByKeyFilter<T>(t: seq<T>, x: T, key: T -> real, k: real)
    requires SortedBy(t, key)
    ensures KeyFilter(InsertBy(t, x, key), key, k)
         == KeyFilter(t, key, k) + (if key(x) == k then [x] else [])
  {
    var tail := if key(x) == k then [x] else [];
    if |t| == 0 {
      assert KeyFilter([x], key, k) == tail + KeyFilter([x][1..], key, k);
    } else if key(x) < key(t[0]) {
      InsertFrontKeyFilter(t, x, key, k);
    } else {
      var rest := InsertBy(t[1..], x, key);
      SortedByTail(t, key);
      InsertByKeyFilter(t[1..], x, key, k);
      var head := if key(t[0]) == k then [t[0]] else [];
      var r := [t[0]] + rest;
      assert r[1..] == rest;
      calc {
        KeyFilter(r, key, k);
        head + KeyFilter(rest, key, k);
        head + (KeyFilter(t[1..], key, k) + tail);
        (head + KeyFilter(t[1..], key, k)) + tail;
        KeyFilter(t, key, k) + tail;
      }
    }
  }

  /** The sort is ordered, a permutation of its input, and stable. */
  lemma {:induction false} SortByProps<T>(s: seq<T>, key: T -> real, k: real)
    ensures SortedBy(SortBy(s, key), key)
    ensures multiset(SortBy(s, key)) == multiset(s)
    ensures |SortBy(s, key)| == |s|
    ensures KeyFilter(SortBy(s, key), key, k) == KeyFilter(s, key, k)
  {
    if |s| > 0 {
      var init, last := s[..|s| - 1], s[|s| - 1];
      SortByProps(init, key, k);
      InsertBySorted(SortBy(init, key), last, key);
      InsertByMultiset(SortBy(init, key), last, key);
      InsertByKeyFilter(SortBy(init, key), last, key, k);
      assert s == init + [last];
      KeyFilterAppend(init, [last], key, k);
      assert KeyFilter([last], key, k) == if key(last) == k then [last] else [];
      assert multiset(s) == multiset(init) + multiset{last};
    }
  }

  /** The sorted sequence holds exactly the input's elements. */
  lemma SortByMembers<T>(s: seq<T>, key: T -> real)
    ensures forall x :: x in SortBy(s, key) <==> x in s
  {
    SortByProps(s, key, 0.0);
    forall x ensures x in SortBy(s, key) <==> x in s {
      assert x in SortBy(s, key) <==> x in multiset(SortBy(s, key));
      assert x in s <==> x in multiset(s);
    }
  }

  // ---------------------------------------------------------------------
  // Sums of a numeric field
  // ---------------------------------------------------------------------

  /** The sum of `f` over `s`, accumulated from the left. */
  function SumOf<T>(s: seq<T>, f: T -> real): real
  {
    if |s| == 0 then 0.0 else SumOf(s[..|s| - 1], f) + f(s[|s| - 1])
  }

  lemma {:induction false} SumOfAppend<T>(a: seq<T>, b: seq<T>, f: T -> real)
    ensures SumOf(a + b, f) == SumOf(a, f) + SumOf(b, f)
    decreases |b|
  {
    if |b| == 0 {
      assert a + b == a;
    } else {
      assert (a + b)[..|a + b| - 1] == a + b[..|b| - 1];
      SumOfAppend(a, b[..|b| - 1], f);
    }
  }

  /** Reordering does not change a sum. */
  lemma {:induction false} SumOfPermutation<T>(a: seq<T>, b: seq<T>, f: T -> real)
    requires multiset(a) == multiset(b)
    ensures SumOf(a, f) == SumOf(b, f)
    decreases |a|
  {
    if |a| > 0 {
      var x := a[|a| - 1];
      assert x in multiset(b);
      var j :| 0 <= j < |b| && b[j] == x;
      var rest := b[..j] + b[j + 1..];
      assert b == b[..j] + [x] + b[j + 1..];
      assert a == a[..|a| - 1] + [x];
      calc {
        multiset(a[..|a| - 1]) + multiset{x};
        multiset(a);
        multiset(b);
        multiset(b[..j]) + multiset{x} + multiset(b[j + 1..]);
        multiset(rest) + multiset{x};
      }
      var ma, mr := multiset(a[..|a| - 1]), multiset(rest);
      assert ma == (ma + multiset{x}) - multiset{x};
      assert mr == (mr + multiset{x}) - multiset{x};
      SumOfPermutation(a[..|a| - 1], rest, f);
      SumOfAppend(b[..j] + [x], b[j + 1..], f);
      SumOfAppend(b[..j], [x], f);
      SumOfAppend(b[..j], b[j + 1..], f);
      assert SumOf([x], f) == f(x) by {
        assert [x][..0] == [];
      }
    } else {
      assert b == [];
    }
  }
}
