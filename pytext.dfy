/**
 * Python 2 byte strings (`str`) and the few built-in string operations the
 * client relies on: `str.replace` of one character, `str.startswith`,
 * `sep.join(parts)` and the ordering `sorted` uses on string keys.
 */
module PyText {

  /** One byte of a Python 2 `str`. */
  type Byte = c: char | (c as int) < 256

  /** A Python 2 `str`: a sequence of bytes. */
  type PyStr = seq<Byte>

  /** `s.replace(from, to)` for one-character arguments. */
  function Replace(s: PyStr, from: Byte, to: Byte): (r: PyStr)
    ensures |r| == |s|
    ensures forall i :: 0 <= i < |s| ==> r[i] == (if s[i] == from then to else s[i])
    ensures from != to ==> from !in r
  {
    if s == [] then [] else [if s[0] == from then to else s[0]] + Replace(s[1..], from, to)
  }

  /** `s.startswith(prefix)`. */
  predicate StartsWith(s: PyStr, prefix: PyStr) {
    prefix <= s
  }

  /** `sep.join(parts)`. */
  function Join(sep: PyStr, parts: seq<PyStr>): (r: PyStr)
    ensures parts == [] ==> r == []
    ensures |parts| == 1 ==> r == parts[0]
  {
    if parts == [] then []
    else if |parts| == 1 then parts[0]
    else parts[0] + sep + Join(sep, parts[1..])
  }

  /** Every part followed by `sep`. */
  function Terminated(sep: PyStr, parts: seq<PyStr>): PyStr {
    if parts == [] then [] else parts[0] + sep + Terminated(sep, parts[1..])
  }

  /** `sep.join(parts) + sep` ends every part with `sep`. */
  lemma {:induction false} JoinThenTerminate(sep: PyStr, parts: seq<PyStr>)
    requires parts != []
    ensures Join(sep, parts) + sep == Terminated(sep, parts)
  {
    if |parts| > 1 {
      JoinThenTerminate(sep, parts[1..]);
    }
  }

  /** `needle` occurs in `s` starting at index `i`. */
  predicate OccursAt(needle: PyStr, s: PyStr, i: int) {
    0 <= i <= |s| - |needle| && s[i..i + |needle|] == needle
  }

  /** `needle` occurs in `s` as a contiguous run: Python's `needle in s`. */
  predicate IsSubstring(needle: PyStr, s: PyStr) {
    exists i | 0 <= i <= |s| - |needle| :: OccursAt(needle, s, i)
  }

  /** Each part, with the separator after it, occurs in the terminated text. */
  lemma {:induction false} TerminatedContains(sep: PyStr, parts: seq<PyStr>, j: int)
    requires 0 <= j < |parts|
    ensures IsSubstring(parts[j] + sep, Terminated(sep, parts))
  {
    var t := Terminated(sep, parts);
    var head := parts[0] + sep;
    if j == 0 {
      assert OccursAt(head, t, 0) by {
        assert t == head + Terminated(sep, parts[1..]);
      }
    } else {
      TerminatedContains(sep, parts[1..], j - 1);
      var rest := Terminated(sep, parts[1..]);
      var needle := parts[j] + sep;
      var i :| 0 <= i <= |rest| - |needle| && OccursAt(needle, rest, i);
      assert t == head + rest;
      OccursAfter(needle, head, rest, i);
    }
  }

  /** An occurrence in `rest` is one in `head + rest`, shifted by `|head|`. */
  lemma OccursAfter(needle: PyStr, head: PyStr, rest: PyStr, i: int)
    requires OccursAt(needle, rest, i)
    ensures OccursAt(needle, head + rest, |head| + i)
  {
    var t := head + rest;
    assert t[|head|..] == rest;
    assert t[|head| + i..|head| + i + |needle|] == rest[i..i + |needle|];
  }

  /** `TerminatedContains` for a part named by its value; callers use it to keep
      their proofs cheap, since it hides the indexing step. */
  lemma TerminatedContainsPart(sep: PyStr, parts: seq<PyStr>, j: int, part: PyStr)
    requires 0 <= j < |parts| && parts[j] == part
    ensures IsSubstring(part + sep, Terminated(sep, parts))
  {
    TerminatedContains(sep, parts, j);
  }

  /** Python 2's ordering of byte strings: lexicographic on bytes, a proper prefix first. */
  predicate Less(a: PyStr, b: PyStr)
    decreases |a|
  {
    |b| > 0 && (|a| == 0 || a[0] < b[0] || (a[0] == b[0] && Less(a[1..], b[1..])))
  }

  lemma {:induction false} LessIrreflexive(a: PyStr)
    ensures !Less(a, a)
  {
    if |a| > 0 {
      LessIrreflexive(a[1..]);
    }
  }

  lemma {:induction false} LessTransitive(a: PyStr, b: PyStr, c: PyStr)
    requires Less(a, b) && Less(b, c)
    ensures Less(a, c)
  {
    if |a| > 0 && a[0] == b[0] && b[0] == c[0] {
      LessTransitive(a[1..], b[1..], c[1..]);
    }
  }

  lemma {:induction false} LessTotal(a: PyStr, b: PyStr)
    requires a != b
    ensures Less(a, b) || Less(b, a)
  {
    if |a| > 0 && |b| > 0 && a[0] == b[0] {
      LessTotal(a[1..], b[1..]);
    }
  }

  lemma LessAsymmetric(a: PyStr, b: PyStr)
    requires Less(a, b)
    ensures !Less(b, a)
  {
    if Less(b, a) {
      LessTransitive(a, b, a);
      LessIrreflexive(a);
    }
  }

  /** `m` is the smallest element of `keys`. */
  predicate IsLeast(m: PyStr, keys: set<PyStr>) {
    m in keys && forall k :: k in keys && k != m ==> Less(m, k)
  }

  lemma {:induction false} LeastExists(keys: set<PyStr>)
    requires keys != {}
    ensures exists m :: IsLeast(m, keys)
    decreases |keys|
  {
    var x :| x in keys;
    var rest := keys - {x};
    if rest == {} {
      assert keys == {x};
      assert IsLeast(x, keys);
    } else {
      LeastExists(rest);
      var m :| IsLeast(m, rest);
      if Less(x, m) {
        forall k | k in keys && k != x
          ensures Less(x, k)
        {
          if k != m {
            LessTransitive(x, m, k);
          }
        }
        assert IsLeast(x, keys);
      } else {
        LessTotal(x, m);
        assert IsLeast(m, keys);
      }
    }
  }

  ghost predicate StrictlyAscending(s: seq<PyStr>) {
    forall i, j :: 0 <= i < j < |s| ==> Less(s[i], s[j])
  }

  /** A set has at most one least key, so `sorted`'s choice is determined. */
  lemma LeastUnique(keys: set<PyStr>)
    ensures forall m, n :: IsLeast(m, keys) && IsLeast(n, keys) ==> m == n
  {
    forall m, n | IsLeast(m, keys) && IsLeast(n, keys)
      ensures m == n
    {
      if m != n {
        LessAsymmetric(m, n);
      }
    }
  }

  /** The keys of a dictionary in the order `sorted` yields them. */
  function SortedKeys(keys: set<PyStr>): (r: seq<PyStr>)
    ensures |r| == |keys|
    ensures forall i :: 0 <= i < |r| ==> r[i] in keys
    ensures forall k :: k in keys ==> k in r
    decreases |keys|
  {
    if keys == {} then []
    else
      LeastExists(keys);
      LeastUnique(keys);
      var m :| IsLeast(m, keys);
      [m] + SortedKeys(keys - {m})
  }

  /** `sorted` yields the keys in strictly ascending order. */
  lemma {:induction false} SortedKeysAscending(keys: set<PyStr>)
    ensures StrictlyAscending(SortedKeys(keys))
    decreases |keys|
  {
    if keys != {} {
      LeastExists(keys);
      var m :| IsLeast(m, keys);
      SortedKeysUnfold(m, keys);
      var rest := SortedKeys(keys - {m});
      SortedKeysAscending(keys - {m});
      forall i | 0 <= i < |rest|
        ensures Less(m, rest[i])
      {
        assert rest[i] in keys - {m};
      }
      AscendingCons(m, rest);
    }
  }

  /** A key below every key of an ascending sequence can go in front of it. */
  lemma AscendingCons(m: PyStr, rest: seq<PyStr>)
    requires StrictlyAscending(rest)
    requires forall i :: 0 <= i < |rest| ==> Less(m, rest[i])
    ensures StrictlyAscending([m] + rest)
  {
    var s := [m] + rest;
    forall i, j | 0 <= i < j < |s|
      ensures Less(s[i], s[j])
    {
      assert s[j] == rest[j - 1];
      if i > 0 {
        assert s[i] == rest[i - 1];
      }
    }
  }

  /** Taking the least key first and sorting the rest gives the sorted keys. */
  lemma SortedKeysUnfold(m: PyStr, keys: set<PyStr>)
    requires IsLeast(m, keys)
    ensures SortedKeys(keys) == [m] + SortedKeys(keys - {m})
  {
    var r := SortedKeys(keys);
    assert r[0] in keys;
    forall k | k in keys && k != r[0]
      ensures Less(r[0], k)
    {
      var i :| 0 <= i < |r| && r[i] == k;
    }
    LeastUnique(keys);
  }
}
