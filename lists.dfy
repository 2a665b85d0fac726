/** Sequence operations the application performs with `filter`, `map` and `join`. */
module Lists {

  /** Some key of a non-empty map. */
  lemma PickKey<K, V>(m: map<K, V>) returns (k: K)
    requires m != map[]
    ensures k in m
  {
    if forall x :: x !in m {
      assert false;
    }
    k :| k in m;
  }

  /** Some element of a non-empty set. */
  lemma PickElem<T>(s: set<T>) returns (x: T)
    requires s != {}
    ensures x in s
  {
    if forall y :: y !in s {
      assert false;
    }
    x :| x in s;
  }

  /** Two maps with the same keys and the same value at every key are equal. */
  lemma MapsEqual<K, V>(a: map<K, V>, b: map<K, V>)
    requires forall k :: k in a <==> k in b
    requires forall k :: k in a ==> a[k] == b[k]
    ensures a == b
  {
  }

  /** No element occurs twice. */
  predicate NoDup<T(==)>(s: seq<T>)
  {
    forall i, j :: 0 <= i < j < |s| ==> s[i] != s[j]
  }

  /** `s.filter(v => v !== x)`: every occurrence of `x` removed, the rest kept in order. */
  function RemoveAll<T(==)>(s: seq<T>, x: T): (r: seq<T>)
    ensures x !in r
    ensures forall y :: y in r ==> y in s
    ensures forall y :: y in s && y != x ==> y in r
    ensures |r| <= |s|
  {
    if s == [] then [] else (if s[0] == x then [] else [s[0]]) + RemoveAll(s[1..], x)
  }

  /** Removing a value that does not occur changes nothing. */
  lemma {:induction false} RemoveAllAbsent<T>(s: seq<T>, x: T)
    requires x !in s
    ensures RemoveAll(s, x) == s
  {
    if s != [] {
      RemoveAllAbsent(s[1..], x);
    }
  }

  /** Removing a value just appended to a list without it gives the list back. */
  lemma {:induction false} RemoveAllAppend<T>(s: seq<T>, x: T)
    requires x !in s
    ensures RemoveAll(s + [x], x) == s
  {
    if s == [] {
      assert RemoveAll([x], x) == [] + RemoveAll([x][1..], x);
    } else {
      assert (s + [x])[0] == s[0] && (s + [x])[1..] == s[1..] + [x];
      RemoveAllAppend(s[1..], x);
    }
  }

  /** Removing every occurrence of a value keeps a duplicate-free list duplicate-free. */
  lemma {:induction false} RemoveAllNoDup<T>(s: seq<T>, x: T)
    requires NoDup(s)
    ensures NoDup(RemoveAll(s, x))
  {
    if s != [] {
      assert NoDup(s[1..]) by {
        forall i, j | 0 <= i < j < |s[1..]| ensures s[1..][i] != s[1..][j] {
          assert s[1..][i] == s[i + 1] && s[1..][j] == s[j + 1];
        }
      }
      RemoveAllNoDup(s[1..], x);
      var rest := RemoveAll(s[1..], x);
      assert s[0] !in s[1..];
      assert s[0] !in rest;
      var r := (if s[0] == x then [] else [s[0]]) + rest;
      forall i, j | 0 <= i < j < |r| ensures r[i] != r[j] {
        if s[0] != x && i == 0 {
          assert r[j] == rest[j - 1] && r[j] in rest;
        }
      }
    }
  }

  /** Appending a value that does not occur keeps a duplicate-free list duplicate-free. */
  lemma AppendNoDup<T>(s: seq<T>, x: T)
    requires NoDup(s) && x !in s
    ensures NoDup(s + [x])
  {
  }

  /** Two duplicate-free lists with no element in common concatenate to a duplicate-free list. */
  lemma NoDupConcat<T>(a: seq<T>, b: seq<T>)
    requires NoDup(a) && NoDup(b)
    requires forall i, j :: 0 <= i < |a| && 0 <= j < |b| ==> a[i] != b[j]
    ensures NoDup(a + b)
  {
    var c := a + b;
    forall i, j | 0 <= i < j < |c| ensures c[i] != c[j] {
      if j < |a| {
        assert c[i] == a[i] && c[j] == a[j];
      } else if i < |a| {
        assert c[i] == a[i] && c[j] == b[j - |a|];
      } else {
        assert c[i] == b[i - |a|] && c[j] == b[j - |a|];
      }
    }
  }

  /** The tail of a duplicate-free list is duplicate-free and does not hold the head. */
  lemma NoDupTail<T>(s: seq<T>)
    requires NoDup(s) && |s| > 0
    ensures NoDup(s[1..]) && s[0] !in s[1..]
  {
    var t := s[1..];
    forall i, j | 0 <= i < j < |t| ensures t[i] != t[j] {
      assert t[i] == s[i + 1] && t[j] == s[j + 1];
    }
    forall i | 0 <= i < |t| ensures t[i] != s[0] {
      assert t[i] == s[i + 1];
    }
  }

  /** Removing the value at `k` of a duplicate-free list drops that one element and keeps the order of the rest. */
  lemma {:induction false} RemoveAllAt<T>(s: seq<T>, k: int)
    requires NoDup(s) && 0 <= k < |s|
    ensures RemoveAll(s, s[k]) == s[..k] + s[k + 1..]
  {
    var t := s[1..];
    NoDupTail(s);
    if k == 0 {
      RemoveAllAbsent(t, s[0]);
    } else {
      assert t[k - 1] == s[k];
      assert s[0] != s[k];
      RemoveAllAt(t, k - 1);
      assert RemoveAll(s, s[k]) == [s[0]] + RemoveAll(t, s[k]);
      assert s[..k] == [s[0]] + t[..k - 1];
      assert s[k + 1..] == t[k..];
    }
  }

  /** One more element of a prefix. */
  lemma PrefixStep<T>(s: seq<T>, i: int)
    requires 0 <= i < |s|
    ensures s[..i + 1] == s[..i] + [s[i]]
  {
  }

  /** `s.filter((_, i) => i !== index)`, walking the list with its running index `offset`. */
  function DropIndexFrom<T>(s: seq<T>, index: int, offset: int): seq<T>
  {
    if s == [] then [] else (if offset == index then [] else [s[0]]) + DropIndexFrom(s[1..], index, offset + 1)
  }

  /** `s.filter((_, i) => i !== index)`. */
  function RemoveIndex<T>(s: seq<T>, index: int): seq<T>
  {
    DropIndexFrom(s, index, 0)
  }

  lemma {:induction false} DropIndexFromSlice<T>(s: seq<T>, index: int, offset: int)
    ensures DropIndexFrom(s, index, offset)
         == if offset <= index < offset + |s| then s[..index - offset] + s[index - offset + 1..] else s
  {
    if s != [] {
      DropIndexFromSlice(s[1..], index, offset + 1);
      if offset < index < offset + |s| {
        assert s[1..][..index - offset - 1] == s[1..index - offset];
        assert [s[0]] + s[1..index - offset] == s[..index - offset];
        assert s[1..][index - offset..] == s[index - offset + 1..];
      }
    }
  }

  /** Removal by index drops exactly that element and keeps the order of the rest; an index out of range changes nothing. */
  lemma RemoveIndexSpec<T>(s: seq<T>, index: int)
    ensures var r := RemoveIndex(s, index);
      && (0 <= index < |s| ==>
            && |r| == |s| - 1
            && (forall j :: 0 <= j < index ==> r[j] == s[j])
            && (forall j :: index <= j < |r| ==> r[j] == s[j + 1]))
      && (!(0 <= index < |s|) ==> r == s)
  {
    DropIndexFromSlice(s, index, 0);
  }

  /** `a` is `b` with some elements left out, the rest in the same order. */
  predicate Subsequence<T(==)>(a: seq<T>, b: seq<T>)
    decreases |b|
  {
    a == [] || (b != [] && ((a[0] == b[0] && Subsequence(a[1..], b[1..])) || Subsequence(a, b[1..])))
  }

  /** `ss.join(sep)` for a list of strings. */
  function JoinStrings(ss: seq<string>, sep: string): string
  {
    if |ss| == 0 then "" else if |ss| == 1 then ss[0] else ss[0] + sep + JoinStrings(ss[1..], sep)
  }
}
