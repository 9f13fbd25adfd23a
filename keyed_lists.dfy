/** The three array expressions both chat stores build on, over a sequence
    of records identified by a string key:
      - `s.find(x => key(x) === k)`                  (Find, FindIndex)
      - `s.filter(x => key(x) !== k)`                (FilterOut)
      - `s.map(x => key(x) === k ? f(x) : x)`        (MapMatching)
    and the facts about them the stores rely on. */
module KeyedLists {
  import opened Common

  /** The keys of `s`, in order. */
  function Keys<T>(s: seq<T>, key: T -> string): seq<string>
  {
    seq(|s|, i requires 0 <= i < |s| => key(s[i]))
  }

  /** No key occurs twice in `s`. */
  predicate UniqueKeys<T>(s: seq<T>, key: T -> string)
  {
    forall i, j :: 0 <= i < j < |s| ==> key(s[i]) != key(s[j])
  }

  /** The position `find` stops at: the first element whose key is `k`. */
  function FindIndex<T>(s: seq<T>, key: T -> string, k: string): (r: Option<nat>)
    ensures r.None? <==> k !in Keys(s, key)
    ensures r.Some? ==> r.value < |s| && key(s[r.value]) == k
    ensures r.Some? ==> forall j :: 0 <= j < r.value ==> key(s[j]) != k
  {
    if s == [] then None
    else
      assert Keys(s, key) == [key(s[0])] + Keys(s[1..], key);
      if key(s[0]) == k then Some(0)
      else match FindIndex(s[1..], key, k)
      case None => None
      case Some(i) => Some(i + 1)
  }

  /** `s.find(x => key(x) === k)`: the first element with key `k`, if any. */
  function Find<T>(s: seq<T>, key: T -> string, k: string): (r: Option<T>)
    ensures r.None? <==> k !in Keys(s, key)
    ensures r.Some? ==> key(r.value) == k
    ensures r.Some? ==> exists i :: 0 <= i < |s| && s[i] == r.value && forall j :: 0 <= j < i ==> key(s[j]) != k
  {
    match FindIndex(s, key, k)
    case None => None
    case Some(i) => Some(s[i])
  }

  /** `s.filter(x => key(x) !== k)`. */
  function FilterOut<T>(s: seq<T>, key: T -> string, k: string): (r: seq<T>)
    ensures forall i :: 0 <= i < |r| ==> r[i] in s && key(r[i]) != k
    ensures forall i :: 0 <= i < |s| && key(s[i]) != k ==> s[i] in r
    ensures k !in Keys(r, key)
    ensures |r| <= |s|
    ensures k !in Keys(s, key) ==> r == s
  {
    if s == [] then []
    else
      assert Keys(s, key) == [key(s[0])] + Keys(s[1..], key);
      var rest := FilterOut(s[1..], key, k);
      var r := if key(s[0]) == k then rest else [s[0]] + rest;
      assert Keys(r, key) == if key(s[0]) == k then Keys(rest, key) else [key(s[0])] + Keys(rest, key);
      r
  }

  /** `s.map(x => key(x) === k ? f(x) : x)`. */
  function MapMatching<T>(s: seq<T>, key: T -> string, k: string, f: T -> T): (r: seq<T>)
    ensures |r| == |s|
    ensures forall i :: 0 <= i < |s| && key(s[i]) == k ==> r[i] == f(s[i])
    ensures forall i :: 0 <= i < |s| && key(s[i]) != k ==> r[i] == s[i]
  {
    if s == [] then []
    else [if key(s[0]) == k then f(s[0]) else s[0]] + MapMatching(s[1..], key, k, f)
  }

  /** `find` looks only at keys: two sequences with the same keys stop at
      the same position. */
  lemma FindIndexSameKeys<T>(a: seq<T>, b: seq<T>, key: T -> string, k: string)
    requires Keys(a, key) == Keys(b, key)
    ensures FindIndex(a, key, k) == FindIndex(b, key, k)
  {
    var ra, rb := FindIndex(a, key, k), FindIndex(b, key, k);
    assert |a| == |Keys(a, key)| == |b|;
    if ra.Some? && rb.Some? {
      assert key(a[ra.value]) == Keys(a, key)[ra.value] == key(b[ra.value]);
      assert key(b[rb.value]) == Keys(b, key)[rb.value] == key(a[rb.value]);
    }
  }

  /** Filtering distributes over concatenation: the survivors of `a` still
      come before the survivors of `b`, so the relative order is kept. */
  lemma {:induction false} FilterOutConcat<T>(a: seq<T>, b: seq<T>, key: T -> string, k: string)
    ensures FilterOut(a + b, key, k) == FilterOut(a, key, k) + FilterOut(b, key, k)
  {
    if a == [] {
      assert a + b == b;
    } else {
      assert (a + b)[1..] == a[1..] + b;
      FilterOutConcat(a[1..], b, key, k);
    }
  }

  /** Filtering twice by the same key is filtering once. */
  lemma FilterOutIdempotent<T>(s: seq<T>, key: T -> string, k: string)
    ensures FilterOut(FilterOut(s, key, k), key, k) == FilterOut(s, key, k)
  {
  }

  /** With unique keys, filtering out the key of `s[i]` removes exactly
      that element and keeps the others in their order. */
  lemma FilterOutUnique<T>(s: seq<T>, key: T -> string, i: nat)
    requires UniqueKeys(s, key) && i < |s|
    ensures FilterOut(s, key, key(s[i])) == s[..i] + s[i + 1..]
  {
    var k, before, after := key(s[i]), s[..i], s[i + 1..];
    forall j | 0 <= j < |before| ensures key(before[j]) != k {
      assert before[j] == s[j] && j < i;
    }
    forall j | 0 <= j < |after| ensures key(after[j]) != k {
      assert after[j] == s[i + 1 + j] && i < i + 1 + j;
    }
    FilterOutSplit(before, s[i], after, key);
    assert s == before + [s[i]] + after;
  }

  /** Filtering the key of `x` out of `before + [x] + after`, when neither
      side holds that key, leaves `before + after`. */
  lemma FilterOutSplit<T>(before: seq<T>, x: T, after: seq<T>, key: T -> string)
    requires forall j :: 0 <= j < |before| ==> key(before[j]) != key(x)
    requires forall j :: 0 <= j < |after| ==> key(after[j]) != key(x)
    ensures FilterOut(before + [x] + after, key, key(x)) == before + after
  {
    var k := key(x);
    assert FilterOut(before, key, k) == before by {
      assert forall j :: 0 <= j < |before| ==> Keys(before, key)[j] != k;
    }
    assert FilterOut(after, key, k) == after by {
      assert forall j :: 0 <= j < |after| ==> Keys(after, key)[j] != k;
    }
    assert FilterOut([x], key, k) == [] by {
      assert [x][1..] == [];
    }
    calc {
      FilterOut(before + [x] + after, key, k);
      { FilterOutConcat(before + [x], after, key, k); }
      FilterOut(before + [x], key, k) + FilterOut(after, key, k);
      { FilterOutConcat(before, [x], key, k); }
      FilterOut(before, key, k) + FilterOut([x], key, k) + FilterOut(after, key, k);
      before + [] + after;
      { assert before + [] == before; }
      before + after;
    }
  }

  /** Filtering keeps keys unique. */
  lemma {:induction false} FilterOutKeepsUnique<T>(s: seq<T>, key: T -> string, k: string)
    requires UniqueKeys(s, key)
    ensures UniqueKeys(FilterOut(s, key, k), key)
  {
    if s != [] {
      FilterOutKeepsUnique(s[1..], key, k);
      var rest := FilterOut(s[1..], key, k);
      if key(s[0]) != k {
        forall j | 0 <= j < |rest| ensures key(rest[j]) != key(s[0]) {
          assert rest[j] in s[1..];
        }
        assert FilterOut(s, key, k) == [s[0]] + rest;
      }
    }
  }

  /** Appending an element with a fresh key keeps keys unique, and `find`
      on that key returns it. */
  lemma AppendFresh<T>(s: seq<T>, x: T, key: T -> string)
    requires key(x) !in Keys(s, key)
    ensures Keys(s + [x], key) == Keys(s, key) + [key(x)]
    ensures Find(s + [x], key, key(x)) == Some(x)
    ensures UniqueKeys(s, key) ==> UniqueKeys(s + [x], key)
  {
    assert Keys(s + [x], key) == Keys(s, key) + [key(x)];
    forall j | 0 <= j < |s| ensures key(s[j]) != key(x) {
      assert Keys(s, key)[j] == key(s[j]);
    }
  }

  /** When `f` keeps keys, `map` keeps the keys of the whole sequence. */
  lemma MapMatchingKeys<T>(s: seq<T>, key: T -> string, k: string, f: T -> T)
    requires forall x :: key(f(x)) == key(x)
    ensures Keys(MapMatching(s, key, k, f), key) == Keys(s, key)
  {
    var r := MapMatching(s, key, k, f);
    forall i | 0 <= i < |s| ensures Keys(r, key)[i] == Keys(s, key)[i] {
      if key(s[i]) == k {
        assert key(f(s[i])) == key(s[i]);
      }
    }
  }
}
