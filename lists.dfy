/**
 * The three array methods the core relies on, over lists whose elements carry a string id
 * given by `key`: `findIndex`, `find` and `filter` with an id test. Both the product
 * catalog and the notification list are searched and filtered this way.
 */
module Lists {
  import opened Outcomes

  /** Position of the first element with id `k`, or -1 when there is none (`findIndex`). */
  function IndexOf<T>(s: seq<T>, key: T -> string, k: string): (i: int)
    ensures -1 <= i < |s|
    ensures 0 <= i ==> key(s[i]) == k
    ensures forall j :: 0 <= j < |s| && (i < 0 || j < i) ==> key(s[j]) != k
  {
    if s == [] then -1
    else if key(s[0]) == k then 0
    else
      var t := IndexOf(s[1..], key, k);
      if t < 0 then -1 else t + 1
  }

  /** The first element with id `k`, if any (`find`). */
  function FindFirst<T>(s: seq<T>, key: T -> string, k: string): (r: Option<T>)
    ensures r.Some? <==> exists j :: 0 <= j < |s| && key(s[j]) == k
    ensures r.Some? ==> r.value in s && key(r.value) == k
    ensures r.Some? ==> r.value == s[IndexOf(s, key, k)]
  {
    var i := IndexOf(s, key, k);
    if i < 0 then None else Some(s[i])
  }

  /** The elements whose id is not `k`, in their original order (`filter(x => x.id !== k)`). */
  function Without<T(==)>(s: seq<T>, key: T -> string, k: string): (r: seq<T>)
    ensures |r| <= |s|
    ensures forall j :: 0 <= j < |r| ==> r[j] in s && key(r[j]) != k
    ensures forall j :: 0 <= j < |s| && key(s[j]) != k ==> s[j] in r
  {
    if s == [] then []
    else if key(s[0]) == k then Without(s[1..], key, k)
    else [s[0]] + Without(s[1..], key, k)
  }

  /** Filtering distributes over concatenation; with the two one-element cases this pins down order. */
  lemma {:induction false} WithoutConcat<T>(s: seq<T>, t: seq<T>, key: T -> string, k: string)
    ensures Without(s + t, key, k) == Without(s, key, k) + Without(t, key, k)
  {
    if s == [] {
      assert s + t == t;
    } else {
      assert (s + t)[1..] == s[1..] + t;
      WithoutConcat(s[1..], t, key, k);
    }
  }

  /** Filtering by an id that no element carries changes nothing. */
  lemma {:induction false} WithoutAbsent<T>(s: seq<T>, key: T -> string, k: string)
    requires forall j :: 0 <= j < |s| ==> key(s[j]) != k
    ensures Without(s, key, k) == s
  {
    if s != [] {
      WithoutAbsent(s[1..], key, k);
    }
  }

  /** Filtering twice by the same id is filtering once. */
  lemma WithoutIdempotent<T>(s: seq<T>, key: T -> string, k: string)
    ensures Without(Without(s, key, k), key, k) == Without(s, key, k)
  {
    var r := Without(s, key, k);
    WithoutAbsent(r, key, k);
  }

  /** After removal no element with the id is left, and the length drops by the number removed. */
  lemma {:induction false} WithoutCount<T>(s: seq<T>, key: T -> string, k: string)
    ensures |Without(s, key, k)| == |s| - Matches(s, key, k)
    ensures |Without(s, key, k)| == |s| <==> IndexOf(s, key, k) < 0
  {
    if s != [] {
      WithoutCount(s[1..], key, k);
    }
  }

  /** The number of elements with id `k`. */
  function Matches<T>(s: seq<T>, key: T -> string, k: string): nat
  {
    if s == [] then 0 else (if key(s[0]) == k then 1 else 0) + Matches(s[1..], key, k)
  }

  /** Appending an element whose id is fresh makes it the one `find` returns for that id. */
  lemma FindAppended<T>(s: seq<T>, x: T, key: T -> string)
    requires forall j :: 0 <= j < |s| ==> key(s[j]) != key(x)
    ensures IndexOf(s + [x], key, key(x)) == |s|
    ensures FindFirst(s + [x], key, key(x)) == Some(x)
  {
    assert (s + [x])[|s|] == x;
    assert forall j :: 0 <= j < |s| ==> (s + [x])[j] == s[j];
  }

  /** Appending an element with a fresh id and then filtering that id out restores the list. */
  lemma WithoutAppendedFresh<T>(s: seq<T>, x: T, key: T -> string)
    requires forall j :: 0 <= j < |s| ==> key(s[j]) != key(x)
    ensures Without(s + [x], key, key(x)) == s
  {
    WithoutConcat(s, [x], key, key(x));
    WithoutAbsent(s, key, key(x));
    assert [x][1..] == [];
  }
}
