/**
 * The two list disciplines the scrapers share: "the first element that qualifies wins"
 * (every `for ...: if ...: break` loop) and the stable first-occurrence-wins de-duplication
 * (the `seen` set loops).
 */
module Sequences {
  import opened Wrappers

  /** Index of the first element of `xs` satisfying `p`, if any. */
  function Find<T>(xs: seq<T>, p: T -> bool): (r: Option<nat>)
    ensures r.Some? ==> r.value < |xs| && p(xs[r.value])
    ensures forall j :: 0 <= j < |xs| && (r.None? || j < r.value) ==> !p(xs[j])
    decreases |xs|
  {
    if xs == [] then None
    else if p(xs[0]) then Some(0)
    else match Find(xs[1..], p)
      case None => None
      case Some(k) => Some(k + 1)
  }

  /** The first element satisfying `p` is at `k` exactly when `k` satisfies it and nothing before does. */
  lemma FindAt<T>(xs: seq<T>, p: T -> bool, k: nat)
    requires k < |xs| && p(xs[k])
    requires forall j :: 0 <= j < k ==> !p(xs[j])
    ensures Find(xs, p) == Some(k)
  {
  }

  /** `for x in xs: if p(x): ...; break` */
  method FindFirst<T>(xs: seq<T>, p: T -> bool) returns (r: Option<nat>)
    ensures r == Find(xs, p)
  {
    var k := 0;
    while k < |xs|
      invariant k <= |xs|
      invariant forall j :: 0 <= j < k ==> !p(xs[j])
    {
      if p(xs[k]) {
        FindAt(xs, p, k);
        return Some(k);
      }
      k := k + 1;
    }
    return None;
  }

  /** The first element for which `f` yields a value: that element's index and the value. */
  function FirstSome<T, R>(xs: seq<T>, f: T -> Option<R>): (r: Option<(nat, R)>)
    ensures r.None? <==> forall k :: 0 <= k < |xs| ==> f(xs[k]).None?
    ensures r.Some? ==> r.value.0 < |xs| && f(xs[r.value.0]) == Some(r.value.1)
                        && forall j :: 0 <= j < r.value.0 ==> f(xs[j]).None?
  {
    if xs == [] then None
    else if f(xs[0]).Some? then Some((0, f(xs[0]).value))
    else
      var rest := FirstSome(xs[1..], f);
      assert forall k :: 1 <= k < |xs| ==> xs[1..][k - 1] == xs[k];
      if rest.None? then None else Some((rest.value.0 + 1, rest.value.1))
  }

  /** Two candidates: the first wins when it yields a value, the second only when the first yields none. */
  lemma FirstSomeOfTwo<T, R>(a: T, b: T, f: T -> Option<R>)
    ensures f(a).Some? ==> FirstSome([a, b], f) == Some((0, f(a).value))
    ensures f(a).None? && f(b).Some? ==> FirstSome([a, b], f) == Some((1, f(b).value))
    ensures f(a).None? && f(b).None? ==> FirstSome([a, b], f).None?
  {
    assert [a, b][0] == a && [a, b][1] == b;
  }

  /** `for x in xs: v = f(x); if v: ...; break` */
  method FirstSomeOf<T, R>(xs: seq<T>, f: T -> Option<R>) returns (r: Option<(nat, R)>)
    ensures r == FirstSome(xs, f)
  {
    for k := 0 to |xs|
      invariant forall j :: 0 <= j < k ==> f(xs[j]).None?
    {
      var v := f(xs[k]);
      if v.Some? {
        return Some((k, v.value));
      }
    }
    return None;
  }

  /** `xs[i]` is the first element whose key is eligible and equal to `key(xs[i])`. */
  predicate FirstOfKey<T, K(==)>(xs: seq<T>, key: T -> K, eligible: K -> bool, i: nat)
    requires i < |xs|
  {
    eligible(key(xs[i])) && forall j :: 0 <= j < i ==> key(xs[j]) != key(xs[i])
  }

  /** Stable de-duplication: the elements that are the first of their (eligible) key, in order. */
  function Dedup<T, K(==)>(xs: seq<T>, key: T -> K, eligible: K -> bool): (r: seq<T>)
    ensures |r| <= |xs|
  {
    if xs == [] then []
    else
      Dedup(xs[..|xs| - 1], key, eligible)
      + (if FirstOfKey(xs, key, eligible, |xs| - 1) then [xs[|xs| - 1]] else [])
  }

  /** The positions in `xs` of the elements `Dedup` keeps. */
  function KeptIndices<T, K(==)>(xs: seq<T>, key: T -> K, eligible: K -> bool): seq<nat> {
    if xs == [] then []
    else
      KeptIndices(xs[..|xs| - 1], key, eligible)
      + (if FirstOfKey(xs, key, eligible, |xs| - 1) then [|xs| - 1] else [])
  }

  /** The keys a `seen` set holds after the elements `xs` have been visited. */
  function SeenKeys<T, K(==)>(xs: seq<T>, key: T -> K, eligible: K -> bool): set<K> {
    set j | 0 <= j < |xs| && eligible(key(xs[j])) :: key(xs[j])
  }

  /** Whether an element is the first of its key depends only on the elements before it. */
  lemma FirstOfKeyInPrefix<T, K>(xs: seq<T>, n: nat, key: T -> K, eligible: K -> bool, i: nat)
    requires i < n <= |xs|
    ensures FirstOfKey(xs[..n], key, eligible, i) == FirstOfKey(xs, key, eligible, i)
  {
    assert forall j :: 0 <= j <= i ==> xs[..n][j] == xs[j];
  }

  /**
   * One step of the `seen`-set loop: the next element is kept exactly when its key is eligible
   * and not yet seen.
   */
  lemma DedupStep<T, K>(xs: seq<T>, k: nat, key: T -> K, eligible: K -> bool)
    requires k < |xs|
    ensures
      var kk := key(xs[k]);
      Dedup(xs[..k + 1], key, eligible)
      == Dedup(xs[..k], key, eligible)
         + (if eligible(kk) && kk !in SeenKeys(xs[..k], key, eligible) then [xs[k]] else [])
    ensures SeenKeys(xs[..k + 1], key, eligible)
            == SeenKeys(xs[..k], key, eligible) + (if eligible(key(xs[k])) then {key(xs[k])} else {})
  {
    var ys := xs[..k + 1];
    assert ys[..k] == xs[..k];
    var kk := key(xs[k]);
    var seen := SeenKeys(xs[..k], key, eligible);
    if eligible(kk) && kk in seen {
      var j :| 0 <= j < k && eligible(key(xs[..k][j])) && key(xs[..k][j]) == kk;
      assert ys[j] == xs[..k][j];
    }
    if eligible(kk) && kk !in seen {
      forall j | 0 <= j < k
        ensures key(ys[j]) != kk
      {
        assert ys[j] == xs[..k][j];
      }
    }
    var next := SeenKeys(ys, key, eligible);
    forall x | x in next
      ensures x in seen + (if eligible(kk) then {kk} else {})
    {
      var j :| 0 <= j < k + 1 && eligible(key(ys[j])) && key(ys[j]) == x;
      if j < k {
        assert ys[j] == xs[..k][j];
      }
    }
    forall x | x in seen
      ensures x in next
    {
      var j :| 0 <= j < k && eligible(key(xs[..k][j])) && key(xs[..k][j]) == x;
      assert ys[j] == xs[..k][j];
    }
  }

  /**
   * `Dedup` keeps an in-order subsequence of its input: the element at position `a` of the
   * output is the element at `KeptIndices[a]` of the input, these positions increase, and they
   * are exactly the positions holding the first element of each eligible key.
   */
  lemma {:induction false} DedupKept<T, K>(xs: seq<T>, key: T -> K, eligible: K -> bool)
    ensures
      var r, ix := Dedup(xs, key, eligible), KeptIndices(xs, key, eligible);
      && |ix| == |r|
      && (forall a :: 0 <= a < |ix| ==> ix[a] < |xs| && r[a] == xs[ix[a]])
      && (forall a, b :: 0 <= a < b < |ix| ==> ix[a] < ix[b])
      && (forall i :: 0 <= i < |xs| ==> (i in ix <==> FirstOfKey(xs, key, eligible, i)))
  {
    if xs != [] {
      var n := |xs| - 1;
      var p := xs[..n];
      DedupKept(p, key, eligible);
      forall i | 0 <= i < n {
        FirstOfKeyInPrefix(xs, n, key, eligible, i);
      }
      var r, ix := Dedup(xs, key, eligible), KeptIndices(xs, key, eligible);
      var r0, ix0 := Dedup(p, key, eligible), KeptIndices(p, key, eligible);
      assert forall a :: 0 <= a < |ix0| ==> ix[a] == ix0[a] && r[a] == r0[a];
      assert forall a :: 0 <= a < |ix0| ==> p[ix0[a]] == xs[ix0[a]];
    }
  }

  /**
   * The `seen`-set loop: an element is appended when its key is eligible and not yet in `seen`,
   * and its key is then added to `seen`.
   */
  method KeepFirst<T, K(==)>(xs: seq<T>, key: T -> K, eligible: K -> bool) returns (unique: seq<T>)
    ensures unique == Dedup(xs, key, eligible)
  {
    unique := [];
    var seen: set<K> := {};
    for k := 0 to |xs|
      invariant unique == Dedup(xs[..k], key, eligible)
      invariant seen == SeenKeys(xs[..k], key, eligible)
    {
      DedupStep(xs, k, key, eligible);
      var kk := key(xs[k]);
      if kk !in seen && eligible(kk) {
        seen := seen + {kk};
        unique := unique + [xs[k]];
      }
    }
    assert xs[..|xs|] == xs;
  }

  /** Keys of the elements `Dedup` keeps are eligible and pairwise distinct. */
  lemma DedupKeysDistinct<T, K>(xs: seq<T>, key: T -> K, eligible: K -> bool)
    ensures forall a :: 0 <= a < |Dedup(xs, key, eligible)| ==> eligible(key(Dedup(xs, key, eligible)[a]))
    ensures forall a, b :: 0 <= a < b < |Dedup(xs, key, eligible)| ==>
      key(Dedup(xs, key, eligible)[a]) != key(Dedup(xs, key, eligible)[b])
  {
    DedupKept(xs, key, eligible);
    var r, ix := Dedup(xs, key, eligible), KeptIndices(xs, key, eligible);
    forall a | 0 <= a < |r|
      ensures eligible(key(r[a]))
    {
      assert ix[a] in ix;
    }
    forall a, b | 0 <= a < b < |r|
      ensures key(r[a]) != key(r[b])
    {
      assert ix[b] in ix;
      assert FirstOfKey(xs, key, eligible, ix[b]);
    }
  }

  /** A list whose keys are eligible and pairwise distinct is left as it is. */
  lemma {:induction false} DedupOfDistinct<T, K>(xs: seq<T>, key: T -> K, eligible: K -> bool)
    requires forall a :: 0 <= a < |xs| ==> eligible(key(xs[a]))
    requires forall a, b :: 0 <= a < b < |xs| ==> key(xs[a]) != key(xs[b])
    ensures Dedup(xs, key, eligible) == xs
  {
    if xs != [] {
      var n := |xs| - 1;
      DedupOfDistinct(xs[..n], key, eligible);
      assert FirstOfKey(xs, key, eligible, n);
      assert xs[..n] + [xs[n]] == xs;
    }
  }

  /** Running the de-duplication a second time removes nothing more. */
  lemma DedupIdempotent<T, K>(xs: seq<T>, key: T -> K, eligible: K -> bool)
    ensures Dedup(Dedup(xs, key, eligible), key, eligible) == Dedup(xs, key, eligible)
  {
    var r := Dedup(xs, key, eligible);
    DedupKeysDistinct(xs, key, eligible);
    DedupOfDistinct(r, key, eligible);
  }

  /** Whatever is pairwise distinct along `xs` stays so along what `Dedup` keeps of it. */
  lemma DedupKeepsDistinct<T, K, U>(xs: seq<T>, key: T -> K, eligible: K -> bool, f: T -> U)
    requires forall a, b :: 0 <= a < b < |xs| ==> f(xs[a]) != f(xs[b])
    ensures forall a, b :: 0 <= a < b < |Dedup(xs, key, eligible)| ==>
      f(Dedup(xs, key, eligible)[a]) != f(Dedup(xs, key, eligible)[b])
  {
    DedupKept(xs, key, eligible);
  }

  /** Every eligible key has a first occurrence, at or before any other occurrence of it. */
  lemma {:induction false} EarliestOfKey<T, K>(xs: seq<T>, key: T -> K, eligible: K -> bool, i: nat)
    returns (j: nat)
    requires i < |xs| && eligible(key(xs[i]))
    ensures j <= i && key(xs[j]) == key(xs[i]) && FirstOfKey(xs, key, eligible, j)
    decreases i
  {
    if FirstOfKey(xs, key, eligible, i) {
      j := i;
    } else {
      var j0 :| 0 <= j0 < i && key(xs[j0]) == key(xs[i]);
      j := EarliestOfKey(xs, key, eligible, j0);
    }
  }

  /** Only duplicates are lost: every eligible key of the input is the key of some element `Dedup` keeps. */
  lemma DedupCovers<T, K>(xs: seq<T>, key: T -> K, eligible: K -> bool)
    ensures forall i :: 0 <= i < |xs| && eligible(key(xs[i])) ==>
      exists a :: 0 <= a < |Dedup(xs, key, eligible)| && key(Dedup(xs, key, eligible)[a]) == key(xs[i])
  {
    DedupKept(xs, key, eligible);
    var r, ix := Dedup(xs, key, eligible), KeptIndices(xs, key, eligible);
    forall i | 0 <= i < |xs| && eligible(key(xs[i]))
      ensures exists a :: 0 <= a < |r| && key(r[a]) == key(xs[i])
    {
      var j := EarliestOfKey(xs, key, eligible, i);
      assert j in ix;
      var a :| 0 <= a < |ix| && ix[a] == j;
      assert r[a] == xs[j];
    }
  }

  /** Every element `Dedup` keeps comes from its input. */
  lemma DedupFromInput<T, K>(xs: seq<T>, key: T -> K, eligible: K -> bool)
    ensures forall a :: 0 <= a < |Dedup(xs, key, eligible)| ==> Dedup(xs, key, eligible)[a] in xs
  {
    DedupKept(xs, key, eligible);
  }

  /** The lists one after another: what a loop calling `extend` on each of them builds. */
  function Flatten<T>(xss: seq<seq<T>>): seq<T> {
    if xss == [] then [] else Flatten(xss[..|xss| - 1]) + xss[|xss| - 1]
  }

  /**
   * The values `f` yields for the elements in order, skipping `None`: the loop that appends a
   * result for each element that produces one. `f` is told the element's index.
   */
  function Collect<T, R>(xs: seq<T>, f: (T, nat) -> Option<R>): (rs: seq<R>)
    ensures |rs| <= |xs|
  {
    if xs == [] then []
    else Collect(xs[..|xs| - 1], f) + (if f(xs[|xs| - 1], |xs| - 1).Some? then [f(xs[|xs| - 1], |xs| - 1).value] else [])
  }

  /** One more element: `Collect` over a longer prefix appends that element's result, if any. */
  lemma CollectStep<T, R>(xs: seq<T>, f: (T, nat) -> Option<R>, k: nat)
    requires k < |xs|
    ensures Collect(xs[..k + 1], f) == Collect(xs[..k], f) + (if f(xs[k], k).Some? then [f(xs[k], k).value] else [])
  {
    assert xs[..k + 1][..k] == xs[..k];
  }

  /** A property every produced result has holds of everything collected. */
  lemma {:induction false} CollectAll<T, R>(xs: seq<T>, f: (T, nat) -> Option<R>, ok: R -> bool)
    requires forall i :: 0 <= i < |xs| && f(xs[i], i).Some? ==> ok(f(xs[i], i).value)
    ensures forall a :: 0 <= a < |Collect(xs, f)| ==> ok(Collect(xs, f)[a])
  {
    if xs != [] {
      var n := |xs| - 1;
      assert forall i :: 0 <= i < n ==> xs[..n][i] == xs[i];
      CollectAll(xs[..n], f, ok);
      var init := Collect(xs[..n], f);
      assert forall a :: 0 <= a < |init| ==> Collect(xs, f)[a] == init[a];
    }
  }

  /**
   * When each result records the index of the element it came from, the collected results record
   * strictly increasing indices, all in range.
   */
  lemma {:induction false} CollectOrdered<T, R>(xs: seq<T>, f: (T, nat) -> Option<R>, index: R -> int)
    requires forall i :: 0 <= i < |xs| && f(xs[i], i).Some? ==> index(f(xs[i], i).value) == i
    ensures forall a :: 0 <= a < |Collect(xs, f)| ==> 0 <= index(Collect(xs, f)[a]) < |xs|
    ensures forall a, b :: 0 <= a < b < |Collect(xs, f)| ==> index(Collect(xs, f)[a]) < index(Collect(xs, f)[b])
  {
    if xs != [] {
      var n := |xs| - 1;
      assert forall i :: 0 <= i < n ==> xs[..n][i] == xs[i];
      CollectOrdered(xs[..n], f, index);
      var init := Collect(xs[..n], f);
      assert forall a :: 0 <= a < |init| ==> Collect(xs, f)[a] == init[a];
    }
  }
}
