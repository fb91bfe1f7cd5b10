/** The loop shape the document service uses three times: for each element, build a value and
    `Add` it to a dictionary under the element's key, where a failed build or a key already present
    throws and ends the loop. */
module Dictionaries {
  import opened Wrappers

  /** One iteration: a skipped element (the loop's `continue`) leaves the dictionary as it is;
      otherwise the value is built and added under a new key. */
  function AddStep<T, K, V, E>(m: map<K, V>, x: T, skip: T -> bool, build: T -> Result<V, E>, key: T -> K, duplicate: K -> E): Result<map<K, V>, E> {
    if skip(x) then Ok(m)
    else
      var v :- build(x);
      if key(x) in m then Err(duplicate(key(x))) else Ok(m[key(x) := v])
  }

  /** The whole loop over `xs`, starting from an empty dictionary. */
  function AddAll<T, K, V, E>(xs: seq<T>, skip: T -> bool, build: T -> Result<V, E>, key: T -> K, duplicate: K -> E): Result<map<K, V>, E> {
    if xs == [] then Ok(map[])
    else
      var m :- AddAll(xs[..|xs| - 1], skip, build, key, duplicate);
      AddStep(m, xs[|xs| - 1], skip, build, key, duplicate)
  }

  /** Never skip. */
  function Never<T>(x: T): bool {
    false
  }

  /** Running the loop one element further is one more step, or the error already met. */
  lemma AddAllSnoc<T, K, V, E>(xs: seq<T>, x: T, skip: T -> bool, build: T -> Result<V, E>, key: T -> K, duplicate: K -> E)
    ensures AddAll(xs, skip, build, key, duplicate).Err? ==>
      AddAll(xs + [x], skip, build, key, duplicate) == AddAll(xs, skip, build, key, duplicate)
    ensures AddAll(xs, skip, build, key, duplicate).Ok? ==>
      AddAll(xs + [x], skip, build, key, duplicate) == AddStep(AddAll(xs, skip, build, key, duplicate).value, x, skip, build, key, duplicate)
  {
    assert (xs + [x])[..|xs|] == xs;
  }

  /** An error met on a prefix is the error of the whole loop. */
  lemma {:induction false} AddAllPrefixFails<T, K, V, E>(xs: seq<T>, j: nat, skip: T -> bool, build: T -> Result<V, E>, key: T -> K, duplicate: K -> E)
    requires j <= |xs| && AddAll(xs[..j], skip, build, key, duplicate).Err?
    ensures AddAll(xs, skip, build, key, duplicate) == AddAll(xs[..j], skip, build, key, duplicate)
    decreases |xs| - j
  {
    if j < |xs| {
      var next := xs[..j + 1];
      assert next == xs[..j] + [xs[j]];
      AddAllSnoc(xs[..j], xs[j], skip, build, key, duplicate);
      assert next[..j + 1] == next;
      AddAllPrefixFails(xs, j + 1, skip, build, key, duplicate);
    } else {
      assert xs[..j] == xs;
    }
  }

  /** After a completed loop every element that is not skipped was built, its value is stored under its
      key, and every stored key belongs to such an element. */
  lemma {:induction false} AddAllContents<T, K, V, E>(xs: seq<T>, skip: T -> bool, build: T -> Result<V, E>, key: T -> K, duplicate: K -> E)
    requires AddAll(xs, skip, build, key, duplicate).Ok?
    ensures var m := AddAll(xs, skip, build, key, duplicate).value;
      && (forall i :: 0 <= i < |xs| && !skip(xs[i]) ==> key(xs[i]) in m && build(xs[i]) == Ok(m[key(xs[i])]))
      && (forall k :: k in m ==> exists i :: 0 <= i < |xs| && !skip(xs[i]) && key(xs[i]) == k)
  {
    if xs != [] {
      var init, last := xs[..|xs| - 1], xs[|xs| - 1];
      assert xs == init + [last];
      AddAllSnoc(init, last, skip, build, key, duplicate);
      AddAllContents(init, skip, build, key, duplicate);
      var m := AddAll(xs, skip, build, key, duplicate).value;
      forall k | k in m ensures exists i :: 0 <= i < |xs| && !skip(xs[i]) && key(xs[i]) == k {
        if skip(last) || k != key(last) {
          var i :| 0 <= i < |init| && !skip(init[i]) && key(init[i]) == k;
          assert xs[i] == init[i];
        }
      }
      forall i | 0 <= i < |init| && !skip(xs[i]) ensures key(xs[i]) in m && build(xs[i]) == Ok(m[key(xs[i])]) {
        assert xs[i] == init[i];
      }
    }
  }

  /** After a completed loop no two elements that are not skipped share a key. */
  lemma {:induction false} AddAllDistinct<T, K, V, E>(xs: seq<T>, skip: T -> bool, build: T -> Result<V, E>, key: T -> K, duplicate: K -> E)
    requires AddAll(xs, skip, build, key, duplicate).Ok?
    ensures forall i, j :: 0 <= i < j < |xs| && !skip(xs[i]) && !skip(xs[j]) ==> key(xs[i]) != key(xs[j])
  {
    if xs != [] {
      var init, last := xs[..|xs| - 1], xs[|xs| - 1];
      assert xs == init + [last];
      AddAllSnoc(init, last, skip, build, key, duplicate);
      AddAllDistinct(init, skip, build, key, duplicate);
      AddAllContents(init, skip, build, key, duplicate);
      forall i, j | 0 <= i < j < |xs| && !skip(xs[i]) && !skip(xs[j]) ensures key(xs[i]) != key(xs[j]) {
        assert xs[i] == init[i];
        if j < |xs| - 1 {
          assert xs[j] == init[j];
        }
      }
    }
  }

  /** Conversely, the loop completes when every element that is not skipped can be built and no two of
      them share a key. */
  lemma {:induction false} AddAllSucceeds<T, K, V, E>(xs: seq<T>, skip: T -> bool, build: T -> Result<V, E>, key: T -> K, duplicate: K -> E)
    requires forall i :: 0 <= i < |xs| && !skip(xs[i]) ==> build(xs[i]).Ok?
    requires forall i, j :: 0 <= i < j < |xs| && !skip(xs[i]) && !skip(xs[j]) ==> key(xs[i]) != key(xs[j])
    ensures AddAll(xs, skip, build, key, duplicate).Ok?
  {
    if xs != [] {
      var init, last := xs[..|xs| - 1], xs[|xs| - 1];
      assert xs == init + [last];
      assert forall i :: 0 <= i < |init| ==> init[i] == xs[i];
      AddAllSnoc(init, last, skip, build, key, duplicate);
      AddAllSucceeds(init, skip, build, key, duplicate);
      AddAllContents(init, skip, build, key, duplicate);
    }
  }

  /** One element of a completed loop: when it is not skipped, its value is stored under its key. */
  lemma AddAllAt<T, K, V, E>(xs: seq<T>, skip: T -> bool, build: T -> Result<V, E>, key: T -> K, duplicate: K -> E, i: nat)
    requires AddAll(xs, skip, build, key, duplicate).Ok? && i < |xs| && !skip(xs[i])
    ensures key(xs[i]) in AddAll(xs, skip, build, key, duplicate).value
    ensures build(xs[i]) == Ok(AddAll(xs, skip, build, key, duplicate).value[key(xs[i])])
  {
    AddAllContents(xs, skip, build, key, duplicate);
  }

  /** One key of a completed loop belongs to an element that is not skipped. */
  lemma AddAllKeyAt<T, K, V, E>(xs: seq<T>, skip: T -> bool, build: T -> Result<V, E>, key: T -> K, duplicate: K -> E, k: K)
    requires AddAll(xs, skip, build, key, duplicate).Ok? && k in AddAll(xs, skip, build, key, duplicate).value
    ensures exists i :: 0 <= i < |xs| && !skip(xs[i]) && key(xs[i]) == k
  {
    AddAllContents(xs, skip, build, key, duplicate);
  }

  /** Two elements of a completed loop that are not skipped have different keys. */
  lemma AddAllDistinctAt<T, K, V, E>(xs: seq<T>, skip: T -> bool, build: T -> Result<V, E>, key: T -> K, duplicate: K -> E, i: nat, j: nat)
    requires AddAll(xs, skip, build, key, duplicate).Ok? && i < |xs| && j < |xs| && i != j && !skip(xs[i]) && !skip(xs[j])
    ensures key(xs[i]) != key(xs[j])
  {
    AddAllDistinct(xs, skip, build, key, duplicate);
  }
}
