/** The System.Linq operators the core relies on, with the ordering guarantees LINQ to Objects gives. */
module Linq {
  import opened Wrappers

  /** No element occurs twice. */
  predicate NoDuplicates<T(==)>(s: seq<T>) {
    forall i, j :: 0 <= i < j < |s| ==> s[i] != s[j]
  }

  /** Appending keeps a sequence free of duplicates exactly when the new element is not already in it. */
  lemma NoDuplicatesSnoc<T>(s: seq<T>, x: T)
    ensures NoDuplicates(s + [x]) <==> NoDuplicates(s) && x !in s
  {
    var t := s + [x];
    assert forall i :: 0 <= i < |s| ==> s[i] == t[i];
    assert t[|s|] == x;
  }

  /** Taking one more element appends it. */
  lemma TakeSnoc<T>(s: seq<T>, i: nat)
    requires i < |s|
    ensures s[..i + 1] == s[..i] + [s[i]]
  {
  }

  /** `s.Distinct()`: keeps the first occurrence of each element, in order. */
  function Distinct<T(==)>(s: seq<T>): (r: seq<T>)
    ensures NoDuplicates(r)
    ensures forall i :: 0 <= i < |r| ==> r[i] in s
    ensures forall i :: 0 <= i < |s| ==> s[i] in r
    ensures |r| <= |s|
  {
    if s == [] then []
    else
      var d := Distinct(s[..|s| - 1]);
      if s[|s| - 1] in d then d else d + [s[|s| - 1]]
  }

  /** A sequence without duplicates is its own `Distinct()`. */
  lemma {:induction false} DistinctOfDistinct<T>(s: seq<T>)
    requires NoDuplicates(s)
    ensures Distinct(s) == s
  {
    if s != [] {
      DistinctOfDistinct(s[..|s| - 1]);
    }
  }

  /** `s.Where(p)`: the elements satisfying `p`, in order. */
  function Where<T>(s: seq<T>, p: T -> bool): (r: seq<T>)
    ensures |r| <= |s|
    ensures forall i :: 0 <= i < |r| ==> r[i] in s && p(r[i])
    ensures forall i :: 0 <= i < |s| && p(s[i]) ==> s[i] in r
  {
    if s == [] then [] else Where(s[..|s| - 1], p) + (if p(s[|s| - 1]) then [s[|s| - 1]] else [])
  }

  /** `Where` distributes over concatenation. */
  lemma {:induction false} WhereAppend<T>(a: seq<T>, b: seq<T>, p: T -> bool)
    ensures Where(a + b, p) == Where(a, p) + Where(b, p)
  {
    if b != [] {
      assert (a + b)[..|a + b| - 1] == a + b[..|b| - 1];
      WhereAppend(a, b[..|b| - 1], p);
    } else {
      assert a + b == a;
    }
  }

  /** Filtering with a predicate every element satisfies keeps the whole sequence. */
  lemma {:induction false} WhereAll<T>(s: seq<T>, p: T -> bool)
    requires forall i :: 0 <= i < |s| ==> p(s[i])
    ensures Where(s, p) == s
  {
    if s != [] {
      WhereAll(s[..|s| - 1], p);
      assert s[..|s| - 1] + [s[|s| - 1]] == s;
    }
  }

  /** The one element of a one-element sequence. */
  lemma Singleton<T>(s: seq<T>, x: T)
    requires |s| == 1 && x in s
    ensures s == [x]
  {
  }

  /** Two qualifying elements leave at least two after filtering. */
  lemma {:induction false} WhereCountsTwo<T>(s: seq<T>, p: T -> bool, i: nat, j: nat)
    requires i < j < |s| && p(s[i]) && p(s[j])
    ensures |Where(s, p)| > 1
  {
    var init := s[..|s| - 1];
    if j < |s| - 1 {
      WhereCountsTwo(init, p, i, j);
    } else {
      assert init[i] == s[i];
      assert s[i] in Where(init, p);
    }
  }

  /** Filtering with only one qualifying element leaves exactly that element. */
  lemma {:induction false} WhereSingle<T>(s: seq<T>, p: T -> bool, i: nat)
    requires i < |s| && p(s[i]) && forall j :: 0 <= j < |s| && j != i ==> !p(s[j])
    ensures Where(s, p) == [s[i]]
  {
    var init := s[..|s| - 1];
    if i < |s| - 1 {
      WhereSingle(init, p, i);
    } else {
      WhereNone(init, p);
    }
  }

  /** Filtering with no qualifying element leaves nothing. */
  lemma {:induction false} WhereNone<T>(s: seq<T>, p: T -> bool)
    requires forall j :: 0 <= j < |s| ==> !p(s[j])
    ensures Where(s, p) == []
  {
    if s != [] {
      WhereNone(s[..|s| - 1], p);
    }
  }

  /** `s.Any(p)`. */
  predicate Any<T>(s: seq<T>, p: T -> bool) {
    exists i :: 0 <= i < |s| && p(s[i])
  }

  /** `s.LastOrDefault(p)`: the last element satisfying `p`, if there is one. */
  function LastOrDefault<T>(s: seq<T>, p: T -> bool): (r: Option<T>)
    ensures r.Some? ==> r.value in s && p(r.value)
  {
    if s == [] then None
    else if p(s[|s| - 1]) then Some(s[|s| - 1])
    else LastOrDefault(s[..|s| - 1], p)
  }

  /** `LastOrDefault` finds nothing exactly when no element qualifies, and otherwise finds an element that
      qualifies and has no qualifying element after it. */
  lemma {:induction false} LastOrDefaultSpec<T>(s: seq<T>, p: T -> bool)
    ensures LastOrDefault(s, p).None? <==> forall i :: 0 <= i < |s| ==> !p(s[i])
    ensures LastOrDefault(s, p).Some? ==>
      exists i :: 0 <= i < |s| && s[i] == LastOrDefault(s, p).value && p(s[i]) && forall j :: i < j < |s| ==> !p(s[j])
  {
    if s != [] && !p(s[|s| - 1]) {
      var init := s[..|s| - 1];
      LastOrDefaultSpec(init, p);
      assert forall i :: 0 <= i < |init| ==> init[i] == s[i];
    }
  }

  /** `xs.Select(key)`. */
  function Select<T, K>(xs: seq<T>, key: T -> K): (r: seq<K>)
    ensures |r| == |xs| && forall i :: 0 <= i < |xs| ==> r[i] == key(xs[i])
  {
    if xs == [] then [] else Select(xs[..|xs| - 1], key) + [key(xs[|xs| - 1])]
  }

  /** `xs.Select(f).ToList()` where `f` may throw: the results in order, or the first exception. */
  function SelectAll<T, U, E>(xs: seq<T>, f: T -> Result<U, E>): Result<seq<U>, E> {
    if xs == [] then Ok([])
    else
      var init :- SelectAll(xs[..|xs| - 1], f);
      var last :- f(xs[|xs| - 1]);
      Ok(init + [last])
  }

  /** The list is built exactly when every element maps without an exception, and then it holds each
      element's result at the element's position. */
  lemma {:induction false} SelectAllOk<T, U, E>(xs: seq<T>, f: T -> Result<U, E>)
    ensures SelectAll(xs, f).Ok? <==> forall i :: 0 <= i < |xs| ==> f(xs[i]).Ok?
    ensures SelectAll(xs, f).Ok? ==>
      |SelectAll(xs, f).value| == |xs| && forall i :: 0 <= i < |xs| ==> f(xs[i]) == Ok(SelectAll(xs, f).value[i])
  {
    if xs != [] {
      var init := xs[..|xs| - 1];
      SelectAllOk(init, f);
      assert forall i :: 0 <= i < |init| ==> init[i] == xs[i];
    }
  }

  /** A failure is the exception of the first element that throws. */
  lemma {:induction false} SelectAllErr<T, U, E>(xs: seq<T>, f: T -> Result<U, E>)
    requires SelectAll(xs, f).Err?
    ensures exists i ::
      && 0 <= i < |xs| && f(xs[i]).Err? && f(xs[i]).error == SelectAll(xs, f).error
      && forall j :: 0 <= j < i ==> f(xs[j]).Ok?
  {
    var init := xs[..|xs| - 1];
    assert forall i :: 0 <= i < |init| ==> init[i] == xs[i];
    if SelectAll(init, f).Err? {
      SelectAllErr(init, f);
      var i :|
        && 0 <= i < |init| && f(init[i]).Err? && f(init[i]).error == SelectAll(init, f).error
        && forall j :: 0 <= j < i ==> f(init[j]).Ok?;
      assert f(xs[i]).Err?;
    } else {
      SelectAllOk(init, f);
      assert f(xs[|xs| - 1]).Err?;
    }
  }

  /** One `IGrouping<K, T>`: a key and the elements that have it. */
  datatype Grouping<K, T> = Grouping(key: K, items: seq<T>)

  /** `xs.GroupBy(key)`: one group per distinct key, in order of first occurrence; each group holds the
      elements with that key in their original order. */
  function GroupBy<T, K(==)>(xs: seq<T>, key: T -> K): (gs: seq<Grouping<K, T>>)
  {
    var ks := Distinct(Select(xs, key));
    seq(|ks|, i requires 0 <= i < |ks| => Grouping(ks[i], Where(xs, KeyIs(key, ks[i]))))
  }

  /** The filter of the group of key `k`. */
  function KeyIs<T, K(==)>(key: T -> K, k: K): T -> bool {
    x => key(x) == k
  }

  /** The items of a group are the elements with its key, filtered in order. */
  lemma GroupItems<T, K>(xs: seq<T>, key: T -> K, n: nat)
    requires n < |GroupBy(xs, key)|
    ensures GroupBy(xs, key)[n].items == Where(xs, KeyIs(key, GroupBy(xs, key)[n].key))
  {
  }

  /** The group an element belongs to. */
  lemma GroupOf<T, K>(xs: seq<T>, key: T -> K, x: T) returns (n: nat)
    requires x in xs
    ensures n < |GroupBy(xs, key)| && GroupBy(xs, key)[n].key == key(x) && x in GroupBy(xs, key)[n].items
  {
    GroupsCover(xs, key);
    n :| 0 <= n < |GroupBy(xs, key)| && GroupBy(xs, key)[n].key == key(x);
    GroupItems(xs, key, n);
  }

  /** An item of a group is an element with the group's key. */
  lemma GroupMember<T, K>(xs: seq<T>, key: T -> K, n: nat, x: T)
    requires n < |GroupBy(xs, key)| && x in GroupBy(xs, key)[n].items
    ensures x in xs && key(x) == GroupBy(xs, key)[n].key
  {
    GroupItems(xs, key, n);
  }

  /** Different groups have different keys. */
  lemma GroupKeysDistinct<T, K>(xs: seq<T>, key: T -> K, n: nat, q: nat)
    requires n < |GroupBy(xs, key)| && q < |GroupBy(xs, key)| && n != q
    ensures GroupBy(xs, key)[n].key != GroupBy(xs, key)[q].key
  {
  }

  /** Two elements with one key put at least two items in its group. */
  lemma GroupOfTwo<T, K>(xs: seq<T>, key: T -> K, n: nat, i: nat, j: nat)
    requires n < |GroupBy(xs, key)| && i < j < |xs|
    requires key(xs[i]) == GroupBy(xs, key)[n].key && key(xs[j]) == GroupBy(xs, key)[n].key
    ensures |GroupBy(xs, key)[n].items| > 1
  {
    GroupItems(xs, key, n);
    WhereCountsTwo(xs, KeyIs(key, GroupBy(xs, key)[n].key), i, j);
  }

  /** An element whose key no other element has is alone in its group. */
  lemma GroupOfOne<T, K>(xs: seq<T>, key: T -> K, n: nat, i: nat)
    requires n < |GroupBy(xs, key)| && i < |xs| && key(xs[i]) == GroupBy(xs, key)[n].key
    requires forall j :: 0 <= j < |xs| && j != i ==> key(xs[j]) != key(xs[i])
    ensures GroupBy(xs, key)[n].items == [xs[i]]
  {
    GroupItems(xs, key, n);
    WhereSingle(xs, KeyIs(key, GroupBy(xs, key)[n].key), i);
  }

  /** The groups have distinct keys, are never empty, hold exactly the elements with their key, and
      every element's key has a group. */
  lemma GroupByProperties<T, K>(xs: seq<T>, key: T -> K)
    ensures var gs := GroupBy(xs, key);
      && (forall i, j :: 0 <= i < j < |gs| ==> gs[i].key != gs[j].key)
      && (forall i :: 0 <= i < |gs| ==> |gs[i].items| > 0)
      && (forall i, x :: 0 <= i < |gs| ==> (x in gs[i].items <==> x in xs && key(x) == gs[i].key))
      && (forall x :: x in xs ==> exists i :: 0 <= i < |gs| && gs[i].key == key(x))
  {
    GroupsNonEmpty(xs, key);
    GroupsCover(xs, key);
  }

  /** Every group holds at least the element its key came from. */
  lemma GroupsNonEmpty<T, K>(xs: seq<T>, key: T -> K)
    ensures var gs := GroupBy(xs, key); forall i :: 0 <= i < |gs| ==> |gs[i].items| > 0
  {
    var gs := GroupBy(xs, key);
    var ks := Distinct(Select(xs, key));
    forall i | 0 <= i < |gs| ensures |gs[i].items| > 0 {
      assert ks[i] in Select(xs, key);
      var j :| 0 <= j < |xs| && Select(xs, key)[j] == ks[i];
      assert xs[j] in gs[i].items;
    }
  }

  /** Every element's key has a group. */
  lemma GroupsCover<T, K>(xs: seq<T>, key: T -> K)
    ensures var gs := GroupBy(xs, key); forall x :: x in xs ==> exists i :: 0 <= i < |gs| && gs[i].key == key(x)
  {
    var gs := GroupBy(xs, key);
    var ks := Distinct(Select(xs, key));
    forall x | x in xs ensures exists i :: 0 <= i < |gs| && gs[i].key == key(x) {
      var j :| 0 <= j < |xs| && xs[j] == x;
      assert key(x) in Select(xs, key);
      var i :| 0 <= i < |ks| && ks[i] == key(x);
      assert gs[i].key == key(x);
    }
  }

  /** The keys of the groups are the distinct keys of the elements, in order of first occurrence. */
  lemma GroupByKeys<T, K>(xs: seq<T>, key: T -> K)
    ensures Select(GroupBy(xs, key), (g: Grouping<K, T>) => g.key) == Distinct(Select(xs, key))
  {
  }
}
