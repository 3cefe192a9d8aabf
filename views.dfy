/** The derived-view pattern shared by every manager screen: the list shown is
    the record store filtered by a predicate, in store order; statistics cards are
    counts and sums over the whole store; an empty-state card depends on whether
    the shown list is empty and on whether a search term is typed. */
module Views {

  datatype Option<T> = None | Some(value: T)

  /** The sentinel value of every category/status selector. */
  const All: string := "all"

  /** `selected === 'all' || field === selected`: the sentinel accepts every field, and
      any other selector accepts only the field equal to it. */
  predicate Selects(selected: string, field: string): (b: bool)
    ensures selected == All ==> b
    ensures selected != All ==> (b <==> field == selected)
  {
    selected == All || selected == field
  }

  function Not<T>(p: T -> bool): T -> bool
  {
    x => !p(x)
  }

  /** Array.prototype.filter. */
  function Filter<T(==)>(xs: seq<T>, keep: T -> bool): (r: seq<T>)
    ensures |r| <= |xs|
    ensures forall i :: 0 <= i < |r| ==> r[i] in xs && keep(r[i])
    ensures forall i :: 0 <= i < |xs| && keep(xs[i]) ==> xs[i] in r
  {
    if xs == [] then []
    else if keep(xs[0]) then [xs[0]] + Filter(xs[1..], keep)
    else Filter(xs[1..], keep)
  }

  /** `sub` is obtained from `xs` by deleting elements, so it keeps their order. */
  predicate IsSubsequence<T(==)>(sub: seq<T>, xs: seq<T>)
    decreases |xs|
  {
    if sub == [] then true
    else if xs == [] then false
    else (sub[0] == xs[0] && IsSubsequence(sub[1..], xs[1..])) || IsSubsequence(sub, xs[1..])
  }

  /** Filtering never reorders: the shown list is a subsequence of the store. */
  lemma {:induction false} FilterIsSubsequence<T>(xs: seq<T>, keep: T -> bool)
    ensures IsSubsequence(Filter(xs, keep), xs)
  {
    if xs != [] {
      FilterIsSubsequence(xs[1..], keep);
      var rest := Filter(xs[1..], keep);
      if keep(xs[0]) {
        assert Filter(xs, keep) == [xs[0]] + rest;
        assert ([xs[0]] + rest)[1..] == rest;
      } else {
        SubsequenceOfTail(rest, xs);
      }
    }
  }

  lemma SubsequenceOfTail<T>(sub: seq<T>, xs: seq<T>)
    requires xs != [] && IsSubsequence(sub, xs[1..])
    ensures IsSubsequence(sub, xs)
  {
  }

  /** Filtering commutes with concatenation: each record is judged on its own. */
  lemma {:induction false} FilterAppend<T>(xs: seq<T>, ys: seq<T>, keep: T -> bool)
    ensures Filter(xs + ys, keep) == Filter(xs, keep) + Filter(ys, keep)
  {
    if xs == [] {
      assert xs + ys == ys;
    } else {
      assert (xs + ys)[1..] == xs[1..] + ys;
      FilterAppend(xs[1..], ys, keep);
    }
  }

  /** Filtering keeps every copy of a record that passes and no copy of one that fails,
      so together with `FilterIsSubsequence` it pins the shown list down completely. */
  lemma {:induction false} FilterMultiplicity<T(!new)>(xs: seq<T>, keep: T -> bool)
    ensures forall x: T :: multiset(Filter(xs, keep))[x] == (if keep(x) then multiset(xs)[x] else 0)
  {
    if xs != [] {
      assert xs == [xs[0]] + xs[1..];
      FilterMultiplicity(xs[1..], keep);
    }
  }

  /** Two predicates that agree on the store select the same list. */
  lemma {:induction false} FilterCongruent<T>(xs: seq<T>, p: T -> bool, q: T -> bool)
    requires forall i :: 0 <= i < |xs| ==> p(xs[i]) == q(xs[i])
    ensures Filter(xs, p) == Filter(xs, q)
  {
    if xs != [] {
      FilterCongruent(xs[1..], p, q);
    }
  }

  /** When every record passes, the store is shown unchanged. */
  lemma {:induction false} FilterKeepsAll<T>(xs: seq<T>, keep: T -> bool)
    requires forall i :: 0 <= i < |xs| ==> keep(xs[i])
    ensures Filter(xs, keep) == xs
  {
    if xs != [] {
      FilterKeepsAll(xs[1..], keep);
    }
  }

  /** `.filter(p).length`: never more than the list length. */
  function Count<T(==)>(xs: seq<T>, p: T -> bool): (c: nat)
    ensures c <= |xs|
  {
    |Filter(xs, p)|
  }

  /** A count is zero exactly when no record passes. */
  lemma CountZeroIff<T>(xs: seq<T>, p: T -> bool)
    ensures Count(xs, p) == 0 <==> forall i :: 0 <= i < |xs| ==> !p(xs[i])
  {
    if Count(xs, p) == 0 {
      assert Filter(xs, p) == [];
    } else {
      var r := Filter(xs, p);
      assert r[0] in xs && p(r[0]);
      var i :| 0 <= i < |xs| && xs[i] == r[0];
      assert p(xs[i]);
    }
  }

  /** Every record is counted by `p` or by its negation, never both. */
  lemma {:induction false} CountComplement<T>(xs: seq<T>, p: T -> bool)
    ensures Count(xs, p) + Count(xs, Not(p)) == |xs|
  {
    if xs != [] {
      CountComplement(xs[1..], p);
    }
  }

  /** `.reduce((sum, x) => sum + f(x), 0)`, with exact arithmetic: the initial value 0 is
      the sum of no record, and one record sums to its own field. */
  function Sum<T>(xs: seq<T>, f: T -> real): (s: real)
    ensures xs == [] ==> s == 0.0
    ensures |xs| == 1 ==> s == f(xs[0])
  {
    if xs == [] then 0.0 else f(xs[0]) + Sum(xs[1..], f)
  }

  /** Sums of non-negative fields are non-negative. */
  lemma {:induction false} SumNonNegative<T>(xs: seq<T>, f: T -> real)
    requires forall i :: 0 <= i < |xs| ==> f(xs[i]) >= 0.0
    ensures Sum(xs, f) >= 0.0
  {
    if xs != [] {
      SumNonNegative(xs[1..], f);
    }
  }

  /** A field that is the difference of two others sums to the difference of their sums. */
  lemma {:induction false} SumDifference<T>(xs: seq<T>, f: T -> real, g: T -> real, h: T -> real)
    requires forall i :: 0 <= i < |xs| ==> f(xs[i]) == g(xs[i]) - h(xs[i])
    ensures Sum(xs, f) == Sum(xs, g) - Sum(xs, h)
  {
    if xs != [] {
      SumDifference(xs[1..], f, g, h);
    }
  }

  /** A sum of fields that all lie in [lo, hi] lies between |xs| times lo and |xs| times hi. */
  lemma {:induction false} SumBetween<T>(xs: seq<T>, f: T -> real, lo: real, hi: real)
    requires forall i :: 0 <= i < |xs| ==> lo <= f(xs[i]) <= hi
    ensures lo * |xs| as real <= Sum(xs, f) <= hi * |xs| as real
  {
    if xs != [] {
      SumBetween(xs[1..], f, lo, hi);
      var n := |xs[1..]| as real;
      assert |xs| as real == n + 1.0;
      assert lo * (n + 1.0) == lo * n + lo;
      assert hi * (n + 1.0) == hi * n + hi;
    }
  }

  /** Splitting the store by a predicate splits the sum. */
  lemma {:induction false} SumPartition<T>(xs: seq<T>, f: T -> real, p: T -> bool)
    ensures Sum(xs, f) == Sum(Filter(xs, p), f) + Sum(Filter(xs, Not(p)), f)
  {
    if xs != [] {
      SumPartition(xs[1..], f, p);
    }
  }

  /** The message of an empty-state card. */
  datatype EmptyMessage = TryOtherSearchTerms | StartByAdding

  datatype EmptyState =
    | NoEmptyState
    | EmptyCard(message: EmptyMessage, showsAddButton: bool)

  /** The card shown under an empty list: it says to try other search terms when a term
      is typed and to start by adding a record otherwise, and only in the latter case
      carries an add button. A JavaScript string is truthy iff it is non-empty. */
  function EmptyStateFor(shownCount: nat, searchTerm: string): (e: EmptyState)
    ensures e.EmptyCard? <==> shownCount == 0
    ensures e.EmptyCard? ==> (e.message == TryOtherSearchTerms <==> searchTerm != "")
    ensures e.EmptyCard? ==> (e.showsAddButton <==> searchTerm == "")
  {
    if shownCount != 0 then NoEmptyState
    else if searchTerm != "" then EmptyCard(TryOtherSearchTerms, false)
    else EmptyCard(StartByAdding, true)
  }

  /** The empty-state card of a filtered screen appears iff no record passes the filter. */
  lemma EmptyCardIffNoneKept<T>(xs: seq<T>, keep: T -> bool, searchTerm: string)
    ensures EmptyStateFor(|Filter(xs, keep)|, searchTerm).EmptyCard?
            <==> forall i :: 0 <= i < |xs| ==> !keep(xs[i])
  {
    var r := Filter(xs, keep);
    if r != [] {
      assert r[0] in r;
    }
  }
}
