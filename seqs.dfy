/**
 * The list comprehensions the backends filter and parse with,
 * and the facts about them the service modules use.
 */
module Seqs {
  import opened Wrappers

  /** The elements of `s` that `keep` accepts, in their order in `s`. */
  function Filter<T(!new)>(s: seq<T>, keep: T -> bool): (r: seq<T>)
    ensures |r| <= |s|
    decreases |s|
  {
    if s == [] then []
    else (if keep(s[0]) then [s[0]] else []) + Filter(s[1..], keep)
  }

  /** An element is kept exactly when the list holds it and it passes. */
  lemma {:induction false} FilterMembers<T(!new)>(s: seq<T>, keep: T -> bool)
    ensures forall x :: x in Filter(s, keep) <==> x in s && keep(x)
    decreases |s|
  {
    if s != [] {
      FilterMembers(s[1..], keep);
      assert s == [s[0]] + s[1..];
    }
  }

  /** The filtered list takes each element at most as often as the list holds it. */
  lemma {:induction false} FilterSubMultiset<T(!new)>(s: seq<T>, f: T -> bool)
    ensures multiset(Filter(s, f)) <= multiset(s)
  {
    FilterCount(s, f);
    assert forall x :: multiset(Filter(s, f))[x] <= multiset(s)[x];
  }

  /** Each element is kept as often as the list holds it when it passes, and never otherwise. */
  lemma {:induction false} FilterCount<T(!new)>(s: seq<T>, f: T -> bool)
    ensures forall x :: multiset(Filter(s, f))[x] == if f(x) then multiset(s)[x] else 0
    decreases |s|
  {
    if s != [] {
      FilterCount(s[1..], f);
      FilterHead(s, f);
      assert s == [s[0]] + s[1..];
    }
  }

  /** Filtering by two tests that agree on every element gives the same list. */
  lemma {:induction false} FilterSame<T(!new)>(s: seq<T>, f: T -> bool, g: T -> bool)
    requires forall x :: x in s ==> f(x) == g(x)
    ensures Filter(s, f) == Filter(s, g)
    decreases |s|
  {
    if s != [] {
      assert forall x :: x in s[1..] ==> x in s;
      FilterSame(s[1..], f, g);
    }
  }

  /** Filtering a list grown by one element: the old result, plus the element when it passes. */
  lemma {:induction false} FilterAppend<T(!new)>(s: seq<T>, x: T, f: T -> bool)
    ensures Filter(s + [x], f) == if f(x) then Filter(s, f) + [x] else Filter(s, f)
    decreases |s|
  {
    var t := s + [x];
    if s == [] {
      assert t[1..] == [];
    } else {
      FilterAppend(s[1..], x, f);
      assert t[0] == s[0] && t[1..] == s[1..] + [x];
      var head := if f(s[0]) then [s[0]] else [];
      var rest := Filter(s[1..], f);
      assert Filter(t, f) == head + Filter(s[1..] + [x], f);
      assert Filter(s, f) == head + rest;
      if f(x) {
        assert head + (rest + [x]) == (head + rest) + [x];
      }
    }
  }

  /** A test every element passes keeps the whole list. */
  lemma {:induction false} FilterKeepsAll<T(!new)>(s: seq<T>, f: T -> bool)
    requires forall x :: x in s ==> f(x)
    ensures Filter(s, f) == s
    decreases |s|
  {
    if s != [] {
      assert forall x :: x in s[1..] ==> x in s;
      FilterKeepsAll(s[1..], f);
      assert s == [s[0]] + s[1..];
    }
  }

  /** A test no element passes keeps nothing. */
  lemma {:induction false} FilterKeepsNone<T(!new)>(s: seq<T>, f: T -> bool)
    requires forall x :: x in s ==> !f(x)
    ensures Filter(s, f) == []
    decreases |s|
  {
    if s != [] {
      assert forall x :: x in s[1..] ==> x in s;
      FilterKeepsNone(s[1..], f);
    }
  }

  /**
   * Two tests that split what a third accepts into disjoint parts split its
   * filtered list: together the two lists hold exactly its elements.
   */
  lemma {:induction false} FilterSplit<T(!new)>(s: seq<T>, f: T -> bool, g: T -> bool, h: T -> bool)
    requires forall i :: 0 <= i < |s| ==> (h(s[i]) <==> f(s[i]) || g(s[i])) && !(f(s[i]) && g(s[i]))
    ensures multiset(Filter(s, f)) + multiset(Filter(s, g)) == multiset(Filter(s, h))
    decreases |s|
  {
    if s != [] {
      var x, rest := s[0], s[1..];
      assert (h(x) <==> f(x) || g(x)) && !(f(x) && g(x));
      forall i | 0 <= i < |rest|
        ensures (h(rest[i]) <==> f(rest[i]) || g(rest[i])) && !(f(rest[i]) && g(rest[i]))
      {
        assert rest[i] == s[i + 1];
      }
      FilterSplit(rest, f, g, h);
      FilterHead(s, f);
      FilterHead(s, g);
      FilterHead(s, h);
      SplitStep(multiset(Filter(rest, f)), multiset(Filter(rest, g)), multiset(Filter(rest, h)), x, f(x), g(x), h(x));
    }
  }

  /** One element added to a split: it lands in the part whose test it passes. */
  lemma SplitStep<T>(a: multiset<T>, b: multiset<T>, c: multiset<T>, x: T, fx: bool, gx: bool, hx: bool)
    requires a + b == c && (hx <==> fx || gx) && !(fx && gx)
    ensures ((if fx then multiset{x} else multiset{}) + a) + ((if gx then multiset{x} else multiset{}) + b)
      == (if hx then multiset{x} else multiset{}) + c
  {
  }

  /** The multiset of a filtered non-empty list: its head when it passes, and the filtered tail. */
  lemma FilterHead<T(!new)>(s: seq<T>, f: T -> bool)
    requires s != []
    ensures multiset(Filter(s, f)) == (if f(s[0]) then multiset{s[0]} else multiset{}) + multiset(Filter(s[1..], f))
  {
    var rest := Filter(s[1..], f);
    if f(s[0]) {
      assert Filter(s, f) == [s[0]] + rest;
    } else {
      assert Filter(s, f) == rest;
    }
  }

  /**
   * A loop over `inputs` that threads a state: step `j` takes `inputs[j]` from
   * `states[j]` to `states[j + 1]` and gives `outs[j]`, as `step` relates them.
   */
  ghost predicate Run<A, S, R>(inputs: seq<A>, states: seq<S>, outs: seq<R>, step: (A, S, R, S) -> bool)
    decreases |outs|
  {
    |states| == |outs| + 1 && |outs| <= |inputs| &&
    (outs == [] ||
      var n := |outs| - 1;
      Run(inputs, states[..n + 1], outs[..n], step) && step(inputs[n], states[n], outs[n], states[n + 1]))
  }

  /** A run read step by step. */
  lemma {:induction false} RunSteps<A, S, R>(inputs: seq<A>, states: seq<S>, outs: seq<R>, step: (A, S, R, S) -> bool)
    requires |states| == |outs| + 1 && |outs| <= |inputs|
    ensures Run(inputs, states, outs, step) <==>
      forall j :: 0 <= j < |outs| ==> step(inputs[j], states[j], outs[j], states[j + 1])
    decreases |outs|
  {
    if outs != [] {
      var n := |outs| - 1;
      RunSteps(inputs, states[..n + 1], outs[..n], step);
    }
  }

  /** One more step extends a run. */
  lemma RunExtend<A, S, R>(inputs: seq<A>, states: seq<S>, outs: seq<R>, step: (A, S, R, S) -> bool, out: R, next: S)
    requires Run(inputs, states, outs, step) && |outs| < |inputs|
    requires step(inputs[|outs|], states[|outs|], out, next)
    ensures Run(inputs, states + [next], outs + [out], step)
  {
    assert (states + [next])[..|outs| + 1] == states;
    assert (outs + [out])[..|outs|] == outs;
  }

  /** `[y for x in s if (y := f(x))]`: the results `f` gives, in order, skipping None. */
  function FilterMap<A(!new), B(!new)>(s: seq<A>, f: A -> Option<B>): (r: seq<B>)
    ensures |r| <= |s|
    ensures forall x :: x in s && f(x).Some? ==> f(x).value in r
    ensures forall y :: y in r ==> exists x :: x in s && f(x) == Some(y)
    decreases |s|
  {
    if s == [] then []
    else
      var rest := FilterMap(s[1..], f);
      assert forall x :: x in s ==> x == s[0] || x in s[1..];
      assert forall x :: x in s[1..] ==> x in s;
      (if f(s[0]).Some? then [f(s[0]).value] else []) + rest
  }

  /** Mapping a concatenation maps each part in turn: the order and the repeats of the input are kept. */
  lemma {:induction false} FilterMapAppend<A(!new), B(!new)>(s: seq<A>, t: seq<A>, f: A -> Option<B>)
    ensures FilterMap(s + t, f) == FilterMap(s, f) + FilterMap(t, f)
    decreases |s|
  {
    if s != [] {
      assert (s + t)[1..] == s[1..] + t;
      FilterMapAppend(s[1..], t, f);
    } else {
      assert s + t == t;
    }
  }
}
