/** The history ledger: the append-only list of successful calculations
    (kaplat4/main.py:214-215, 285-286; part3.py:83, 114) and its flavor queries
    (kaplat4/main.py:228-235; part3.py:86-95). */
module History {
  import opened Wrappers
  import opened Operations

  datatype Flavor = Stack | Independent

  /** `{"flavor", "operation", "arguments", "result"}`; the operation is the name as the caller
      wrote it, the arguments are of the service's argument type `A`. */
  datatype Record<A> = Record(flavor: Flavor, operation: string, arguments: seq<A>, result: Number)

  function FlavorName(f: Flavor): string {
    match f
    case Stack => "STACK"
    case Independent => "INDEPENDENT"
  }

  /** The `flavor` query parameter: only the exact upper-case names select a flavor. */
  function ParseFlavor(s: Option<string>): (r: Option<Flavor>)
    ensures r.Some? ==> s == Some(FlavorName(r.value))
  {
    if s == Some("STACK") then Some(Stack)
    else if s == Some("INDEPENDENT") then Some(Independent)
    else None
  }

  /** Each flavor's name selects that flavor. */
  lemma ParseFlavorName(f: Flavor)
    ensures ParseFlavor(Some(FlavorName(f))) == Some(f)
  {
  }

  /** `[h for h in history if h["flavor"] == f]`. */
  function OfFlavor<A>(h: seq<Record<A>>, f: Flavor): (r: seq<Record<A>>)
    ensures |r| <= |h|
    ensures forall i :: 0 <= i < |r| ==> r[i].flavor == f
  {
    if h == [] then []
    else OfFlavor(h[..|h| - 1], f) + (if h[|h| - 1].flavor == f then [h[|h| - 1]] else [])
  }

  /** No record of the requested flavor is left out. */
  lemma {:induction false} OfFlavorKeepsAll<A>(h: seq<Record<A>>, f: Flavor, i: nat)
    requires i < |h| && h[i].flavor == f
    ensures h[i] in OfFlavor(h, f)
  {
    if i < |h| - 1 {
      OfFlavorKeepsAll(h[..|h| - 1], f, i);
    }
  }

  /** Filtering distributes over concatenation: it keeps insertion order. */
  lemma {:induction false} OfFlavorAppend<A>(a: seq<Record<A>>, b: seq<Record<A>>, f: Flavor)
    ensures OfFlavor(a + b, f) == OfFlavor(a, f) + OfFlavor(b, f)
  {
    if b == [] {
      assert a + b == a;
    } else {
      var init, last := b[..|b| - 1], b[|b| - 1];
      var tail := if last.flavor == f then [last] else [];
      assert (a + b)[..|a + b| - 1] == a + init;
      assert (a + b)[|a + b| - 1] == last;
      calc {
        OfFlavor(a + b, f);
        OfFlavor(a + init, f) + tail;
        { OfFlavorAppend(a, init, f); }
        OfFlavor(a, f) + OfFlavor(init, f) + tail;
        OfFlavor(a, f) + OfFlavor(b, f);
      }
    }
  }

  /** A filtered list holds only the flavor it was filtered for. */
  lemma {:induction false} OfFlavorOnly<A>(h: seq<Record<A>>, f: Flavor, g: Flavor)
    ensures OfFlavor(OfFlavor(h, f), g) == if f == g then OfFlavor(h, f) else []
  {
    if h != [] {
      var init := h[..|h| - 1];
      var last := h[|h| - 1];
      OfFlavorOnly(init, f, g);
      OfFlavorAppend(OfFlavor(init, f), if last.flavor == f then [last] else [], g);
    }
  }

  /** The chronological query of kaplat4/main.py:229-235: a known flavor filters, anything else
      (including no flavor) returns the whole history as it is. */
  function Chronological<A>(h: seq<Record<A>>, flavor: Option<string>): seq<Record<A>> {
    match ParseFlavor(flavor)
    case Some(f) => OfFlavor(h, f)
    case None => h
  }

  /** The grouped query of part3.py:87-95: a known flavor filters, anything else returns
      the STACK records followed by the INDEPENDENT records. */
  function Grouped<A>(h: seq<Record<A>>, flavor: Option<string>): seq<Record<A>> {
    match ParseFlavor(flavor)
    case Some(f) => OfFlavor(h, f)
    case None => OfFlavor(h, Stack) + OfFlavor(h, Independent)
  }

  /** Every record has one of the two flavors: the two filtered views together hold the history. */
  lemma {:induction false} FlavorSplit<A>(h: seq<Record<A>>)
    ensures multiset(OfFlavor(h, Stack)) + multiset(OfFlavor(h, Independent)) == multiset(h)
  {
    if h != [] {
      FlavorSplit(h[..|h| - 1]);
      SplitLast(h);
      MultisetLast(h);
    }
  }

  /** The last record of a history joins exactly one of the two views. */
  lemma SplitLast<A>(h: seq<Record<A>>)
    requires h != []
    ensures var init := h[..|h| - 1];
            multiset(OfFlavor(h, Stack)) + multiset(OfFlavor(h, Independent))
            == multiset(OfFlavor(init, Stack)) + multiset(OfFlavor(init, Independent)) + multiset{h[|h| - 1]}
  {
    var init, last := h[..|h| - 1], h[|h| - 1];
    var s, i := OfFlavor(init, Stack), OfFlavor(init, Independent);
    if last.flavor == Stack {
      assert OfFlavor(h, Stack) == s + [last];
      assert multiset(s + [last]) == multiset(s) + multiset{last};
    } else {
      assert OfFlavor(h, Independent) == i + [last];
      assert multiset(i + [last]) == multiset(i) + multiset{last};
    }
  }

  lemma MultisetLast<T>(h: seq<T>)
    requires h != []
    ensures multiset(h) == multiset(h[..|h| - 1]) + multiset{h[|h| - 1]}
  {
    assert h == h[..|h| - 1] + [h[|h| - 1]];
  }

  /** The grouped view loses and duplicates nothing: it is a permutation of the history. */
  lemma GroupedIsPermutation<A>(h: seq<Record<A>>)
    ensures multiset(Grouped(h, None)) == multiset(h)
  {
    FlavorSplit(h);
  }

  /** The grouped view keeps each flavor's records in insertion order: filtering it by a flavor
      gives what filtering the history gives. */
  lemma GroupedKeepsOrder<A>(h: seq<Record<A>>, f: Flavor)
    ensures OfFlavor(Grouped(h, None), f) == OfFlavor(h, f)
  {
    OfFlavorAppend(OfFlavor(h, Stack), OfFlavor(h, Independent), f);
    OfFlavorOnly(h, Stack, f);
    OfFlavorOnly(h, Independent, f);
  }

  /** No INDEPENDENT record precedes a STACK record. */
  predicate StackFirst<A>(h: seq<Record<A>>) {
    forall i, j :: 0 <= i < j < |h| && h[i].flavor == Independent ==> h[j].flavor == Independent
  }

  /** The two unfiltered views agree when no INDEPENDENT record precedes a STACK record. */
  lemma {:induction false} ViewsAgreeWhenSorted<A>(h: seq<Record<A>>)
    requires StackFirst(h)
    ensures Grouped(h, None) == Chronological(h, None)
  {
    if h != [] {
      var init := h[..|h| - 1];
      var last := h[|h| - 1];
      ViewsAgreeWhenSorted(init);
      var st, ind := OfFlavor(init, Stack), OfFlavor(init, Independent);
      assert st + ind == init;
      if last.flavor == Stack {
        assert forall i :: 0 <= i < |init| ==> init[i].flavor == Stack;
        NoneOfOther(init, Independent);
        assert Grouped(h, None) == (st + [last]) + ind;
      } else {
        assert Grouped(h, None) == st + (ind + [last]);
      }
      assert h == init + [last];
    }
  }

  /** part3's unfiltered view always lists every STACK record before every INDEPENDENT one. */
  lemma GroupedIsStackFirst<A>(h: seq<Record<A>>)
    ensures StackFirst(Grouped(h, None))
  {
    var s, ind := OfFlavor(h, Stack), OfFlavor(h, Independent);
    var g := s + ind;
    forall i, j | 0 <= i < j < |g| && g[i].flavor == Independent
      ensures g[j].flavor == Independent
    {
      assert j >= |s|;
      assert g[j] == ind[j - |s|];
    }
  }

  /** The two unfiltered views agree exactly when no INDEPENDENT record precedes a STACK record. */
  lemma ViewsAgreeIffSorted<A>(h: seq<Record<A>>)
    ensures Grouped(h, None) == Chronological(h, None) <==> StackFirst(h)
  {
    if StackFirst(h) {
      ViewsAgreeWhenSorted(h);
    } else {
      GroupedIsStackFirst(h);
    }
  }

  /** Filtering out every record of a list that has none of that flavor leaves nothing. */
  lemma NoneOfOther<A>(h: seq<Record<A>>, f: Flavor)
    requires forall i :: 0 <= i < |h| ==> h[i].flavor != f
    ensures OfFlavor(h, f) == []
  {
  }

  /** Appending one record adds it to its flavor's view and leaves the other view unchanged. */
  lemma AppendRecord<A>(h: seq<Record<A>>, x: Record<A>, f: Flavor)
    ensures OfFlavor(h + [x], f) == OfFlavor(h, f) + (if x.flavor == f then [x] else [])
  {
    assert (h + [x])[..|h + [x]| - 1] == h;
  }
}
