/** The two loops the stack handlers run on the shared stack (a Python list whose end is the
    top): popping `k` entries one at a time, and pushing popped entries back in reverse. Both
    handlers of kaplat4/main.py and part3.py use them, on stacks of different element types. */
module StackOps {

  /** The top `k` entries of `s` in the order successive pops return them: the former top first. */
  function PopOrder<T>(s: seq<T>, k: nat): (r: seq<T>)
    requires k <= |s|
    ensures |r| == k
    ensures forall i :: 0 <= i < k ==> r[i] == s[|s| - 1 - i]
  {
    if k == 0 then [] else [s[|s| - 1]] + PopOrder(s[..|s| - 1], k - 1)
  }

  function Reverse<T>(s: seq<T>): (r: seq<T>)
    ensures |r| == |s|
    ensures forall i :: 0 <= i < |s| ==> r[i] == s[|s| - 1 - i]
  {
    if s == [] then [] else Reverse(s[1..]) + [s[0]]
  }

  /** `args = [stack.pop() for _ in range(k)]`: the stack loses its top `k` entries and
      `popped` holds them, the former top first. */
  method PopMany<T>(s: seq<T>, k: nat) returns (rest: seq<T>, popped: seq<T>)
    requires k <= |s|
    ensures rest == s[..|s| - k]
    ensures popped == PopOrder(s, k)
  {
    rest, popped := s, [];
    var i := 0;
    while i < k
      invariant 0 <= i <= k
      invariant rest == s[..|s| - i]
      invariant |popped| == i
      invariant forall j :: 0 <= j < i ==> popped[j] == s[|s| - 1 - j]
    {
      popped := popped + [rest[|rest| - 1]];
      rest := rest[..|rest| - 1];
      i := i + 1;
    }
  }

  /** `for _ in range(k): stack.pop()`: the stack loses its top `k` entries. */
  method DropTop<T>(s: seq<T>, k: nat) returns (rest: seq<T>)
    requires k <= |s|
    ensures rest == s[..|s| - k]
  {
    rest := s;
    var i := 0;
    while i < k
      invariant 0 <= i <= k
      invariant rest == s[..|s| - i]
    {
      rest := rest[..|rest| - 1];
      i := i + 1;
    }
  }

  /** `for v in reversed(args): stack.append(v)`: the entries go back last-popped first. */
  method PushReversed<T>(s: seq<T>, args: seq<T>) returns (r: seq<T>)
    ensures r == s + Reverse(args)
  {
    r := s;
    var i := |args|;
    while i > 0
      invariant 0 <= i <= |args|
      invariant |r| == |s| + |args| - i
      invariant r[..|s|] == s
      invariant forall j :: |s| <= j < |r| ==> r[j] == args[|args| - 1 - (j - |s|)]
    {
      r := r + [args[i - 1]];
      i := i - 1;
    }
  }

  /** Pushing back, in reverse, what was popped restores the stack exactly. */
  lemma RollbackRestores<T>(s: seq<T>, k: nat)
    requires k <= |s|
    ensures s[..|s| - k] + Reverse(PopOrder(s, k)) == s
  {
    var r := s[..|s| - k] + Reverse(PopOrder(s, k));
    forall j | |s| - k <= j < |s|
      ensures r[j] == s[j]
    {
      var p := PopOrder(s, k);
      assert r[j] == Reverse(p)[j - (|s| - k)];
      assert Reverse(p)[j - (|s| - k)] == p[k - 1 - (j - (|s| - k))];
    }
  }

  /** Python's `extend` then the pop comprehension: pushing values and popping as many returns
      them last-pushed first and leaves the stack as it was. */
  lemma {:induction false} PushThenPop<T>(s: seq<T>, vs: seq<T>)
    ensures PopOrder(s + vs, |vs|) == Reverse(vs)
    ensures (s + vs)[..|s + vs| - |vs|] == s
  {
  }
}
