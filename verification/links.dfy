/** The four primitive stages of the link runtime, as functions on finite
    streams.  A `PacketStream` is modelled by the finite sequence of items it
    yields before signalling exhaustion; a stage is modelled by the
    sequence(s) it produces from its ingress sequence(s).

    - ProcessLink: `Apply` for a stateless processor, `ProcessRun` for a
      stateful element `(state, input) -> (state, Option<output>)`;
    - ClassifyLink: `Branch` (one egress line) and `Classify` (all lines, with
      the fail-fast dispatch-index check);
    - JoinLink: `Merge`/`Join`, driven by the executor's choice of which ready
      line to serve next (`schedule`);
    - CloneLink: `Fanout`, which hands every item to each egress line. */
module Links {
  import opened Wrappers

  // ---------------------------------------------------------------------------
  // Lines of streams
  // ---------------------------------------------------------------------------

  /** All lines one after the other, in line order. */
  function Concat<T>(lines: seq<seq<T>>): seq<T>
  {
    if |lines| == 0 then [] else lines[0] + Concat(lines[1..])
  }

  /** Number of items carried by all lines together. */
  function TotalLength<T>(lines: seq<seq<T>>): nat
  {
    if |lines| == 0 then 0 else |lines[0]| + TotalLength(lines[1..])
  }

  lemma {:induction false} ConcatLength<T>(lines: seq<seq<T>>)
    ensures |Concat(lines)| == TotalLength(lines)
  {
    if |lines| > 0 {
      ConcatLength(lines[1..]);
    }
  }

  lemma {:induction false} TotalLengthZero<T>(lines: seq<seq<T>>)
    requires TotalLength(lines) == 0
    ensures forall i :: 0 <= i < |lines| ==> lines[i] == []
  {
    if |lines| > 0 {
      TotalLengthZero(lines[1..]);
      assert forall i :: 1 <= i < |lines| ==> lines[i] == lines[1..][i - 1];
    }
  }

  lemma {:induction false} TotalLengthSnoc<T>(lines: seq<seq<T>>, last: seq<T>)
    ensures TotalLength(lines + [last]) == TotalLength(lines) + |last|
  {
    if |lines| == 0 {
      assert lines + [last] == [last];
    } else {
      assert (lines + [last])[1..] == lines[1..] + [last];
      TotalLengthSnoc(lines[1..], last);
    }
  }

  /** Taking the head item off line `i` removes exactly one item in all. */
  lemma {:induction false} TotalLengthTake<T>(lines: seq<seq<T>>, i: nat)
    requires i < |lines| && |lines[i]| > 0
    ensures TotalLength(lines[i := lines[i][1..]]) + 1 == TotalLength(lines)
  {
    if i == 0 {
      assert lines[i := lines[i][1..]][1..] == lines[1..];
    } else {
      assert lines[i := lines[i][1..]][1..] == lines[1..][i - 1 := lines[i][1..]];
      TotalLengthTake(lines[1..], i - 1);
    }
  }

  /** Taking the head item off line `i` removes exactly that item from the
      multiset of all items. */
  lemma {:induction false} ConcatTake<T>(lines: seq<seq<T>>, i: nat)
    requires i < |lines| && |lines[i]| > 0
    ensures multiset(Concat(lines))
            == multiset{lines[i][0]} + multiset(Concat(lines[i := lines[i][1..]]))
  {
    var rest := lines[i := lines[i][1..]];
    if i == 0 {
      assert rest[1..] == lines[1..];
      assert lines[0] == [lines[0][0]] + lines[0][1..];
    } else {
      assert rest[1..] == lines[1..][i - 1 := lines[i][1..]];
      ConcatTake(lines[1..], i - 1);
    }
  }

  // ---------------------------------------------------------------------------
  // ProcessLink
  // ---------------------------------------------------------------------------

  /** The item list an optional output contributes to a stream. */
  function Emit<U>(o: Option<U>): seq<U>
  {
    match o
    case Some(y) => [y]
    case None => []
  }

  /** A ProcessLink over a stateless processor: each item is mapped by `f`;
      `Some(y)` forwards `y`, `None` drops the item.  Order is kept. */
  function Apply<T, U>(f: T -> Option<U>, s: seq<T>): (r: seq<U>)
    ensures |r| <= |s|
  {
    if |s| == 0 then [] else Emit(f(s[0])) + Apply(f, s[1..])
  }

  /** Running `f` and then `g` on each item, as one processor. */
  function Then<T, U, V>(f: T -> Option<U>, g: U -> Option<V>): T -> Option<V>
  {
    x => match f(x)
         case None => None
         case Some(y) => g(y)
  }

  lemma {:induction false} ApplyAppend<T, U>(f: T -> Option<U>, a: seq<T>, b: seq<T>)
    ensures Apply(f, a + b) == Apply(f, a) + Apply(f, b)
  {
    if |a| > 0 {
      assert (a + b)[1..] == a[1..] + b;
      ApplyAppend(f, a[1..], b);
    } else {
      assert a + b == b;
    }
  }

  /** Two ProcessLinks in a row behave as one whose processor is the
      composition of both. */
  lemma {:induction false} ApplyThen<T, U, V>(f: T -> Option<U>, g: U -> Option<V>, s: seq<T>)
    ensures Apply(g, Apply(f, s)) == Apply(Then(f, g), s)
  {
    if |s| > 0 {
      ApplyThen(f, g, s[1..]);
      ApplyAppend(g, Emit(f(s[0])), Apply(f, s[1..]));
      match f(s[0])
      case None =>
      case Some(y) =>
        assert Apply(g, [y]) == Emit(g(y)) by {
          assert [y][1..] == [];
        }
    }
  }

  /** Processors that agree on every item of the stream give the same output. */
  lemma {:induction false} ApplyAgree<T, U>(f: T -> Option<U>, g: T -> Option<U>, s: seq<T>)
    requires forall k :: 0 <= k < |s| ==> f(s[k]) == g(s[k])
    ensures Apply(f, s) == Apply(g, s)
  {
    if |s| > 0 {
      ApplyAgree(f, g, s[1..]);
    }
  }

  lemma {:induction false} MultisetRemove<T>(t: seq<T>, j: nat)
    requires j < |t|
    ensures multiset(t) == multiset(t[..j] + t[j + 1..]) + multiset{t[j]}
  {
    assert t == t[..j] + [t[j]] + t[j + 1..];
  }

  lemma {:induction false} MultisetCancel<T>(a: multiset<T>, b: multiset<T>, x: T)
    requires a + multiset{x} == b + multiset{x}
    ensures a == b
  {
    assert a == (a + multiset{x}) - multiset{x};
  }

  /** The items a processor emits depend only on the multiset of its input,
      not on the order in which the items arrive. */
  lemma {:induction false} ApplyPermutation<T, U>(f: T -> Option<U>, s: seq<T>, t: seq<T>)
    requires multiset(s) == multiset(t)
    ensures multiset(Apply(f, s)) == multiset(Apply(f, t))
    decreases |s|
  {
    if |s| == 0 {
      assert |t| == |multiset(t)| == 0;
    } else {
      var x := s[0];
      assert x in multiset(t);
      var j :| 0 <= j < |t| && t[j] == x;
      var t' := t[..j] + t[j + 1..];
      assert s == [x] + s[1..];
      MultisetRemove(t, j);
      MultisetCancel(multiset(s[1..]), multiset(t'), x);
      ApplyPermutation(f, s[1..], t');
      ApplySplitAt(f, t, j);
      var a, b := Apply(f, t[..j]), Apply(f, t[j + 1..]);
      assert multiset(Apply(f, t)) == multiset(a) + multiset(Emit(f(x))) + multiset(b);
      assert multiset(Apply(f, s)) == multiset(Emit(f(x))) + multiset(Apply(f, s[1..]));
    }
  }

  lemma {:induction false} ApplySplitAt<T, U>(f: T -> Option<U>, t: seq<T>, j: nat)
    requires j < |t|
    ensures Apply(f, t) == Apply(f, t[..j]) + Emit(f(t[j])) + Apply(f, t[j + 1..])
    ensures Apply(f, t[..j] + t[j + 1..]) == Apply(f, t[..j]) + Apply(f, t[j + 1..])
  {
    var tail := [t[j]] + t[j + 1..];
    assert t == t[..j] + tail;
    ApplyAppend(f, t[..j], tail);
    assert tail[0] == t[j] && tail[1..] == t[j + 1..];
    assert Apply(f, tail) == Emit(f(t[j])) + Apply(f, t[j + 1..]);
    ApplyAppend(f, t[..j], t[j + 1..]);
  }

  /** A stateful element's run over a stream: the element starts in `state`,
      and each item moves it to a new state and yields at most one output. */
  function ProcessRun<S, I, O>(step: (S, I) -> (S, Option<O>), state: S, s: seq<I>): (r: seq<O>)
    ensures |r| <= |s|
  {
    if |s| == 0 then []
    else
      var (next, out) := step(state, s[0]);
      Emit(out) + ProcessRun(step, next, s[1..])
  }

  /** An element that yields an output for every input, whatever its state. */
  ghost predicate NeverDrops<S(!new), I(!new), O>(step: (S, I) -> (S, Option<O>))
  {
    forall state: S, x: I :: step(state, x).1.Some?
  }

  lemma {:induction false} ProcessRunKeepsAll<S(!new), I(!new), O>(step: (S, I) -> (S, Option<O>), state: S, s: seq<I>)
    requires NeverDrops(step)
    ensures |ProcessRun(step, state, s)| == |s|
  {
    if |s| > 0 {
      ProcessRunKeepsAll(step, step(state, s[0]).0, s[1..]);
    }
  }

  /** A stateless processor is the special case of an element whose state
      never changes. */
  lemma {:induction false} ProcessRunStateless<S, I, O>(f: I -> Option<O>, state: S, s: seq<I>)
    ensures ProcessRun((st: S, x: I) => (st, f(x)), state, s) == Apply(f, s)
  {
    if |s| > 0 {
      ProcessRunStateless(f, state, s[1..]);
    }
  }

  // ---------------------------------------------------------------------------
  // ClassifyLink
  // ---------------------------------------------------------------------------

  /** The processor that keeps exactly the items `route` sends to branch `i`. */
  function Only<T>(route: T -> Option<nat>, i: nat): T -> Option<T>
  {
    x => if route(x) == Some(i) then Some(x) else None
  }

  /** Egress line `i` of a ClassifyLink whose classifier followed by its
      dispatcher is `route`: the unmodified items routed to `i`, in order. */
  function Branch<T>(route: T -> Option<nat>, i: nat, s: seq<T>): (r: seq<T>)
    ensures |r| <= |s|
  {
    Apply(Only(route, i), s)
  }

  /** The items a ClassifyLink routes to no branch at all. */
  function Dropped<T>(route: T -> Option<nat>, s: seq<T>): seq<T>
  {
    Apply((x: T) => if route(x).None? then Some(x) else None, s)
  }

  datatype LinkError = DispatchIndexOutOfRange(index: nat, numEgressors: nat)

  /** Every item of `s` before position `k` goes to no branch or to one below `n`. */
  predicate InRangeBefore<T>(route: T -> Option<nat>, n: nat, s: seq<T>, k: nat)
    requires k <= |s|
  {
    forall j :: 0 <= j < k ==> route(s[j]).None? || route(s[j]).value < n
  }

  /** The first branch index `route` yields on `s` that is not below `n`. */
  function FirstOutOfRange<T>(route: T -> Option<nat>, n: nat, s: seq<T>): (r: Option<nat>)
    ensures r.None? <==> forall k :: 0 <= k < |s| && route(s[k]).Some? ==> route(s[k]).value < n
    ensures r.Some? ==> n <= r.value && exists k :: 0 <= k < |s| && route(s[k]) == Some(r.value)
    ensures r.Some? ==> exists k :: 0 <= k < |s| && route(s[k]) == r && InRangeBefore(route, n, s, k)
  {
    if |s| == 0 then None
    else if route(s[0]).Some? && n <= route(s[0]).value then
      assert InRangeBefore(route, n, s, 0);
      route(s[0])
    else
      var rest := FirstOutOfRange(route, n, s[1..]);
      assert forall k :: 1 <= k < |s| ==> s[k] == s[1..][k - 1];
      assert rest.Some? ==> exists k :: 0 <= k < |s| && route(s[k]) == rest && InRangeBefore(route, n, s, k) by {
        if rest.Some? {
          var k' :| 0 <= k' < |s[1..]| && route(s[1..][k']) == rest && InRangeBefore(route, n, s[1..], k');
          assert InRangeBefore(route, n, s, k' + 1);
        }
      }
      rest
  }

  /** A ClassifyLink with `n` egress lines.  A dispatch index `>= n` is a fatal
      configuration error reported at its first occurrence. */
  function Classify<T>(route: T -> Option<nat>, n: nat, s: seq<T>): (r: Result<seq<seq<T>>, LinkError>)
    ensures r.Failure? <==> exists k :: 0 <= k < |s| && route(s[k]).Some? && n <= route(s[k]).value
    ensures r.Success? ==> |r.value| == n
    ensures r.Failure? ==> r.error.numEgressors == n && n <= r.error.index
    ensures r.Failure? ==> exists k :: 0 <= k < |s| && route(s[k]) == Some(r.error.index) && InRangeBefore(route, n, s, k)
  {
    match FirstOutOfRange(route, n, s)
    case Some(i) => Failure(DispatchIndexOutOfRange(i, n))
    case None => Success(Branches(route, n, s))
  }

  /** The `n` egress lines of a ClassifyLink that raised no error. */
  function Branches<T>(route: T -> Option<nat>, n: nat, s: seq<T>): (r: seq<seq<T>>)
    ensures |r| == n
  {
    seq(n, i requires 0 <= i < n => Branch(route, i, s))
  }

  /** The items that go to some branch below `n`. */
  function Routed<T>(route: T -> Option<nat>, n: nat, s: seq<T>): seq<T>
  {
    Apply((x: T) => if route(x).Some? && route(x).value < n then Some(x) else None, s)
  }

  lemma {:induction false} RoutedStep<T>(route: T -> Option<nat>, n: nat, s: seq<T>)
    ensures |Routed(route, n + 1, s)| == |Routed(route, n, s)| + |Branch(route, n, s)|
  {
    if |s| > 0 {
      RoutedStep(route, n, s[1..]);
    }
  }

  lemma {:induction false} BranchesTotal<T>(route: T -> Option<nat>, n: nat, s: seq<T>)
    ensures TotalLength(Branches(route, n, s)) == |Routed(route, n, s)|
  {
    if n == 0 {
      ApplyAgree((x: T) => if route(x).Some? && route(x).value < 0 then Some(x) else None,
                 (x: T) => None, s);
      EmptyApply<T, T>(s);
    } else {
      BranchesTotal(route, n - 1, s);
      assert Branches(route, n, s) == Branches(route, n - 1, s) + [Branch(route, n - 1, s)];
      TotalLengthSnoc(Branches(route, n - 1, s), Branch(route, n - 1, s));
      RoutedStep(route, n - 1, s);
    }
  }

  lemma {:induction false} EmptyApply<T, U>(s: seq<T>)
    ensures Apply<T, U>((x: T) => None, s) == []
  {
    if |s| > 0 {
      EmptyApply<T, U>(s[1..]);
    }
  }

  lemma {:induction false} RoutedOrDropped<T>(route: T -> Option<nat>, n: nat, s: seq<T>)
    requires forall k :: 0 <= k < |s| && route(s[k]).Some? ==> route(s[k]).value < n
    ensures |Routed(route, n, s)| + |Dropped(route, s)| == |s|
  {
    if |s| > 0 {
      assert forall k :: 1 <= k < |s| ==> s[k] == s[1..][k - 1];
      RoutedOrDropped(route, n, s[1..]);
    }
  }

  /** Conservation: when every dispatch index is in range, the ClassifyLink
      succeeds, and the items on all branches together plus the dropped items
      are exactly as many as the items that came in. */
  lemma ClassifyConserves<T>(route: T -> Option<nat>, n: nat, s: seq<T>)
    requires forall k :: 0 <= k < |s| && route(s[k]).Some? ==> route(s[k]).value < n
    ensures Classify(route, n, s).Success?
    ensures TotalLength(Classify(route, n, s).value) + |Dropped(route, s)| == |s|
  {
    BranchesTotal(route, n, s);
    RoutedOrDropped(route, n, s);
  }

  /** An item reaches branch `i` exactly when it was on the ingress line and
      was routed to `i`; it arrives unmodified. */
  lemma {:induction false} BranchMembers<T>(route: T -> Option<nat>, i: nat, s: seq<T>, x: T)
    ensures x in Branch(route, i, s) <==> x in s && route(x) == Some(i)
  {
    if |s| > 0 {
      BranchMembers(route, i, s[1..], x);
      assert s == [s[0]] + s[1..];
    }
  }

  /** The processor that applies `out` to exactly the items `route` sends to
      branch `k`: a ClassifyLink's line `k` followed by a ProcessLink. */
  function Pick<T, U>(route: T -> Option<nat>, out: T -> Option<U>, k: nat): T -> Option<U>
  {
    x => if route(x) == Some(k) then out(x) else None
  }

  /** The processor that applies `out` to the items `route` sends to any
      branch below `n`. */
  function PickBelow<T, U>(route: T -> Option<nat>, out: T -> Option<U>, n: nat): T -> Option<U>
  {
    x => if route(x).Some? && route(x).value < n then out(x) else None
  }

  /** The `n` lines of a ClassifyLink, each followed by the processor `out`. */
  function PickLines<T, U>(route: T -> Option<nat>, out: T -> Option<U>, n: nat, s: seq<T>): (r: seq<seq<U>>)
    ensures |r| == n
  {
    seq(n, k requires 0 <= k < n => Apply(Pick(route, out, k), s))
  }

  /** Two processors that never both forward an item emit together what
      their union emits. */
  lemma {:induction false} ApplyUnion<T, U>(f: T -> Option<U>, g: T -> Option<U>, h: T -> Option<U>, s: seq<T>)
    requires forall k :: 0 <= k < |s| ==> f(s[k]).None? || g(s[k]).None?
    requires forall k :: 0 <= k < |s| ==> h(s[k]) == (if f(s[k]).Some? then f(s[k]) else g(s[k]))
    ensures multiset(Apply(h, s)) == multiset(Apply(f, s)) + multiset(Apply(g, s))
  {
    if |s| > 0 {
      ApplyUnion(f, g, h, s[1..]);
    }
  }

  lemma {:induction false} ConcatSnoc<T>(lines: seq<seq<T>>, last: seq<T>)
    ensures Concat(lines + [last]) == Concat(lines) + last
  {
    if |lines| == 0 {
      assert lines + [last] == [last];
    } else {
      assert (lines + [last])[1..] == lines[1..] + [last];
      ConcatSnoc(lines[1..], last);
    }
  }

  /** Classifying, processing each branch and joining the branches again
      emits, up to order, what one processor emits that handles the routed
      items and drops the rest. */
  lemma {:induction false} PickLinesJoin<T, U>(route: T -> Option<nat>, out: T -> Option<U>, n: nat, s: seq<T>)
    ensures multiset(Concat(PickLines(route, out, n, s))) == multiset(Apply(PickBelow(route, out, n), s))
  {
    if n == 0 {
      PickBelowNone(route, out, s);
    } else {
      PickLinesJoin(route, out, n - 1, s);
      PickLinesSnoc(route, out, n, s);
      PickBelowStep(route, out, n, s);
    }
  }

  lemma PickBelowNone<T, U>(route: T -> Option<nat>, out: T -> Option<U>, s: seq<T>)
    ensures Apply(PickBelow(route, out, 0), s) == []
  {
    ApplyAgree(PickBelow(route, out, 0), (x: T) => None, s);
    EmptyApply<T, U>(s);
  }

  lemma PickLinesSnoc<T, U>(route: T -> Option<nat>, out: T -> Option<U>, n: nat, s: seq<T>)
    requires n > 0
    ensures Concat(PickLines(route, out, n, s))
            == Concat(PickLines(route, out, n - 1, s)) + Apply(Pick(route, out, n - 1), s)
  {
    var prev, line := PickLines(route, out, n - 1, s), Apply(Pick(route, out, n - 1), s);
    assert PickLines(route, out, n, s) == prev + [line];
    ConcatSnoc(prev, line);
  }

  lemma PickBelowStep<T, U>(route: T -> Option<nat>, out: T -> Option<U>, n: nat, s: seq<T>)
    requires n > 0
    ensures multiset(Apply(PickBelow(route, out, n), s))
            == multiset(Apply(PickBelow(route, out, n - 1), s)) + multiset(Apply(Pick(route, out, n - 1), s))
  {
    var below, here, upTo := PickBelow(route, out, n - 1), Pick(route, out, n - 1), PickBelow(route, out, n);
    forall k | 0 <= k < |s|
      ensures below(s[k]).None? || here(s[k]).None?
      ensures upTo(s[k]) == if below(s[k]).Some? then below(s[k]) else here(s[k])
    {
    }
    ApplyUnion(below, here, upTo, s);
  }

  /** The branches of a ClassifyLink, put back together, are a permutation of
      the routed items: classification loses nothing but the dropped items
      and invents nothing. */
  lemma BranchesPermute<T>(route: T -> Option<nat>, n: nat, s: seq<T>)
    ensures multiset(Concat(Branches(route, n, s))) == multiset(Routed(route, n, s))
  {
    var keep := (x: T) => Some(x);
    forall k | 0 <= k < n
      ensures Branches(route, n, s)[k] == PickLines(route, keep, n, s)[k]
    {
      ApplyAgree(Only(route, k), Pick(route, keep, k), s);
    }
    assert Branches(route, n, s) == PickLines(route, keep, n, s);
    PickLinesJoin(route, keep, n, s);
    ApplyAgree(PickBelow(route, keep, n),
               (x: T) => if route(x).Some? && route(x).value < n then Some(x) else None, s);
  }

  /** Lines that are pairwise permutations of each other concatenate to
      permutations of each other. */
  lemma {:induction false} ConcatPermutation<T>(a: seq<seq<T>>, b: seq<seq<T>>)
    requires |a| == |b|
    requires forall i :: 0 <= i < |a| ==> multiset(a[i]) == multiset(b[i])
    ensures multiset(Concat(a)) == multiset(Concat(b))
  {
    if |a| > 0 {
      ConcatPermutation(a[1..], b[1..]);
    }
  }

  /** A sequence with the same multiset as one of at most one item is that
      sequence. */
  lemma MultisetAtMostOne<T>(s: seq<T>, t: seq<T>)
    requires multiset(s) == multiset(t) && |t| <= 1
    ensures s == t
  {
    assert |s| == |multiset(s)| == |multiset(t)| == |t|;
    if |t| == 1 {
      assert s[0] in multiset(s);
    }
  }

  lemma MultisetAtMostOneIf<T>(s: seq<T>, t: seq<T>)
    requires multiset(s) == multiset(t)
    ensures |t| <= 1 ==> s == t
  {
    if |t| <= 1 {
      MultisetAtMostOne(s, t);
    }
  }

  /** Six lines pairwise equal up to order concatenate to equal multisets. */
  lemma ConcatSix<T>(a: seq<seq<T>>, b: seq<seq<T>>)
    requires |a| == 6 && |b| == 6
    requires multiset(a[0]) == multiset(b[0]) && multiset(a[1]) == multiset(b[1])
    requires multiset(a[2]) == multiset(b[2]) && multiset(a[3]) == multiset(b[3])
    requires multiset(a[4]) == multiset(b[4]) && multiset(a[5]) == multiset(b[5])
    ensures multiset(Concat(a)) == multiset(Concat(b))
  {
    ConcatPermutation(a, b);
  }

  /** `y` leaves a ProcessLink exactly when some input item maps to it. */
  lemma {:induction false} ApplyMembers<T, U>(f: T -> Option<U>, s: seq<T>, y: U)
    ensures y in Apply(f, s) <==> exists k :: 0 <= k < |s| && f(s[k]) == Some(y)
  {
    if |s| > 0 {
      ApplyMembers(f, s[1..], y);
      assert forall k :: 1 <= k < |s| ==> s[k] == s[1..][k - 1];
      assert Apply(f, s) == Emit(f(s[0])) + Apply(f, s[1..]);
      if y in Apply(f, s[1..]) {
        var k :| 0 <= k < |s[1..]| && f(s[1..][k]) == Some(y);
        assert f(s[k + 1]) == Some(y);
      }
    }
  }

  // ---------------------------------------------------------------------------
  // JoinLink
  // ---------------------------------------------------------------------------

  /** An item leaving a JoinLink together with the ingress line it came from. */
  datatype Tagged<T> = Tagged(line: nat, item: T)

  function FirstNonEmpty<T>(lines: seq<seq<T>>): (i: nat)
    requires TotalLength(lines) > 0
    ensures i < |lines| && |lines[i]| > 0
  {
    if |lines[0]| > 0 then 0 else 1 + FirstNonEmpty(lines[1..])
  }

  /** The line a JoinLink serves next.  The executor chooses (`schedule[0]`);
      a choice of a line with nothing ready, or no choice left, serves the
      first line that still has items. */
  function NextLine<T>(lines: seq<seq<T>>, schedule: seq<nat>): (i: nat)
    requires TotalLength(lines) > 0
    ensures i < |lines| && |lines[i]| > 0
  {
    if |schedule| > 0 && schedule[0] < |lines| && |lines[schedule[0]]| > 0 then schedule[0]
    else FirstNonEmpty(lines)
  }

  /** A JoinLink over `lines`, each item tagged with its line of origin.  The
      join ends only once every line is exhausted. */
  function Merge<T>(lines: seq<seq<T>>, schedule: seq<nat>): (r: seq<Tagged<T>>)
    ensures |r| == TotalLength(lines)
    decreases TotalLength(lines)
  {
    if TotalLength(lines) == 0 then []
    else
      var i := NextLine(lines, schedule);
      TotalLengthTake(lines, i);
      [Tagged(i, lines[i][0])] + Merge(lines[i := lines[i][1..]], if |schedule| > 0 then schedule[1..] else [])
  }

  function Items<T>(ts: seq<Tagged<T>>): (r: seq<T>)
  {
    seq(|ts|, k requires 0 <= k < |ts| => ts[k].item)
  }

  /** The items of `ts` that came from line `i`, in order. */
  function Project<T>(ts: seq<Tagged<T>>, i: nat): seq<T>
  {
    if |ts| == 0 then []
    else (if ts[0].line == i then [ts[0].item] else []) + Project(ts[1..], i)
  }

  /** The egress stream of a JoinLink. */
  function Join<T>(lines: seq<seq<T>>, schedule: seq<nat>): (r: seq<T>)
    ensures |r| == TotalLength(lines)
  {
    Items(Merge(lines, schedule))
  }

  /** The join never reorders items of one line: whatever the executor's
      choices, the items from line `i` leave in the order line `i` supplied
      them, none missing, and every item is tagged with an existing line. */
  lemma {:induction false} MergeKeepsLineOrder<T>(lines: seq<seq<T>>, schedule: seq<nat>)
    ensures forall i :: 0 <= i < |lines| ==> Project(Merge(lines, schedule), i) == lines[i]
    ensures forall k :: 0 <= k < |Merge(lines, schedule)| ==> Merge(lines, schedule)[k].line < |lines|
    decreases TotalLength(lines)
  {
    if TotalLength(lines) == 0 {
      TotalLengthZero(lines);
    } else {
      var j := NextLine(lines, schedule);
      TotalLengthTake(lines, j);
      var rest := lines[j := lines[j][1..]];
      var schedule' := if |schedule| > 0 then schedule[1..] else [];
      MergeKeepsLineOrder(rest, schedule');
      var m := Merge(lines, schedule);
      assert m == [Tagged(j, lines[j][0])] + Merge(rest, schedule');
      assert m[1..] == Merge(rest, schedule');
      forall i | 0 <= i < |lines|
        ensures Project(m, i) == lines[i]
      {
        if i == j {
          assert lines[j] == [lines[j][0]] + lines[j][1..];
        }
      }
    }
  }

  /** The join loses and invents nothing: its output is a permutation of all
      input items. */
  lemma {:induction false} JoinPermutes<T>(lines: seq<seq<T>>, schedule: seq<nat>)
    ensures multiset(Join(lines, schedule)) == multiset(Concat(lines))
    ensures |Join(lines, schedule)| == TotalLength(lines)
    decreases TotalLength(lines)
  {
    if TotalLength(lines) == 0 {
      TotalLengthZero(lines);
      ConcatLength(lines);
    } else {
      var j := NextLine(lines, schedule);
      TotalLengthTake(lines, j);
      var rest := lines[j := lines[j][1..]];
      var schedule' := if |schedule| > 0 then schedule[1..] else [];
      JoinPermutes(rest, schedule');
      var m := Merge(lines, schedule);
      assert m == [Tagged(j, lines[j][0])] + Merge(rest, schedule');
      assert Join(lines, schedule) == [lines[j][0]] + Join(rest, schedule');
      ConcatTake(lines, j);
    }
  }

  /** What a processor downstream of a join emits, as a multiset, is what it
      would emit on the lines one after the other. */
  lemma ApplyAfterJoin<T, U>(f: T -> Option<U>, lines: seq<seq<T>>, schedule: seq<nat>)
    ensures multiset(Apply(f, Join(lines, schedule))) == multiset(Apply(f, Concat(lines)))
  {
    JoinPermutes(lines, schedule);
    ApplyPermutation(f, Join(lines, schedule), Concat(lines));
  }

  /** A processor after a two-line join emits, up to order, what it emits on
      the two lines. */
  lemma ApplyAfterJoinPair<T, U>(f: T -> Option<U>, a: seq<T>, b: seq<T>, schedule: seq<nat>)
    ensures multiset(Apply(f, Join([a, b], schedule))) == multiset(Apply(f, a)) + multiset(Apply(f, b))
  {
    ApplyAfterJoin(f, [a, b], schedule);
    assert [a, b][1..] == [b];
    assert [b][1..] == [];
    assert Concat([b]) == b + Concat([]) == b;
    assert Concat([a, b]) == a + Concat([b]);
    ApplyAppend(f, a, b);
  }

  // ---------------------------------------------------------------------------
  // CloneLink
  // ---------------------------------------------------------------------------

  /** A CloneLink with `n` egress lines: every ingress item, in turn, is handed
      to each of the `n` lines. */
  function Fanout<T>(s: seq<T>, n: nat): (r: seq<seq<T>>)
    ensures |r| == n
  {
    if |s| == 0 then seq(n, _ => [])
    else
      var rest := Fanout(s[1..], n);
      seq(n, i requires 0 <= i < n => [s[0]] + rest[i])
  }

  /** Every egress line of a CloneLink carries the whole ingress sequence, in
      ingress order. */
  lemma {:induction false} FanoutCopies<T>(s: seq<T>, n: nat)
    ensures forall i :: 0 <= i < n ==> Fanout(s, n)[i] == s
  {
    if |s| > 0 {
      FanoutCopies(s[1..], n);
      assert forall i :: 0 <= i < n ==> Fanout(s, n)[i] == [s[0]] + s[1..];
    }
  }

  /** Across all `n` lines a CloneLink delivers `n` times the ingress count. */
  lemma {:induction false} FanoutTotal<T>(s: seq<T>, n: nat)
    ensures TotalLength(Fanout(s, n)) == n * |s|
  {
    FanoutCopies(s, n);
    CopiesTotal(Fanout(s, n), s);
  }

  lemma {:induction false} CopiesTotal<T>(lines: seq<seq<T>>, s: seq<T>)
    requires forall i :: 0 <= i < |lines| ==> lines[i] == s
    ensures TotalLength(lines) == |lines| * |s|
  {
    if |lines| > 0 {
      CopiesTotal(lines[1..], s);
    }
  }
}
