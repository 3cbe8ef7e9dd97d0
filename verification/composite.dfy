/** The join → transform → clone composite builder (`MtransformNComposite`
    of route-rs-runtime/src/composite/m_transform_n_composite.rs).

    The builder is an immutable record of optional slots; every setter returns
    a new record or, where the source panics, a `Failure`.  `BuildLink` wires
    a JoinLink, a ProcessLink running the element, and a CloneLink, and
    returns the clone stage's egress streams together with the runnables of
    all three stages. */
module Composite {
  import opened Wrappers
  import opened Links

  const DefaultQueueCapacity: nat := 10
  const MaxQueueCapacity: nat := 1000
  const MaxEgressors: nat := 1000
  const MinIngressors: nat := 2
  const MaxIngressors: nat := 1000

  datatype ConfigError =
    | JoinQueueCapacityOutOfRange(capacity: nat)
    | CloneQueueCapacityOutOfRange(capacity: nat)
    | TooManyEgressors(count: nat)
    | ZeroEgressors
    | IngressorCountOutOfRange(count: nat)
    | MissingIngressors
    | MissingEgressorCount
    | MissingElement

  /** The builder's slots.  `E` is the element type (its initial state) and
      `I` the type of the items on the ingress streams. */
  datatype Builder<E, I> = Builder(
    inStreams: Option<seq<seq<I>>>,
    element: Option<E>,
    joinQueueCapacity: nat,
    cloneQueueCapacity: nat,
    numEgressors: Option<nat>)

  /** The stage a runnable task belongs to. */
  datatype Stage = JoinStage | ProcessStage | CloneStage

  /** A task handed to the executor; `id` tells apart the tasks of one stage. */
  datatype Runnable = Runnable(stage: Stage, id: nat)

  /** What building a link yields: its tasks and its egress streams. */
  datatype Link<T> = Link(runnables: seq<Runnable>, egressors: seq<seq<T>>)

  predicate InCapacityRange(capacity: nat)
  {
    1 <= capacity <= MaxQueueCapacity
  }

  /** What the setters guarantee of every builder they return. */
  predicate Valid<E, I>(b: Builder<E, I>)
  {
    && InCapacityRange(b.joinQueueCapacity)
    && InCapacityRange(b.cloneQueueCapacity)
    && (b.numEgressors.Some? ==> 1 <= b.numEgressors.value <= MaxEgressors)
    && (b.inStreams.Some? ==> MinIngressors <= |b.inStreams.value| <= MaxIngressors)
  }

  /** A fresh builder: nothing set, both queue capacities at their default. */
  function New<E, I>(): (b: Builder<E, I>)
    ensures b.inStreams.None? && b.element.None? && b.numEgressors.None?
    ensures b.joinQueueCapacity == DefaultQueueCapacity && b.cloneQueueCapacity == DefaultQueueCapacity
    ensures Valid(b)
  {
    Builder(None, None, DefaultQueueCapacity, DefaultQueueCapacity, None)
  }

  function JoinQueueCapacity<E(==), I(==)>(b: Builder<E, I>, capacity: nat): (r: Result<Builder<E, I>, ConfigError>)
    ensures r.Success? <==> 1 <= capacity <= 1000
    ensures r.Failure? ==> r.error == JoinQueueCapacityOutOfRange(capacity)
    ensures r.Success? ==> && r.value.joinQueueCapacity == capacity
                           && r.value.inStreams == b.inStreams
                           && r.value.element == b.element
                           && r.value.cloneQueueCapacity == b.cloneQueueCapacity
                           && r.value.numEgressors == b.numEgressors
    ensures Valid(b) && r.Success? ==> Valid(r.value)
  {
    if InCapacityRange(capacity) then Success(b.(joinQueueCapacity := capacity))
    else Failure(JoinQueueCapacityOutOfRange(capacity))
  }

  function CloneQueueCapacity<E(==), I(==)>(b: Builder<E, I>, capacity: nat): (r: Result<Builder<E, I>, ConfigError>)
    ensures r.Success? <==> 1 <= capacity <= 1000
    ensures r.Failure? ==> r.error == CloneQueueCapacityOutOfRange(capacity)
    ensures r.Success? ==> && r.value.cloneQueueCapacity == capacity
                           && r.value.inStreams == b.inStreams
                           && r.value.element == b.element
                           && r.value.joinQueueCapacity == b.joinQueueCapacity
                           && r.value.numEgressors == b.numEgressors
    ensures Valid(b) && r.Success? ==> Valid(r.value)
  {
    if InCapacityRange(capacity) then Success(b.(cloneQueueCapacity := capacity))
    else Failure(CloneQueueCapacityOutOfRange(capacity))
  }

  /** Sets the number of egress streams.  Like every slot of this builder,
      it may be set again; the last value wins. */
  function NumEgressors<E(==), I(==)>(b: Builder<E, I>, n: nat): (r: Result<Builder<E, I>, ConfigError>)
    ensures r.Success? <==> 1 <= n <= 1000
    ensures n > 1000 ==> r == Failure(TooManyEgressors(n))
    ensures n == 0 ==> r == Failure(ZeroEgressors)
    ensures r.Success? ==> && r.value.numEgressors == Some(n)
                           && r.value.inStreams == b.inStreams
                           && r.value.element == b.element
                           && r.value.joinQueueCapacity == b.joinQueueCapacity
                           && r.value.cloneQueueCapacity == b.cloneQueueCapacity
    ensures Valid(b) && r.Success? ==> Valid(r.value)
  {
    if n > MaxEgressors then Failure(TooManyEgressors(n))
    else if n == 0 then Failure(ZeroEgressors)
    else Success(b.(numEgressors := Some(n)))
  }

  function Ingressors<E(==), I(==)>(b: Builder<E, I>, streams: seq<seq<I>>): (r: Result<Builder<E, I>, ConfigError>)
    ensures r.Success? <==> 2 <= |streams| <= 1000
    ensures r.Failure? ==> r.error == IngressorCountOutOfRange(|streams|)
    ensures r.Success? ==> && r.value.inStreams == Some(streams)
                           && r.value.element == b.element
                           && r.value.joinQueueCapacity == b.joinQueueCapacity
                           && r.value.cloneQueueCapacity == b.cloneQueueCapacity
                           && r.value.numEgressors == b.numEgressors
    ensures Valid(b) && r.Success? ==> Valid(r.value)
  {
    if MinIngressors <= |streams| <= MaxIngressors then Success(b.(inStreams := Some(streams)))
    else Failure(IngressorCountOutOfRange(|streams|))
  }

  /** Sets the element.  There is no set-once check: a second element
      replaces the first. */
  function Element<E(==), I(==)>(b: Builder<E, I>, element: E): (r: Builder<E, I>)
    ensures r.element == Some(element)
    ensures && r.inStreams == b.inStreams
            && r.joinQueueCapacity == b.joinQueueCapacity
            && r.cloneQueueCapacity == b.cloneQueueCapacity
            && r.numEgressors == b.numEgressors
    ensures Valid(b) ==> Valid(r)
  {
    b.(element := Some(element))
  }

  // ---------------------------------------------------------------------------
  // The three internal stages
  // ---------------------------------------------------------------------------

  /** The feeding tasks of a JoinLink over `m` lines. */
  function JoinTasks(m: nat): (rs: seq<Runnable>)
    ensures |rs| == m
  {
    seq(m, i requires 0 <= i < m => Runnable(JoinStage, i))
  }

  /** The JoinLink stage: one feeding task per ingress line, one merged egress. */
  function JoinStageLink<T>(lines: seq<seq<T>>, schedule: seq<nat>): (l: Link<T>)
    ensures |l.egressors| == 1
  {
    Link(JoinTasks(|lines|), [Join(lines, schedule)])
  }

  /** The ProcessLink stage running the element over the merged stream. */
  function ProcessStageLink<E, I, O>(process: (E, I) -> (E, Option<O>), element: E, s: seq<I>): (l: Link<O>)
    ensures |l.egressors| == 1
  {
    Link([Runnable(ProcessStage, 0)], [ProcessRun(process, element, s)])
  }

  /** The CloneLink stage: one task feeding `n` egress lines. */
  function CloneStageLink<T>(s: seq<T>, n: nat): (l: Link<T>)
    ensures |l.egressors| == n
  {
    Link([Runnable(CloneStage, 0)], Fanout(s, n))
  }

  /** Builds the composite.  The missing-slot checks run in the source's
      order — ingress streams, egress count, element — before any stage is
      built.  `process` is the element type's `process` method; `schedule`
      is the executor's choice of which ready line the join serves next. */
  function BuildLink<E, I, O>(b: Builder<E, I>, process: (E, I) -> (E, Option<O>), schedule: seq<nat>)
    : (r: Result<Link<O>, ConfigError>)
    ensures b.inStreams.None? ==> r.Failure? && r.error == MissingIngressors
    ensures b.inStreams.Some? && b.numEgressors.None? ==> r.Failure? && r.error == MissingEgressorCount
    ensures (b.inStreams.Some? && b.numEgressors.Some? && b.element.None?) ==>
              r.Failure? && r.error == MissingElement
    ensures r.Success? <==> b.inStreams.Some? && b.numEgressors.Some? && b.element.Some?
    ensures r.Success? ==> |r.value.egressors| == b.numEgressors.value
    ensures Valid(b) && r.Success? ==> 1 <= |r.value.egressors| <= MaxEgressors
    ensures r.Success? ==>
              forall i :: 0 <= i < |r.value.egressors| ==>
                r.value.egressors[i] == ProcessRun(process, b.element.value, Join(b.inStreams.value, schedule))
    ensures r.Success? ==>
              r.value.runnables
              == CloneStageLink(ProcessRun(process, b.element.value, Join(b.inStreams.value, schedule)),
                                b.numEgressors.value).runnables
                 + JoinStageLink(b.inStreams.value, schedule).runnables
                 + ProcessStageLink(process, b.element.value, Join(b.inStreams.value, schedule)).runnables
  {
    if b.inStreams.None? then Failure(MissingIngressors)
    else if b.numEgressors.None? then Failure(MissingEgressorCount)
    else if b.element.None? then Failure(MissingElement)
    else
      var join := JoinStageLink(b.inStreams.value, schedule);
      var sync := ProcessStageLink(process, b.element.value, join.egressors[0]);
      var clone := CloneStageLink(sync.egressors[0], b.numEgressors.value);
      FanoutCopies(sync.egressors[0], b.numEgressors.value);
      Success(Link(clone.runnables + join.runnables + sync.runnables, clone.egressors))
  }

  // ---------------------------------------------------------------------------
  // Properties of a successful build
  // ---------------------------------------------------------------------------

  /** The number of runnables of a given stage. */
  function CountStage(rs: seq<Runnable>, stage: Stage): nat
  {
    if |rs| == 0 then 0 else (if rs[0].stage == stage then 1 else 0) + CountStage(rs[1..], stage)
  }

  lemma {:induction false} CountStageAppend(a: seq<Runnable>, b: seq<Runnable>, stage: Stage)
    ensures CountStage(a + b, stage) == CountStage(a, stage) + CountStage(b, stage)
  {
    if |a| > 0 {
      assert (a + b)[1..] == a[1..] + b;
      CountStageAppend(a[1..], b, stage);
    } else {
      assert a + b == b;
    }
  }

  lemma {:induction false} CountJoinTasks(m: nat)
    ensures CountStage(JoinTasks(m), JoinStage) == m
    ensures CountStage(JoinTasks(m), ProcessStage) == 0
    ensures CountStage(JoinTasks(m), CloneStage) == 0
  {
    if m > 0 {
      CountJoinTasks(m - 1);
      var rs := JoinTasks(m);
      assert rs == JoinTasks(m - 1) + [Runnable(JoinStage, m - 1)];
      CountStageAppend(JoinTasks(m - 1), [Runnable(JoinStage, m - 1)], JoinStage);
      CountStageAppend(JoinTasks(m - 1), [Runnable(JoinStage, m - 1)], ProcessStage);
      CountStageAppend(JoinTasks(m - 1), [Runnable(JoinStage, m - 1)], CloneStage);
    }
  }

  /** None of the three stages' runnables is lost: the clone stage's task
      comes first, and the result holds one task per ingress line for the
      join, one for the element and one for the clone. */
  lemma BuildLinkRunnables<E, I, O>(b: Builder<E, I>, process: (E, I) -> (E, Option<O>), schedule: seq<nat>)
    requires BuildLink(b, process, schedule).Success?
    ensures var rs := BuildLink(b, process, schedule).value.runnables;
            && |rs| == |b.inStreams.value| + 2
            && rs[0].stage == CloneStage
            && CountStage(rs, JoinStage) == |b.inStreams.value|
            && CountStage(rs, ProcessStage) == 1
            && CountStage(rs, CloneStage) == 1
  {
    var m := |b.inStreams.value|;
    var clone := [Runnable(CloneStage, 0)];
    var join := JoinTasks(m);
    var sync := [Runnable(ProcessStage, 0)];
    var rs := BuildLink(b, process, schedule).value.runnables;
    assert rs == clone + join + sync;
    CountJoinTasks(m);
    forall stage
      ensures CountStage(rs, stage) == CountStage(clone, stage) + CountStage(join, stage) + CountStage(sync, stage)
    {
      CountStageAppend(clone + join, sync, stage);
      CountStageAppend(clone, join, stage);
    }
  }

  /** With an element that never drops, every egress stream carries as many
      items as all ingress streams together. */
  lemma BuildLinkKeepsCount<E(!new), I(!new), O>(b: Builder<E, I>, process: (E, I) -> (E, Option<O>), schedule: seq<nat>)
    requires NeverDrops(process)
    requires BuildLink(b, process, schedule).Success?
    ensures forall i :: 0 <= i < |BuildLink(b, process, schedule).value.egressors| ==>
              |BuildLink(b, process, schedule).value.egressors[i]| == TotalLength(b.inStreams.value)
  {
    var lines := b.inStreams.value;
    JoinPermutes(lines, schedule);
    ProcessRunKeepsAll(process, b.element.value, Join(lines, schedule));
  }

  /** The element that forwards every item unchanged. */
  function IdentityStep<E, T>(): (E, T) -> (E, Option<T>)
  {
    (e: E, x: T) => (e, Some(x))
  }

  lemma {:induction false} IdentityRun<E, T>(e: E, s: seq<T>)
    ensures ProcessRun(IdentityStep<E, T>(), e, s) == s
  {
    if |s| > 0 {
      IdentityRun(e, s[1..]);
    }
  }

  /** With the identity element, every egress stream is a merge of the ingress
      streams in which each ingress line's items keep their relative order,
      and all items of every line are present.  A builder the setters
      produced has at least one egress stream, so the statement is never
      about an empty set of streams. */
  lemma BuildLinkKeepsLineOrder<E, T>(b: Builder<E, T>, schedule: seq<nat>)
    requires BuildLink(b, IdentityStep<E, T>(), schedule).Success?
    ensures var lines := b.inStreams.value;
            forall i :: 0 <= i < |lines| ==> Project(Merge(lines, schedule), i) == lines[i]
    ensures var out := BuildLink(b, IdentityStep<E, T>(), schedule).value.egressors;
            forall e :: e in out ==> e == Items(Merge(b.inStreams.value, schedule))
    ensures Valid(b) ==> |BuildLink(b, IdentityStep<E, T>(), schedule).value.egressors| >= 1
  {
    IdentityRun(b.element.value, Join(b.inStreams.value, schedule));
    MergeKeepsLineOrder(b.inStreams.value, schedule);
  }

  // ---------------------------------------------------------------------------
  // Scenarios
  // ---------------------------------------------------------------------------

  /** Two ingress lines each supplying the same `packets`, two egress lines
      and the identity element: each egress line receives exactly the items
      of both ingress lines, `2 * |packets|` of them, in some interleaving. */
  lemma TwoByTwoIdentity<T>(packets: seq<T>, schedule: seq<nat>)
    ensures var b := Element(NumEgressors(Ingressors(New<nat, T>(), [packets, packets]).value, 2).value, 0);
            var r := BuildLink(b, IdentityStep<nat, T>(), schedule);
            && r.Success?
            && |r.value.egressors| == 2
            && |r.value.egressors[0]| == 2 * |packets|
            && |r.value.egressors[1]| == 2 * |packets|
            && multiset(r.value.egressors[0]) == multiset(packets + packets)
            && multiset(r.value.egressors[1]) == multiset(packets + packets)
  {
    var lines := [packets, packets];
    var b := Element(NumEgressors(Ingressors(New<nat, T>(), lines).value, 2).value, 0);
    JoinPermutes(lines, schedule);
    IdentityRun<nat, T>(0, Join(lines, schedule));
    assert lines[1..] == [packets];
    assert [packets][1..] == [];
    assert TotalLength([packets]) == |packets|;
    assert TotalLength(lines) == 2 * |packets|;
    assert Concat([packets]) == packets;
    assert Concat(lines) == packets + packets;
    assert b.inStreams == Some(lines) && b.element == Some(0) && b.numEgressors == Some(2);
    var r := BuildLink(b, IdentityStep<nat, T>(), schedule);
    assert r.Success?;
    assert |r.value.egressors| == 2;
    assert r.value.egressors[1] == ProcessRun(IdentityStep<nat, T>(), 0, Join(lines, schedule));
    assert r.value.egressors[0] == ProcessRun(IdentityStep<nat, T>(), 0, Join(lines, schedule));
  }

  /** The composite's own test configures two ingress streams and two egress
      lines but never an element, so building it fails with `MissingElement`. */
  lemma UnitTestBuilderLacksElement(packets: seq<nat>, schedule: seq<nat>)
    ensures var b := Ingressors(NumEgressors(New<nat, nat>(), 2).value, [packets, packets]).value;
            var r := BuildLink(b, IdentityStep<nat, nat>(), schedule);
            r.Failure? && r.error == MissingElement
  {
  }
}
