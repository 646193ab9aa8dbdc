/** The index of the priority scheduler as values: which streams have a node, and the lists of idle
    and closed ones from which the oldest are removed (h2_bundle.go:11158-11344). */
module PriorityIndexes {
  import opened PriorityNodes

  datatype Index = Index(states: map<nat, NodeState>, idle: seq<nat>, closed: seq<nat>, maxID: nat)

  /** The limits of the configuration. */
  datatype Limits = Limits(maxClosed: nat, maxIdle: nat)

  // ----- The operations

  /** The list after addClosedOrIdleNode. */
  function Listing(list: seq<nat>, maxSize: nat, id: nat): seq<nat> {
    if maxSize == 0 then list else if |list| == maxSize then list[1..] + [id] else list + [id]
  }

  /** What removeNode leaves of the index when the list is full. */
  function Evicted(states: map<nat, NodeState>, list: seq<nat>, maxSize: nat): map<nat, NodeState> {
    if 0 < maxSize == |list| then states - {list[0]} else states
  }

  /** OpenStream. */
  function Opened(x: Index, id: nat): Index {
    x.(states := x.states[id := Open], maxID := if id !in x.states && id > x.maxID then id else x.maxID)
  }

  /** CloseStream. */
  function Closing(x: Index, id: nat, limits: Limits): Index {
    if limits.maxClosed == 0 then x.(states := x.states - {id})
    else x.(states := Evicted(x.states[id := Closed], x.closed, limits.maxClosed), closed := Listing(x.closed, limits.maxClosed, id))
  }

  /** Whether AdjustStream makes a node for an idle stream. */
  predicate AddsIdle(x: Index, id: nat, limits: Limits) {
    id !in x.states && id > x.maxID && limits.maxIdle > 0
  }

  /** AdjustStream. */
  function Adjusting(x: Index, id: nat, limits: Limits): Index {
    if AddsIdle(x, id, limits) then
      Index(Evicted(x.states[id := Idle], x.idle, limits.maxIdle), Listing(x.idle, limits.maxIdle, id), x.closed, id)
    else x
  }

  // ----- Runs of a server, which opens every stream once and closes it once

  datatype Op = OpenOp(id: nat) | CloseOp(id: nat) | AdjustOp(id: nat)

  /** The index, the streams that were opened, and those that were closed again. */
  datatype Story = Story(x: Index, begun: set<nat>, ended: set<nat>)

  /** Streams are opened once, and closed when they are open; CloseStream panics if the node of an
      open stream is gone. */
  predicate CanDo(h: Story, op: Op) {
    match op
    case OpenOp(id) => id != 0 && id !in h.begun
    case CloseOp(id) => id in h.begun && id !in h.ended && id in h.x.states
    case AdjustOp(id) => id != 0
  }

  function After(h: Story, op: Op, limits: Limits): Story {
    match op
    case OpenOp(id) => h.(x := Opened(h.x, id), begun := h.begun + {id})
    case CloseOp(id) => h.(x := Closing(h.x, id, limits), ended := h.ended + {id})
    case AdjustOp(id) => h.(x := Adjusting(h.x, id, limits))
  }

  predicate CanRun(h: Story, ops: seq<Op>, limits: Limits)
    decreases |ops|
  {
    ops == [] || (CanDo(h, ops[0]) && CanRun(After(h, ops[0], limits), ops[1..], limits))
  }

  function RunTo(h: Story, ops: seq<Op>, limits: Limits): Story
    decreases |ops|
  {
    if ops == [] then h else RunTo(After(h, ops[0], limits), ops[1..], limits)
  }

  /** The idle streams a run adds. */
  function Added(h: Story, ops: seq<Op>, limits: Limits): nat
    decreases |ops|
  {
    if ops == [] then 0
    else
      (if ops[0].AdjustOp? && AddsIdle(h.x, ops[0].id, limits) then 1 else 0) + Added(After(h, ops[0], limits), ops[1..], limits)
  }

  const NEW := Story(Index(map[0 := Open], [], [], 0), {0}, {})

  // ----- What every run keeps

  predicate Increasing(list: seq<nat>) {
    forall i, j :: 0 <= i < j < |list| ==> list[i] < list[j]
  }

  /** An idle stream was not opened; open ones are; and closed ones were closed. */
  predicate StateOk(h: Story, id: nat)
    requires id in h.x.states
  {
    match h.x.states[id]
    case Idle => id !in h.begun
    case Open => id in h.begun && id !in h.ended
    case Closed => id in h.ended
  }

  ghost predicate StoryOk(h: Story, limits: Limits) {
    && (forall id :: id in h.x.states ==> id <= h.x.maxID && StateOk(h, id))
    && (forall i :: 0 <= i < |h.x.idle| ==> h.x.idle[i] <= h.x.maxID) && Increasing(h.x.idle)
    && (forall i :: 0 <= i < |h.x.idle| ==> h.x.idle[i] in h.begun || h.x.idle[i] in h.x.states)
    && |h.x.idle| <= limits.maxIdle && |h.x.closed| <= limits.maxClosed
    && (forall i :: 0 <= i < |h.x.closed| ==> h.x.closed[i] in h.ended)
    && (forall id :: id in h.begun ==> id <= h.x.maxID) && 0 in h.begun && h.ended <= h.begun
  }

  lemma OpenOk(h: Story, id: nat, limits: Limits)
    requires StoryOk(h, limits) && CanDo(h, OpenOp(id))
    ensures StoryOk(After(h, OpenOp(id), limits), limits)
  {
  }

  lemma CloseOk(h: Story, id: nat, limits: Limits)
    requires StoryOk(h, limits) && CanDo(h, CloseOp(id))
    ensures StoryOk(After(h, CloseOp(id), limits), limits)
  {
  }

  lemma AdjustOk(h: Story, id: nat, limits: Limits)
    requires StoryOk(h, limits) && CanDo(h, AdjustOp(id))
    ensures StoryOk(After(h, AdjustOp(id), limits), limits)
  {
  }

  lemma AfterOk(h: Story, op: Op, limits: Limits)
    requires StoryOk(h, limits) && CanDo(h, op)
    ensures StoryOk(After(h, op, limits), limits)
  {
    match op
    case OpenOp(id) => OpenOk(h, id, limits);
    case CloseOp(id) => CloseOk(h, id, limits);
    case AdjustOp(id) => AdjustOk(h, id, limits);
  }

  /** In every state of every run: the idle streams are listed oldest first, and a node says what
      became of its stream; a stream that is opened has no node, or that of an idle stream. */
  lemma {:induction false} EveryStory(h: Story, ops: seq<Op>, limits: Limits)
    requires StoryOk(h, limits) && CanRun(h, ops, limits)
    ensures StoryOk(RunTo(h, ops, limits), limits)
    decreases |ops|
  {
    if ops != [] {
      AfterOk(h, ops[0], limits);
      EveryStory(After(h, ops[0], limits), ops[1..], limits);
    }
  }

  // ----- An open stream may lose its node

  /** The entries behind this one. */
  function Behind(list: seq<nat>, id: nat): (n: nat)
    requires id in list
    ensures n < |list| && list[|list| - 1 - n] == id
  {
    if list[|list| - 1] == id then 0
    else
      assert list == list[..|list| - 1] + [list[|list| - 1]];
      1 + Behind(list[..|list| - 1], id)
  }

  lemma {:induction false} BehindAt(list: seq<nat>, id: nat, k: nat)
    requires Increasing(list) && k < |list| && list[k] == id
    ensures Behind(list, id) == |list| - 1 - k
  {
    var j := |list| - 1 - Behind(list, id);
    assert list[j] == list[k];
  }

  /** A node that is gone does not come back, and a node that is not listed as idle stays. */
  predicate Stays(h: Story, h': Story, id: nat) {
    && (id !in h.x.states ==> id !in h'.x.states)
    && (id in h.x.states && id !in h.x.idle ==> id in h'.x.states && h'.x.states[id] == Open && id !in h'.x.idle)
  }

  lemma OpenStays(h: Story, op: Op, limits: Limits, id: nat)
    requires StoryOk(h, limits) && CanDo(h, op) && id in h.begun && id !in h.ended && op != CloseOp(id) && id <= h.x.maxID
    ensures Stays(h, After(h, op, limits), id) && id <= After(h, op, limits).x.maxID
  {
    assert id in h.x.states ==> StateOk(h, id);
  }

  /** While it is listed, every idle stream that is added moves it towards the front. */
  lemma MovesUp(h: Story, op: Op, limits: Limits, id: nat)
    requires StoryOk(h, limits) && CanDo(h, op) && id in h.begun && id !in h.ended && op != CloseOp(id)
    requires id in h.x.states && id in h.x.idle
    ensures var h', added := After(h, op, limits), op.AdjustOp? && AddsIdle(h.x, op.id, limits);
            if added && Behind(h.x.idle, id) + 1 == limits.maxIdle then id !in h'.x.states
            else
              && id in h'.x.states && h'.x.states[id] == Open && id in h'.x.idle
              && Behind(h'.x.idle, id) == Behind(h.x.idle, id) + (if added then 1 else 0)
  {
    assert StateOk(h, id);
    match op
    case OpenOp(_) =>
    case CloseOp(_) =>
    case AdjustOp(other) => AdjustMoves(h, other, limits, id);
  }

  lemma AdjustMoves(h: Story, other: nat, limits: Limits, id: nat)
    requires StoryOk(h, limits) && id in h.x.states && id in h.x.idle && h.x.states[id] == Open
    ensures var x, added := Adjusting(h.x, other, limits), AddsIdle(h.x, other, limits);
            if added && Behind(h.x.idle, id) + 1 == limits.maxIdle then id !in x.states
            else
              && id in x.states && x.states[id] == Open && id in x.idle
              && Behind(x.idle, id) == Behind(h.x.idle, id) + (if added then 1 else 0)
  {
    hide Listing, Increasing;
    if AddsIdle(h.x, other, limits) {
      Listed(h, other, limits, id);
    }
  }

  lemma Listed(h: Story, other: nat, limits: Limits, id: nat)
    requires StoryOk(h, limits) && other > h.x.maxID && limits.maxIdle > 0 && id in h.x.idle
    ensures var list, list' := h.x.idle, Listing(h.x.idle, limits.maxIdle, other);
            Increasing(list') &&
            if Behind(list, id) + 1 == limits.maxIdle then |list| == limits.maxIdle && list[0] == id
            else id in list' && Behind(list', id) == Behind(list, id) + 1 && (|list| == limits.maxIdle ==> list[0] != id)
  {
    var list, list' := h.x.idle, Listing(h.x.idle, limits.maxIdle, other);
    var k := |list| - 1 - Behind(list, id);
    assert Increasing(list');
    if Behind(list, id) + 1 != limits.maxIdle {
      var k' := if |list| == limits.maxIdle then k - 1 else k;
      assert list'[k'] == id;
      BehindAt(list', id, k');
    }
  }

  /** From any state in which a stream is open, over any run that does not close it: its node stays
      exactly if it is not listed as idle, or too few idle streams are added to push it out. */
  lemma {:induction false} KeptWhileOpen(h: Story, ops: seq<Op>, limits: Limits, id: nat)
    requires StoryOk(h, limits) && CanRun(h, ops, limits) && CloseOp(id) !in ops
    requires id in h.begun && id !in h.ended && id <= h.x.maxID
    ensures var h' := RunTo(h, ops, limits);
            && (id in h'.x.states <==>
                  id in h.x.states && (id !in h.x.idle || Added(h, ops, limits) < limits.maxIdle - Behind(h.x.idle, id)))
            && (id in h'.x.states ==> h'.x.states[id] == Open)
    decreases |ops|
  {
    if ops == [] {
      assert id in h.x.states ==> StateOk(h, id);
    } else {
      var h1 := After(h, ops[0], limits);
      AfterOk(h, ops[0], limits);
      OpenStays(h, ops[0], limits, id);
      if id in h.x.states && id in h.x.idle {
        MovesUp(h, ops[0], limits, id);
      }
      KeptWhileOpen(h1, ops[1..], limits, id);
    }
  }

  /** A stream that is opened keeps its node until it is closed exactly if it was not listed as
      idle, or fewer idle streams were added since than it takes to push it out. */
  lemma KeptExactly(h: Story, ops: seq<Op>, limits: Limits, id: nat)
    requires StoryOk(h, limits) && CanDo(h, OpenOp(id)) && CanRun(After(h, OpenOp(id), limits), ops, limits) && CloseOp(id) !in ops
    ensures var h1, h' := After(h, OpenOp(id), limits), RunTo(After(h, OpenOp(id), limits), ops, limits);
            id in h'.x.states <==> id !in h.x.idle || Added(h1, ops, limits) < limits.maxIdle - Behind(h.x.idle, id)
  {
    OpenOk(h, id, limits);
    KeptWhileOpen(After(h, OpenOp(id), limits), ops, limits, id);
  }

  // ----- A run that loses the node of an open stream

  /** The priorities of n further idle streams. */
  function Others(n: nat, id: nat): seq<Op> {
    if n == 0 then [] else [AdjustOp(id)] + Others(n - 1, id + 2)
  }

  lemma {:induction false} OthersAdded(h: Story, n: nat, id: nat, limits: Limits)
    requires StoryOk(h, limits) && h.x.maxID < id && limits.maxIdle > 0
    ensures CanRun(h, Others(n, id), limits) && Added(h, Others(n, id), limits) == n && forall x :: CloseOp(x) !in Others(n, id)
    decreases n
  {
    if n > 0 {
      AfterOk(h, AdjustOp(id), limits);
      OthersAdded(After(h, AdjustOp(id), limits), n - 1, id + 2, limits);
      assert Others(n, id)[1..] == Others(n - 1, id + 2);
    }
  }

  /** A stream is given a priority, opened, and as many others are given one as the list of idle
      streams holds: its node is gone. */
  lemma LostWhileOpen(limits: Limits)
    requires limits.maxIdle > 0
    ensures var ops := [AdjustOp(1), OpenOp(1)] + Others(limits.maxIdle, 3);
            CanRun(NEW, ops, limits) && CloseOp(1) !in ops && 1 !in RunTo(NEW, ops, limits).x.states
  {
    var others := Others(limits.maxIdle, 3);
    var ops := [AdjustOp(1), OpenOp(1)] + others;
    assert ops[1..] == [OpenOp(1)] + others && ops[1..][1..] == others;
    AfterOk(NEW, AdjustOp(1), limits);
    OpensListed(limits, others);
  }

  lemma OpensListed(limits: Limits, others: seq<Op>)
    requires limits.maxIdle > 0 && others == Others(limits.maxIdle, 3)
    ensures var h1 := After(NEW, AdjustOp(1), limits);
            var h2 := After(h1, OpenOp(1), limits);
            CanDo(h1, OpenOp(1)) && CanRun(h2, others, limits) && CloseOp(1) !in others && 1 !in RunTo(h2, others, limits).x.states
  {
    var h1 := After(NEW, AdjustOp(1), limits);
    var h2 := After(h1, OpenOp(1), limits);
    AfterOk(NEW, AdjustOp(1), limits);
    AfterOk(h1, OpenOp(1), limits);
    OthersAdded(h2, limits.maxIdle, 3, limits);
    assert h2.x.idle == [1];
    KeptWhileOpen(h2, others, limits, 1);
  }
}
