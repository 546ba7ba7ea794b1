/** The channels of the pipeline deliver in order. */
module Channels {
  import opened Sequences
  import opened Domain
  import opened FineSteps
  import opened MonitorMachine
  import opened Network

  /** The stages that are channels, and the scheduler's batch. */
  predicate IsChannel(stage: Stage) {
    stage == Batched || stage == Jobs || stage == Results || stage == Successes || stage == Failures
  }

  /** A token in a channel: whose it is and what it carries. */
  datatype Message = Message(mon: nat, at: Place)

  function Lane(flight: seq<Token>, stage: Stage): seq<Message> {
    if flight == [] then []
    else
      (if StageOf(flight[0].at) == stage then [Message(flight[0].mon, flight[0].at)] else []) + Lane(flight[1..], stage)
  }

  lemma LaneCons(t: Token, flight: seq<Token>, stage: Stage)
    ensures Lane([t] + flight, stage) == (if StageOf(t.at) == stage then [Message(t.mon, t.at)] else []) + Lane(flight, stage)
  {
    assert ([t] + flight)[1..] == flight;
  }

  lemma {:induction false} LaneAppend(a: seq<Token>, b: seq<Token>, stage: Stage)
    ensures Lane(a + b, stage) == Lane(a, stage) + Lane(b, stage)
  {
    if a == [] {
      assert a + b == b;
    } else {
      LaneAppend(a[1..], b, stage);
      assert a + b == [a[0]] + (a[1..] + b);
      LaneCons(a[0], a[1..] + b, stage);
    }
  }

  lemma {:induction false} LaneReplace(flight: seq<Token>, i: nat, t: Token, stage: Stage)
    requires i < |flight| && t.mon == flight[i].mon && t.at == flight[i].at
    ensures Lane(flight[i := t], stage) == Lane(flight, stage)
  {
    if i == 0 {
      assert flight[0 := t][1..] == flight[1..];
    } else {
      LaneReplace(flight[1..], i - 1, t, stage);
      assert flight[i := t][1..] == flight[1..][i - 1 := t];
    }
  }

  /** Taking out a token leaves the lanes of other stages alone, and takes the first one
      off its own lane if no token of the lane stands before it. */
  lemma {:induction false} LaneRemove(flight: seq<Token>, i: nat, stage: Stage)
    requires i < |flight|
    requires StageOf(flight[i].at) == stage ==> forall j | 0 <= j < i :: StageOf(flight[j].at) != stage
    ensures StageOf(flight[i].at) != stage ==> Lane(Remove(flight, i), stage) == Lane(flight, stage)
    ensures StageOf(flight[i].at) == stage ==>
      Lane(flight, stage) == [Message(flight[i].mon, flight[i].at)] + Lane(Remove(flight, i), stage)
  {
    if i == 0 {
      assert Remove(flight, 0) == flight[1..];
    } else {
      LaneRemove(flight[1..], i - 1, stage);
      assert Remove(flight, i) == [flight[0]] + Remove(flight[1..], i - 1);
      LaneCons(flight[0], Remove(flight[1..], i - 1), stage);
    }
  }

  /** What one event makes of a channel: nothing, the first message received, or one sent. */
  predicate Queues(lane: seq<Message>, lane': seq<Message>) {
    || lane' == lane
    || (lane != [] && lane' == lane[1..])
    || (|lane'| == |lane| + 1 && lane <= lane')
  }

  lemma LaneMoved(flight: seq<Token>, i: nat, next: Option<Token>, stage: Stage)
    requires i < |flight|
    requires StageOf(flight[i].at) == stage ==> forall j | 0 <= j < i :: StageOf(flight[j].at) != stage
    requires StageOf(flight[i].at) == stage && next.Some? ==> StageOf(next.value.at) != stage
    ensures Queues(Lane(flight, stage), Lane(Sequences.Move(flight, i, next), stage))
  {
    var rest := Remove(flight, i);
    LaneRemove(flight, i, stage);
    if next.Some? {
      LaneAppend(rest, [next.value], stage);
      LaneCons(next.value, [], stage);
      assert [next.value] + [] == [next.value];
    } else {
      assert Sequences.Move(flight, i, next) == rest;
    }
  }

  lemma MoveQueues(c: Config, l: Limits, n: Net, i: nat, e: Env, stage: Stage)
    requires CanMove(c, l, n, i, e) && IsChannel(stage)
    ensures Queues(Lane(n.flight, stage), Lane(Next(c, n, Move(i, e)).flight, stage))
  {
    var t := n.flight[i];
    var next := Advance(c, n.stores[t.mon], t.at, e).1;
    if StageOf(t.at) == stage {
      Onward(c, n.stores[t.mon], t.at, e, stage);
      assert Queued(t.at);
    }
    LaneMoved(n.flight, i, Successor(t.mon, next), stage);
  }

  /** A message leaves its channel when it is received. */
  lemma Onward(c: Config, st: Store, p: Place, e: Env, stage: Stage)
    requires IsChannel(stage) && StageOf(p) == stage
    ensures var next := Advance(c, st, p, e).1; next.Some? ==> StageOf(next.value) != stage
  {
  }

  /** Every channel is a queue, at every event: messages are received in the order in which
      they were sent. */
  lemma ChannelsAreQueues(c: Config, l: Limits, n: Net, ev: NetEvent, stage: Stage)
    requires Enabled(c, l, n, ev) && IsChannel(stage)
    ensures Queues(Lane(n.flight, stage), Lane(Next(c, n, ev).flight, stage))
  {
    match ev
    case Move(i, e) => MoveQueues(c, l, n, i, e, stage);
    case Try(i, e) => LaneReplace(n.flight, i, n.flight[i].(tried := n.flight[i].tried + 1), stage);
    case PopMin(m, now, kept) =>
      var t := Token(m, Batch(n.stores[m].due.value), 0);
      LaneAppend(n.flight, [t], stage);
      LaneCons(t, [], stage);
      assert [t] + [] == [t];
    case _ =>
  }

  /** Alerts too are received in the order in which they were sent. */
  lemma AlertsAreQueued(c: Config, l: Limits, n: Net, ev: NetEvent)
    requires Enabled(c, l, n, ev)
    ensures var n' := Next(c, n, ev);
      || n'.queue == n.queue
      || (n.queue != [] && n'.queue == n.queue[1..] && n'.busy == n.busy + [n.queue[0]])
      || (|n'.queue| == |n.queue| + 1 && n.queue <= n'.queue)
  {
  }
}
