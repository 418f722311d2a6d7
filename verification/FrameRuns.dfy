/** The frame ring in time. Both threads call NetQW_GenerateFrames: the client thread straight away
    (src/main.c:57), the network thread from its send, which first moves a clock that is more than a second
    behind up to the present. */
module FrameRuns {
  import opened Usercmd
  import opened FramesSpec
  import opened Frames
  import opened FrameClock

  /** The ring's history with the clock it is generated by. */
  datatype Timed = Timed(log: Log, last: int, carry: nat)

  /** `now` and `later` are readings of the clock; `input` is what the player does in each frame. */
  datatype Action =
    | ClientGenerates(now: int, input: nat -> Move)
    | ClientCopies
    | ThreadSends(now: int, later: int, input: nat -> Move)

  function Generated(t: Timed, period: nat, last: int, now: int, input: nat -> Move): (r: Timed)
    requires period > 0 && Shaped(t.log.pipe)
    ensures Shaped(r.log.pipe)
  {
    var n := Due(last, period, now);
    Timed(AfterGenerating(t.log, t.carry, period, false, input, n),
          Advanced(last, period, n), Carry(t.carry, period, n))
  }

  /** The sending loop. */
  function SendAll(l: Log): (r: Log)
    requires Shaped(l.pipe)
    ensures Shaped(r.pipe)
    decreases l.pipe.toSend
  {
    if l.pipe.toSend == 0 then l else SendAll(Step(l, Sent))
  }

  /** What the network thread is about to send. */
  function AboutToSend(t: Timed, period: nat, now: int, later: int, input: nat -> Move): (r: Timed)
    requires period > 0 && Shaped(t.log.pipe)
    ensures Shaped(r.log.pipe)
  {
    Generated(t, period, Clamped(t.last, now), later, input)
  }

  function Act(t: Timed, period: nat, a: Action): (r: Timed)
    requires period > 0 && Shaped(t.log.pipe)
    ensures Shaped(r.log.pipe)
  {
    match a
    case ClientGenerates(now, input) => Generated(t, period, t.last, now, input)
    case ClientCopies => t.(log := Step(t.log, Copied))
    case ThreadSends(now, later, input) =>
      var g := AboutToSend(t, period, now, later, input);
      g.(log := SendAll(g.log))
  }

  lemma {:induction false} SendAllStays(l: Log)
    requires Base(l)
    ensures Base(SendAll(l)) && SendAll(l).history == l.history && SendAll(l).pipe.toSend == 0
    decreases l.pipe.toSend
  {
    hide Live;
    if l.pipe.toSend > 0 {
      SendStays(l);
      SendAllStays(Step(l, Sent));
    }
  }

  lemma ActStays(t: Timed, period: nat, a: Action)
    requires period > 0 && Base(t.log)
    ensures Base(Act(t, period, a).log)
  {
    hide Live, Due, GenerateMany, Plan;
    match a {
      case ClientGenerates(now, input) =>
        GeneratingStays(t.log, t.carry, period, false, input, Due(t.last, period, now));
      case ClientCopies => CopyStays(t.log);
      case ThreadSends(now, later, input) =>
        GeneratingStays(t.log, t.carry, period, false, input, Due(Clamped(t.last, now), period, later));
        SendAllStays(AboutToSend(t, period, now, later, input).log);
    }
  }

  ghost predicate Runs(t: Timed, period: nat, actions: seq<Action>, out: Timed)
    requires period > 0 && Shaped(t.log.pipe)
    decreases |actions|
  {
    if actions == [] then out == t
    else Runs(Act(t, period, actions[0]), period, actions[1..], out)
  }

  /** Accepting the connection. */
  function Connected(period: nat, now: int): Timed {
    Timed(Start(), now - period, 0)
  }

  lemma {:induction false} RunStays(t: Timed, period: nat, actions: seq<Action>, out: Timed)
    requires period > 0 && Base(t.log) && Runs(t, period, actions, out)
    ensures Base(out.log)
    decreases |actions|
  {
    hide Act, Live;
    if actions != [] {
      ActStays(t, period, actions[0]);
      RunStays(Act(t, period, actions[0]), period, actions[1..], out);
    }
  }

  /** Over every run of both threads, at every rate, with commands that can be told apart: all packets of the
      next send are right if and only if no more than 62 frames are waiting or due. */
  lemma NextSendIsRight(period: nat, start: int, actions: seq<Action>, t: Timed, now: int, later: int,
                        input: nat -> Move, x: Extra)
    requires period > 0 && Runs(Connected(period, start), period, actions, t)
    requires Shaped(t.log.pipe) && Distinct(AboutToSend(t, period, now, later, input).log.history)
    ensures AllRight(AboutToSend(t, period, now, later, input).log, x)
            <==> t.log.pipe.toSend + Due(Clamped(t.last, now), period, later) <= SLOTS - 2
  {
    hide AllRight, Distinct, Due, GenerateMany, Live, Runs;
    StartIsGood();
    RunStays(Connected(period, start), period, actions, t);
    DoSendIsRight(t.log, t.carry, period, false, input, Due(Clamped(t.last, now), period, later), x);
  }

  // ---- The client thread alone can overrun the ring ----

  function Told(i: nat): Move {
    Move(ZERO.(pitch := i as real + 1.0), 0.0)
  }

  /** The clock after `k` periods. */
  function Tick(period: nat, k: nat): int {
    Advanced(0, period, k)
  }

  function AloneAction(period: nat, k: nat): Action {
    ClientGenerates(Tick(period, k), _ => Told(k))
  }

  /** The client thread generates a frame each period; the network thread does nothing. */
  function Alone(period: nat, k: nat): (r: seq<Action>)
    ensures |r| == k && forall a | a in r :: a.ClientGenerates?
  {
    if k == 0 then [] else Alone(period, k - 1) + [AloneAction(period, k - 1)]
  }

  /** After `k` of them `k` frames wait, all different, and the clock is at the present. */
  ghost predicate Waiting(t: Timed, period: nat, k: nat) {
    && Shaped(t.log.pipe) && t.log.pipe.toSend == k == |t.log.history| && t.last + period == Tick(period, k)
    && forall i | 0 <= i < k :: t.log.history[i].cmd.pitch == i as real + 1.0
  }

  lemma GeneratesOne(l: Log, carry: nat, period: nat, input: nat -> Move)
    requires Shaped(l.pipe)
    ensures var r := AfterGenerating(l, carry, period, false, input, 1);
            && r.pipe.toSend == l.pipe.toSend + 1 && |r.history| == |l.history| + 1
            && r.history[..|l.history|] == l.history
            && r.history[|l.history|].cmd.pitch == input(0).cmd.pitch
  {
    GeneratedCounts(l.pipe, Planned(carry, period, false, input, 0));
    assert GenerateMany(l.pipe, carry, period, false, input, 0) == l.pipe;
  }

  lemma OneIsDue(last: int, period: nat)
    requires period > 0
    ensures Due(last, period, last + period) == 1 && Advanced(last, period, 1) == last + period
  {
    AdvancedBy(last, period, 1);
    DueAgain(last, period, last + period);
    assert Due(last + period, period, last + period) == 0;
  }

  lemma OneMoreWaits(t: Timed, period: nat, k: nat)
    requires period > 0 && Waiting(t, period, k)
    ensures Waiting(Act(t, period, AloneAction(period, k)), period, k + 1)
  {
    var a := AloneAction(period, k);
    var r := Act(t, period, a);
    OneIsDue(t.last, period);
    assert Tick(period, k + 1) == Tick(period, k) + period;
    hide Due, Tick;
    GeneratesOne(t.log, t.carry, period, a.input);
    hide AfterGenerating, Advanced;
    forall i | 0 <= i < k + 1
      ensures r.log.history[i].cmd.pitch == i as real + 1.0
    {
      assert i < k ==> r.log.history[i] == r.log.history[..k][i] == t.log.history[i];
    }
  }

  lemma {:induction false} RunsOneMore(t: Timed, period: nat, actions: seq<Action>, out: Timed, a: Action)
    requires period > 0 && Shaped(t.log.pipe) && Runs(t, period, actions, out) && Shaped(out.log.pipe)
    ensures Runs(t, period, actions + [a], Act(out, period, a))
    decreases |actions|
  {
    hide Act, Shaped;
    if actions == [] {
      assert (actions + [a])[1..] == [];
    } else {
      assert (actions + [a])[1..] == actions[1..] + [a];
      RunsOneMore(Act(t, period, actions[0]), period, actions[1..], out, a);
    }
  }

  lemma {:induction false} AloneRuns(period: nat, k: nat) returns (t: Timed)
    requires period > 0
    ensures Runs(Connected(period, 0), period, Alone(period, k), t) && Waiting(t, period, k)
  {
    if k == 0 {
      t := Connected(period, 0);
    } else {
      var s := AloneRuns(period, k - 1);
      t := Act(s, period, AloneAction(period, k - 1));
      hide Act, Waiting;
      WaitingShaped(s, period, k - 1);
      OneMoreWaits(s, period, k - 1);
      RunsOneMore(Connected(period, 0), period, Alone(period, k - 1), s, AloneAction(period, k - 1));
    }
  }

  lemma WaitingShaped(t: Timed, period: nat, k: nat)
    requires Waiting(t, period, k)
    ensures Shaped(t.log.pipe) && Distinct(t.log.history)
  {
    var h := t.log.history;
    forall i, j | 0 <= i < j < |h| ensures h[i].cmd != h[j].cmd {
      assert h[i].cmd.pitch == i as real + 1.0 && h[j].cmd.pitch == j as real + 1.0;
    }
    forall i | 0 <= i < |h| ensures h[i].cmd != ZERO {
      assert h[i].cmd.pitch == i as real + 1.0;
    }
  }

  lemma NothingMoreIsDue(l: Log, carry: nat, period: nat, input: nat -> Move)
    requires Shaped(l.pipe)
    ensures AfterGenerating(l, carry, period, false, input, 0) == l
  {
    assert l.history + Plan(carry, period, false, input, 0) == l.history;
  }

  /** At every rate there is a run, 63 periods long, in which the client thread's frames keep the clock at the
      present, so that the one-second clamp has no effect, and the network thread's next send is wrong. */
  lemma ClientAloneOverruns(period: nat, x: Extra)
    requires period > 0
    ensures exists actions: seq<Action>, t: Timed, now: int ::
              && Runs(Connected(period, 0), period, actions, t)
              && (forall a: Action | a in actions :: a.ClientGenerates?)
              && Clamped(t.last, now) == t.last && Shaped(t.log.pipe)
              && !AllRight(AboutToSend(t, period, now, now, _ => Told(0)).log, x)
  {
    var actions := Alone(period, 63);
    var t := AloneRuns(period, 63);
    WaitingShaped(t, period, 63);
    var input: nat -> Move := _ => Told(0);
    NothingMoreIsDue(t.log, t.carry, period, input);
    assert Clamped(t.last, t.last) == t.last && Due(t.last, period, t.last) == 0;
    assert AboutToSend(t, period, t.last, t.last, input).log == t.log;
    hide AllRight, Distinct, Due, Runs, AboutToSend;
    NextSendIsRight(period, 0, actions, t, t.last, t.last, input, x);
  }
}
