/** The reader goroutine, its bounded channel and the consumer loop that returns at the first error.
    Who is left blocked depends only on how many events follow that error. */
module Channel {
  import opened ToolLoop

  const CAPACITY := 32

  datatype Consumer = Consuming | Returned

  /** `got` is what the consumer has received, `queue` what the channel holds, `todo` what the reader
      has yet to send. */
  datatype Joint = Joint(got: seq<StreamItem>, queue: seq<StreamItem>, todo: seq<StreamItem>, closed: bool,
                         consumer: Consumer)

  datatype Step = Send | Close | Receive | Drain

  predicate Enabled(s: Joint, step: Step) {
    match step
    case Send => s.todo != [] && |s.queue| < CAPACITY
    case Close => s.todo == [] && !s.closed
    case Receive => s.consumer.Consuming? && s.queue != []
    case Drain => s.consumer.Consuming? && s.queue == [] && s.closed
  }

  function Stepped(s: Joint, step: Step): Joint
    requires Enabled(s, step)
  {
    match step
    case Send => s.(queue := s.queue + [s.todo[0]], todo := s.todo[1..])
    case Close => s.(closed := true)
    case Receive => s.(got := s.got + [s.queue[0]], queue := s.queue[1..],
                       consumer := if s.queue[0].Fail? then Returned else Consuming)
    case Drain => s.(consumer := Returned)
  }

  function Initial(evs: seq<StreamItem>): Joint {
    Joint([], [], evs, false, Consuming)
  }

  predicate IsRun(s: Joint, steps: seq<Step>)
    decreases |steps|
  {
    steps == [] || (Enabled(s, steps[0]) && IsRun(Stepped(s, steps[0]), steps[1..]))
  }

  function Final(s: Joint, steps: seq<Step>): Joint
    requires IsRun(s, steps)
    decreases |steps|
  {
    if steps == [] then s else Final(Stepped(s, steps[0]), steps[1..])
  }

  predicate Stuck(s: Joint) {
    !Enabled(s, Send) && !Enabled(s, Close) && !Enabled(s, Receive) && !Enabled(s, Drain)
  }

  predicate ReaderGone(s: Joint) {
    s.todo == [] && s.closed
  }

  function Measure(s: Joint): nat {
    2 * |s.todo| + |s.queue| + (if s.closed then 0 else 1) + (if s.consumer.Consuming? then 1 else 0)
  }

  /** Every joint run is finite: it has at most two steps per event and two more. */
  lemma {:induction false} RunsTerminate(s: Joint, steps: seq<Step>)
    requires IsRun(s, steps)
    ensures |steps| <= Measure(s)
    decreases |steps|
  {
    if steps != [] {
      RunsTerminate(Stepped(s, steps[0]), steps[1..]);
    }
  }

  /** The position just after the first error, or the end. */
  function Heard(evs: seq<StreamItem>): (n: nat)
    ensures n <= |evs|
  {
    if evs == [] then 0 else if evs[0].Fail? then 1 else 1 + Heard(evs[1..])
  }

  ghost predicate Inv(evs: seq<StreamItem>, s: Joint) {
    && s.got + s.queue + s.todo == evs
    && |s.queue| <= CAPACITY
    && |s.got| <= Heard(evs)
    && (s.closed ==> s.todo == [])
    && (s.consumer.Consuming? ==> forall i :: 0 <= i < |s.got| ==> !s.got[i].Fail?)
    && (s.consumer.Returned? ==>
          && |s.got| == Heard(evs)
          && ((ReaderGone(s) && s.queue == []) || (s.got != [] && s.got[|s.got| - 1].Fail?)))
  }

  lemma SendKeepsInv(evs: seq<StreamItem>, s: Joint)
    requires Inv(evs, s) && Enabled(s, Send)
    ensures Inv(evs, Stepped(s, Send))
  {
  }

  lemma ReceiveKeepsInv(evs: seq<StreamItem>, s: Joint)
    requires Inv(evs, s) && Enabled(s, Receive)
    ensures Inv(evs, Stepped(s, Receive))
  {
    var n := |s.got|;
    assert s.queue == [s.queue[0]] + s.queue[1..];
    assert s.got + s.queue + s.todo == (s.got + [s.queue[0]]) + s.queue[1..] + s.todo;
    assert evs[n] == s.queue[0];
    assert forall i :: 0 <= i < n ==> evs[i] == s.got[i];
    HeardAt(evs, n);
  }

  /** Past events without an error, the consumer hears the next one, and stops there if it is one. */
  lemma {:induction false} HeardAt(evs: seq<StreamItem>, n: nat)
    requires n < |evs| && forall i :: 0 <= i < n ==> !evs[i].Fail?
    ensures Heard(evs) >= n + 1 && (evs[n].Fail? ==> Heard(evs) == n + 1)
  {
    if n > 0 {
      assert forall i :: 1 <= i < |evs| ==> evs[i] == evs[1..][i - 1];
      HeardAt(evs[1..], n - 1);
    }
  }

  lemma {:induction false} HeardAll(evs: seq<StreamItem>)
    requires forall i :: 0 <= i < |evs| ==> !evs[i].Fail?
    ensures Heard(evs) == |evs|
  {
    if evs != [] {
      HeardAll(evs[1..]);
    }
  }

  lemma StepKeepsInv(evs: seq<StreamItem>, s: Joint, step: Step)
    requires Inv(evs, s) && Enabled(s, step)
    ensures Inv(evs, Stepped(s, step))
  {
    match step {
      case Send => SendKeepsInv(evs, s);
      case Receive => ReceiveKeepsInv(evs, s);
      case Drain =>
        assert evs == s.got;
        HeardAll(evs);
      case Close =>
    }
  }

  lemma {:induction false} RunKeepsInv(evs: seq<StreamItem>, s: Joint, steps: seq<Step>)
    requires Inv(evs, s) && IsRun(s, steps)
    ensures Inv(evs, Final(s, steps))
    decreases |steps|
  {
    if steps != [] {
      StepKeepsInv(evs, s, steps[0]);
      RunKeepsInv(evs, Stepped(s, steps[0]), steps[1..]);
    }
  }

  /** In every state where nothing can move any more the consumer has returned, having received all
      events up to the first error; and the reader is gone if and only if the events after that error
      fit into the channel. */
  lemma WhoIsLeft(evs: seq<StreamItem>, steps: seq<Step>)
    requires IsRun(Initial(evs), steps) && Stuck(Final(Initial(evs), steps))
    ensures var s := Final(Initial(evs), steps);
            && s.consumer.Returned? && s.got == evs[..Heard(evs)]
            && (ReaderGone(s) <==> |evs| - Heard(evs) <= CAPACITY)
  {
    assert Inv(evs, Initial(evs));
    RunKeepsInv(evs, Initial(evs), steps);
    var s := Final(Initial(evs), steps);
    assert s.consumer.Returned?;
    assert evs[..|s.got|] == s.got;
    assert |evs| == |s.got| + |s.queue| + |s.todo|;
  }

  /** The last event is terminal and no other one is. */
  ghost predicate Terminated(evs: seq<StreamItem>) {
    evs != [] && forall i :: 0 <= i < |evs| ==> (evs[i].Done? || evs[i].Fail? <==> i == |evs| - 1)
  }

  /** A reader whose only error is its last event is never left blocked, and its consumer sees
      everything it sent. */
  lemma TerminatedReaderLeaves(evs: seq<StreamItem>, steps: seq<Step>)
    requires Terminated(evs) && IsRun(Initial(evs), steps) && Stuck(Final(Initial(evs), steps))
    ensures ReaderGone(Final(Initial(evs), steps)) && Final(Initial(evs), steps).got == evs
  {
    HeardAt(evs, |evs| - 1);
    WhoIsLeft(evs, steps);
    assert evs[..|evs|] == evs;
  }
}
