/**
 * The consume loop's input, made explicit. The loop's `select` waits on the
 * envelope channel and on the context's cancellation at once; which of them
 * it sees next is written down as a script of steps, so that one run of the
 * loop is one script.
 */
module Stream {
  import opened Events

  /**
   * The case the `select` takes next. `Deliver` receives an envelope.
   * `Close` is the receive that reports the channel closed, which comes
   * only after every buffered envelope. `Cancel` takes the `ctx.Done()`
   * case. This can happen some steps after the cancellation itself, since
   * Go picks at random among ready cases.
   */
  datatype Step = Deliver(event: Envelope) | Close | Cancel

  /**
   * Why the loop stopped. `Waiting` means the script ran out before a close
   * or cancel step: the real loop would still be blocked in its `select`.
   */
  datatype Exit = ChannelClosed | Cancelled | Waiting

  /**
   * The envelopes the loop hands to the dispatcher, in arrival order: those
   * delivered before the first close or cancel step.
   */
  function Consumed(script: seq<Step>): (es: seq<Envelope>)
    ensures |es| <= |script|
    ensures forall j {:trigger es[j]} :: 0 <= j < |es| ==> script[j] == Deliver(es[j])
    ensures |es| < |script| ==> !script[|es|].Deliver?
  {
    if script == [] then []
    else match script[0]
      case Deliver(e) => [e] + Consumed(script[1..])
      case _ => []
  }

  /** How the loop leaves: on the first close or cancel step, if there is one. */
  function ExitOf(script: seq<Step>): (x: Exit)
    ensures x == Waiting <==> |Consumed(script)| == |script|
    ensures x != Waiting ==>
              script[|Consumed(script)|] == (if x == ChannelClosed then Close else Cancel)
  {
    if script == [] then Waiting
    else match script[0]
      case Deliver(_) => ExitOf(script[1..])
      case Close => ChannelClosed
      case Cancel => Cancelled
  }

  /**
   * Nothing after a close or cancel step matters: whatever follows it, no
   * further envelope is consumed and the loop leaves the same way.
   * Envelopes delivered between a cancellation and the `Cancel` step are
   * still consumed.
   */
  lemma {:induction false} StopIsFinal(pre: seq<Step>, stop: Step, rest: seq<Step>)
    requires !stop.Deliver?
    ensures Consumed(pre + [stop] + rest) == Consumed(pre)
    ensures ExitOf(pre + [stop] + rest) == ExitOf(pre + [stop])
  {
    if pre != [] {
      assert (pre + [stop] + rest)[1..] == pre[1..] + [stop] + rest;
      assert (pre + [stop])[1..] == pre[1..] + [stop];
      StopIsFinal(pre[1..], stop, rest);
    } else {
      assert pre + [stop] + rest == [stop] + rest;
    }
  }

  /**
   * A run splits at any point reached without a stop: what the first part
   * consumes comes first, and the rest decides how the loop leaves.
   */
  lemma {:induction false} ConsumedAppend(a: seq<Step>, b: seq<Step>)
    requires |Consumed(a)| == |a|
    ensures Consumed(a + b) == Consumed(a) + Consumed(b)
  {
    if a == [] {
      assert a + b == b;
    } else {
      var e := a[0].event;
      assert a[0] == Deliver(e);
      assert Consumed(a) == [e] + Consumed(a[1..]);
      assert (a + b)[0] == Deliver(e) && (a + b)[1..] == a[1..] + b;
      ConsumedAppend(a[1..], b);
      assert Consumed(a + b) == [e] + Consumed(a[1..] + b);
    }
  }

  /** After a part with no stop, the rest alone decides how the loop leaves. */
  lemma {:induction false} ExitAppend(a: seq<Step>, b: seq<Step>)
    requires |Consumed(a)| == |a|
    ensures ExitOf(a + b) == ExitOf(b)
  {
    if a == [] {
      assert a + b == b;
    } else {
      assert a[0].Deliver?;
      assert (a + b)[0] == a[0] && (a + b)[1..] == a[1..] + b;
      assert |Consumed(a[1..])| == |a| - 1;
      ExitAppend(a[1..], b);
    }
  }
}
