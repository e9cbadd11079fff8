/** Alternating between reads and writes on one port. */
module Transfers {

  /** What one direction answers when it is polled. */
  datatype Answer = NotOffered | WouldBlock | Interrupted | Broken | Moved(count: nat)

  datatype Outcome = Pending | Read(count: nat) | Write(count: nat) | Error

  datatype Offer = Offer(read: Answer, write: Answer)

  /** Nothing to report now: the other direction may go ahead. */
  predicate Waits(a: Answer) { a.NotOffered? || a.WouldBlock? || a.Interrupted? }

  predicate Transferred(o: Outcome) { o.Read? || o.Write? }

  class TransferPoller {
    var writeFirst: bool

    constructor ()
      ensures !writeFirst
    {
      writeFirst := false;
    }

    /** `poll_read` with `retry_interrupted`: an interruption asks to be polled again. */
    method PollRead(answer: Answer) returns (o: Outcome, woken: bool)
      ensures (o == Pending <==> Waits(answer)) && woken == answer.Interrupted?
      ensures !o.Write? && (o.Read? <==> answer.Moved?) && (o.Read? ==> o.count == answer.count)
    {
      woken := false;
      match answer
      case NotOffered => o := Pending;
      case WouldBlock => o := Pending;
      case Interrupted =>
        woken := true;
        o := Pending;
      case Broken => o := Error;
      case Moved(count) => o := Read(count);
    }

    method PollWrite(answer: Answer) returns (o: Outcome, woken: bool)
      ensures (o == Pending <==> Waits(answer)) && woken == answer.Interrupted?
      ensures !o.Read? && (o.Write? <==> answer.Moved?) && (o.Write? ==> o.count == answer.count)
    {
      woken := false;
      match answer
      case NotOffered => o := Pending;
      case WouldBlock => o := Pending;
      case Interrupted =>
        woken := true;
        o := Pending;
      case Broken => o := Error;
      case Moved(count) => o := Write(count);
    }

    /** `poll`.  The preferred direction decides unless it has to wait; a success turns the
      preference to the other direction, and nothing else changes it. */
    method Poll(read: Answer, write: Answer) returns (o: Outcome, woken: bool)
      modifies this
      ensures o == Pending <==> Waits(read) && Waits(write)
      ensures o.Read? ==> read == Moved(o.count) && (old(writeFirst) ==> Waits(write))
      ensures o.Write? ==> write == Moved(o.count) && (!old(writeFirst) ==> Waits(read))
      ensures o.Error? ==> (read.Broken? && (old(writeFirst) ==> Waits(write)))
                           || (write.Broken? && (!old(writeFirst) ==> Waits(read)))
      ensures woken <==> if old(writeFirst) then write.Interrupted? || (Waits(write) && read.Interrupted?)
                         else read.Interrupted? || (Waits(read) && write.Interrupted?)
      ensures writeFirst == if Transferred(o) then o.Read? else old(writeFirst)
    {
      if writeFirst {
        o, woken := PollWrite(write);
        if o == Pending {
          var again := woken;
          o, woken := PollRead(read);
          woken := woken || again;
        }
      } else {
        o, woken := PollRead(read);
        if o == Pending {
          var again := woken;
          o, woken := PollWrite(write);
          woken := woken || again;
        }
      }
      if Transferred(o) { writeFirst := o.Read?; }
    }
  }

  /** The preference after a run: the opposite of the last success. */
  function WriteFirst(outcomes: seq<Outcome>): bool {
    if outcomes == [] then false
    else if Transferred(outcomes[|outcomes| - 1]) then outcomes[|outcomes| - 1].Read?
    else WriteFirst(outcomes[..|outcomes| - 1])
  }

  /** `i` and `j` are two successes with none between them. */
  predicate Consecutive(outcomes: seq<Outcome>, i: nat, j: nat) {
    && i < j < |outcomes| && Transferred(outcomes[i]) && Transferred(outcomes[j])
    && forall k :: i < k < j ==> !Transferred(outcomes[k])
  }

  lemma {:induction false} LastSuccess(outcomes: seq<Outcome>, i: nat)
    requires i < |outcomes| && Transferred(outcomes[i])
    requires forall k :: i < k < |outcomes| ==> !Transferred(outcomes[k])
    ensures WriteFirst(outcomes) == outcomes[i].Read?
  {
    if i < |outcomes| - 1 { LastSuccess(outcomes[..|outcomes| - 1], i); }
  }

  /** A read follows a read, or a write a write, only when the other direction had nothing ready at
    that poll. */
  ghost predicate Fair(offers: seq<Offer>, outcomes: seq<Outcome>)
    requires |offers| == |outcomes|
  {
    forall i: nat, j: nat :: Consecutive(outcomes, i, j) ==>
      && (outcomes[i].Read? && outcomes[j].Read? ==> Waits(offers[j].write))
      && (outcomes[i].Write? && outcomes[j].Write? ==> Waits(offers[j].read))
  }

  /** One more poll keeps a run fair. */
  lemma FairSnoc(offers: seq<Offer>, outcomes: seq<Outcome>, offer: Offer, o: Outcome)
    requires |offers| == |outcomes| && Fair(offers, outcomes)
    requires o.Read? && WriteFirst(outcomes) ==> Waits(offer.write)
    requires o.Write? && !WriteFirst(outcomes) ==> Waits(offer.read)
    ensures Fair(offers + [offer], outcomes + [o])
  {
    var all, n := outcomes + [o], |outcomes|;
    forall i: nat, j: nat | Consecutive(all, i, j)
      ensures && (all[i].Read? && all[j].Read? ==> Waits((offers + [offer])[j].write))
              && (all[i].Write? && all[j].Write? ==> Waits((offers + [offer])[j].read))
    {
      assert forall k :: 0 <= k < n ==> all[k] == outcomes[k];
      if j < n { assert Consecutive(outcomes, i, j); } else { LastSuccess(outcomes, i); }
    }
  }

  /** What is reported is what one of the two directions answered. */
  predicate Answered(offer: Offer, o: Outcome) {
    match o
    case Pending => Waits(offer.read) && Waits(offer.write)
    case Read(count) => offer.read == Moved(count)
    case Write(count) => offer.write == Moved(count)
    case Error => offer.read.Broken? || offer.write.Broken?
  }

  /** A whole run of polls: neither direction can be starved, each poll reports what a direction has
    answered, and it is pending only when neither had anything to report. */
  method Serve(offers: seq<Offer>) returns (outcomes: seq<Outcome>)
    ensures |outcomes| == |offers| && Fair(offers, outcomes)
    ensures forall k :: 0 <= k < |outcomes| ==> Answered(offers[k], outcomes[k])
  {
    hide Fair;
    var poller := new TransferPoller();
    outcomes := [];
    FairNothing();
    for n := 0 to |offers|
      invariant |outcomes| == n && poller.writeFirst == WriteFirst(outcomes) && Fair(offers[..n], outcomes)
      invariant forall k :: 0 <= k < n ==> Answered(offers[k], outcomes[k])
    {
      var o, _ := poller.Poll(offers[n].read, offers[n].write);
      FairSnoc(offers[..n], outcomes, offers[n], o);
      assert offers[..n + 1] == offers[..n] + [offers[n]];
      assert (outcomes + [o])[..n] == outcomes;
      outcomes := outcomes + [o];
    }
    assert offers[..|offers|] == offers;
  }

  lemma FairNothing()
    ensures Fair([], [])
  {
  }
}
