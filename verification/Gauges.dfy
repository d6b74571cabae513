/**
 Counting offices by where they are: one recursive sum, read through several gauges.
 */
module Gauges {
  import opened Bank
  import opened Server

  datatype Gauge =
    | Permits   // past `sem_wait(full)`, request not yet popped
    | Slots     // request popped, `empty` not yet posted
    | Exits     // left the service routine
    | Actives   // counted in `active_thread_cnt`
    | Claims    // passed the emptiness test, request not yet popped
    | Work      // steps left before the office waits again
    | MidTransfer  // amount credited and not yet debited

  function One(b: bool): nat {
    if b then 1 else 0
  }

  /** An upper bound on the steps an office takes before it waits on `full` again. */
  function Rank(fused: bool, pc: Pc): nat {
    match pc
    case LockTest => 24
    case Test => 23
    case UnlockTest => 22
    case LockUp => if fused then 18 else 21
    case CountUp => if fused then 17 else 20
    case UnlockUp => if fused then 16 else 19
    case LockPop => if fused then 21 else 18
    case Pop => if fused then 20 else 17
    case UnlockPop => if fused then 19 else 16
    case PostEmpty => 15
    case Handle(at) => HandlingRank(at)
    case LockDown => 3
    case CountDown => 2
    case UnlockDown => 1
    case UnlockQuit => 1
    case _ => 0
  }

  function HandlingRank(at: Handling): nat {
    match at
    case Exists => 14
    case Login => 13
    case CreateLock | SetShutdown => 8
    case CreateTest | ChangeMode => 7
    case CreateWrite | CloseDummy => 6
    case CreateUnlock | CountActive => 5
    case BalanceLock => 7
    case BalanceRead => 6
    case BalanceUnlock => 5
    case TransferFirst => 12
    case TransferSecond => 11
    case TransferTest => 10
    case Credit => 9
    case Debit => 8
    case TransferRead => 7
    case TransferUnlockFirst => 6
    case TransferUnlockSecond => 5
    case Send => 4
  }

  function Weight(gauge: Gauge, fused: bool, office: Office): nat {
    var pc := office.pc;
    match gauge
    case Permits => One(match pc
      case LockTest | Test | UnlockQuit | LockPop | Pop => true
      case UnlockTest | LockUp | CountUp | UnlockUp => !fused
      case _ => false)
    case Slots => One(match pc
      case UnlockPop | PostEmpty => true
      case UnlockTest | LockUp | CountUp | UnlockUp => fused
      case _ => false)
    case Exits => One(pc == Exited)
    case Actives => One(match pc
      case UnlockUp | PostEmpty | Handle(_) | LockDown | CountDown => true
      case LockPop | Pop | UnlockPop => !fused
      case _ => false)
    case Claims => One(match pc
      case LockPop | Pop => true
      case UnlockTest | LockUp | CountUp | UnlockUp => !fused
      case _ => false)
    case Work => Rank(fused, pc)
    case MidTransfer => if pc == Handle(Debit) then Amount(office.req) else 0
  }

  function Sum(gauge: Gauge, fused: bool, offices: seq<Office>): nat {
    if offices == [] then 0
    else Sum(gauge, fused, offices[..|offices| - 1]) + Weight(gauge, fused, offices[|offices| - 1])
  }

  /** Replacing one office changes a gauge by the difference of that office's weights. */
  lemma {:induction false} SumUpdate(gauge: Gauge, fused: bool, offices: seq<Office>, i: nat, office: Office)
    requires i < |offices|
    ensures Sum(gauge, fused, offices[i := office]) + Weight(gauge, fused, offices[i])
         == Sum(gauge, fused, offices) + Weight(gauge, fused, office)
  {
    var last := |offices| - 1;
    if i == last {
      assert offices[i := office][..last] == offices[..last];
    } else {
      assert offices[i := office][..last] == offices[..last][i := office];
      SumUpdate(gauge, fused, offices[..last], i, office);
    }
  }

  lemma {:induction false} SumAtLeast(gauge: Gauge, fused: bool, offices: seq<Office>, i: nat)
    requires i < |offices|
    ensures Weight(gauge, fused, offices[i]) <= Sum(gauge, fused, offices)
  {
    if i < |offices| - 1 {
      SumAtLeast(gauge, fused, offices[..|offices| - 1], i);
    }
  }

  /** When every office has the same weight, the gauge reads that weight times the number of offices. */
  lemma {:induction false} SumUniform(gauge: Gauge, fused: bool, offices: seq<Office>, w: nat)
    requires w <= 1
    requires forall i :: 0 <= i < |offices| ==> Weight(gauge, fused, offices[i]) == w
    ensures Sum(gauge, fused, offices) == if w == 0 then 0 else |offices|
  {
    if offices != [] {
      SumUniform(gauge, fused, offices[..|offices| - 1], w);
    }
  }

  /** A full gauge has counted everyone. */
  lemma {:induction false} SumFull(gauge: Gauge, fused: bool, offices: seq<Office>)
    requires !gauge.Work? && !gauge.MidTransfer?
    ensures Sum(gauge, fused, offices) <= |offices|
    ensures Sum(gauge, fused, offices) == |offices| ==>
              forall i :: 0 <= i < |offices| ==> Weight(gauge, fused, offices[i]) == 1
  {
    if offices != [] {
      SumFull(gauge, fused, offices[..|offices| - 1]);
    }
  }

  lemma {:induction false} SumAppend(gauge: Gauge, fused: bool, front: seq<Office>, back: seq<Office>)
    ensures Sum(gauge, fused, front + back) == Sum(gauge, fused, front) + Sum(gauge, fused, back)
  {
    if back == [] {
      assert front + back == front;
    } else {
      var last := |back| - 1;
      assert (front + back)[..|front + back| - 1] == front + back[..last];
      SumAppend(gauge, fused, front, back[..last]);
    }
  }

  /** A gauge read over the other offices. */
  lemma SumWithout(gauge: Gauge, fused: bool, offices: seq<Office>, i: nat)
    requires i < |offices|
    ensures Sum(gauge, fused, offices[..i] + offices[i + 1..])
         == Sum(gauge, fused, offices) - Weight(gauge, fused, offices[i])
  {
    assert offices == offices[..i + 1] + offices[i + 1..];
    assert offices[..i + 1][..i] == offices[..i];
    SumAppend(gauge, fused, offices[..i + 1], offices[i + 1..]);
    SumAppend(gauge, fused, offices[..i], offices[i + 1..]);
  }

  /** A gauge at most 1 counts at most one office. */
  lemma SumZeroElsewhere(gauge: Gauge, fused: bool, offices: seq<Office>, i: nat)
    requires i < |offices|
    requires forall j :: 0 <= j < |offices| && j != i ==> Weight(gauge, fused, offices[j]) == 0
    ensures Sum(gauge, fused, offices) == Weight(gauge, fused, offices[i])
  {
    var cleared := offices[i := NewOffice()];
    SumUpdate(gauge, fused, offices, i, NewOffice());
    SumUniform(gauge, fused, cleared, 0);
  }
}
