/** The scheduler with its four maps, changed in place between awaits. Each method is one atomic
    step of `runInChatQueue` and does to the maps what the specification step says. */
module TurnScheduler {
  import opened Options
  import opened TurnSchedulerProofs
  import opened TurnSchedulerSpec

  class TurnQueues {
    var tickets: seq<Ticket>
    var chatQueueTail: map<string, nat>
    var chatQueueWaitingDepth: map<string, int>
    var userRunningTurnCount: map<string, int>
    var userConcurrencyQueues: map<string, seq<nat>>
    var clock: nat
    const maxConcurrent: int

    ghost function Snapshot(): State
      reads this
    {
      State(tickets, chatQueueTail, chatQueueWaitingDepth, userRunningTurnCount, userConcurrencyQueues, clock)
    }

    ghost predicate Valid()
      reads this
    {
      Inv(Snapshot(), maxConcurrent)
    }

    constructor (maxConcurrent: int)
      requires maxConcurrent >= 1
      ensures Snapshot() == INITIAL && this.maxConcurrent == maxConcurrent && Valid()
    {
      tickets := [];
      chatQueueTail, chatQueueWaitingDepth := map[], map[];
      userRunningTurnCount, userConcurrencyQueues := map[], map[];
      clock := 0;
      this.maxConcurrent := maxConcurrent;
      new;
      InitialInv(maxConcurrent);
    }

    method SetTicketPhase(t: nat, p: Phase)
      modifies this`tickets
      ensures tickets == SetPhase(old(tickets), t, p)
    {
      if t < |tickets| {
        tickets := tickets[t := tickets[t].(phase := p)];
      }
    }

    method ReleaseSlot(userKey: string)
      modifies this
      ensures Snapshot() == ReleaseUserTurnSlot(old(Snapshot()), userKey)
    {
      var queue := Get(userConcurrencyQueues, userKey, []);
      if queue != [] {
        var next := queue[0];
        queue := queue[1..];
        userConcurrencyQueues := userConcurrencyQueues[userKey := queue];
        if queue == [] {
          userConcurrencyQueues := userConcurrencyQueues - {userKey};
        }
        if next < |tickets| {
          SetTicketPhase(next, Woken(tickets[next].phase));
        }
        assert queue != [] ==> userConcurrencyQueues == old(userConcurrencyQueues)[userKey := queue];
        assert queue == [] ==> userConcurrencyQueues == old(userConcurrencyQueues) - {userKey};
        return;
      }
      userConcurrencyQueues := userConcurrencyQueues - {userKey};
      var running := Max(0, Get(userRunningTurnCount, userKey, 0) - 1);
      if running == 0 {
        userRunningTurnCount := userRunningTurnCount - {userKey};
      } else {
        userRunningTurnCount := userRunningTurnCount[userKey := running];
      }
    }

    method AcquireSlot(t: nat, userKey: string, noticeThrows: bool)
      modifies this
      ensures Snapshot() == AcquireUserTurnSlot(old(Snapshot()), maxConcurrent, t, userKey, noticeThrows)
    {
      var queue := Get(userConcurrencyQueues, userKey, []);
      var running := Get(userRunningTurnCount, userKey, 0);
      if running < maxConcurrent && queue == [] {
        userRunningTurnCount := userRunningTurnCount[userKey := running + 1];
        SetTicketPhase(t, Granted);
        return;
      }
      queue := queue + [t];
      userConcurrencyQueues := userConcurrencyQueues[userKey := queue];
      SetTicketPhase(t, if noticeThrows then LostInQueue else WaitSlot);
    }

    /** Up to the first await of `runInChatQueue`. */
    method EnterChatQueue(queueKey: string, userKey: string, noticeThrows: bool) returns (t: nat)
      requires Valid()
      modifies this
      ensures Snapshot() == ArriveStep(old(Snapshot()), queueKey, userKey, noticeThrows)
      ensures t == |old(tickets)| && Valid()
    {
      ArriveKeepsSession(Snapshot(), queueKey, userKey, noticeThrows);
      ArriveKeepsSlots(Snapshot(), maxConcurrent, queueKey, userKey, noticeThrows);
      var hadSessionWorkAhead := queueKey in chatQueueTail;
      t := |tickets|;
      var pred := if hadSessionWorkAhead then Some(chatQueueTail[queueKey]) else None;
      tickets := tickets + [Ticket(queueKey, userKey, pred, WaitSession, 0)];
      chatQueueTail := chatQueueTail[queueKey := t];
      if hadSessionWorkAhead {
        var queueDepth := Get(chatQueueWaitingDepth, queueKey, 0) + 1;
        chatQueueWaitingDepth := chatQueueWaitingDepth[queueKey := queueDepth];
        if noticeThrows {
          SetTicketPhase(t, LostAtArrival);
        }
      }
    }

    /** From the resolved session promise to the await inside `acquireUserTurnSlot`. */
    method AdmitToSession(t: nat, noticeThrows: bool)
      requires Valid() && Enabled(Snapshot(), Admit(t, noticeThrows))
      modifies this
      ensures Snapshot() == AdmitStep(old(Snapshot()), maxConcurrent, t, noticeThrows)
      ensures Valid()
    {
      hide SessionInv, SlotInv;
      AdmitKeepsSession(Snapshot(), maxConcurrent, t, noticeThrows);
      AdmitKeepsSlots(Snapshot(), maxConcurrent, t, noticeThrows);
      var ticket := tickets[t];
      if ticket.pred.Some? {
        var queueDepth := Max(0, Get(chatQueueWaitingDepth, ticket.session, 1) - 1);
        if queueDepth == 0 {
          chatQueueWaitingDepth := chatQueueWaitingDepth - {ticket.session};
        } else {
          chatQueueWaitingDepth := chatQueueWaitingDepth[ticket.session := queueDepth];
        }
      }
      tickets := tickets[t := ticket.(stamp := clock)];
      clock := clock + 1;
      AcquireSlot(t, ticket.user, noticeThrows);
    }

    /** The continuation after the slot promise resolved: the task starts. */
    method StartTask(t: nat)
      requires Valid() && Enabled(Snapshot(), Resume(t))
      modifies this
      ensures Snapshot() == Apply(old(Snapshot()), maxConcurrent, Resume(t))
      ensures Valid()
    {
      ResumeKeepsInv(Snapshot(), maxConcurrent, t);
      SetTicketPhase(t, Running);
    }

    /** The finally block, whether the task resolved or rejected. */
    method FinishTask(t: nat)
      requires Valid() && Enabled(Snapshot(), Finish(t))
      modifies this
      ensures Snapshot() == FinishStep(old(Snapshot()), t)
      ensures Valid()
    {
      assert QueueOk(Snapshot(), tickets[t].user);
      FinishKeepsSession(Snapshot(), t);
      FinishKeepsSlots(Snapshot(), maxConcurrent, t);
      var ticket := tickets[t];
      ReleaseSlot(ticket.user);
      SetTicketPhase(t, Done);
      if ticket.session in chatQueueTail && chatQueueTail[ticket.session] == t {
        chatQueueTail := chatQueueTail - {ticket.session};
      }
    }
  }
}
