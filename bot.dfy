/** The bot's global state: the four maps keyed by chat id, updated in place by the
    command handlers and by the expiry of a countdown's timer. Each handler is proved to move
    the chat it serves by the matching step of module Countdown and to leave every other chat
    as it was. */
module Bot {
  import opened QueueTypes
  import opened Countdown

  class QueueBot {
    /** Each chat's queue in join order; a chat without an entry has an empty queue. */
    var queues: map<ChatId, seq<QueueItem>>
    /** Deadline of each chat's live countdown. */
    var activeCountdowns: map<ChatId, int>
    /** User id holding each chat's live countdown. */
    var countdownOwners: map<ChatId, UserId>
    /** Cancel handle of each chat's live countdown. */
    var countdownCancelFuncs: map<ChatId, Handle>
    /** Handles whose cancel function has been called. */
    var cancelled: set<Handle>
    /** The handle the next countdown gets; every handle below it has been handed out. */
    var nextHandle: Handle

    /** No chat queues a user twice; owner, deadline and cancel handle exist together; a live
        countdown's handle has been handed out, is not cancelled and belongs to one chat only. */
    ghost predicate Valid()
      reads this
    {
      && (forall c :: c in queues ==> NoDuplicateUsers(queues[c]))
      && activeCountdowns.Keys == countdownOwners.Keys
      && countdownCancelFuncs.Keys == countdownOwners.Keys
      && (forall c :: c in countdownCancelFuncs ==>
            countdownCancelFuncs[c] < nextHandle && countdownCancelFuncs[c] !in cancelled)
      && (forall c, d :: c in countdownCancelFuncs && d in countdownCancelFuncs && c != d ==>
            countdownCancelFuncs[c] != countdownCancelFuncs[d])
      && (forall h :: h in cancelled ==> h < nextHandle)
    }

    /** The queue of `chat`; a missing entry reads as the empty queue. */
    function QueueOf(chat: ChatId): seq<QueueItem>
      reads this
    {
      if chat in queues then queues[chat] else []
    }

    /** The state of `chat` as one value. */
    function View(chat: ChatId): ChatState
      reads this
    {
      ChatState(
        QueueOf(chat),
        if chat in countdownOwners && chat in activeCountdowns && chat in countdownCancelFuncs
        then Some(Turn(countdownOwners[chat], activeCountdowns[chat], countdownCancelFuncs[chat]))
        else None)
    }

    constructor ()
      ensures Valid()
      ensures forall c :: View(c) == ChatState([], None)
      ensures cancelled == {} && nextHandle == 0
    {
      queues := map[];
      activeCountdowns := map[];
      countdownOwners := map[];
      countdownCancelFuncs := map[];
      cancelled := {};
      nextHandle := 0;
    }

    /** The duplicate scan of the join handler: is `userId` in the queue of `chat`? */
    method IsQueued(chat: ChatId, userId: UserId) returns (found: bool)
      ensures found <==> InQueue(View(chat).queue, userId)
    {
      var q := QueueOf(chat);
      var i := 0;
      while i < |q|
        invariant 0 <= i <= |q|
        invariant forall k :: 0 <= k < i ==> q[k].userId != userId
      {
        if q[i].userId == userId {
          return true;
        }
        i := i + 1;
      }
      return false;
    }

    /** The queue listing: the queue of `chat` as it is now. */
    method Queue(chat: ChatId) returns (q: seq<QueueItem>)
      ensures q == View(chat).queue
      ensures q == [] <==> chat !in queues || queues[chat] == []
    {
      q := QueueOf(chat);
    }

    /** Starts a countdown for `user` in `chat` at time `now` unless one is live. On a start
        the owner, a deadline ten minutes ahead and a new, uncancelled handle are recorded, and
        the entry at index 1 of the queue is returned as the "next in queue" hint. */
    method StartCountdown(chat: ChatId, user: QueueItem, now: int) returns (started: bool, next: Option<QueueItem>)
      requires Valid()
      modifies this
      ensures Valid()
      ensures started <==> old(View(chat)).turn.None?
      ensures View(chat) == StartStep(old(View(chat)), user, now, old(nextHandle))
      ensures next == if started then NextHint(View(chat).queue) else None
      ensures nextHandle == if started then old(nextHandle) + 1 else old(nextHandle)
      ensures queues == old(queues) && cancelled == old(cancelled)
      ensures forall d :: d != chat ==> View(d) == old(View(d))
    {
      if chat in activeCountdowns {
        return false, None;
      }
      countdownOwners := countdownOwners[chat := user.userId];
      activeCountdowns := activeCountdowns[chat := now + CountdownSeconds];
      var h := nextHandle;
      nextHandle := nextHandle + 1;
      countdownCancelFuncs := countdownCancelFuncs[chat := h];
      started := true;
      next := NextHint(QueueOf(chat));
    }

    /** The join handler: a user already in the queue of `chat` is turned away; anyone else is
        appended with the label built from their names, and a countdown is started for the
        head when the queue has just become one long. */
    method Join(chat: ChatId, userId: UserId, firstName: string, userName: string, now: int)
      returns (joined: bool)
      requires Valid()
      modifies this
      ensures Valid()
      ensures joined <==> !InQueue(old(View(chat)).queue, userId)
      ensures View(chat) ==
        JoinStep(old(View(chat)), QueueItem(Label(firstName, userName), userId), now, old(nextHandle))
      ensures nextHandle ==
        if joined && old(View(chat)).queue == [] && old(View(chat)).turn.None?
        then old(nextHandle) + 1 else old(nextHandle)
      ensures cancelled == old(cancelled)
      ensures forall d :: d != chat ==> View(d) == old(View(d))
    {
      var dup := IsQueued(chat, userId);
      if dup {
        return false;
      }
      var item := QueueItem(Label(firstName, userName), userId);
      AppendKeepsNoDuplicates(QueueOf(chat), item);
      queues := queues[chat := QueueOf(chat) + [item]];
      joined := true;
      if |queues[chat]| == 1 {
        var started, next := StartCountdown(chat, queues[chat][0], now);
      }
    }

    /** The stop handler: refused unless `userId` owns the live countdown of `chat`. Otherwise
        its handle is cancelled, the countdown is cleared and, when the queue is not empty, a
        countdown is started for the head, which is also returned as the "next in queue". */
    method StopTime(chat: ChatId, userId: UserId, now: int) returns (stopped: bool, next: Option<QueueItem>)
      requires Valid()
      modifies this
      ensures Valid()
      ensures stopped <==> IsOwner(old(View(chat)), userId)
      ensures View(chat) == StopStep(old(View(chat)), userId, now, old(nextHandle))
      ensures next == if stopped && old(View(chat)).queue != [] then Some(old(View(chat)).queue[0]) else None
      ensures nextHandle ==
        if stopped && old(View(chat)).queue != [] then old(nextHandle) + 1 else old(nextHandle)
      ensures cancelled ==
        if stopped then old(cancelled) + {old(countdownCancelFuncs)[chat]} else old(cancelled)
      ensures forall d :: d != chat ==> View(d) == old(View(d))
    {
      if chat !in countdownOwners || countdownOwners[chat] != userId {
        return false, None;
      }
      if chat in countdownCancelFuncs {
        cancelled := cancelled + {countdownCancelFuncs[chat]};
        countdownCancelFuncs := countdownCancelFuncs - {chat};
      }
      activeCountdowns := activeCountdowns - {chat};
      countdownOwners := countdownOwners - {chat};
      stopped := true;
      next := None;
      var q := QueueOf(chat);
      if |q| > 0 {
        next := Some(q[0]);
        var started, hint := StartCountdown(chat, q[0], now);
      }
    }

    /** The timer of the live countdown of `chat` fires at `now`, no earlier than its deadline:
        the countdown is cleared and, when the queue is not empty, its head is removed, returned
        and given a new countdown. */
    method Expire(chat: ChatId, now: int) returns (promoted: Option<QueueItem>)
      requires Valid()
      requires chat in activeCountdowns && now >= activeCountdowns[chat]
      modifies this
      ensures Valid()
      ensures View(chat) == ExpireStep(old(View(chat)), now, old(nextHandle))
      ensures promoted == if old(View(chat)).queue == [] then None else Some(old(View(chat)).queue[0])
      ensures nextHandle == if old(View(chat)).queue != [] then old(nextHandle) + 1 else old(nextHandle)
      ensures cancelled == old(cancelled)
      ensures forall d :: d != chat ==> View(d) == old(View(d))
    {
      activeCountdowns := activeCountdowns - {chat};
      countdownOwners := countdownOwners - {chat};
      countdownCancelFuncs := countdownCancelFuncs - {chat};
      var q := QueueOf(chat);
      if |q| > 0 {
        var head := q[0];
        SuffixKeepsNoDuplicates(q, 1);
        queues := queues[chat := q[1..]];
        promoted := Some(head);
        var started, next := StartCountdown(chat, head, now);
      } else {
        promoted := None;
      }
    }
  }

  /** A run of the handlers on a new bot: A then B join chat 1 at time 0, and the countdown of
      chat 1 runs out three times. The bot's chat 1 goes through exactly the states (handles
      included) that `Countdown.FirstJoinerIsPromotedAgain` computes. */
  method FirstJoinerRun(a: UserId, b: UserId)
    requires a != b
  {
    var bot := new QueueBot();
    var joinedA := bot.Join(1, a, "A", "a", 0);
    var joinedB := bot.Join(1, b, "B", "b", 0);
    var itemA := QueueItem(Label("A", "a"), a);
    var itemB := QueueItem(Label("B", "b"), b);
    assert joinedA && joinedB;
    assert bot.View(1) == ChatState([itemA, itemB], Some(NewTurn(itemA, 0, 0)));
    var first := bot.Expire(1, 600);
    assert first == Some(itemA);
    assert bot.View(1) == ChatState([itemB], Some(NewTurn(itemA, 600, 1)));
    var second := bot.Expire(1, 1200);
    assert bot.View(1) == ChatState([], Some(NewTurn(itemB, 1200, 2)));
    var third := bot.Expire(1, 1800);
    assert third == None && bot.View(1) == ChatState([], None);
    assert bot.nextHandle == 3;
  }
}
