/** The queue and turn ("countdown") of ONE chat as a value, and the four transitions the
    bot applies to it: join, start a countdown, stop by the owner, and expiry of the timer.
    The bot class keeps one such state per chat spread over its maps; each of its methods is
    proved to move the chat it touches by exactly one of these functions. */
module Countdown {
  import opened QueueTypes

  /** A live countdown: who holds it, when it runs out, and its cancel handle. */
  datatype Turn = Turn(owner: UserId, deadline: int, handle: Handle)

  /** One chat: its queue in join order, and the live countdown if there is one. */
  datatype ChatState = ChatState(queue: seq<QueueItem>, turn: Option<Turn>)

  /** The turn a countdown started at `now` for `user` with handle `h` gets. */
  function NewTurn(user: QueueItem, now: int, h: Handle): Turn
  {
    Turn(user.userId, now + CountdownSeconds, h)
  }

  /** `u` holds the live countdown of the chat. */
  predicate IsOwner(s: ChatState, u: UserId)
  {
    s.turn.Some? && s.turn.value.owner == u
  }

  /** Starting a countdown: a no-op while one is live, otherwise `user` holds a new turn that
      ends ten minutes after `now`. The queue is never touched. */
  function StartStep(s: ChatState, user: QueueItem, now: int, h: Handle): (r: ChatState)
    ensures r.queue == s.queue
    ensures r.turn.Some?
    ensures s.turn.Some? ==> r.turn == s.turn
    ensures s.turn.None? ==> IsOwner(r, user.userId) && r.turn.value.deadline == now + CountdownSeconds
  {
    if s.turn.Some? then s
    else ChatState(s.queue, Some(NewTurn(user, now, h)))
  }

  /** Joining: a user already queued changes nothing; anyone else is appended at the end,
      and a countdown is started for the head when the queue has just become one long. */
  function JoinStep(s: ChatState, item: QueueItem, now: int, h: Handle): (r: ChatState)
    ensures InQueue(s.queue, item.userId) ==> r == s
    ensures !InQueue(s.queue, item.userId) ==> r.queue == s.queue + [item]
    ensures NoDuplicateUsers(s.queue) ==> NoDuplicateUsers(r.queue)
    ensures InQueue(r.queue, item.userId)
    ensures r.turn != s.turn <==> !InQueue(s.queue, item.userId) && s.queue == [] && s.turn.None?
    ensures r.turn != s.turn ==> r.turn == Some(NewTurn(item, now, h))
  {
    if InQueue(s.queue, item.userId) then s
    else
      var joined := ChatState(s.queue + [item], s.turn);
      assert joined.queue[|s.queue|] == item;
      AppendKeepsNoDuplicates(s.queue, item);
      if |joined.queue| == 1 then StartStep(joined, joined.queue[0], now, h) else joined
  }

  /** Stopping: refused, with nothing changed, unless `requester` holds the live countdown.
      Otherwise the countdown ends and, when the queue is not empty, one is started for its
      head, which stays in the queue. */
  function StopStep(s: ChatState, requester: UserId, now: int, h: Handle): (r: ChatState)
    ensures !IsOwner(s, requester) ==> r == s
    ensures IsOwner(s, requester) ==> r.queue == s.queue
    ensures IsOwner(s, requester) && s.queue == [] ==> r.turn.None?
    ensures IsOwner(s, requester) && s.queue != [] ==> r.turn == Some(NewTurn(s.queue[0], now, h))
  {
    if !IsOwner(s, requester) then s
    else
      var cleared := ChatState(s.queue, None);
      if |s.queue| > 0 then StartStep(cleared, s.queue[0], now, h) else cleared
  }

  /** Expiry of the live countdown: the countdown ends; when the queue is not empty its head
      is removed from the queue and a countdown is started for that entry. */
  function ExpireStep(s: ChatState, now: int, h: Handle): (r: ChatState)
    requires s.turn.Some?
    ensures s.queue == [] ==> r == ChatState([], None)
    ensures s.queue != [] ==> r.queue == s.queue[1..] && r.turn == Some(NewTurn(s.queue[0], now, h))
    ensures NoDuplicateUsers(s.queue) ==> NoDuplicateUsers(r.queue)
  {
    var cleared := ChatState(s.queue, None);
    if |s.queue| > 0 then
      SuffixKeepsNoDuplicates(s.queue, 1);
      StartStep(ChatState(s.queue[1..], None), s.queue[0], now, h)
    else cleared
  }

  // ---------------------------------------------------------------------------------------
  // Traces of several steps

  /** A run of joins at the same instant, in order. */
  function JoinAll(s: ChatState, items: seq<QueueItem>, now: int, h: Handle): ChatState
    decreases |items|
  {
    if items == [] then s
    else JoinAll(JoinStep(s, items[0], now, h), items[1..], now, h)
  }

  /** `n` expiries in a row, each firing when the previous countdown runs out; the k-th new
      countdown gets handle `h + k`. */
  function ExpireAll(s: ChatState, n: nat, now: int, h: Handle): (r: ChatState)
    requires s.turn.Some?
    requires n <= |s.queue| + 1
    decreases n
  {
    if n == 0 then s
    else
      var e := ExpireStep(s, now, h);
      if n == 1 then e
      else ExpireAll(e, n - 1, now + CountdownSeconds, h + 1)
  }

  /** No two entries of `items` share a user, and none of them is in `q` already. */
  predicate FreshArrivals(q: seq<QueueItem>, items: seq<QueueItem>)
  {
    && NoDuplicateUsers(items)
    && forall k :: 0 <= k < |items| ==> !InQueue(q, items[k].userId)
  }

  /** First-in, first-out: joins by distinct users who are not queued yet leave the queue as
      the old queue followed by the joiners in arrival order. A countdown is started only for
      the first joiner, and only when the chat was empty and idle; otherwise the live
      countdown (or its absence) is kept. */
  lemma {:induction false} JoinsKeepArrivalOrder(s: ChatState, items: seq<QueueItem>, now: int, h: Handle)
    requires FreshArrivals(s.queue, items)
    ensures JoinAll(s, items, now, h).queue == s.queue + items
    ensures JoinAll(s, items, now, h).turn ==
      if s.queue == [] && s.turn.None? && items != [] then Some(NewTurn(items[0], now, h)) else s.turn
    decreases |items|
  {
    if items != [] {
      var s' := JoinStep(s, items[0], now, h);
      assert s'.queue == s.queue + [items[0]];
      forall k | 0 <= k < |items[1..]| ensures !InQueue(s'.queue, items[1..][k].userId) {
        assert items[1..][k] == items[k + 1];
        assert items[0].userId != items[k + 1].userId;
        InQueueAppend(s.queue, items[0], items[k + 1].userId);
      }
      assert NoDuplicateUsers(items[1..]) by {
        forall i, j | 0 <= i < j < |items[1..]| ensures items[1..][i].userId != items[1..][j].userId {
          assert items[1..][i] == items[i + 1] && items[1..][j] == items[j + 1];
        }
      }
      JoinsKeepArrivalOrder(s', items[1..], now, h);
      assert s.queue + items == s'.queue + items[1..];
    }
  }

  /** Turns pass down the queue in order on expiry: after `n` expiries (`n` at most the queue
      length) the first `n` entries have left the queue and the `n`-th of them holds the turn,
      with a deadline `n` turns after `now`. */
  lemma {:induction false} ExpiriesFollowQueueOrder(s: ChatState, n: nat, now: int, h: Handle)
    requires s.turn.Some?
    requires 0 < n <= |s.queue|
    ensures ExpireAll(s, n, now, h).queue == s.queue[n..]
    ensures ExpireAll(s, n, now, h).turn == Some(Turn(s.queue[n - 1].userId, now + n * CountdownSeconds, h + n - 1))
    decreases n
  {
    var e := ExpireStep(s, now, h);
    if n > 1 {
      ExpiriesFollowQueueOrder(e, n - 1, now + CountdownSeconds, h + 1);
      assert e.queue[n - 1..] == s.queue[n..];
      assert e.queue[n - 2] == s.queue[n - 1];
    }
  }

  /** One more expiry than there are queued entries leaves the chat empty with no countdown. */
  lemma {:induction false} ExpiriesDrainChat(s: ChatState, now: int, h: Handle)
    requires s.turn.Some?
    ensures ExpireAll(s, |s.queue| + 1, now, h) == ChatState([], None)
    decreases |s.queue|
  {
    if s.queue != [] {
      var e := ExpireStep(s, now, h);
      ExpiriesDrainChat(e, now + CountdownSeconds, h + 1);
    }
  }

  // ---------------------------------------------------------------------------------------
  // Consequences of keeping the holder at the head of the queue

  /** A countdown started by a join is held by the entry at the head of the queue. */
  lemma JoinStartedTurnIsHead(s: ChatState, item: QueueItem, now: int, h: Handle)
    requires JoinStep(s, item, now, h).turn != s.turn
    ensures JoinStep(s, item, now, h).queue == [item]
    ensures IsOwner(JoinStep(s, item, now, h), JoinStep(s, item, now, h).queue[0].userId)
  {
  }

  /** Joining checks the queue only, not the live countdown: a holder who was removed from the
      queue when promoted can join again while still holding the turn, and is appended. */
  lemma HolderMayJoinAgain(s: ChatState, item: QueueItem, now: int, h: Handle)
    requires IsOwner(s, item.userId) && !InQueue(s.queue, item.userId)
    ensures JoinStep(s, item, now, h).queue == s.queue + [item]
    ensures JoinStep(s, item, now, h).turn == s.turn
  {
  }

  /** When the owner is still the head of the queue, stopping starts a new countdown for the
      same owner: the owner cannot hand the turn on by stopping. */
  lemma StopByHeadRestartsOwnTurn(s: ChatState, now: int, h: Handle)
    requires s.turn.Some? && s.queue != []
    requires s.queue[0].userId == s.turn.value.owner
    ensures StopStep(s, s.turn.value.owner, now, h).queue == s.queue
    ensures IsOwner(StopStep(s, s.turn.value.owner, now, h), s.turn.value.owner)
  {
  }

  /** The owner's stop and the expiry of the same countdown promote the same entry with the same
      deadline and handle; they differ only in that the stop leaves that entry at the head of the
      queue while the expiry removes it. */
  lemma StopDiffersFromExpiryOnlyByPop(s: ChatState, now: int, h: Handle)
    requires s.turn.Some? && s.queue != []
    ensures StopStep(s, s.turn.value.owner, now, h).turn == ExpireStep(s, now, h).turn
    ensures StopStep(s, s.turn.value.owner, now, h).queue == [s.queue[0]] + ExpireStep(s, now, h).queue
  {
  }

  /** On the expiry path the announced "next in queue" entry (index 1 after the pop) is the entry
      after the one that will actually be promoted by the following expiry. */
  lemma ExpiryHintSkipsNextHolder(s: ChatState, now: int, h: Handle)
    requires s.turn.Some? && |s.queue| > 2
    requires NoDuplicateUsers(s.queue)
    ensures NextHint(ExpireStep(s, now, h).queue) == Some(s.queue[2])
    ensures IsOwner(ExpireStep(ExpireStep(s, now, h), now + CountdownSeconds, h + 1), s.queue[1].userId)
    ensures s.queue[2].userId != s.queue[1].userId
  {
  }

  /** Scenario: A joins an empty idle chat, B joins, and the timer runs out three times. A holds
      the first countdown and, because A stayed at the head, the first expiry promotes A again;
      B only gets the third countdown, and the fourth expiry leaves the chat empty. */
  lemma FirstJoinerIsPromotedAgain(a: QueueItem, b: QueueItem, now: int)
    requires a.userId != b.userId
    ensures var s1 := JoinStep(ChatState([], None), a, now, 0);
            var s2 := JoinStep(s1, b, now, 0);
            && s2 == ChatState([a, b], Some(NewTurn(a, now, 0)))
            && ExpireStep(s2, now + 600, 1) == ChatState([b], Some(NewTurn(a, now + 600, 1)))
            && ExpireStep(ExpireStep(s2, now + 600, 1), now + 1200, 2) == ChatState([], Some(NewTurn(b, now + 1200, 2)))
            && ExpireStep(ExpireStep(ExpireStep(s2, now + 600, 1), now + 1200, 2), now + 1800, 3) == ChatState([], None)
  {
  }

  /** Scenario: A alone in the chat stops their own countdown and at once holds a new one. */
  lemma LoneOwnerCannotStop(a: QueueItem, now: int, later: int)
    ensures var s1 := JoinStep(ChatState([], None), a, now, 0);
            StopStep(s1, a.userId, later, 1) == ChatState([a], Some(NewTurn(a, later, 1)))
  {
  }

  /** Scenario: while A holds the turn, a stop request from B is refused and changes nothing. */
  lemma NonOwnerStopIsRefused(a: QueueItem, b: QueueItem, now: int, later: int)
    requires a.userId != b.userId
    ensures var s2 := JoinStep(JoinStep(ChatState([], None), a, now, 0), b, now, 0);
            StopStep(s2, b.userId, later, 1) == s2
  {
  }
}
