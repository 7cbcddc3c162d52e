/** Values shared by the per-chat turn state machine and the bot state that holds it:
    identifiers, the queue entry, and the two queue predicates every operation relies on. */
module QueueTypes {

  /** Telegram chat id (an int64 in the bot); only ever compared and used as a map key. */
  type ChatId = int

  /** Telegram user id; only ever compared. */
  type UserId = int

  /** Identity of one countdown's cancel function. Every started countdown gets a new one. */
  type Handle = nat

  datatype Option<T> = None | Some(value: T)

  /** One queue entry: the label shown in listings and the id used for every identity check. */
  datatype QueueItem = QueueItem(username: string, userId: UserId)

  /** Length of one turn: ten minutes, in seconds. */
  const CountdownSeconds: int := 600

  /** The label a joining user gets: first name, then the @-handle in parentheses. */
  function Label(firstName: string, userName: string): (r: string)
    ensures |r| == |firstName| + |userName| + 4
    ensures r[..|firstName|] == firstName
    ensures r[|r| - |userName| - 1..] == userName + ")"
  {
    firstName + " (@" + userName + ")"
  }

  /** Some entry of `q` carries the user id `id`. */
  predicate InQueue(q: seq<QueueItem>, id: UserId)
  {
    exists i :: 0 <= i < |q| && q[i].userId == id
  }

  /** No user id occurs twice in `q`. */
  predicate NoDuplicateUsers(q: seq<QueueItem>)
  {
    forall i, j :: 0 <= i < j < |q| ==> q[i].userId != q[j].userId
  }

  /** The "next in queue" entry announced when a countdown starts: the entry at index 1. */
  function NextHint(q: seq<QueueItem>): Option<QueueItem>
  {
    if |q| > 1 then Some(q[1]) else None
  }

  /** Appending an entry whose user is not yet queued keeps the queue free of duplicates,
      and the appended user is queued afterwards. */
  lemma AppendKeepsNoDuplicates(q: seq<QueueItem>, x: QueueItem)
    requires !InQueue(q, x.userId)
    ensures NoDuplicateUsers(q) ==> NoDuplicateUsers(q + [x])
    ensures InQueue(q + [x], x.userId)
  {
    var r := q + [x];
    assert r[|q|] == x;
    if NoDuplicateUsers(q) {
      forall i, j | 0 <= i < j < |r| ensures r[i].userId != r[j].userId {
        if j == |q| {
          assert r[i] == q[i];
        }
      }
    }
  }

  /** A user is queued in `q + [x]` exactly when it is queued in `q` or is `x`'s user. */
  lemma InQueueAppend(q: seq<QueueItem>, x: QueueItem, id: UserId)
    ensures InQueue(q + [x], id) <==> InQueue(q, id) || x.userId == id
  {
    var r := q + [x];
    if InQueue(r, id) {
      var i :| 0 <= i < |r| && r[i].userId == id;
      if i < |q| {
        assert q[i] == r[i];
      }
    }
    if InQueue(q, id) {
      var i :| 0 <= i < |q| && q[i].userId == id;
      assert r[i] == q[i];
    }
    if x.userId == id {
      assert r[|q|] == x;
    }
  }

  /** Every suffix of a duplicate-free queue is duplicate-free. */
  lemma SuffixKeepsNoDuplicates(q: seq<QueueItem>, k: nat)
    requires k <= |q|
    ensures NoDuplicateUsers(q) ==> NoDuplicateUsers(q[k..])
  {
  }
}
