/**
 * Broadcast channels: cursors and waiting flags against the specification "the messages after
 * the point of subscription, in order, each once".
 */
module Channels {
  import opened Prelude

  datatype Message = Message(id: nat, text: string)

  /**
   * The waiting columns of a subscription.  They are set from the registration of a receive on
   * until they are cleared, which can be later than the moment a message answers the receive:
   * then a delivery finds the id of the receive recorded, and gives up.
   */
  datatype Flag = Idle | Open | Answered

  /** How far the delivery of a message to a listed subscriber gets. */
  datatype Fate =
    | Passed      // not at all: the lock was not to be had, or the publisher has died before
    | Recorded    // the message is recorded, the cursor not moved
    | Moved       // the cursor is moved, the waiting columns not cleared
    | Served

  /**
   * One channel.  `messages` are the rows retained, `cursors` and `waiting` the columns of every
   * subscriber, `strays` the records of messages that no receive asked for.  The rest is
   * bookkeeping that no table holds: all messages ever published, what each instance has received,
   * and where its cursor first stood.
   */
  datatype State = State(
    messages: seq<Message>,
    nextId: nat,
    cursors: map<string, nat>,
    waiting: map<string, Flag>,
    strays: set<(string, nat)>,
    published: seq<Message>,
    received: map<string, seq<Message>>,
    since: map<string, nat>)

  const EMPTY: State := State([], 1, map[], map[], {}, [], map[], map[])

  function Cursor(s: State, i: string): nat {
    if i in s.cursors then s.cursors[i] else 0
  }

  function Got(s: State, i: string): seq<Message> {
    if i in s.received then s.received[i] else []
  }

  function After(cursor: nat): Message -> bool {
    (m: Message) => m.id > cursor
  }

  /** The retained messages after the cursor. */
  function Pending(s: State, i: string): seq<Message> {
    Filter(s.messages, After(Cursor(s, i)))
  }

  predicate IsWaiting(s: State, i: string) {
    i in s.waiting && s.waiting[i].Open?
  }

  /** SELECT COALESCE(MAX(id), 0): the rows are in id order. */
  function LastId(messages: seq<Message>): nat {
    if messages == [] then 0 else messages[|messages| - 1].id
  }

  // ---- Steps ----

  /** INSERT of the subscription, and of its cursor unless there is one. */
  function Subscribed(s: State, i: string): State {
    var s' := if i in s.waiting then s else s.(waiting := s.waiting[i := Idle]);
    if i in s.cursors then s'
    else
      var c := LastId(s.messages);
      s'.(cursors := s.cursors[i := c], received := s.received[i := []], since := s.since[i := c])
  }

  /** A receive finds a message: cursor moved, then recorded; the waiting columns stay. */
  function Taken(s: State, i: string, m: Message): State
    requires i in s.waiting
  {
    s.(cursors := s.cursors[i := m.id], received := s.received[i := Got(s, i) + [m]],
       waiting := s.waiting[i := if s.waiting[i].Open? then Answered else s.waiting[i]])
  }

  /** Receive, from the check for pending messages to the registration of the wait. */
  function Received(s: State, i: string): State {
    if i !in s.waiting then s
    else if Pending(s, i) != [] then Taken(s, i, Pending(s, i)[0])
    else s.(waiting := s.waiting[i := Open])
  }

  /** A delivery answers an open receive; without one the message is recorded astray. */
  predicate Delivers(s: State, i: string, m: Message) {
    i in s.waiting && (s.waiting[i].Open? || (s.waiting[i].Idle? && (i, m.id) !in s.strays))
  }

  /** A delivery: the record, then the cursor, then the waiting columns. */
  function Handed(s: State, i: string, m: Message, fate: Fate): State {
    if fate.Passed? || !Delivers(s, i, m) then s
    else
      var recorded :=
        if s.waiting[i].Open? then s.(received := s.received[i := Got(s, i) + [m]], waiting := s.waiting[i := Answered])
        else s.(strays := s.strays + {(i, m.id)});
      if fate.Recorded? then recorded
      else
        var moved := recorded.(cursors := s.cursors[i := m.id]);
        if fate.Moved? then moved else moved.(waiting := s.waiting[i := Idle])
  }

  function FateOf(fates: map<string, Fate>, i: string): Fate {
    if i in fates then fates[i] else Served
  }

  /** The deliveries of one message to a list of subscribers. */
  function Woken(s: State, ids: seq<string>, fates: map<string, Fate>, m: Message): State
    decreases |ids|
  {
    if ids == [] then s else Woken(Handed(s, ids[0], m, FateOf(fates, ids[0])), ids[1..], fates, m)
  }

  function Stored(s: State, text: string): State {
    var m := Message(s.nextId, text);
    s.(messages := s.messages + [m], nextId := s.nextId + 1, published := s.published + [m])
  }

  datatype Step =
    | Subscribing(id: string)
    | Receiving(id: string)
    // a message is stored, and handed to the subscribers listed as waiting, in some order
    | Publishing(text: string, order: seq<string>, fates: map<string, Fate>)
    // a publisher that listed the instance some time ago gets to it now
    | DeliveringLate(id: string, message: Message, fate: Fate)
    // a wait ends without a message: its timeout is handled
    | TimingOut(id: string)
    // a recur deletes the history and the subscription, and keeps the cursor
    | Recurring(id: string)
    // messages up to an id are deleted
    | Pruning(upTo: nat)
    // a registration whose check for pending messages was made earlier
    | RegisteringLate(id: string)
    // a receive that dies after moving the cursor, before recording the message
    | DyingInReceive(id: string)
    // the handling of a timeout that dies after its record
    | DyingInTimeout(id: string)
    // a subscription that dies before its cursor
    | DyingInSubscribe(id: string)

  function Next(s: State, step: Step): State {
    match step
    case Subscribing(i) => Subscribed(s, i)
    case Receiving(i) => Received(s, i)
    case Publishing(text, order, fates) => Woken(Stored(s, text), order, fates, Message(s.nextId, text))
    case DeliveringLate(i, m, fate) => Handed(s, i, m, fate)
    case TimingOut(i) => if i in s.waiting then s.(waiting := s.waiting[i := Idle]) else s
    case Recurring(i) => s.(waiting := s.waiting - {i}, strays := set p | p in s.strays && p.0 != i)
    case Pruning(upTo) => s.(messages := Filter(s.messages, After(upTo)))
    case RegisteringLate(i) => if i in s.waiting then s.(waiting := s.waiting[i := Open]) else s
    case DyingInReceive(i) =>
      if i in s.waiting && Pending(s, i) != [] then s.(cursors := s.cursors[i := Pending(s, i)[0].id]) else s
    case DyingInTimeout(i) => if IsWaiting(s, i) then s.(waiting := s.waiting[i := Answered]) else s
    case DyingInSubscribe(i) => if i in s.waiting then s else s.(waiting := s.waiting[i := Idle])
  }

  /** The list of GetChannelSubscribersWaiting: every subscriber with its waiting columns set, once. */
  ghost predicate Lists(s: State, order: seq<string>) {
    && (forall i :: i in order <==> i in s.waiting && !s.waiting[i].Idle?)
    && (forall j, k :: 0 <= j < k < |order| ==> order[j] != order[k])
  }

  /** Every execution subscribes before it receives, and only who has received is ever listed. */
  predicate HasCursor(s: State, i: string) {
    i in s.waiting ==> i in s.cursors
  }

  ghost predicate Allowed(s: State, step: Step) {
    && (step.Publishing? ==> Lists(s, step.order))
    && (step.DeliveringLate? ==> step.message in s.messages)
    && (step.DeliveringLate? || step.Receiving? || step.RegisteringLate? || step.DyingInReceive? ==> HasCursor(s, step.id))
  }

  // ---- The invariant ----

  predicate Ordered(messages: seq<Message>) {
    forall j, k :: 0 <= j < k < |messages| ==> messages[j].id < messages[k].id
  }

  ghost predicate Tables(s: State) {
    && 0 < s.nextId && Ordered(s.messages) && Ordered(s.published)
    && (forall m :: m in s.messages ==> m in s.published)
    && (forall m :: m in s.published ==> 0 < m.id < s.nextId)
    && s.received.Keys == s.cursors.Keys == s.since.Keys
    && (forall i :: i in s.waiting && !s.waiting[i].Idle? ==> i in s.cursors)
  }

  /**
   * What an instance has received: published messages from behind its first cursor up to its
   * present one, in strictly increasing order, and of the retained ones all; and if it waits,
   * nothing is pending.
   */
  ghost predicate Delivered(
    messages: seq<Message>, published: seq<Message>, nextId: nat,
    since: nat, cursor: nat, got: seq<Message>, waits: bool)
  {
    && since <= cursor < nextId
    && Ordered(got)
    && (forall m :: m in got ==> m in published && since < m.id <= cursor)
    && (forall m :: m in messages && since < m.id <= cursor ==> m in got)
    && (waits ==> NothingAfter(messages, cursor))
  }

  ghost predicate Faithful(s: State, i: string)
    requires i in s.cursors && i in s.received && i in s.since
  {
    Delivered(s.messages, s.published, s.nextId, s.since[i], s.cursors[i], s.received[i], IsWaiting(s, i))
  }

  predicate NothingAfter(messages: seq<Message>, cursor: nat) {
    forall k :: 0 <= k < |messages| ==> messages[k].id <= cursor
  }

  ghost predicate Good(s: State) {
    Tables(s) && forall i :: i in s.cursors ==> Faithful(s, i)
  }

  lemma NothingPending(s: State, i: string)
    ensures Pending(s, i) == [] <==> NothingAfter(s.messages, Cursor(s, i))
  {
    FilterMembers(s.messages, After(Cursor(s, i)));
    if Pending(s, i) == [] {
      forall k | 0 <= k < |s.messages| ensures s.messages[k].id <= Cursor(s, i) {
        assert s.messages[k] in s.messages && s.messages[k] !in Pending(s, i);
      }
    } else {
      assert Pending(s, i)[0] in Pending(s, i);
    }
  }

  /** The first pending message is the next one: every other lies behind it. */
  lemma {:induction false} FirstIsNext(messages: seq<Message>, cursor: nat)
    requires Ordered(messages) && Filter(messages, After(cursor)) != []
    ensures var first := Filter(messages, After(cursor))[0];
            && first in messages && first.id > cursor
            && (forall m :: m in messages && m.id > cursor ==> first.id <= m.id)
  {
    hide Filter;
    FilterMembers(messages, After(cursor));
    FilterOrdered(messages, After(cursor));
    var pending := Filter(messages, After(cursor));
    assert pending[0] in pending;
    forall m | m in messages && m.id > cursor ensures pending[0].id <= m.id {
      assert m in pending;
      var k :| 0 <= k < |pending| && pending[k] == m;
    }
  }

  // ---- One instance ----

  lemma DeliveredNone(messages: seq<Message>, published: seq<Message>, nextId: nat, cursor: nat)
    requires cursor < nextId
    ensures Delivered(messages, published, nextId, cursor, cursor, [], false)
  {
  }

  /** Receiving the next retained message. */
  lemma DeliveredNext(
    messages: seq<Message>, published: seq<Message>, nextId: nat,
    since: nat, cursor: nat, got: seq<Message>, waits: bool, m: Message)
    requires Delivered(messages, published, nextId, since, cursor, got, waits)
    requires Ordered(messages) && m in messages && m in published && cursor < m.id < nextId
    requires forall n :: n in messages && n.id > cursor ==> m.id <= n.id
    ensures Delivered(messages, published, nextId, since, m.id, got + [m], false)
  {
    var all := got + [m];
    forall n | n in messages && since < n.id <= m.id ensures n in all {
      if n.id > cursor {
        SameId(messages, m, n);
      }
    }
    forall k | 0 <= k < |got| ensures got[k].id < m.id {
      assert got[k] in got;
    }
  }

  /** Waiting is right exactly if nothing is pending; not waiting always is. */
  lemma DeliveredWaiting(
    messages: seq<Message>, published: seq<Message>, nextId: nat, since: nat, cursor: nat, got: seq<Message>, waits: bool)
    requires Delivered(messages, published, nextId, since, cursor, got, waits)
    ensures Delivered(messages, published, nextId, since, cursor, got, true) <==> NothingAfter(messages, cursor)
    ensures Delivered(messages, published, nextId, since, cursor, got, false)
  {
  }

  /** A new message is behind every cursor; whoever waits has something pending now. */
  lemma DeliveredStored(
    messages: seq<Message>, published: seq<Message>, nextId: nat, since: nat, cursor: nat, got: seq<Message>,
    waits: bool, m: Message)
    requires Delivered(messages, published, nextId, since, cursor, got, waits) && m.id == nextId
    ensures Delivered(messages + [m], published + [m], nextId + 1, since, cursor, got, false)
    ensures !Delivered(messages + [m], published + [m], nextId + 1, since, cursor, got, true)
  {
    assert (messages + [m])[|messages|] == m;
  }

  lemma DeliveredPruned(
    messages: seq<Message>, published: seq<Message>, nextId: nat, since: nat, cursor: nat, got: seq<Message>,
    waits: bool, keep: Message -> bool)
    requires Delivered(messages, published, nextId, since, cursor, got, waits)
    ensures Delivered(Filter(messages, keep), published, nextId, since, cursor, got, waits)
  {
    var kept := Filter(messages, keep);
    FilterMembers(messages, keep);
    assert forall m :: m in kept ==> m in messages;
    if waits {
      forall k | 0 <= k < |kept| ensures kept[k].id <= cursor {
        assert kept[k] in kept;
      }
    }
  }

  /** A cursor moved without a record leaves a gap. */
  lemma DeliveredGap(
    messages: seq<Message>, published: seq<Message>, nextId: nat, since: nat, cursor: nat, got: seq<Message>,
    waits: bool, m: Message)
    requires Delivered(messages, published, nextId, since, cursor, got, waits) && m in messages && cursor < m.id
    ensures !Delivered(messages, published, nextId, since, m.id, got, waits)
  {
    assert m !in got;
  }

  lemma SameId(messages: seq<Message>, m: Message, n: Message)
    requires Ordered(messages) && m in messages && n in messages && m.id == n.id
    ensures m == n
  {
    var j :| 0 <= j < |messages| && messages[j] == m;
    var k :| 0 <= k < |messages| && messages[k] == n;
  }

  // ---- Steps keep it ----

  lemma FaithfulAt(s: State, i: string)
    requires Good(s) && i in s.cursors
    ensures i in s.received && i in s.since && Faithful(s, i)
  {
  }

  /** A subscription without its cursor concerns nobody yet. */
  lemma HalfSubscribed(s: State, i: string)
    requires Good(s)
    ensures Good(Next(s, DyingInSubscribe(i)))
  {
    hide Delivered, Ordered;
    var s' := Next(s, DyingInSubscribe(i));
    forall j | j in s'.cursors ensures Faithful(s', j) {
      FaithfulAt(s, j);
    }
  }

  lemma SubscribingKeeps(s: State, i: string)
    requires Good(s)
    ensures Good(Subscribed(s, i))
    ensures i in s.cursors ==> Subscribed(s, i).cursors == s.cursors
    // a new subscriber starts behind every message there is, and before every later one
    ensures i !in s.cursors ==>
              var s' := Subscribed(s, i);
              && i in s'.cursors && i in s'.waiting && Got(s', i) == [] && s'.cursors[i] < s.nextId
              && forall m :: m in s.messages ==> m.id <= s'.cursors[i]
  {
    hide Good, Subscribed;
    if i !in s.cursors {
      StartsBehind(s, i);
    }
    SubscribedParts(s, i);
    HalfSubscribed(s, i);
    if i !in s.cursors {
      CursorStarts(Next(s, DyingInSubscribe(i)), i);
    }
  }

  lemma StartsBehind(s: State, i: string)
    requires Good(s) && i !in s.cursors
    ensures var s' := Subscribed(s, i);
            && i in s'.cursors && i in s'.waiting && Got(s', i) == [] && s'.cursors[i] < s.nextId
            && forall m :: m in s.messages ==> m.id <= s'.cursors[i]
  {
    var last := |s.messages| - 1;
    assert s.messages != [] ==> s.messages[last] in s.messages;
    forall m | m in s.messages ensures m.id <= LastId(s.messages) {
      var k :| 0 <= k < |s.messages| && s.messages[k] == m;
    }
  }

  lemma SubscribedParts(s: State, i: string)
    ensures var s' := Next(s, DyingInSubscribe(i));
            Subscribed(s, i) == if i in s.cursors then s' else
              s'.(cursors := s'.cursors[i := LastId(s'.messages)], received := s'.received[i := []],
                  since := s'.since[i := LastId(s'.messages)])
    ensures i in s.cursors ==> Subscribed(s, i).cursors == s.cursors
    ensures Next(s, DyingInSubscribe(i)).cursors == s.cursors
  {
  }

  /** The cursor of a new subscriber starts behind all messages. */
  lemma CursorStarts(s: State, i: string)
    requires Good(s) && i !in s.cursors
    ensures Good(s.(cursors := s.cursors[i := LastId(s.messages)], received := s.received[i := []],
                    since := s.since[i := LastId(s.messages)]))
  {
    hide Delivered, Ordered;
    var c := LastId(s.messages);
    var s' := s.(cursors := s.cursors[i := c], received := s.received[i := []], since := s.since[i := c]);
    LastIsLast(s);
    DeliveredNone(s.messages, s.published, s.nextId, c);
    forall j | j in s'.cursors ensures Faithful(s', j) {
      if j in s.cursors {
        FaithfulAt(s, j);
      }
    }
  }

  lemma LastIsLast(s: State)
    requires Tables(s)
    ensures LastId(s.messages) < s.nextId
  {
    if s.messages != [] {
      assert s.messages[|s.messages| - 1] in s.messages;
    }
  }

  lemma TakingKeeps(s: State, i: string, m: Message)
    requires Good(s) && i in s.waiting && i in s.cursors && m in s.messages && m.id > s.cursors[i]
    requires forall n :: n in s.messages && n.id > s.cursors[i] ==> m.id <= n.id
    ensures Good(Taken(s, i, m))
  {
    hide Delivered, Ordered;
    var s' := Taken(s, i, m);
    FaithfulAt(s, i);
    LastOf(s, i);
    DeliveredNext(s.messages, s.published, s.nextId, s.since[i], s.cursors[i], s.received[i], IsWaiting(s, i), m);
    forall j | j in s'.cursors ensures Faithful(s', j) {
      FaithfulAt(s, j);
    }
  }

  lemma LastOf(s: State, i: string)
    requires Tables(s)
    ensures forall m :: m in s.messages ==> m in s.published && m.id < s.nextId
  {
  }

  /** Starting to wait is right exactly if nothing is pending. */
  lemma WaitingKeeps(s: State, i: string)
    requires Good(s) && i in s.waiting && i in s.cursors
    ensures Good(s.(waiting := s.waiting[i := Open])) <==> Pending(s, i) == []
  {
    hide Delivered, Ordered, Pending;
    NothingPending(s, i);
    var s' := s.(waiting := s.waiting[i := Open]);
    FaithfulAt(s, i);
    DeliveredWaiting(s.messages, s.published, s.nextId, s.since[i], s.cursors[i], s.received[i], IsWaiting(s, i));
    if Pending(s, i) == [] {
      forall j | j in s'.cursors ensures Faithful(s', j) {
        FaithfulAt(s, j);
      }
    } else if Good(s') {
      FaithfulAt(s', i);
    }
  }

  lemma ReceivingKeeps(s: State, i: string)
    requires Good(s) && HasCursor(s, i)
    ensures Good(Received(s, i))
  {
    if i in s.waiting {
      hide Delivered, Ordered, Pending;
      if Pending(s, i) != [] {
        PendingIsNext(s, i);
        TakingKeeps(s, i, Pending(s, i)[0]);
      } else {
        WaitingKeeps(s, i);
      }
    }
  }

  lemma PendingIsNext(s: State, i: string)
    requires Good(s) && i in s.cursors && Pending(s, i) != []
    ensures var first := Pending(s, i)[0];
            && first in s.messages && first.id > s.cursors[i]
            && (forall m :: m in s.messages && m.id > s.cursors[i] ==> first.id <= m.id)
  {
    FirstIsNext(s.messages, s.cursors[i]);
  }

  lemma NoLongerWaiting(s: State, s': State)
    requires Good(s) && s' == s.(waiting := s'.waiting, strays := s'.strays) && s'.waiting.Keys <= s.waiting.Keys
    requires forall i :: IsWaiting(s', i) ==> IsWaiting(s, i)
    requires forall i :: i in s'.waiting && !s'.waiting[i].Idle? ==> i in s.waiting && !s.waiting[i].Idle?
    ensures Good(s')
  {
    hide Delivered, Ordered;
    forall j | j in s'.cursors ensures Faithful(s', j) {
      FaithfulAt(s, j);
      DeliveredWaiting(s.messages, s.published, s.nextId, s.since[j], s.cursors[j], s.received[j], IsWaiting(s, j));
    }
  }

  lemma PruningKeeps(s: State, upTo: nat)
    requires Good(s)
    ensures Good(Next(s, Pruning(upTo)))
  {
    hide Delivered, Ordered, After;
    var s' := Next(s, Pruning(upTo));
    FilterMembers(s.messages, After(upTo));
    FilterOrdered(s.messages, After(upTo));
    forall j | j in s'.cursors ensures Faithful(s', j) {
      FaithfulAt(s, j);
      DeliveredPruned(s.messages, s.published, s.nextId, s.since[j], s.cursors[j], s.received[j], IsWaiting(s, j), After(upTo));
    }
  }

  lemma {:induction false} FilterOrdered(messages: seq<Message>, keep: Message -> bool)
    requires Ordered(messages)
    ensures Ordered(Filter(messages, keep))
  {
    if messages != [] {
      var init, last := messages[..|messages| - 1], messages[|messages| - 1];
      FilterOrdered(init, keep);
      FilterMembers(init, keep);
      var r := Filter(init, keep);
      forall k | 0 <= k < |r| ensures r[k].id < last.id {
        assert r[k] in r;
        var j :| 0 <= j < |init| && init[j] == r[k];
        assert messages[j] == r[k];
      }
    }
  }

  // ---- Deliveries ----

  /** What a delivery leaves alone: everything but what concerns its instance. */
  lemma HandedElse(s: State, i: string, m: Message, fate: Fate)
    requires Tables(s) && HasCursor(s, i)
    ensures var s' := Handed(s, i, m, fate);
            && Tables(s') && s'.messages == s.messages && s'.published == s.published && s'.nextId == s.nextId
            && s'.since == s.since && s'.cursors.Keys == s.cursors.Keys && s'.waiting.Keys == s.waiting.Keys
    ensures forall j :: j != i ==> SameAt(s, Handed(s, i, m, fate), j)
  {
    hide Ordered;
  }

  /** Nothing has changed for the instance. */
  predicate SameAt(s: State, s': State, j: string) {
    && Cursor(s', j) == Cursor(s, j) && Got(s', j) == Got(s, j)
    && (j in s'.waiting <==> j in s.waiting) && (j in s.waiting ==> s'.waiting[j] == s.waiting[j])
  }

  lemma TableKeys(s: State)
    requires Tables(s)
    ensures s.received.Keys == s.cursors.Keys == s.since.Keys
    ensures forall i :: i in s.waiting && !s.waiting[i].Idle? ==> i in s.cursors
  {
  }

  /** The deliveries to a list do to everyone on it what the one to it does. */
  lemma {:induction false} WokenAt(s: State, ids: seq<string>, fates: map<string, Fate>, m: Message)
    requires Tables(s) && forall j, k :: 0 <= j < k < |ids| ==> ids[j] != ids[k]
    requires forall j :: j in ids ==> j in s.waiting && !s.waiting[j].Idle?
    ensures var s' := Woken(s, ids, fates, m);
            && Tables(s') && s'.messages == s.messages && s'.published == s.published && s'.nextId == s.nextId
            && s'.since == s.since && s'.cursors.Keys == s.cursors.Keys && s'.waiting.Keys == s.waiting.Keys
    ensures forall j :: SameAt(if j in ids then Handed(s, j, m, FateOf(fates, j)) else s, Woken(s, ids, fates, m), j)
    decreases |ids|
  {
    hide Tables, Handed;
    if ids != [] {
      var i, rest := ids[0], ids[1..];
      var next := Handed(s, i, m, FateOf(fates, i));
      TableKeys(s);
      HandedElse(s, i, m, FateOf(fates, i));
      assert i !in rest;
      forall j | j in rest ensures j in next.waiting && !next.waiting[j].Idle? {
        assert j in ids && j != i && SameAt(s, next, j);
      }
      WokenAt(next, rest, fates, m);
      forall j ensures SameAt(if j in ids then Handed(s, j, m, FateOf(fates, j)) else s, Woken(s, ids, fates, m), j) {
        assert j in ids <==> j == i || j in rest;
        assert j != i ==> SameAt(s, next, j);
        if j in rest {
          HandedAlike(s, next, j, m, FateOf(fates, j));
        }
      }
    }
  }

  /** A delivery depends on its own instance only, unless it goes astray. */
  lemma HandedAlike(s: State, s': State, j: string, m: Message, fate: Fate)
    requires SameAt(s, s', j) && j in s.waiting && !s.waiting[j].Idle?
    ensures SameAt(Handed(s, j, m, fate), Handed(s', j, m, fate), j)
  {
  }

  lemma StoredTables(s: State, text: string)
    requires Tables(s)
    ensures Tables(Stored(s, text))
  {
    var s' := Stored(s, text);
    forall k | 0 <= k < |s.published| ensures s.published[k].id < s.nextId {
      assert s.published[k] in s.published;
    }
    forall k | 0 <= k < |s.messages| ensures s.messages[k].id < s.nextId {
      assert s.messages[k] in s.published;
    }
  }

  /** The two fates in which a waiting subscriber misses or repeats the new message. */
  predicate Misses(fate: Fate) {
    fate.Passed? || fate.Recorded?
  }

  /** The new message and one waiting subscriber. */
  lemma ExpectedMessage(
    messages: seq<Message>, published: seq<Message>, nextId: nat, since: nat, cursor: nat, got: seq<Message>, m: Message)
    requires Delivered(messages, published, nextId, since, cursor, got, true) && m.id == nextId
    ensures Delivered(messages + [m], published + [m], nextId + 1, since, m.id, got + [m], false)
    ensures !Delivered(messages + [m], published + [m], nextId + 1, since, cursor, got + [m], false)
    ensures !Delivered(messages + [m], published + [m], nextId + 1, since, cursor, got, true)
  {
    assert (messages + [m])[|messages|] == m && (got + [m])[|got|] == m;
    forall n | n in messages + [m] && since < n.id <= m.id ensures n in got + [m] {
      if n in messages {
        var k :| 0 <= k < |messages| && messages[k] == n;
      }
    }
    forall k | 0 <= k < |got| ensures got[k].id < m.id {
      assert got[k] in got;
    }
  }

  /** What a delivery does to its instance, unless it goes astray. */
  lemma HandedAt(s: State, j: string, m: Message, fate: Fate)
    requires j in s.waiting && !s.waiting[j].Idle?
    ensures var s', answers := Handed(s, j, m, fate), s.waiting[j].Open? && !fate.Passed?;
            && Cursor(s', j) == (if answers && !fate.Recorded? then m.id else Cursor(s, j))
            && Got(s', j) == (if answers then Got(s, j) + [m] else Got(s, j))
            && (IsWaiting(s', j) <==> IsWaiting(s, j) && fate.Passed?)
  {
  }

  lemma GoodTables(s: State)
    requires Good(s)
    ensures Tables(s)
  {
  }

  /** After the message is stored, and handed out, is the instance served as it should be? */
  lemma PublishedAt(s: State, text: string, order: seq<string>, fates: map<string, Fate>, j: string)
    requires Good(s) && Lists(s, order) && j in s.cursors
    requires Tables(Stored(s, text))
    ensures var s' := Next(s, Publishing(text, order, fates));
            && Tables(s') && j in s'.cursors && s'.cursors.Keys == s.cursors.Keys
            && (Faithful(s', j) <==> !(IsWaiting(s, j) && Misses(FateOf(fates, j))))
  {
    hide Delivered, Ordered, Tables, Woken, Handed, Delivers, FateOf, Good;
    GoodTables(s);
    var m, s1, fate := Message(s.nextId, text), Stored(s, text), FateOf(fates, j);
    WokenAt(s1, order, fates, m);
    if j in order {
      HandedAt(s1, j, m, fate);
    }
    TableKeys(Next(s, Publishing(text, order, fates)));
    TableKeys(s);
    FaithfulAt(s, j);
    DeliveredStored(s.messages, s.published, s.nextId, s.since[j], s.cursors[j], s.received[j], IsWaiting(s, j), m);
    if IsWaiting(s, j) {
      ExpectedMessage(s.messages, s.published, s.nextId, s.since[j], s.cursors[j], s.received[j], m);
    }
  }

  lemma PublishingExactly(s: State, text: string, order: seq<string>, fates: map<string, Fate>)
    requires Good(s) && Lists(s, order)
    ensures Good(Next(s, Publishing(text, order, fates))) <==>
            !exists i :: IsWaiting(s, i) && Misses(FateOf(fates, i))
  {
    hide Faithful, Ordered, Next, Lists, Misses, FateOf;
    var s' := Next(s, Publishing(text, order, fates));
    StoredTables(s, text);
    forall j | j in s.cursors
      ensures Tables(s') && j in s'.cursors && s'.cursors.Keys == s.cursors.Keys
      ensures Faithful(s', j) <==> !(IsWaiting(s, j) && Misses(FateOf(fates, j)))
    {
      PublishedAt(s, text, order, fates, j);
    }
    if s.cursors == map[] {
      NobodyThere(s, text, order, fates);
    } else {
      var j :| j in s.cursors;
      assert s'.cursors.Keys == s.cursors.Keys;
    }
    if i :| IsWaiting(s, i) && Misses(FateOf(fates, i)) {
      assert i in s.cursors && !Faithful(s', i);
    }
  }

  lemma NobodyThere(s: State, text: string, order: seq<string>, fates: map<string, Fate>)
    requires Good(s) && Lists(s, order) && s.cursors == map[] && Tables(Stored(s, text))
    ensures var s' := Next(s, Publishing(text, order, fates)); Tables(s') && s'.cursors == map[]
  {
    hide Ordered;
    WokenAt(Stored(s, text), order, fates, Message(s.nextId, text));
  }

  /** The id of the last message an instance has received, or the one before its first. */
  function LastGot(s: State, i: string): nat
    requires i in s.since
  {
    if Got(s, i) == [] then s.since[i] else Got(s, i)[|Got(s, i)| - 1].id
  }

  /** A receive answered with a retained message while nothing is pending is answered with an old one. */
  lemma DeliveredAgain(
    messages: seq<Message>, published: seq<Message>, nextId: nat, since: nat, cursor: nat, got: seq<Message>,
    m: Message, cursor': nat, waits: bool)
    requires Delivered(messages, published, nextId, since, cursor, got, true) && m in messages
    ensures !Delivered(messages, published, nextId, since, cursor', got + [m], waits)
  {
    assert (got + [m])[|got|] == m;
    var k :| 0 <= k < |messages| && messages[k] == m;
    if since < m.id {
      var g :| 0 <= g < |got| && got[g] == m;
      assert (got + [m])[g] == m;
    }
  }

  /** A cursor set to a retained message is right exactly if that was the last one received. */
  lemma DeliveredMoved(
    messages: seq<Message>, published: seq<Message>, nextId: nat, since: nat, cursor: nat, got: seq<Message>,
    waits: bool, m: Message)
    requires Delivered(messages, published, nextId, since, cursor, got, waits) && m in messages
    ensures Delivered(messages, published, nextId, since, m.id, got, false) <==>
            m.id == if got == [] then since else got[|got| - 1].id
  {
    if got != [] {
      assert got[|got| - 1] in got;
      assert forall k :: 0 <= k < |got| ==> got[k].id <= got[|got| - 1].id;
      if m in got {
        var g :| 0 <= g < |got| && got[g] == m;
      }
    }
  }

  /** When a late delivery does harm. */
  predicate GoesAstray(s: State, i: string, m: Message, fate: Fate)
    requires i in s.waiting ==> i in s.since
  {
    && !fate.Passed? && Delivers(s, i, m)
    && (s.waiting[i].Open? || (!fate.Recorded? && m.id != LastGot(s, i)))
  }

  lemma LateDeliveryExactly(s: State, i: string, m: Message, fate: Fate)
    requires Good(s) && m in s.messages && HasCursor(s, i)
    ensures i in s.waiting ==> i in s.since
    ensures Good(Handed(s, i, m, fate)) <==> !GoesAstray(s, i, m, fate)
  {
    hide Delivered, Ordered;
    var s' := Handed(s, i, m, fate);
    HandedElse(s, i, m, fate);
    if !fate.Passed? && Delivers(s, i, m) {
      FaithfulAt(s, i);
      if s.waiting[i].Open? {
        DeliveredAgain(s.messages, s.published, s.nextId, s.since[i], s.cursors[i], s.received[i], m,
          s'.cursors[i], IsWaiting(s', i));
        assert !Faithful(s', i);
      } else {
        DeliveredMoved(s.messages, s.published, s.nextId, s.since[i], s.cursors[i], s.received[i], IsWaiting(s, i), m);
        assert Faithful(s', i) <==> fate.Recorded? || m.id == LastGot(s, i);
      }
      forall j | j in s'.cursors && j != i ensures Faithful(s', j) {
        FaithfulAt(s, j);
        assert SameAt(s, s', j);
      }
    }
  }

  // ---- Exactly when delivery is faithful ----

  /** The ways to lose a message, or to receive one again. */
  ghost predicate Slips(s: State, step: Step)
    requires Tables(s) && Allowed(s, step)
  {
    match step
    // a waiting subscriber was not got to, or its publisher died before the cursor was moved
    case Publishing(_, _, fates) => exists i :: IsWaiting(s, i) && Misses(FateOf(fates, i))
    // a publisher came late to an instance that was served by another one, or by itself
    case DeliveringLate(i, m, fate) => GoesAstray(s, i, m, fate)
    // something was published between the check and the registration
    case RegisteringLate(i) => i in s.waiting && Pending(s, i) != []
    // the cursor was moved, the message not recorded
    case DyingInReceive(i) => i in s.waiting && Pending(s, i) != []
    case Subscribing(_) => false
    case Receiving(_) => false
    case TimingOut(_) => false
    case Recurring(_) => false
    case Pruning(_) => false
    case DyingInTimeout(_) => false
    case DyingInSubscribe(_) => false
  }

  lemma DyingLeavesAGap(s: State, i: string)
    requires Good(s) && i in s.waiting && i in s.cursors && Pending(s, i) != []
    ensures !Good(Next(s, DyingInReceive(i)))
  {
    hide Delivered, Ordered, Pending;
    var s' := Next(s, DyingInReceive(i));
    PendingIsNext(s, i);
    FaithfulAt(s, i);
    DeliveredGap(s.messages, s.published, s.nextId, s.since[i], s.cursors[i], s.received[i], IsWaiting(s, i), Pending(s, i)[0]);
    if Good(s') {
      FaithfulAt(s', i);
    }
  }

  /**
   * Delivery stays faithful through every step, deaths in the middle and late publishers
   * included, but the slips, and through none of those.
   */
  lemma FaithfulExactly(s: State, step: Step)
    requires Good(s) && Allowed(s, step)
    ensures Tables(s) && (Good(Next(s, step)) <==> !Slips(s, step))
  {
    hide Good, Pending, Delivered, Ordered, Tables, Woken, Handed, GoesAstray;
    GoodTables(s);
    match step
    case Subscribing(i) => SubscribingKeeps(s, i);
    case Receiving(i) => ReceivingKeeps(s, i);
    case Publishing(text, order, fates) => PublishingExactly(s, text, order, fates);
    case DeliveringLate(i, m, fate) => LateDeliveryExactly(s, i, m, fate);
    case TimingOut(i) => NoLongerWaiting(s, Next(s, step));
    case Recurring(i) => NoLongerWaiting(s, Next(s, step));
    case Pruning(upTo) => PruningKeeps(s, upTo);
    case RegisteringLate(i) => if i in s.waiting { WaitingKeeps(s, i); }
    case DyingInReceive(i) => if i in s.waiting && Pending(s, i) != [] { DyingLeavesAGap(s, i); }
    case DyingInTimeout(i) => NoLongerWaiting(s, Next(s, step));
    case DyingInSubscribe(i) => HalfSubscribed(s, i);
  }

  ghost predicate Legal(s: State, steps: seq<Step>)
    decreases |steps|
  {
    steps == [] ||
    (Allowed(s, steps[0]) && Tables(s) && !Slips(s, steps[0]) && Legal(Next(s, steps[0]), steps[1..]))
  }

  function Run(s: State, steps: seq<Step>): State
    decreases |steps|
  {
    if steps == [] then s else Run(Next(s, steps[0]), steps[1..])
  }

  lemma {:induction false} RunKeeps(s: State, steps: seq<Step>)
    requires Good(s) && Legal(s, steps)
    ensures Good(Run(s, steps))
    decreases |steps|
  {
    hide Good, Next, Slips;
    if steps != [] {
      FaithfulExactly(s, steps[0]);
      RunKeeps(Next(s, steps[0]), steps[1..]);
    }
  }

  // ---- The specification ----

  function Between(since: nat, cursor: nat): Message -> bool {
    (m: Message) => since < m.id <= cursor
  }

  /** Two lists in strictly increasing order with the same members are the same list. */
  lemma {:induction false} OrderedSame(a: seq<Message>, b: seq<Message>)
    requires Ordered(a) && Ordered(b) && forall m :: m in a <==> m in b
    ensures a == b
    decreases |a|
  {
    if a != [] || b != [] {
      assert (a + b)[0] in a + b;
      assert a[0] in b;
      assert b[0] in a;
      FirstIsLeast(a, b[0]);
      FirstIsLeast(b, a[0]);
      SameId(a, a[0], b[0]);
      TailMembers(a);
      TailMembers(b);
      OrderedSame(a[1..], b[1..]);
      assert a == [a[0]] + a[1..] && b == [b[0]] + b[1..];
    }
  }

  lemma FirstIsLeast(a: seq<Message>, m: Message)
    requires Ordered(a) && m in a
    ensures a[0].id <= m.id
  {
    var k :| 0 <= k < |a| && a[k] == m;
  }

  lemma TailMembers(a: seq<Message>)
    requires Ordered(a) && a != []
    ensures forall m :: m in a[1..] <==> m in a && m != a[0]
    ensures Ordered(a[1..])
  {
    forall m | m in a[1..] ensures m in a && m != a[0] {
      var k :| 0 <= k < |a[1..]| && a[1..][k] == m;
      assert a[k + 1] == m;
    }
  }

  /** What an instance has received of the retained messages. */
  function Retained(s: State, i: string): seq<Message> {
    Filter(Got(s, i), (m: Message) => m in s.messages)
  }

  /**
   * Broadcast delivery refines the ordered log.  After any run without a slip, what an instance
   * has received is a list of messages in the order of their publication, each once; and of the
   * messages still retained it is exactly those between its first cursor and its present one: no
   * skip, no repeat.  If none was deleted, that is all there were.
   */
  lemma ReceivedIsTheLog(steps: seq<Step>, i: string)
    requires Legal(EMPTY, steps) && i in Run(EMPTY, steps).cursors
    ensures var s := Run(EMPTY, steps);
            && i in s.since && Ordered(Got(s, i)) && (forall m :: m in Got(s, i) ==> m in s.published)
            && Retained(s, i) == Filter(s.messages, Between(s.since[i], s.cursors[i]))
            && (s.messages == s.published ==> Got(s, i) == Filter(s.published, Between(s.since[i], s.cursors[i])))
  {
    hide Legal, Run;
    var s := Run(EMPTY, steps);
    RunKeeps(EMPTY, steps);
    FaithfulAt(s, i);
    var log, kept := Filter(s.messages, Between(s.since[i], s.cursors[i])), (m: Message) => m in s.messages;
    FilterMembers(s.messages, Between(s.since[i], s.cursors[i]));
    FilterOrdered(s.messages, Between(s.since[i], s.cursors[i]));
    FilterMembers(Got(s, i), kept);
    FilterOrdered(Got(s, i), kept);
    OrderedSame(Retained(s, i), log);
    if s.messages == s.published {
      FilterAll(Got(s, i), kept);
    }
  }

  /**
   * What a slip costs: a message published after the check and before the registration is
   * passed over for good by the next one.
   */
  lemma LateRegistrationSkips(s: State, i: string, first: string, second: string)
    requires Good(s) && i in s.waiting && i in s.cursors && Pending(s, i) == []
    requires forall j :: j in s.waiting ==> s.waiting[j].Idle?
    ensures var s1 := Next(s, Publishing(first, [], map[]));
            var s2 := Next(s1, RegisteringLate(i));
            var s3 := Next(s2, Publishing(second, [i], map[]));
            var lost := Message(s.nextId, first);
            && Allowed(s, Publishing(first, [], map[])) && Allowed(s2, Publishing(second, [i], map[]))
            && i in s3.cursors && i in s3.since && i in s3.received
            && lost in s3.messages && s3.since[i] < lost.id <= s3.cursors[i] && lost !in s3.received[i]
  {
    hide Good, Delivered, Ordered, Pending, Woken;
    var lost, m := Message(s.nextId, first), Message(s.nextId + 1, second);
    NewIsUnseen(s, i, first);
    WokenOne(Stored(s, first), i, lost);
    var s1 := Next(s, Publishing(first, [], map[]));
    var s2 := Next(s1, RegisteringLate(i));
    WokenOne(Stored(s2, second), i, m);
    var s3 := Next(s2, Publishing(second, [i], map[]));
    assert s3 == Handed(Stored(s2, second), i, m, Served);
    assert s3.messages[|s.messages|] == lost;
  }

  lemma WokenOne(s: State, i: string, m: Message)
    ensures Woken(s, [i], map[], m) == Handed(s, i, m, Served) && Woken(s, [], map[], m) == s
  {
    assert [i][1..] == [];
  }

  lemma NewIsUnseen(s: State, i: string, text: string)
    requires Good(s) && i in s.cursors
    ensures i in s.cursors && i in s.received && i in s.since
    ensures s.since[i] <= s.cursors[i] < s.nextId && Message(s.nextId, text) !in s.received[i]
  {
    FaithfulAt(s, i);
  }

  /**
   * What the other slips cost.  A publisher that dies between the record and the cursor makes the
   * next receive repeat the message; one that comes late, with a message behind those received,
   * makes the next receive pass over it.
   */
  lemma RecordedIsRepeated(s: State, i: string, text: string)
    requires Good(s) && IsWaiting(s, i) && forall j :: j in s.waiting && j != i ==> s.waiting[j].Idle?
    ensures var m, dying := Message(s.nextId, text), Publishing(text, [i], map[i := Recorded]);
            && Allowed(s, dying) && i in s.received
            && Got(Next(s, dying), i) == s.received[i] + [m]
            && Got(Next(Next(s, dying), Receiving(i)), i) == s.received[i] + [m, m]
  {
    hide Good, Delivered, Ordered, Woken, Filter;
    var m := Message(s.nextId, text);
    GoodTables(s);
    NewIsUnseen(s, i, text);
    assert [i][1..] == [];
    var s1 := Stored(s, text);
    var s' := Handed(s1, i, m, Recorded);
    assert Woken(s1, [i], map[i := Recorded], m) == s' by { WokenJust(s1, i, m, Recorded); }
    OnlyPending(s, i, m);
    assert s.received[i] + [m] + [m] == s.received[i] + [m, m];
  }

  lemma WokenJust(s: State, i: string, m: Message, fate: Fate)
    ensures Woken(s, [i], map[i := fate], m) == Handed(s, i, m, fate)
  {
    assert [i][1..] == [];
  }

  /** A message stored while an instance waits is the one pending for it. */
  lemma OnlyPending(s: State, i: string, m: Message)
    requires Good(s) && IsWaiting(s, i) && i in s.cursors && s.cursors[i] < m.id
    ensures Filter(s.messages + [m], After(s.cursors[i])) == [m]
  {
    FaithfulAt(s, i);
    NothingPending(s, i);
    FilterSnoc(s.messages, m, After(s.cursors[i]));
  }

  lemma StrayIsPassedOver(s: State, i: string, m: Message)
    requires Good(s) && i in s.waiting && i in s.cursors && s.waiting[i].Idle?
    requires m in s.messages && (i, m.id) !in s.strays
    requires m.id > Cursor(s, i)
    ensures var s' := Next(s, DeliveringLate(i, m, Served));
            m !in Got(s', i) && m !in Pending(s', i) && i in s'.since && s'.since[i] < m.id <= Cursor(s', i)
  {
    hide Good, Delivered, Ordered, Filter;
    GotIsBehind(s, i);
    FilterMembers(s.messages, After(m.id));
  }

  lemma GotIsBehind(s: State, i: string)
    requires Good(s) && i in s.cursors
    ensures i in s.since && s.since[i] <= Cursor(s, i) && forall m :: m in Got(s, i) ==> m.id <= Cursor(s, i)
  {
    FaithfulAt(s, i);
  }

  // ---- From publication to receipt ----

  /**
   * A published message is received as it was published.  One whose receive is open has it, under
   * its id and with its text, as soon as it is served, and waits no more; its cursor stands at it.
   */
  lemma ServedAtOnce(s: State, text: string, i: string)
    requires Good(s) && IsWaiting(s, i)
    ensures var s', m := Next(s, Publishing(text, [i], map[])), Message(s.nextId, text);
            && i in s'.cursors && s'.cursors[i] == m.id
            && Got(s', i) == Got(s, i) + [m] && s'.waiting == s.waiting[i := Idle]
            && s'.messages == s.messages + [m] && s'.nextId == s.nextId + 1
  {
    hide Good;
    var m := Message(s.nextId, text);
    assert Woken(Stored(s, text), [i], map[], m) == Handed(Stored(s, text), i, m, Served) by { assert [i][1..] == []; }
  }

  /** A recur ends the subscription and not its cursor: subscribed again, the instance goes on where it was. */
  lemma RecurKeepsPlace(s: State, i: string)
    requires i in s.waiting && i in s.cursors
    ensures var s1 := Next(s, Recurring(i));
            var s2 := Next(s1, Subscribing(i));
            && i !in s1.waiting && s1.cursors == s.cursors && s1.messages == s.messages
            && s2.waiting == s.waiting[i := Idle] && s2.cursors == s.cursors && Pending(s2, i) == Pending(s, i)
            && forall id :: (i, id) !in s2.strays
  {
  }

  /** One that has received all there was gets it with its next receive. */
  lemma ReceivedNext(s: State, text: string, i: string)
    requires Good(s) && i in s.waiting && i in s.cursors && Pending(s, i) == []
    ensures var stored, m := Next(s, Publishing(text, [], map[])), Message(s.nextId, text);
            var s' := Next(stored, Receiving(i));
            && Pending(stored, i) == [m]
            && Got(s', i) == Got(s, i) + [m] && s'.cursors == s.cursors[i := m.id]
            && Pending(s', i) == []
  {
    hide Delivered, Ordered, Filter;
    var m := Message(s.nextId, text);
    FaithfulAt(s, i);
    GotIsBehind(s, i);
    CursorIsOld(s, i);
    FilterSnoc(s.messages, m, After(s.cursors[i]));
    FilterSnoc(s.messages, m, After(m.id));
    NoneAfter(s, m.id);
  }

  lemma CursorIsOld(s: State, i: string)
    requires Good(s) && i in s.cursors
    ensures s.cursors[i] < s.nextId
  {
    FaithfulAt(s, i);
  }

  lemma NoneAfter(s: State, id: nat)
    requires Good(s) && s.nextId <= id
    ensures Filter(s.messages, After(id)) == []
  {
    hide Delivered, Ordered;
    FilterMembers(s.messages, After(id));
    assert forall m :: m in s.messages ==> m in s.published;
    assert |Filter(s.messages, After(id))| > 0 ==> Filter(s.messages, After(id))[0] in Filter(s.messages, After(id));
  }

  // ---- The tables, updated in place ----

  /** channel_messages, channel_subscriptions and channel_delivery_cursors of one channel. */
  class ChannelStorage {
    var state: State

    constructor ()
      ensures state == EMPTY
    {
      state := EMPTY;
    }

    method SubscribeToChannel(i: string)
      modifies this
      ensures state == Subscribed(old(state), i)
    {
      if i !in state.waiting {
        state := state.(waiting := state.waiting[i := Idle]);
      }
      if i !in state.cursors {
        var c := LastId(state.messages);
        state := state.(cursors := state.cursors[i := c], received := state.received[i := []], since := state.since[i := c]);
      }
    }

    /** Up to ten messages after the cursor; none for an instance without a subscription. */
    method GetPendingChannelMessagesForInstance(i: string) returns (pending: seq<Message>)
      ensures i !in state.waiting ==> pending == []
      ensures i in state.waiting ==>
                var all := Pending(state, i); pending == if |all| <= 10 then all else all[..10]
    {
      hide Filter, After;
      pending := [];
      if i !in state.waiting {
        return;
      }
      var cursor := Cursor(state, i);
      var k := 0;
      NoneFiltered(After(cursor));
      assert state.messages[..0] == [];
      while k < |state.messages| && |pending| < 10
        invariant 0 <= k <= |state.messages| && |pending| <= 10
        invariant pending == Filter(state.messages[..k], After(cursor))
      {
        assert state.messages[..k + 1] == state.messages[..k] + [state.messages[k]];
        FilterSnoc(state.messages[..k], state.messages[k], After(cursor));
        IsAfter(cursor, state.messages[k]);
        if state.messages[k].id > cursor {
          pending := pending + [state.messages[k]];
        }
        k := k + 1;
      }
      Scanned(state.messages, k, After(cursor), pending);
    }

    method UpdateDeliveryCursor(i: string, id: nat)
      modifies this
      ensures state == old(state).(cursors := old(state).cursors[i := id])
    {
      state := state.(cursors := state.cursors[i := id]);
    }

    /** The record of a receipt: in history, and with that in what the instance has received. */
    method Record(i: string, m: Message)
      requires i in state.waiting
      modifies this
      ensures state == old(state).(received := old(state).received[i := Got(old(state), i) + [m]],
                waiting := old(state).waiting[i := if old(state).waiting[i].Open? then Answered else old(state).waiting[i]])
    {
      state := state.(received := state.received[i := Got(state, i) + [m]],
        waiting := state.waiting[i := if state.waiting[i].Open? then Answered else state.waiting[i]]);
    }

    method SetWaiting(i: string, flag: Flag)
      requires i in state.waiting
      modifies this
      ensures state == old(state).(waiting := old(state).waiting[i := flag])
    {
      state := state.(waiting := state.waiting[i := flag]);
    }

    /** Receive: the first pending message, or a registered wait. */
    method Receive(i: string) returns (received: Option<Message>)
      modifies this
      ensures state == Received(old(state), i)
      ensures received == if i in old(state).waiting && Pending(old(state), i) != []
                          then Some(Pending(old(state), i)[0]) else None
    {
      hide Filter, After, Pending;
      var pending := GetPendingChannelMessagesForInstance(i);
      if i !in state.waiting {
        return None;
      }
      if |pending| > 0 {
        var m := pending[0];
        UpdateDeliveryCursor(i, m.id);
        Record(i, m);
        return Some(m);
      }
      SetWaiting(i, Open);
      return None;
    }

    /**
     * Under the lock: nothing without a subscription or where the record exists; else the record,
     * the cursor, and the waiting columns.
     */
    method Deliver(i: string, m: Message, locked: set<string>) returns (delivered: bool)
      modifies this
      ensures delivered == (i !in locked && Delivers(old(state), i, m))
      ensures state == Handed(old(state), i, m, if i in locked then Passed else Served)
    {
      if i in locked || i !in state.waiting {
        return false;
      }
      if state.waiting[i].Idle? {
        if (i, m.id) in state.strays {
          return false;
        }
        state := state.(strays := state.strays + {(i, m.id)});
      } else if state.waiting[i].Answered? {
        return false;
      } else {
        Record(i, m);
      }
      UpdateDeliveryCursor(i, m.id);
      SetWaiting(i, Idle);
      return true;
    }

    /**
     * Delivers to every subscriber on the list that can be locked; on a competing channel up to
     * the first delivery only.
     */
    method WakeWaitingSubscribers(waiting: seq<string>, competing: bool, locked: set<string>, m: Message)
      returns (tried: nat)
      modifies this
      ensures tried <= |waiting| && state == Woken(old(state), waiting[..tried], Locking(locked), m)
      ensures !competing ==> tried == |waiting|
      ensures competing ==>
                && (forall k :: 0 <= k < tried - 1 ==> !Serves(old(state), waiting, k, locked, m))
                && (tried < |waiting| ==> tried > 0 && Serves(old(state), waiting, tried - 1, locked, m))
    {
      hide Handed;
      tried := 0;
      while tried < |waiting|
        invariant tried <= |waiting| && state == Woken(old(state), waiting[..tried], Locking(locked), m)
        invariant competing ==> forall k :: 0 <= k < tried ==> !Serves(old(state), waiting, k, locked, m)
      {
        assert waiting[..tried + 1] == waiting[..tried] + [waiting[tried]];
        WokenSnoc(old(state), waiting[..tried], waiting[tried], Locking(locked), m);
        var delivered := Deliver(waiting[tried], m, locked);
        assert delivered == Serves(old(state), waiting, tried, locked, m);
        tried := tried + 1;
        if delivered && competing {
          return;
        }
      }
      assert waiting[..tried] == waiting;
    }

    /** Publish, to broadcast subscribers listed in some order. */
    method Publish(text: string, waiting: seq<string>, locked: set<string>)
      modifies this
      ensures state == Next(old(state), Publishing(text, waiting, Locking(locked)))
    {
      var m := Message(state.nextId, text);
      state := state.(messages := state.messages + [m], nextId := state.nextId + 1, published := state.published + [m]);
      var tried := WakeWaitingSubscribers(waiting, false, locked, m);
      assert waiting[..tried] == waiting;
    }
  }

  lemma NoneFiltered(keep: Message -> bool)
    ensures Filter([], keep) == []
  {
  }

  lemma IsAfter(cursor: nat, m: Message)
    ensures After(cursor)(m) == (m.id > cursor)
  {
  }

  lemma Scanned(messages: seq<Message>, k: nat, keep: Message -> bool, found: seq<Message>)
    requires k <= |messages| && found == Filter(messages[..k], keep) && |found| <= 10
    requires k == |messages| || |found| == 10
    ensures var all := Filter(messages, keep); found == if |all| <= 10 then all else all[..10]
  {
    hide Filter;
    FilterConcat(messages[..k], messages[k..], keep);
    assert messages[..k] + messages[k..] == messages;
    if k == |messages| {
      assert messages[..k] == messages;
    }
  }

  function Locking(locked: set<string>): map<string, Fate> {
    map i | i in locked :: Passed
  }

  /** The k-th delivery of a list takes place. */
  predicate Serves(s: State, ids: seq<string>, k: nat, locked: set<string>, m: Message)
    requires k < |ids|
  {
    ids[k] !in locked && Delivers(Woken(s, ids[..k], Locking(locked), m), ids[k], m)
  }

  lemma {:induction false} WokenSnoc(s: State, ids: seq<string>, i: string, fates: map<string, Fate>, m: Message)
    ensures Woken(s, ids + [i], fates, m) == Handed(Woken(s, ids, fates, m), i, m, FateOf(fates, i))
    decreases |ids|
  {
    hide Handed;
    if ids == [] {
      assert [] + [i] == [i] && [i][1..] == [];
    } else {
      assert (ids + [i])[1..] == ids[1..] + [i];
      WokenSnoc(Handed(s, ids[0], m, FateOf(fates, ids[0])), ids[1..], i, fates, m);
    }
  }
}
