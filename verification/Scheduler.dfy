/** The timed transmit list and the action queue.

    Two tasks share them under one lock. The timer marks packets that are due and
    sends an action for each; the service task takes one action at a time and
    transmits the packet if it is the head of the list and marked. */
module Scheduler {
  import opened Options
  import opened Packets

  datatype Sched = Sched(now: nat, tx: seq<Packet>, actions: seq<nat>)

  // ---------------------------------------------------------------- the list

  ghost predicate Sorted(tx: seq<Packet>) {
    forall i, j :: 0 <= i < j < |tx| ==> tx[i].sendAt <= tx[j].sendAt
  }

  ghost predicate DistinctIds(tx: seq<Packet>) {
    forall i, j :: 0 <= i < j < |tx| ==> tx[i].id != tx[j].id
  }

  ghost predicate QueuedFirst(tx: seq<Packet>) {
    forall i, j :: 0 <= i < j < |tx| && tx[j].queued ==> tx[i].queued
  }

  /** A marked packet was due when it was marked. */
  ghost predicate QueuedDue(tx: seq<Packet>, now: nat) {
    forall i :: 0 <= i < |tx| && tx[i].queued ==> tx[i].sendAt < now
  }

  ghost function Ids(tx: seq<Packet>): (ids: set<nat>) {
    set i | 0 <= i < |tx| :: tx[i].id
  }

  /** The packet goes behind every packet that is not later than it. */
  function Insert(tx: seq<Packet>, p: Packet): seq<Packet> {
    if tx == [] || tx[0].sendAt > p.sendAt then [p] + tx else [tx[0]] + Insert(tx[1..], p)
  }

  function Without(tx: seq<Packet>, k: Key): seq<Packet> {
    if tx == [] then []
    else if tx[0].pcb == k then Without(tx[1..], k)
    else [tx[0]] + Without(tx[1..], k)
  }

  /** The addresses of the marked packets at the front, in list order. */
  function QueuedIds(tx: seq<Packet>): seq<nat> {
    if tx == [] || !tx[0].queued then [] else [tx[0].id] + QueuedIds(tx[1..])
  }

  function QueuedCount(tx: seq<Packet>): (n: nat)
    ensures n <= |tx|
  {
    if tx == [] || !tx[0].queued then 0 else 1 + QueuedCount(tx[1..])
  }

  /** From the first unmarked packet on: each due packet is marked and sent to the
      action queue; `sends` says which of the sends succeed, by position. */
  function Mark(tx: seq<Packet>, now: nat, sends: seq<bool>): seq<Packet>
    requires |sends| == |tx|
  {
    if tx == [] || tx[0].sendAt >= now then tx
    else [tx[0].(queued := sends[0])] + Mark(tx[1..], now, sends[1..])
  }

  function Sent(tx: seq<Packet>, now: nat, sends: seq<bool>): seq<nat>
    requires |sends| == |tx|
  {
    if tx == [] || tx[0].sendAt >= now then []
    else (if sends[0] then [tx[0].id] else []) + Sent(tx[1..], now, sends[1..])
  }

  function TimerRun(s: Sched, sends: seq<bool>): Sched
    requires |sends| == |s.tx|
  {
    var n := QueuedCount(s.tx);
    s.(tx := s.tx[..n] + Mark(s.tx[n..], s.now, sends[n..]),
       actions := s.actions + Sent(s.tx[n..], s.now, sends[n..]))
  }

  /** The action taken names the head of the list and the head is marked. */
  predicate Accepts(s: Sched)
    requires s.actions != []
  {
    s.tx != [] && s.tx[0].id == s.actions[0] && s.tx[0].queued
  }

  /** Taking an action: the packet leaves the list, or the action is skipped. */
  function Take(s: Sched): Sched
    requires s.actions != []
  {
    if Accepts(s) then s.(tx := s.tx[1..], actions := s.actions[1..])
    else s.(actions := s.actions[1..])
  }

  // ----------------------------------------------------------- the invariants

  /** `a` is `b` with some elements left out. */
  ghost predicate Subseq(a: seq<nat>, b: seq<nat>) {
    a == [] || (b != [] && ((a[0] == b[0] && Subseq(a[1..], b[1..])) || Subseq(a, b[1..])))
  }

  function Live(actions: seq<nat>, ids: set<nat>): seq<nat> {
    if actions == [] then []
    else if actions[0] in ids then [actions[0]] + Live(actions[1..], ids)
    else Live(actions[1..], ids)
  }

  /** What every reachable state keeps, even if the allocator hands out the address
      of a freed packet that an old action still names. */
  ghost predicate Orderly(s: Sched) {
    && Sorted(s.tx) && DistinctIds(s.tx) && QueuedFirst(s.tx) && QueuedDue(s.tx, s.now)
    && Subseq(QueuedIds(s.tx), s.actions)
  }

  /** What it keeps on top of that if no such address is handed out: the pending
      actions of packets still in the list are the marked packets, in order. */
  ghost predicate Exact(s: Sched) {
    Live(s.actions, Ids(s.tx)) == QueuedIds(s.tx)
  }

  // ------------------------------------------------------ inserting a packet

  /** Where the new packet ends up: behind everything not later than it, in front
      of everything later, so packets for the same time keep their order. */
  lemma {:induction false} InsertPlace(tx: seq<Packet>, p: Packet) returns (c: nat)
    requires Sorted(tx)
    ensures c <= |tx| && Insert(tx, p) == tx[..c] + [p] + tx[c..]
    ensures forall i :: 0 <= i < c ==> tx[i].sendAt <= p.sendAt
    ensures forall i :: c <= i < |tx| ==> p.sendAt < tx[i].sendAt
  {
    if tx == [] || tx[0].sendAt > p.sendAt {
      c := 0;
      assert Insert(tx, p) == tx[..0] + [p] + tx[0..];
    } else {
      var d := InsertPlace(tx[1..], p);
      c := d + 1;
      assert tx[..c] == [tx[0]] + tx[1..][..d];
      assert tx[c..] == tx[1..][d..];
    }
  }

  /** Marks at the front are decided by the front alone. */
  lemma {:induction false} QueuedIdsInsert(tx: seq<Packet>, c: nat, p: Packet)
    requires c <= |tx| && !p.queued && QueuedFirst(tx)
    requires forall i :: c <= i < |tx| ==> !tx[i].queued
    ensures QueuedIds(tx[..c] + [p] + tx[c..]) == QueuedIds(tx)
  {
    if c > 0 {
      QueuedIdsInsert(tx[1..], c - 1, p);
      assert (tx[..c] + [p] + tx[c..])[1..] == tx[1..][..c - 1] + [p] + tx[1..][c - 1..];
    } else if tx != [] {
      assert !tx[0].queued;
    }
  }

  lemma IdsInsert(tx: seq<Packet>, c: nat, p: Packet)
    requires c <= |tx|
    ensures Ids(tx[..c] + [p] + tx[c..]) == Ids(tx) + {p.id}
  {
    var all := tx[..c] + [p] + tx[c..];
    forall x | x in Ids(tx) + {p.id} ensures x in Ids(all) {
      if x == p.id {
        assert all[c].id == x;
      } else {
        var i :| 0 <= i < |tx| && tx[i].id == x;
        assert all[if i < c then i else i + 1] == tx[i];
      }
    }
    forall x | x in Ids(all) ensures x in Ids(tx) + {p.id} {
      var i :| 0 <= i < |all| && all[i].id == x;
      assert i == c || all[i] == tx[if i < c then i else i - 1];
    }
  }

  lemma InsertOrder(s: Sched, c: nat, p: Packet, tx: seq<Packet>)
    requires Orderly(s) && c <= |s.tx| && tx == s.tx[..c] + [p] + s.tx[c..] && !p.queued && s.now <= p.sendAt
    requires forall i :: 0 <= i < c ==> s.tx[i].sendAt <= p.sendAt && s.tx[i].id != p.id
    requires forall i :: c <= i < |s.tx| ==> p.sendAt < s.tx[i].sendAt && s.tx[i].id != p.id
    ensures Sorted(tx) && DistinctIds(tx) && QueuedFirst(tx) && QueuedDue(tx, s.now)
    ensures forall i :: c <= i < |s.tx| ==> !s.tx[i].queued
  {
    forall i, j | 0 <= i < j < |tx|
      ensures tx[i].sendAt <= tx[j].sendAt && tx[i].id != tx[j].id && (tx[j].queued ==> tx[i].queued)
    {
      var i', j' := if i < c then i else i - 1, if j < c then j else j - 1;
      assert i == c || tx[i] == s.tx[i'];
      assert j == c || tx[j] == s.tx[j'];
    }
  }

  /** Scheduling a packet for now or later keeps the invariant. */
  lemma InsertKeeps(s: Sched, p: Packet)
    requires Orderly(s) && p.id !in Ids(s.tx) && !p.queued && s.now <= p.sendAt
    ensures Orderly(s.(tx := Insert(s.tx, p)))
    ensures Ids(Insert(s.tx, p)) == Ids(s.tx) + {p.id}
    ensures QueuedIds(Insert(s.tx, p)) == QueuedIds(s.tx)
  {
    var c := InsertPlace(s.tx, p);
    var tx := s.tx[..c] + [p] + s.tx[c..];
    forall i | 0 <= i < |s.tx| ensures s.tx[i].id != p.id {
      assert s.tx[i].id in Ids(s.tx);
    }
    InsertOrder(s, c, p, tx);
    IdsInsert(s.tx, c, p);
    QueuedIdsInsert(s.tx, c, p);
  }

  /** The address of the new packet decides whether the pending actions still
      describe the marked packets: exactly when no pending action names it. */
  lemma InsertExact(s: Sched, p: Packet)
    requires Orderly(s) && Exact(s) && p.id !in Ids(s.tx) && !p.queued && s.now <= p.sendAt
    ensures Exact(s.(tx := Insert(s.tx, p))) <==> p.id !in s.actions
  {
    InsertKeeps(s, p);
    LiveGrows(s.actions, Ids(s.tx), p.id);
  }

  lemma {:induction false} LiveGrows(actions: seq<nat>, ids: set<nat>, x: nat)
    requires x !in ids
    ensures x !in actions ==> Live(actions, ids + {x}) == Live(actions, ids)
    ensures x in actions ==> |Live(actions, ids + {x})| > |Live(actions, ids)|
    ensures |Live(actions, ids + {x})| >= |Live(actions, ids)|
  {
    if actions != [] {
      LiveGrows(actions[1..], ids, x);
      assert actions == [actions[0]] + actions[1..];
    }
  }

  // --------------------------------------------- removing or editing packets

  /** `after` is `before` with some packets left out and the contents of others
      edited: what clearing a PCB, removing a service or an answer does. */
  ghost predicate Thinned(before: seq<Packet>, after: seq<Packet>) {
    if before == [] then after == []
    else
      || (after != [] && SameHeader(before[0], after[0]) && Thinned(before[1..], after[1..]))
      || Thinned(before[1..], after)
  }

  lemma {:induction false} ThinnedSelf(tx: seq<Packet>)
    ensures Thinned(tx, tx)
  {
    if tx != [] { ThinnedSelf(tx[1..]); }
  }

  /** Every packet kept comes from one packet of the list, in order. */
  lemma {:induction false} ThinnedPlaces(before: seq<Packet>, after: seq<Packet>) returns (at: seq<nat>)
    requires Thinned(before, after)
    ensures |at| == |after|
    ensures forall j :: 0 <= j < |at| ==> at[j] < |before| && SameHeader(before[at[j]], after[j])
    ensures forall i, j :: 0 <= i < j < |at| ==> at[i] < at[j]
  {
    if before == [] {
      at := [];
    } else if after != [] && SameHeader(before[0], after[0]) && Thinned(before[1..], after[1..]) {
      var rest := ThinnedPlaces(before[1..], after[1..]);
      at := [0] + seq(|rest|, j requires 0 <= j < |rest| => rest[j] + 1);
    } else {
      var rest := ThinnedPlaces(before[1..], after);
      at := seq(|rest|, j requires 0 <= j < |rest| => rest[j] + 1);
    }
  }

  lemma ThinnedIds(before: seq<Packet>, after: seq<Packet>)
    requires Thinned(before, after)
    ensures Ids(after) <= Ids(before)
  {
    var at := ThinnedPlaces(before, after);
    forall x | x in Ids(after) ensures x in Ids(before) {
      var j :| 0 <= j < |after| && after[j].id == x;
      assert before[at[j]].id == x;
    }
  }

  lemma SubseqSkip(a: seq<nat>, b: seq<nat>)
    requires a != [] && Subseq(a, b)
    ensures Subseq(a[1..], b)
  {
  }

  lemma {:induction false} SubseqTrans(a: seq<nat>, b: seq<nat>, c: seq<nat>)
    requires Subseq(a, b) && Subseq(b, c)
    ensures Subseq(a, c)
    decreases |b| + |c|
  {
    if a != [] && b != [] {
      if Subseq(b, c[1..]) {
        SubseqTrans(a, b, c[1..]);
      } else if a[0] == b[0] && Subseq(a[1..], b[1..]) {
        SubseqTrans(a[1..], b[1..], c[1..]);
      } else {
        SubseqTrans(a, b[1..], c[1..]);
      }
    }
  }

  lemma {:induction false} ThinnedQueuedIds(before: seq<Packet>, after: seq<Packet>)
    requires Thinned(before, after) && QueuedFirst(before)
    ensures QueuedFirst(after)
    ensures Subseq(QueuedIds(after), QueuedIds(before))
  {
    if before != [] {
      if after != [] && SameHeader(before[0], after[0]) && Thinned(before[1..], after[1..]) {
        ThinnedQueuedIds(before[1..], after[1..]);
        var at := ThinnedPlaces(before[1..], after[1..]);
      } else {
        ThinnedQueuedIds(before[1..], after);
        if !before[0].queued {
          assert forall i :: 0 <= i < |before| ==> !before[i].queued;
          var at := ThinnedPlaces(before, after);
        }
      }
    }
  }

  lemma ThinnedKeeps(s: Sched, after: seq<Packet>)
    requires Orderly(s) && Thinned(s.tx, after)
    ensures Orderly(s.(tx := after))
  {
    var at := ThinnedPlaces(s.tx, after);
    ThinnedQueuedIds(s.tx, after);
    SubseqTrans(QueuedIds(after), QueuedIds(s.tx), s.actions);
  }

  /** What is left of the pending actions when the list shrinks to `ids`. */
  lemma {:induction false} LiveShrinks(actions: seq<nat>, ids: set<nat>, fewer: set<nat>)
    requires fewer <= ids
    ensures Live(actions, fewer) == Live(Live(actions, ids), fewer)
  {
    if actions != [] {
      LiveShrinks(actions[1..], ids, fewer);
      assert Live(actions, ids) == if actions[0] in ids then [actions[0]] + Live(actions[1..], ids) else Live(actions[1..], ids);
    }
  }

  lemma {:induction false} LiveAll(actions: seq<nat>, ids: set<nat>)
    requires forall i :: 0 <= i < |actions| ==> actions[i] in ids
    ensures Live(actions, ids) == actions
  {
    if actions != [] { LiveAll(actions[1..], ids); }
  }

  /** The addresses of the marked packets, one by one. */
  lemma {:induction false} QueuedIdsAt(tx: seq<Packet>)
    ensures |QueuedIds(tx)| == QueuedCount(tx)
    ensures forall i :: 0 <= i < QueuedCount(tx) ==> QueuedIds(tx)[i] == tx[i].id && tx[i].queued
    ensures QueuedCount(tx) < |tx| ==> !tx[QueuedCount(tx)].queued
  {
    if tx != [] && tx[0].queued {
      QueuedIdsAt(tx[1..]);
      assert forall i :: 0 < i < QueuedCount(tx) ==> QueuedIds(tx)[i] == QueuedIds(tx[1..])[i - 1] && tx[i] == tx[1..][i - 1];
    }
  }

  lemma QueuedIdsIn(tx: seq<Packet>)
    ensures forall x :: x in QueuedIds(tx) ==> x in Ids(tx)
  {
    QueuedIdsAt(tx);
  }

  lemma IdsTail(tx: seq<Packet>)
    requires tx != []
    ensures Ids(tx) == Ids(tx[1..]) + {tx[0].id}
    ensures DistinctIds(tx) ==> tx[0].id !in Ids(tx[1..]) && DistinctIds(tx[1..])
  {
    forall x | x in Ids(tx) ensures x in Ids(tx[1..]) + {tx[0].id} {
      var i :| 0 <= i < |tx| && tx[i].id == x;
      if i > 0 { assert tx[1..][i - 1].id == x; }
    }
    forall x | x in Ids(tx[1..]) ensures x in Ids(tx) {
      var i :| 0 <= i < |tx[1..]| && tx[1..][i].id == x;
      assert tx[i + 1].id == x;
    }
  }

  lemma {:induction false} ThinnedLive(before: seq<Packet>, after: seq<Packet>)
    requires Thinned(before, after) && QueuedFirst(before) && DistinctIds(before)
    ensures Live(QueuedIds(before), Ids(after)) == QueuedIds(after)
  {
    if before != [] {
      IdsTail(before);
      QueuedIdsIn(before[1..]);
      if after != [] && SameHeader(before[0], after[0]) && Thinned(before[1..], after[1..]) {
        IdsTail(after);
        ThinnedIds(before[1..], after[1..]);
        ThinnedLive(before[1..], after[1..]);
        LiveGrows(QueuedIds(before[1..]), Ids(after[1..]), before[0].id);
      } else {
        ThinnedIds(before[1..], after);
        ThinnedLive(before[1..], after);
        if !before[0].queued {
          assert forall i :: 0 <= i < |before| ==> !before[i].queued;
          var at := ThinnedPlaces(before, after);
        }
      }
    }
  }

  /** Removing packets never leaves an action for a packet that is still listed but
      not marked, nor a marked packet without its action. */
  lemma ThinnedExact(s: Sched, after: seq<Packet>)
    requires Orderly(s) && Exact(s) && Thinned(s.tx, after)
    ensures Exact(s.(tx := after))
  {
    ThinnedIds(s.tx, after);
    LiveShrinks(s.actions, Ids(s.tx), Ids(after));
    ThinnedLive(s.tx, after);
  }

  lemma {:induction false} WithoutThins(tx: seq<Packet>, k: Key)
    ensures Thinned(tx, Without(tx, k))
    ensures forall p :: p in Without(tx, k) <==> p in tx && p.pcb != k
  {
    if tx != [] {
      WithoutThins(tx[1..], k);
      assert tx == [tx[0]] + tx[1..];
    }
  }

  // ---------------------------------------------------------- taking actions

  /** Taking one action keeps the invariant. */
  lemma TakeKeeps(s: Sched)
    requires Orderly(s) && s.actions != []
    ensures Orderly(Take(s))
  {
    if s.tx != [] && s.tx[0].queued && !Accepts(s) {
      assert Subseq(QueuedIds(s.tx), s.actions[1..]);
    } else if Accepts(s) {
      var q := QueuedIds(s.tx);
      assert q[1..] == QueuedIds(s.tx[1..]);
      if !Subseq(q[1..], s.actions[1..]) {
        SubseqSkip(q, s.actions[1..]);
      }
    }
  }

  /** While no address with a pending action is handed out again, an action is
      skipped exactly when its packet has left the list meanwhile. */
  lemma TakeExact(s: Sched)
    requires Orderly(s) && Exact(s) && s.actions != []
    ensures Exact(Take(s))
    ensures Accepts(s) <==> s.actions[0] in Ids(s.tx)
    ensures Accepts(s) ==> s.tx[0].id !in Take(s).actions
  {
    var a := s.actions[0];
    assert s.tx != [] ==> s.tx[0].id in Ids(s.tx);
    if a in Ids(s.tx) {
      var live := Live(s.actions, Ids(s.tx));
      assert live[0] == a && QueuedIds(s.tx) == live;
      IdsTail(s.tx);
      assert live[1..] == QueuedIds(s.tx[1..]) == Live(s.actions[1..], Ids(s.tx));
      QueuedIdsIn(s.tx[1..]);
      LiveGrows(s.actions[1..], Ids(s.tx[1..]), a);
      LiveMember(s.actions[1..], Ids(s.tx), a);
    }
  }

  lemma {:induction false} LiveMember(actions: seq<nat>, ids: set<nat>, x: nat)
    requires x in ids
    ensures x in actions <==> x in Live(actions, ids)
  {
    if actions != [] {
      LiveMember(actions[1..], ids, x);
      assert actions == [actions[0]] + actions[1..];
    }
  }

  // ------------------------------------------------------------- timer runs

  function DueCount(tx: seq<Packet>, now: nat): (n: nat)
    ensures n <= |tx|
  {
    if tx == [] || tx[0].sendAt >= now then 0 else 1 + DueCount(tx[1..], now)
  }

  /** Among the due packets, from the first unmarked one on, no send succeeds after
      one that failed. */
  ghost predicate FailuresLast(s: Sched, sends: seq<bool>)
    requires |sends| == |s.tx|
  {
    var n := QueuedCount(s.tx);
    forall i, j :: n <= i < j < n + DueCount(s.tx[n..], s.now) && sends[j] ==> sends[i]
  }

  lemma {:induction false} MarkAt(tx: seq<Packet>, now: nat, sends: seq<bool>)
    requires |sends| == |tx|
    ensures |Mark(tx, now, sends)| == |tx|
    ensures forall i :: 0 <= i < |tx| ==>
      Mark(tx, now, sends)[i] == if i < DueCount(tx, now) then tx[i].(queued := sends[i]) else tx[i]
    ensures forall i :: 0 <= i < DueCount(tx, now) ==> tx[i].sendAt < now
  {
    if tx != [] && tx[0].sendAt < now { MarkAt(tx[1..], now, sends[1..]); }
  }

  /** A run changes nothing but the marks of the due packets behind the marked ones. */
  lemma TimerAt(s: Sched, sends: seq<bool>)
    requires |sends| == |s.tx|
    ensures var n := QueuedCount(s.tx); var d := DueCount(s.tx[n..], s.now); var tx := TimerRun(s, sends).tx;
      && |tx| == |s.tx|
      && forall i :: 0 <= i < |tx| ==>
           tx[i] == (if n <= i < n + d then s.tx[i].(queued := sends[i]) else s.tx[i])
           && (n <= i < n + d ==> s.tx[i].sendAt < s.now)
  {
    var n := QueuedCount(s.tx);
    MarkAt(s.tx[n..], s.now, sends[n..]);
  }

  lemma {:induction false} QueuedIdsFront(tx: seq<Packet>, rest: seq<Packet>)
    ensures QueuedIds(tx[..QueuedCount(tx)] + rest) == QueuedIds(tx) + QueuedIds(rest)
  {
    if tx != [] && tx[0].queued {
      QueuedIdsFront(tx[1..], rest);
      assert (tx[..QueuedCount(tx)] + rest)[1..] == tx[1..][..QueuedCount(tx[1..])] + rest;
    } else {
      assert tx[..QueuedCount(tx)] + rest == rest;
    }
  }

  lemma {:induction false} QueuedIdsMark(tx: seq<Packet>, now: nat, sends: seq<bool>)
    requires |sends| == |tx| && forall i :: 0 <= i < |tx| ==> !tx[i].queued
    requires forall i, j :: 0 <= i < j < DueCount(tx, now) && sends[j] ==> sends[i]
    ensures QueuedIds(Mark(tx, now, sends)) == Sent(tx, now, sends)
  {
    if tx != [] && tx[0].sendAt < now {
      if sends[0] {
        assert forall i, j :: 0 <= i < j < DueCount(tx[1..], now) && sends[1..][j] ==> sends[1..][i];
        QueuedIdsMark(tx[1..], now, sends[1..]);
        assert Mark(tx, now, sends)[1..] == Mark(tx[1..], now, sends[1..]);
      } else {
        NothingSent(tx, now, sends);
      }
    }
  }

  lemma {:induction false} NothingSent(tx: seq<Packet>, now: nat, sends: seq<bool>)
    requires |sends| == |tx| && forall i :: 0 <= i < DueCount(tx, now) ==> !sends[i]
    ensures Sent(tx, now, sends) == []
  {
    if tx != [] && tx[0].sendAt < now {
      assert forall i :: 0 <= i < DueCount(tx[1..], now) ==> !sends[1..][i];
      NothingSent(tx[1..], now, sends[1..]);
    }
  }

  lemma {:induction false} SubseqAppend(a: seq<nat>, b: seq<nat>, c: seq<nat>)
    requires Subseq(a, b)
    ensures Subseq(a + c, b + c)
  {
    if b == [] {
      assert a + c == c && b + c == c;
      SubseqSelf(c);
    } else if a != [] && a[0] == b[0] && Subseq(a[1..], b[1..]) {
      SubseqAppend(a[1..], b[1..], c);
      assert (a + c)[1..] == a[1..] + c && (b + c)[1..] == b[1..] + c;
    } else {
      SubseqAppend(a, b[1..], c);
      assert (b + c)[1..] == b[1..] + c;
    }
  }

  lemma {:induction false} SubseqSelf(a: seq<nat>)
    ensures Subseq(a, a)
  {
    if a != [] { SubseqSelf(a[1..]); }
  }

  lemma {:induction false} LiveAppend(a: seq<nat>, b: seq<nat>, ids: set<nat>)
    ensures Live(a + b, ids) == Live(a, ids) + Live(b, ids)
  {
    if a == [] {
      assert a + b == b;
    } else {
      LiveAppend(a[1..], b, ids);
      assert (a + b)[1..] == a[1..] + b;
    }
  }

  lemma TimerIds(s: Sched, sends: seq<bool>)
    requires |sends| == |s.tx|
    ensures Ids(TimerRun(s, sends).tx) == Ids(s.tx)
  {
    TimerAt(s, sends);
    var tx := TimerRun(s, sends).tx;
    assert forall i :: 0 <= i < |tx| ==> tx[i].id == s.tx[i].id;
  }

  lemma TimerQueued(s: Sched, sends: seq<bool>)
    requires Orderly(s) && |sends| == |s.tx| && FailuresLast(s, sends)
    ensures var n := QueuedCount(s.tx);
      QueuedIds(TimerRun(s, sends).tx) == QueuedIds(s.tx) + Sent(s.tx[n..], s.now, sends[n..])
  {
    var n := QueuedCount(s.tx);
    QueuedIdsAt(s.tx);
    assert forall i :: n <= i < |s.tx| ==> !s.tx[i].queued;
    QueuedIdsFront(s.tx, Mark(s.tx[n..], s.now, sends[n..]));
    QueuedIdsMark(s.tx[n..], s.now, sends[n..]);
  }

  /** A timer run keeps the invariant exactly when no send succeeds after a send of
      the same run has failed; in particular when every send succeeds. */
  lemma TimerKeeps(s: Sched, sends: seq<bool>)
    requires Orderly(s) && |sends| == |s.tx|
    ensures Orderly(TimerRun(s, sends)) <==> FailuresLast(s, sends)
    ensures Exact(s) && FailuresLast(s, sends) ==> Exact(TimerRun(s, sends))
  {
    var n := QueuedCount(s.tx);
    var d := DueCount(s.tx[n..], s.now);
    var t := TimerRun(s, sends);
    TimerAt(s, sends);
    QueuedIdsAt(s.tx);
    if QueuedFirst(t.tx) {
      assert forall i, j :: n <= i < j < n + d && sends[j] ==> t.tx[j].queued && t.tx[i].queued;
    }
    if FailuresLast(s, sends) {
      TimerSound(s, sends);
    }
  }

  /** With failures last the invariants are kept. */
  lemma TimerSound(s: Sched, sends: seq<bool>)
    requires Orderly(s) && |sends| == |s.tx| && FailuresLast(s, sends)
    ensures Orderly(TimerRun(s, sends))
    ensures Exact(s) ==> Exact(TimerRun(s, sends))
  {
    hide FailuresLast;
    var n := QueuedCount(s.tx);
    var t := TimerRun(s, sends);
    TimerAt(s, sends);
    TimerOrder(s, sends);
    TimerQueued(s, sends);
    var sent := Sent(s.tx[n..], s.now, sends[n..]);
    SubseqAppend(QueuedIds(s.tx), s.actions, sent);
    TimerIds(s, sends);
    LiveAppend(s.actions, sent, Ids(s.tx));
    QueuedIdsIn(t.tx);
    assert forall i :: 0 <= i < |sent| ==> sent[i] == QueuedIds(t.tx)[|QueuedIds(s.tx)| + i];
    LiveAll(sent, Ids(s.tx));
  }

  lemma MarkStops(tx: seq<Packet>, now: nat, sends: seq<bool>)
    requires |sends| == |tx| && (tx == [] || tx[0].sendAt >= now)
    ensures Mark(tx, now, sends) == tx && Sent(tx, now, sends) == []
  {
  }

  lemma TimerOrder(s: Sched, sends: seq<bool>)
    requires Orderly(s) && |sends| == |s.tx| && FailuresLast(s, sends)
    ensures var tx := TimerRun(s, sends).tx; Sorted(tx) && DistinctIds(tx) && QueuedFirst(tx) && QueuedDue(tx, s.now)
  {
    TimerAt(s, sends);
    QueuedIdsAt(s.tx);
    var n := QueuedCount(s.tx);
    assert forall i :: n <= i < |s.tx| ==> !s.tx[i].queued;
  }

  // -------------------------------------------------------------- whole runs

  /** What either task, or a caller holding the lock, can do to the list. */
  datatype Move =
    | Tick(ms: nat)
    | Timer(sends: seq<bool>)
    | Act
    | Schedule(packet: Packet)
    | Thin(after: seq<Packet>)

  ghost predicate Allowed(s: Sched, m: Move) {
    match m
    case Tick(_) => true
    case Timer(sends) => |sends| == |s.tx|
    case Act => s.actions != []
    case Schedule(p) => p.id !in Ids(s.tx) && !p.queued && s.now <= p.sendAt
    case Thin(after) => Thinned(s.tx, after)
  }

  ghost function Next(s: Sched, m: Move): Sched
    requires Allowed(s, m)
  {
    match m
    case Tick(ms) => s.(now := s.now + ms)
    case Timer(sends) => TimerRun(s, sends)
    case Act => Take(s)
    case Schedule(p) => s.(tx := Insert(s.tx, p))
    case Thin(after) => s.(tx := after)
  }

  /** A run: every move is allowed where it is made. */
  ghost predicate IsRun(s: Sched, moves: seq<Move>)
    decreases |moves|
  {
    moves == [] || (Allowed(s, moves[0]) && IsRun(Next(s, moves[0]), moves[1..]))
  }

  ghost function After(s: Sched, moves: seq<Move>): Sched
    requires IsRun(s, moves)
    decreases |moves|
  {
    if moves == [] then s else After(Next(s, moves[0]), moves[1..])
  }

  /** The packets transmitted during a run. */
  ghost function Transmitted(s: Sched, moves: seq<Move>): seq<nat>
    requires IsRun(s, moves)
    decreases |moves|
  {
    if moves == [] then []
    else (if moves[0].Act? && Accepts(s) then [s.actions[0]] else []) + Transmitted(Next(s, moves[0]), moves[1..])
  }

  /** No send of any timer run succeeds after one that failed. */
  ghost predicate SendsInOrder(s: Sched, moves: seq<Move>)
    requires IsRun(s, moves)
    decreases |moves|
  {
    moves == [] ||
    ((moves[0].Timer? ==> FailuresLast(s, moves[0].sends)) && SendsInOrder(Next(s, moves[0]), moves[1..]))
  }

  /** No packet is given an address that a pending action still names. */
  ghost predicate NoStaleAddress(s: Sched, moves: seq<Move>)
    requires IsRun(s, moves)
    decreases |moves|
  {
    moves == [] ||
    ((moves[0].Schedule? ==> moves[0].packet.id !in s.actions) && NoStaleAddress(Next(s, moves[0]), moves[1..]))
  }

  lemma NextKeeps(s: Sched, m: Move)
    requires Orderly(s) && Allowed(s, m) && (m.Timer? ==> FailuresLast(s, m.sends))
    ensures Orderly(Next(s, m))
    ensures Exact(s) && (m.Schedule? ==> m.packet.id !in s.actions) ==> Exact(Next(s, m))
  {
    match m
    case Tick(_) =>
    case Timer(sends) => TimerKeeps(s, sends);
    case Act =>
      TakeKeeps(s);
      if Exact(s) { TakeExact(s); }
    case Schedule(p) =>
      InsertKeeps(s, p);
      if Exact(s) { InsertExact(s, p); }
    case Thin(after) =>
      ThinnedKeeps(s, after);
      if Exact(s) { ThinnedExact(s, after); }
  }

  /** In every reachable state the list is sorted, the marked packets are its front,
      and their actions are pending in the same order. */
  lemma {:induction false} RunOrderly(s: Sched, moves: seq<Move>)
    requires Orderly(s) && IsRun(s, moves) && SendsInOrder(s, moves)
    ensures Orderly(After(s, moves))
    ensures Exact(s) && NoStaleAddress(s, moves) ==> Exact(After(s, moves))
    decreases |moves|
  {
    if moves != [] {
      NextKeeps(s, moves[0]);
      RunOrderly(Next(s, moves[0]), moves[1..]);
    }
  }

  /** A marked packet at the head is transmitted by one of the actions already
      pending: the actions in front of it are all skipped. */
  lemma {:induction false} HeadIsTransmitted(s: Sched) returns (skipped: nat)
    requires Orderly(s) && s.tx != [] && s.tx[0].queued
    ensures skipped < |s.actions| && s.actions[skipped] == s.tx[0].id && s.tx[0].id !in s.actions[..skipped]
    ensures var acts := seq(skipped + 1, _ => Act);
      IsRun(s, acts) && Transmitted(s, acts) == [s.tx[0].id] && After(s, acts).tx == s.tx[1..]
    decreases |s.actions|
  {
    if Accepts(s) {
      skipped := 0;
      var acts := seq(1, _ => Act);
      assert acts[1..] == [];
      assert IsRun(Take(s), acts[1..]);
    } else {
      TakeKeeps(s);
      var rest := HeadIsTransmitted(Take(s));
      skipped := rest + 1;
      assert s.actions[..skipped] == [s.actions[0]] + s.actions[1..][..rest];
      var acts := seq(skipped + 1, _ => Act);
      assert acts[1..] == seq(rest + 1, _ => Act);
    }
  }

  // ----------------------------------------------------- a send that succeeds
  // ----------------------------------------------------- after one that failed

  /** The head is marked but no pending action names it. */
  ghost predicate Stranded(s: Sched) {
    && s.tx != [] && s.tx[0].queued && s.tx[0].sendAt < s.now && s.tx[0].id !in s.actions
    && DistinctIds(s.tx)
  }

  /** Nothing but the removal of the head ends it, and until then no packet of any
      PCB is transmitted: the timer only looks behind the marked packets. */
  lemma {:induction false} StrandedForever(s: Sched, moves: seq<Move>)
    requires Stranded(s) && IsRun(s, moves) && KeepsHead(s, moves, s.tx[0].id)
    ensures Stranded(After(s, moves)) && After(s, moves).tx[0].id == s.tx[0].id
    ensures Transmitted(s, moves) == []
    decreases |moves|
  {
    if moves != [] {
      StrandedStep(s, moves[0]);
      StrandedForever(Next(s, moves[0]), moves[1..]);
    }
  }

  ghost predicate KeepsHead(s: Sched, moves: seq<Move>, head: nat)
    requires IsRun(s, moves)
    decreases |moves|
  {
    moves == [] || (head in Ids(Next(s, moves[0]).tx) && KeepsHead(Next(s, moves[0]), moves[1..], head))
  }

  lemma StrandedStep(s: Sched, m: Move)
    requires Stranded(s) && Allowed(s, m) && s.tx[0].id in Ids(Next(s, m).tx)
    ensures Stranded(Next(s, m)) && Next(s, m).tx[0].id == s.tx[0].id
    ensures m.Act? ==> !Accepts(s)
  {
    match m
    case Tick(_) =>
    case Timer(sends) => StrandedTimer(s, sends);
    case Act =>
    case Schedule(p) => InsertDistinct(s.tx, p);
    case Thin(after) =>
      var at := ThinnedPlaces(s.tx, after);
      var j :| 0 <= j < |after| && after[j].id == s.tx[0].id;
      assert at[j] == 0;
      assert j == 0;
  }

  lemma {:induction false} InsertDistinct(tx: seq<Packet>, p: Packet)
    requires DistinctIds(tx) && p.id !in Ids(tx)
    ensures DistinctIds(Insert(tx, p)) && Ids(Insert(tx, p)) == Ids(tx) + {p.id}
  {
    assert forall i :: 0 <= i < |tx| ==> tx[i].id in Ids(tx);
    if tx == [] || tx[0].sendAt > p.sendAt {
      IdsTail([p] + tx);
      assert ([p] + tx)[1..] == tx;
    } else {
      IdsTail(tx);
      InsertDistinct(tx[1..], p);
      var rest := Insert(tx[1..], p);
      assert forall i :: 0 <= i < |rest| ==> rest[i].id in Ids(rest);
      IdsTail(Insert(tx, p));
      assert Insert(tx, p)[1..] == rest;
    }
  }

  lemma StrandedTimer(s: Sched, sends: seq<bool>)
    requires Stranded(s) && |sends| == |s.tx|
    ensures Stranded(TimerRun(s, sends)) && TimerRun(s, sends).tx[0].id == s.tx[0].id
  {
    TimerAt(s, sends);
    var n := QueuedCount(s.tx);
    SentIn(s.tx[n..], s.now, sends[n..]);
    forall i | 0 <= i < |s.tx[n..]| ensures s.tx[n..][i].id != s.tx[0].id {
      assert s.tx[n..][i] == s.tx[n + i];
    }
  }

  lemma {:induction false} SentIn(tx: seq<Packet>, now: nat, sends: seq<bool>)
    requires |sends| == |tx|
    ensures forall x :: x in Sent(tx, now, sends) ==> x in Ids(tx)
  {
    if tx != [] && tx[0].sendAt < now {
      SentIn(tx[1..], now, sends[1..]);
      IdsTail(tx);
    }
  }

  /** One failed send is enough to get there: two PCBs have a packet due, the send
      for the first fails and the one for the second succeeds, the second's action
      is taken and skipped, and the first PCB goes down. */
  lemma StrandedReachable(first: Packet, second: Packet) returns (moves: seq<Move>)
    requires first.id != second.id && first.pcb != second.pcb && !first.queued && !second.queued
    requires first.sendAt == second.sendAt == 0
    ensures IsRun(Sched(0, [], []), moves) && Stranded(After(Sched(0, [], []), moves))
    ensures |moves| == 6 && moves[3] == Timer([false, true])
  {
    var marked := second.(queued := true);
    var s0 := Sched(0, [], []);
    var s1 := Sched(0, [first], []);
    var s2 := Sched(0, [first, second], []);
    var s3 := Sched(1, [first, second], []);
    var s4 := Sched(1, [first, marked], [second.id]);
    var s5 := Sched(1, [first, marked], []);
    var s6 := Sched(1, [marked], []);
    assert Next(s0, Schedule(first)) == s1;
    assert Insert([second], second) == [second] + Insert([], second);
    assert s1.tx[1..] == [] && Next(s1, Schedule(second)) == s2;
    assert Next(s2, Tick(1)) == s3;
    TwoMarks(first, second);
    assert Next(s3, Timer([false, true])) == s4;
    assert Next(s4, Act) == s5;
    ThinnedSelf([marked]);
    assert s5.tx[1..] == [marked] && Next(s5, Thin([marked])) == s6;
    var m6: seq<Move> := [];
    var m5 := [Thin([marked])] + m6;
    var m4 := [Act] + m5;
    var m3 := [Timer([false, true])] + m4;
    var m2 := [Tick(1)] + m3;
    var m1 := [Schedule(second)] + m2;
    moves := [Schedule(first)] + m1;
    assert IsRun(s6, m6) && After(s6, m6) == s6;
    assert IsRun(s5, m5) && After(s5, m5) == s6;
    assert IsRun(s4, m4) && After(s4, m4) == s6;
    assert IsRun(s3, m3) && After(s3, m3) == s6;
    assert IsRun(s2, m2) && After(s2, m2) == s6;
    assert IsRun(s1, m1) && After(s1, m1) == s6;
  }

  lemma TwoMarks(first: Packet, second: Packet)
    requires !first.queued && !second.queued && first.sendAt == second.sendAt == 0
    ensures TimerRun(Sched(1, [first, second], []), [false, true])
      == Sched(1, [first, second.(queued := true)], [second.id])
  {
    var tx, sends := [first, second], [false, true];
    assert tx[0..] == tx && sends[0..] == sends && tx[1..] == [second] && sends[1..] == [true];
    assert tx[1..][1..] == [] && sends[1..][1..] == [];
    assert Mark([second], 1, [true]) == [second.(queued := true)];
    assert Sent([second], 1, [true]) == [second.id];
    assert Mark(tx, 1, sends) == [first] + [second.(queued := true)];
    assert Sent(tx, 1, sends) == [second.id];
  }

  lemma ReplaceHead<T>(done: seq<T>, tail: seq<T>, x: T)
    requires tail != []
    ensures (done + tail)[|done|] == tail[0] && (done + tail)[|done| := x] == done + [x] + tail[1..]
  {
  }

  lemma MarkStep(done: seq<Packet>, tail: seq<Packet>, now: nat, sends: seq<bool>, actions: seq<nat>)
    requires tail != [] && |sends| == |tail| && tail[0].sendAt < now
    ensures done + Mark(tail, now, sends) == done + [tail[0].(queued := sends[0])] + Mark(tail[1..], now, sends[1..])
    ensures actions + Sent(tail, now, sends)
      == actions + (if sends[0] then [tail[0].id] else []) + Sent(tail[1..], now, sends[1..])
  {
    var m, t := Mark(tail[1..], now, sends[1..]), Sent(tail[1..], now, sends[1..]);
    var x := [tail[0].(queued := sends[0])];
    assert Mark(tail, now, sends) == x + m;
    Grouped(done, x, m);
    Grouped(actions, if sends[0] then [tail[0].id] else [], t);
  }

  lemma Grouped<T>(a: seq<T>, b: seq<T>, c: seq<T>)
    ensures a + (b + c) == a + b + c
  {
  }

  // ------------------------------------------------- the code, on its fields

  /** The list with its clock and the action queue, as the responder updates them. */
  class Transmitter {
    var now: nat
    var tx: seq<Packet>
    var actions: seq<nat>

    function Model(): Sched
      reads this
    {
      Sched(now, tx, actions)
    }

    constructor ()
      ensures Model() == Sched(0, [], [])
    {
      now, tx, actions := 0, [], [];
    }

    /** _mdns_schedule_tx_packet */
    method SchedulePacket(p: Packet, msAfter: nat)
      requires Sorted(tx)
      modifies this
      ensures Model() == old(Model()).(tx := Insert(old(tx), p.(sendAt := now + msAfter)))
    {
      var packet := p.(sendAt := now + msAfter);
      if |tx| == 0 || tx[0].sendAt > packet.sendAt {
        tx := [packet] + tx;
        return;
      }
      var q := 0;
      while q + 1 < |tx| && tx[q + 1].sendAt <= packet.sendAt
        invariant q < |tx| && tx[q].sendAt <= packet.sendAt
      {
        q := q + 1;
      }
      ghost var c := InsertPlace(tx, packet);
      assert c == q + 1;
      tx := tx[..q + 1] + [packet] + tx[q + 1..];
    }

    /** _mdns_clear_pcb_tx_queue_head: first the packets at the head, then the rest. */
    method ClearPcb(k: Key)
      modifies this
      ensures Model() == old(Model()).(tx := Without(old(tx), k))
    {
      while |tx| > 0 && tx[0].pcb == k
        invariant now == old(now) && actions == old(actions)
        invariant Without(tx, k) == Without(old(tx), k)
        decreases |tx|
      {
        tx := tx[1..];
      }
      if |tx| > 0 {
        var q := 0;
        while q + 1 < |tx|
          invariant q < |tx| && now == old(now) && actions == old(actions)
          invariant tx[..q + 1] + Without(tx[q + 1..], k) == Without(old(tx), k)
          decreases |tx| - q
        {
          if tx[q + 1].pcb == k {
            assert tx[q + 1..][1..] == tx[q + 2..];
            tx := tx[..q + 1] + tx[q + 2..];
          } else {
            assert tx[..q + 2] == tx[..q + 1] + [tx[q + 1]] && tx[q + 1..][1..] == tx[q + 2..];
            q := q + 1;
          }
        }
        assert tx[q + 1..] == [] && tx[..q + 1] == tx;
      }
    }

    /** The first loop of _mdns_scheduler_run: the first packet that is not marked. */
    method FirstUnqueued() returns (p: nat)
      ensures p == QueuedCount(tx)
    {
      p := 0;
      while p < |tx| && tx[p].queued
        invariant p <= |tx| && QueuedCount(tx) == p + QueuedCount(tx[p..])
      {
        assert tx[p..][1..] == tx[p + 1..];
        p := p + 1;
      }
    }

    /** _mdns_scheduler_run; `sends` gives the outcome of each send. */
    method RunTimer(sends: seq<bool>)
      requires |sends| == |tx|
      modifies this
      ensures Model() == TimerRun(old(Model()), sends)
    {
      hide Mark, Sent;
      var p := FirstUnqueued();
      ghost var done, tail, rest := tx[..p], tx[p..], sends[p..];
      ghost var after, queue := done + Mark(tail, now, rest), actions + Sent(tail, now, rest);
      assert TimerRun(old(Model()), sends) == Sched(now, after, queue);
      while p < |tx| && tx[p].sendAt < now
        invariant p <= |tx| == |sends| && now == old(now)
        invariant tx == done + tail && |done| == p && rest == sends[p..]
        invariant after == done + Mark(tail, now, rest) && queue == actions + Sent(tail, now, rest)
        decreases |tx| - p
      {
        MarkStep(done, tail, now, rest, actions);
        ReplaceHead(done, tail, tail[0].(queued := sends[p]));
        assert rest[0] == sends[p] && rest[1..] == sends[p + 1..];
        MarkOne(p, sends[p]);
        done, tail, rest := done + [tail[0].(queued := sends[p])], tail[1..], rest[1..];
        p := p + 1;
      }
      MarkStops(tail, now, rest);
    }

    /** The body of its second loop: mark, send, and unmark if the send failed. */
    method MarkOne(p: nat, sendSucceeds: bool)
      requires p < |tx|
      modifies this
      ensures now == old(now) && tx == old(tx)[p := old(tx)[p].(queued := sendSucceeds)]
      ensures actions == old(actions) + (if sendSucceeds then [old(tx)[p].id] else [])
    {
      tx := tx[p := tx[p].(queued := true)];
      if sendSucceeds {
        actions := actions + [tx[p].id];
      } else {
        tx := tx[p := tx[p].(queued := false)];
      }
    }

    /** The ACTION_TX_HANDLE branch: the packet to transmit, if the action names it. */
    method TakeAction() returns (packet: Option<Packet>)
      requires actions != []
      modifies this
      ensures Model() == Take(old(Model()))
      ensures packet == if Accepts(old(Model())) then Some(old(tx[0]).(queued := false)) else None
    {
      var a := actions[0];
      actions := actions[1..];
      if |tx| > 0 && tx[0].id == a && tx[0].queued {
        packet := Some(tx[0].(queued := false));
        tx := tx[1..];
      } else {
        packet := None;
      }
    }
  }
}
