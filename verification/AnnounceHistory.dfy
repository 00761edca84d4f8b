/** Section 8.3 of RFC 6762 over whole runs: what a PCB sends while it announces. */
module AnnounceHistory {
  import opened Options
  import opened Packets
  import opened Answers
  import opened Scheduler
  import opened Responder
  import opened InterfaceKeeps
  import opened TransmitKeeps
  import opened ServiceRemoval
  import opened ResponderRuns
  import opened ProbeHistory

  /** One transmission on an announcing PCB; `answer` says whether the packet is one that
      was not built to announce. */
  datatype Sending = Sending(state: PcbState, id: nat, at: nat, answer: bool)

  // ---------------------------------------------- what moves the state on

  /** The PCB starts to announce afresh, or goes on as it was, or does not announce. */
  ghost predicate Steady(sv: Server, sv': Server, k: Key) {
    && k in sv.pcbs && k in sv'.pcbs
    && (IsAnnouncing(sv'.pcbs[k]) ==> sv'.pcbs[k].state == Announce1 || sv'.pcbs[k].state == sv.pcbs[k].state)
  }

  lemma AnnounceSteady(sv: Server, k: Key, services: seq<nat>, includeIp: bool, id: nat, jitter: nat, j: Key)
    requires k in sv.pcbs && j in sv.pcbs && Known(sv, services) && Known(sv, sv.pcbs[k].probeServices)
    ensures Steady(sv, Announce(sv, k, services, includeIp, id, jitter), j)
  {
    hide InitProbe, Insert, AddToAnnounce, CreateAnnounce;
    if k in sv.up && IsProbing(sv.pcbs[k]) { InitProbeDisturbs(sv, k, services, includeIp, id, jitter, j); }
  }

  lemma EnableSteady(sv: Server, k: Key, bindOk: bool, id: nat, jitter: nat, j: Key)
    requires k in sv.pcbs && j in sv.pcbs && AllKnown(sv)
    ensures Steady(sv, Enable(sv, k, bindOk, id, jitter), j)
  {
    hide InitProbe;
    if k in sv.up || bindOk { InitProbeDisturbs(sv.(up := sv.up + {k}), k, sv.registry, true, id, jitter, j); }
  }

  lemma DisableSteady(sv: Server, k: Key, bindOk: bool, id: nat, jitter: nat, j: Key)
    requires TwinsOk(sv) && k in sv.pcbs && j in sv.pcbs && AllKnown(sv)
    ensures Steady(sv, Disable(sv, k, bindOk, id, jitter), j)
  {
    hide Enable, Without;
    if k in sv.up && Partner(sv, k).Some? {
      var o := Partner(sv, k).value;
      var down := Deinit(Cleared(sv, k), k);
      if o in down.pcbs && down.pcbs[o].state == Dup {
        var off := SetPcb(down, o, down.pcbs[o].(state := Off));
        EnableSteady(off, o, bindOk, id, jitter, j);
        EnableSteady(off, o, bindOk, id, jitter, k);
      }
    }
  }

  lemma MarkDupSteady(sv: Server, k: Key, id: nat, jitter: nat, j: Key)
    requires TwinsOk(sv) && k in sv.pcbs && j in sv.pcbs && AllKnown(sv)
    ensures Steady(sv, MarkDup(sv, k, id, jitter), j)
  {
    hide Announce, Without;
    var partner := Partner(sv, k);
    if partner.Some? && partner.value in sv.up && partner.value in sv.pcbs {
      var down := if k in sv.up then Deinit(Cleared(sv, k), k) else sv;
      AnnounceSteady(SetPcb(down, k, down.pcbs[k].(state := Dup)), partner.value, [], true, id, jitter, j);
    }
  }

  lemma RestartAllSteady(sv: Server, keys: seq<Key>, ids: seq<nat>, jitters: seq<nat>, j: Key)
    requires |ids| == |keys| == |jitters| && AllKnown(sv) && (forall k :: k in keys <==> k in sv.pcbs) && j in sv.pcbs
    ensures Steady(sv, RestartAll(sv, keys, ids, jitters), j)
  {
    hide ReprobeAll;
    ReprobeAllDisturbs(SetTx(sv, []).(named := true), keys, ids, jitters, j);
  }

  lemma RemovedState(b: Pcb, mine: seq<Packet>, isUp: bool, named: bool, registry: seq<nat>, s: nat)
    requires PcbSound(b, mine, isUp, named, registry)
    ensures IsAnnouncing(PcbAfter(mine, b, isUp, s)) ==> PcbAfter(mine, b, isUp, s).state == b.state
  {
    if InProbe(b) {
      ProbeRemovedTimes(b, mine, s, Service(None, "", "", None));
    } else if isUp {
      RunsOrAnnounces(mine, b, s);
    } else {
      NoPackets(b, s);
    }
  }

  lemma RemoveSteady(sv: Server, s: nat, j: Key)
    requires Sound(sv, {}) && s in sv.info && KeysIn(sv.sched.tx, sv.pcbs) && j in sv.pcbs
    ensures Steady(sv, RemoveService(sv, s), j)
  {
    hide Orderly, DropLoop, PcbAfter, MineAfter, Mine, PcbSound;
    assert PcbOk(sv, {}, j);
    var mine := Mine(sv.sched.tx, j);
    DropLoopMine(sv.sched.tx, sv.pcbs, sv.up, s, sv.info[s], j);
    RemovedState(sv.pcbs[j], mine, j in sv.up, sv.named, sv.registry, s);
  }

  /** An event other than taking an action moves no announcement on. */
  lemma OthersSteady(sv: Server, e: Event, j: Key)
    requires Sound(sv, {}) && Possible(sv, e) && !e.TakesAction? && j in sv.pcbs
    ensures Steady(sv, Step(sv, e), j)
  {
    hide Sound, PcbOk, Insert, Without, Enable, Disable, MarkDup, Announce, Reprobe, RestartAll, RemoveService, FailuresLast, Orderly, Mine, PacketsOk, RegistryOk, TwinsOk, DropAnswers, TimerRun;
    SoundUsable(sv);
    DownIsDown(sv, j);
    match e
    case Enables(k, bindOk, id, jitter) => EnableSteady(sv, k, bindOk, id, jitter, j);
    case Disables(k, bindOk, id, jitter) => DisableSteady(sv, k, bindOk, id, jitter, j);
    case MarksDuplicate(k, id, jitter) => MarkDupSteady(sv, k, id, jitter, j);
    case Announcing(k, services, includeIp, id, jitter) => AnnounceSteady(sv, k, services, includeIp, id, jitter, j);
    case Probes(k, services, probeIp, clearOld, id, jitter) =>
      ReprobeDisturbs(sv, k, services, probeIp, clearOld, id, jitter, j);
    case Renames(keys, ids, jitters) => RestartAllSteady(sv, keys, ids, jitters, j);
    case Removes(s) => RemoveSteady(sv, s, j);
    case _ =>
  }

  // ---------------------------------------------------------------- the log

  type Log = map<Key, seq<Sending>>

  /** The transmissions of each PCB since it last started to announce. */
  ghost function Noted(sv: Server, e: Event, log: Log): Log
    requires Sound(sv, {}) && Possible(sv, e)
  {
    var sv' := Step(sv, e);
    if e.TakesAction? then
      if Accepts(sv.sched) && sv.sched.tx[0].pcb in sv.pcbs && sv.sched.tx[0].pcb in log then
        var p := sv.sched.tx[0];
        var b := sv.pcbs[p.pcb];
        log[p.pcb := if IsAnnouncing(b) then log[p.pcb] + [Sending(b.state, p.id, sv.sched.now, !p.announces)] else []]
      else log
    else
      map k | k in log :: if k in sv'.pcbs && sv'.pcbs[k].state == Announce1 then [] else log[k]
  }

  /** One transmission in each announcing state that is over, in order. */
  ghost predicate Agrees(b: Pcb, sent: seq<Sending>) {
    IsAnnouncing(b) ==>
      && |sent| == Rank(b.state) - Rank(Announce1)
      && forall i :: 0 <= i < |sent| ==> sent[i].state == if i == 0 then Announce1 else Announce2
  }

  ghost predicate LogOk(sv: Server, log: Log) {
    forall k :: k in sv.pcbs ==> k in log && Agrees(sv.pcbs[k], log[k])
  }

  lemma OthersAgree(sv: Server, e: Event, log: Log, k: Key)
    requires Sound(sv, {}) && Possible(sv, e) && !e.TakesAction? && LogOk(sv, log) && k in sv.pcbs
    ensures var sv' := Step(sv, e);
      k in sv'.pcbs && k in Noted(sv, e, log) && Agrees(sv'.pcbs[k], Noted(sv, e, log)[k])
  {
    hide Step, Sound, Possible;
    OthersSteady(sv, e, k);
  }

  /** One state further with each transmission. */
  predicate Moves(b: Pcb, b': Pcb) {
    match b.state
    case Announce1 => b'.state == Announce2
    case Announce2 => b'.state == Announce3
    case Announce3 => b'.state == Running
    case Probe3 => b'.state == Probe3 || b'.state == Announce1
    case _ => !IsAnnouncing(b')
  }

  /** What taking the packet of an announcing PCB does to its state. */
  lemma ActionMoves(sv: Server, allocOk: bool, id: nat, k: Key)
    requires Sound(sv, {}) && Possible(sv, TakesAction(allocOk, id)) && k in sv.pcbs
    requires Accepts(sv.sched) && sv.sched.tx[0].pcb == k
    ensures k in Step(sv, TakesAction(allocOk, id)).pcbs
    ensures Moves(sv.pcbs[k], Step(sv, TakesAction(allocOk, id)).pcbs[k])
  {
    hide Sound, Handle, Moves;
    SoundUsable(sv);
    HandleMoves(sv.(sched := Take(sv.sched)), sv.sched.tx[0].(queued := false), allocOk, id);
  }

  lemma HandleMoves(sv: Server, p: Packet, allocOk: bool, id: nat)
    requires p.pcb in sv.pcbs && ServersKnown(sv, p)
    ensures var sv' := Handle(sv, p, allocOk, id); p.pcb in sv'.pcbs && Moves(sv.pcbs[p.pcb], sv'.pcbs[p.pcb])
  {
    hide Handle, Insert, AnnounceFromProbe, Multicast;
    var b := sv.pcbs[p.pcb];
    if b.state == Announce1 || b.state == Announce2 || (InProbe(b) && !(b.state == Probe3 && allocOk)) {
      HandleAgain(sv, p, allocOk, id);
    } else if b.state == Probe3 {
      HandleAnnounced(sv, p, id);
    } else {
      HandleLast(sv, p, allocOk, id);
    }
  }

  lemma ActionAgrees(sv: Server, allocOk: bool, id: nat, log: Log, k: Key)
    requires Sound(sv, {}) && Possible(sv, TakesAction(allocOk, id)) && LogOk(sv, log) && k in sv.pcbs
    ensures var e := TakesAction(allocOk, id); var sv' := Step(sv, e);
      k in sv'.pcbs && k in Noted(sv, e, log) && Agrees(sv'.pcbs[k], Noted(sv, e, log)[k])
  {
    hide Step, Sound;
    if Accepts(sv.sched) && sv.sched.tx[0].pcb == k {
      ActionMoves(sv, allocOk, id, k);
    } else {
      ActionOthers(sv, allocOk, id, k);
    }
  }

  lemma StepLog(sv: Server, e: Event, log: Log)
    requires Sound(sv, {}) && Possible(sv, e) && LogOk(sv, log)
    ensures LogOk(Step(sv, e), Noted(sv, e, log))
  {
    hide Step, Sound, Possible, Agrees, Noted;
    StepKeys(sv, e);
    forall k | k in Step(sv, e).pcbs ensures k in Noted(sv, e, log) && Agrees(Step(sv, e).pcbs[k], Noted(sv, e, log)[k]) {
      if e.TakesAction? { ActionAgrees(sv, e.allocOk, e.id, log, k); } else { OthersAgree(sv, e, log, k); }
    }
  }

  ghost function NotedRun(sv: Server, events: seq<Event>, log: Log): Log
    requires Sound(sv, {}) && ResponderRuns.IsRun(sv, events)
    decreases |events|
  {
    if events == [] then log
    else StepKeeps(sv, events[0]); NotedRun(Step(sv, events[0]), events[1..], Noted(sv, events[0], log))
  }

  lemma {:induction false} RunLog(sv: Server, events: seq<Event>, log: Log)
    requires Sound(sv, {}) && ResponderRuns.IsRun(sv, events) && LogOk(sv, log)
    ensures Sound(ResponderRuns.After(sv, events), {})
    ensures LogOk(ResponderRuns.After(sv, events), NotedRun(sv, events, log))
    decreases |events|
  {
    hide Step, Sound, LogOk, Possible, Noted;
    if events != [] {
      StepKeeps(sv, events[0]);
      StepLog(sv, events[0], log);
      RunLog(Step(sv, events[0]), events[1..], Noted(sv, events[0], log));
    }
  }

  /** On every run from the start: when a transmission takes a PCB from announcing to
      running, it was the third since the PCB started to announce, one in each state. */
  lemma ThreeTransmissions(sv: Server, events: seq<Event>, allocOk: bool, id: nat, k: Key)
    requires Initial(sv) && Sound(sv, {}) && ResponderRuns.IsRun(sv, events)
    requires Sound(ResponderRuns.After(sv, events), {}) && Possible(ResponderRuns.After(sv, events), TakesAction(allocOk, id))
    requires var sv1 := ResponderRuns.After(sv, events); var sv2 := Step(sv1, TakesAction(allocOk, id));
      k in sv1.pcbs && IsAnnouncing(sv1.pcbs[k]) && k in sv2.pcbs && sv2.pcbs[k].state == Running
    ensures var none: Log := map j | j in sv.pcbs :: [];
      var log := Noted(ResponderRuns.After(sv, events), TakesAction(allocOk, id), NotedRun(sv, events, none));
      && k in log && |log[k]| == 3
      && log[k][0].state == Announce1 && log[k][1].state == Announce2 && log[k][2].state == Announce3
  {
    hide Step, Sound;
    var none: Log := map j | j in sv.pcbs :: [];
    assert LogOk(sv, none);
    RunLog(sv, events, none);
    var sv1 := ResponderRuns.After(sv, events);
    if Accepts(sv1.sched) && sv1.sched.tx[0].pcb == k {
      ActionMoves(sv1, allocOk, id, k);
    } else {
      ActionOthers(sv1, allocOk, id, k);
    }
  }

  // ------------------------------------------- which packets the three are

  /** The announcement of the PCB is its packet f, due within a second, and the only one. */
  ghost predicate NewsAt(mine: seq<Packet>, f: nat, now: nat) {
    && f < |mine| && mine[f].announces && mine[f].sendAt <= now + 1000
    && forall i :: 0 <= i < |mine| && i != f ==> !mine[i].announces
  }

  /** Another packet is due by then. */
  ghost predicate Waits(mine: seq<Packet>, limit: nat) {
    exists i :: 0 <= i < |mine| && !mine[i].announces && mine[i].sendAt <= limit
  }

  /** The packets at the front that are due by then. */
  function Due(mine: seq<Packet>, limit: nat): (n: nat)
    ensures n <= |mine|
  {
    if mine == [] || mine[0].sendAt > limit then 0 else 1 + Due(mine[1..], limit)
  }

  /** The head is sent and goes back into the list, a second later. */
  function Turn(mine: seq<Packet>, now: nat): seq<Packet>
    requires mine != []
  {
    Insert(mine[1..], mine[0].(queued := false, sendAt := now + 1000))
  }

  ghost predicate SameButMarks(a: seq<Packet>, b: seq<Packet>) {
    |a| == |b| && forall i :: 0 <= i < |a| ==> b[i] == a[i].(queued := b[i].queued)
  }

  lemma {:induction false} InsertAt(mine: seq<Packet>, p: Packet)
    ensures var c := Due(mine, p.sendAt); Insert(mine, p) == mine[..c] + [p] + mine[c..]
    decreases |mine|
  {
    if mine != [] && mine[0].sendAt <= p.sendAt {
      InsertAt(mine[1..], p);
      var c := Due(mine[1..], p.sendAt);
      assert mine[..c + 1] == [mine[0]] + mine[1..][..c] && mine[c + 1..] == mine[1..][c..];
    }
  }

  lemma {:induction false} DueIs(mine: seq<Packet>, limit: nat, i: nat)
    requires Sorted(mine) && i < |mine|
    ensures i < Due(mine, limit) <==> mine[i].sendAt <= limit
    decreases |mine|
  {
    if mine[0].sendAt <= limit {
      assert Sorted(mine[1..]) by { SortedTail(mine); }
      if i > 0 { DueIs(mine[1..], limit, i - 1); }
    }
  }

  lemma SortedTail(mine: seq<Packet>)
    requires Sorted(mine) && mine != []
    ensures Sorted(mine[1..])
  {
  }

  lemma SplicedNews(mine: seq<Packet>, c: nat, f: nat, now: nat, p: Packet, r: seq<Packet>)
    requires c <= |mine| && r == mine[..c] + [p] + mine[c..] && NewsAt(mine, f, now) && !p.announces
    ensures NewsAt(r, if c <= f then f + 1 else f, now)
  {
    forall i | 0 <= i < |r| ensures r[i] == if i < c then mine[i] else if i == c then p else mine[i - 1] {}
  }

  lemma SplicedWaits(mine: seq<Packet>, c: nat, p: Packet, r: seq<Packet>, limit: nat)
    requires c <= |mine| && r == mine[..c] + [p] + mine[c..] && Waits(mine, limit)
    ensures Waits(r, limit)
  {
    var i :| 0 <= i < |mine| && !mine[i].announces && mine[i].sendAt <= limit;
    var j := if i < c then i else i + 1;
    assert r[j] == mine[i];
  }

  /** An answer that is scheduled goes in front of the announcement exactly if it is due
      earlier. */
  lemma AnswerArrives(mine: seq<Packet>, f: nat, now: nat, p: Packet)
    requires Sorted(mine) && NewsAt(mine, f, now) && !p.announces
    ensures NewsAt(Insert(mine, p), if p.sendAt < mine[f].sendAt then f + 1 else f, now)
    ensures forall limit :: Waits(mine, limit) ==> Waits(Insert(mine, p), limit)
  {
    hide NewsAt, Waits, Insert;
    InsertAt(mine, p);
    assert f < |mine| by { NewsInside(mine, f, now); }
    DueIs(mine, p.sendAt, f);
    var c := Due(mine, p.sendAt);
    SplicedNews(mine, c, f, now, p, Insert(mine, p));
    forall limit | Waits(mine, limit) ensures Waits(Insert(mine, p), limit) {
      SplicedWaits(mine, c, p, Insert(mine, p), limit);
    }
  }

  lemma NewsInside(mine: seq<Packet>, f: nat, now: nat)
    requires NewsAt(mine, f, now)
    ensures f < |mine|
  {
  }

  lemma MarksKeep(a: seq<Packet>, b: seq<Packet>, f: nat, now: nat, now': nat)
    requires SameButMarks(a, b) && NewsAt(a, f, now) && now <= now'
    ensures NewsAt(b, f, now')
    ensures forall limit :: Waits(a, limit) ==> Waits(b, limit)
  {
    forall limit | Waits(a, limit) ensures Waits(b, limit) {
      var i :| 0 <= i < |a| && !a[i].announces && a[i].sendAt <= limit;
      assert b[i].sendAt <= limit;
    }
  }

  lemma TailNews(mine: seq<Packet>, f: nat, now: nat)
    requires NewsAt(mine, f, now) && f > 0
    ensures NewsAt(mine[1..], f - 1, now) && !mine[0].announces
  {
    assert forall i :: 0 < i < |mine| ==> mine[1..][i - 1] == mine[i];
  }

  /** The announcement goes back among packets that are none. */
  lemma SplicedSelf(rest: seq<Packet>, c: nat, p: Packet, now: nat, r: seq<Packet>)
    requires c <= |rest| && r == rest[..c] + [p] + rest[c..] && p.announces && p.sendAt == now + 1000
    requires forall i :: 0 <= i < |rest| ==> !rest[i].announces
    ensures NewsAt(r, c, now)
  {
    forall i | 0 <= i < |r| ensures r[i] == if i < c then rest[i] else if i == c then p else rest[i - 1] {}
  }

  lemma SplicedWaiting(rest: seq<Packet>, c: nat, p: Packet, limit: nat, r: seq<Packet>)
    requires c <= |rest| && r == rest[..c] + [p] + rest[c..] && !p.announces && p.sendAt <= limit
    ensures Waits(r, limit)
  {
    assert r[c] == p;
  }

  /** What one transmission does to the place of the announcement. */
  lemma TurnMoves(mine: seq<Packet>, f: nat, now: nat)
    requires Sorted(mine) && NewsAt(mine, f, now)
    ensures if f == 0 then NewsAt(Turn(mine, now), Due(mine[1..], now + 1000), now)
            else NewsAt(Turn(mine, now), f - 1, now) && Waits(Turn(mine, now), now + 1000)
  {
    hide Insert, Waits;
    var rest := mine[1..];
    var p := mine[0].(queued := false, sendAt := now + 1000);
    InsertAt(rest, p);
    SortedTail(mine);
    var c := Due(rest, now + 1000);
    if f > 0 {
      TailNews(mine, f, now);
      DueIs(rest, now + 1000, f - 1);
      SplicedNews(rest, c, f - 1, now, p, Turn(mine, now));
      SplicedWaiting(rest, c, p, now + 1000, Turn(mine, now));
    } else {
      assert forall i :: 0 <= i < |rest| ==> rest[i] == mine[i + 1];
      SplicedSelf(rest, c, p, now, Turn(mine, now));
    }
  }

  /** Behind an answer that has been sent the announcement, when its turn comes, is not
      the head again. */
  lemma WaitsAhead(mine: seq<Packet>, now: nat)
    requires Sorted(mine) && NewsAt(mine, 0, now) && Waits(mine, now + 1000)
    ensures Due(mine[1..], now + 1000) > 0
  {
    var i :| 0 <= i < |mine| && !mine[i].announces && mine[i].sendAt <= now + 1000;
    SortedTail(mine);
    DueIs(mine[1..], now + 1000, i - 1);
  }

  // ----------------------------------------------------- the same over runs

  lemma {:induction false} MineSorted(tx: seq<Packet>, k: Key)
    requires Sorted(tx)
    ensures Sorted(Mine(tx, k))
  {
    if tx != [] {
      SortedTail(tx);
      MineSorted(tx[1..], k);
      var rest := Mine(tx[1..], k);
      forall i | 0 <= i < |rest| ensures tx[0].sendAt <= rest[i].sendAt {
        MineIn(tx[1..], k);
        assert rest[i] in tx[1..];
        var j :| 0 <= j < |tx[1..]| && tx[1..][j] == rest[i];
        assert tx[j + 1] == rest[i];
      }
    }
  }

  lemma {:induction false} MineOfInsert(tx: seq<Packet>, p: Packet)
    requires Sorted(tx)
    ensures Mine(Insert(tx, p), p.pcb) == Insert(Mine(tx, p.pcb), p)
  {
    if tx == [] || tx[0].sendAt > p.sendAt {
      assert ([p] + tx)[1..] == tx;
      AllLater(tx, p);
    } else {
      SortedTail(tx);
      MineOfInsert(tx[1..], p);
      assert ([tx[0]] + Insert(tx[1..], p))[1..] == Insert(tx[1..], p);
      if tx[0].pcb == p.pcb {
        var mine := [tx[0]] + Mine(tx[1..], p.pcb);
        assert mine[0] == tx[0] && mine[1..] == Mine(tx[1..], p.pcb);
        assert Insert(mine, p) == [tx[0]] + Insert(Mine(tx[1..], p.pcb), p);
        var all := Insert(tx, p);
        assert all == [tx[0]] + Insert(tx[1..], p) && all[0] == tx[0] && all[1..] == Insert(tx[1..], p);
        assert Mine(all, p.pcb) == [tx[0]] + Mine(all[1..], p.pcb);
      } else {
        assert Mine(tx, p.pcb) == Mine(tx[1..], p.pcb);
      }
    }
  }

  lemma AllLater(tx: seq<Packet>, p: Packet)
    requires Sorted(tx) && (tx == [] || tx[0].sendAt > p.sendAt)
    ensures Insert(Mine(tx, p.pcb), p) == [p] + Mine(tx, p.pcb)
  {
    var mine := Mine(tx, p.pcb);
    if mine != [] {
      MineIn(tx, p.pcb);
      assert mine[0] in tx;
      var j :| 0 <= j < |tx| && tx[j] == mine[0];
      assert tx[0].sendAt <= tx[j].sendAt;
    }
  }

  /** The event does not touch the PCB, up to the marks of the timer, or schedules an
      answer on it. */
  ghost predicate Quiet(sv: Server, e: Event, k: Key)
    requires Sound(sv, {}) && Possible(sv, e)
  {
    || (e.Answering? && e.packet.pcb == k)
    || (k in sv.pcbs && k in Step(sv, e).pcbs && Step(sv, e).pcbs[k] == sv.pcbs[k] && sv.sched.now <= Step(sv, e).sched.now
        && SameButMarks(Mine(sv.sched.tx, k), Mine(Step(sv, e).sched.tx, k)))
  }

  ghost predicate AllQuiet(sv: Server, events: seq<Event>, k: Key)
    requires Sound(sv, {}) && ResponderRuns.IsRun(sv, events)
    decreases |events|
  {
    events == [] || (Quiet(sv, events[0], k) && (StepKeeps(sv, events[0]); AllQuiet(Step(sv, events[0]), events[1..], k)))
  }

  /** An answer scheduled for a time before that of the announcement. */
  ghost predicate Overtakes(sv: Server, e: Event, k: Key) {
    e.Answering? && e.packet.pcb == k
    && exists i :: 0 <= i < |Mine(sv.sched.tx, k)| && Mine(sv.sched.tx, k)[i].announces
                   && sv.sched.now + e.delay < Mine(sv.sched.tx, k)[i].sendAt
  }

  ghost function Overtakers(sv: Server, events: seq<Event>, k: Key): nat
    requires Sound(sv, {}) && ResponderRuns.IsRun(sv, events)
    decreases |events|
  {
    if events == [] then 0
    else
      StepKeeps(sv, events[0]);
      (if Overtakes(sv, events[0], k) then 1 else 0) + Overtakers(Step(sv, events[0]), events[1..], k)
  }

  lemma QuietStep(sv: Server, e: Event, k: Key, f: nat)
    requires Sound(sv, {}) && Possible(sv, e) && Quiet(sv, e, k) && k in sv.pcbs && IsAnnouncing(sv.pcbs[k])
    requires NewsAt(Mine(sv.sched.tx, k), f, sv.sched.now)
    ensures var sv' := Step(sv, e);
      && k in sv'.pcbs && sv'.pcbs[k] == sv.pcbs[k] && sv.sched.now <= sv'.sched.now
      && NewsAt(Mine(sv'.sched.tx, k), if Overtakes(sv, e, k) then f + 1 else f, sv'.sched.now)
      && (forall limit :: Waits(Mine(sv.sched.tx, k), limit) ==> Waits(Mine(sv'.sched.tx, k), limit))
  {
    hide Sound, Mine, Waits, Insert, SameButMarks, NewsAt;
    if e.Answering? && e.packet.pcb == k {
      QuietAnswer(sv, e, k, f);
    } else {
      MarksKeep(Mine(sv.sched.tx, k), Mine(Step(sv, e).sched.tx, k), f, sv.sched.now, Step(sv, e).sched.now);
    }
  }

  lemma QuietAnswer(sv: Server, e: Event, k: Key, f: nat)
    requires Sound(sv, {}) && Possible(sv, e) && e.Answering? && e.packet.pcb == k && k in sv.pcbs && IsAnnouncing(sv.pcbs[k])
    requires NewsAt(Mine(sv.sched.tx, k), f, sv.sched.now)
    ensures var sv' := Step(sv, e);
      && sv'.pcbs == sv.pcbs && sv.sched.now == sv'.sched.now
      && NewsAt(Mine(sv'.sched.tx, k), if Overtakes(sv, e, k) then f + 1 else f, sv'.sched.now)
      && (forall limit :: Waits(Mine(sv.sched.tx, k), limit) ==> Waits(Mine(sv'.sched.tx, k), limit))
  {
    hide Sound, Mine, Waits, Insert;
    var mine := Mine(sv.sched.tx, k);
    var p := e.packet.(sendAt := sv.sched.now + e.delay);
    SoundSorted(sv, k);
    assert Sorted(sv.sched.tx) by { ListSorted(sv); }
    MineOfInsert(sv.sched.tx, p);
    AnswerArrives(mine, f, sv.sched.now, p);
    assert mine[f].announces;
  }

  lemma ListSorted(sv: Server)
    requires Sound(sv, {})
    ensures Sorted(sv.sched.tx)
  {
    hide PcbsOk, PacketsOk, RegistryOk, TwinsOk, DupsOk;
  }

  /** Up to its next transmission the announcement moves back by the answers that are
      scheduled before it. */
  lemma {:induction false} QuietRun(sv: Server, events: seq<Event>, k: Key, f: nat)
    requires Sound(sv, {}) && ResponderRuns.IsRun(sv, events) && AllQuiet(sv, events, k)
    requires k in sv.pcbs && IsAnnouncing(sv.pcbs[k]) && NewsAt(Mine(sv.sched.tx, k), f, sv.sched.now)
    ensures var sv' := ResponderRuns.After(sv, events);
      && Sound(sv', {}) && k in sv'.pcbs && sv'.pcbs[k] == sv.pcbs[k] && sv.sched.now <= sv'.sched.now
      && NewsAt(Mine(sv'.sched.tx, k), f + Overtakers(sv, events, k), sv'.sched.now)
      && (forall limit :: Waits(Mine(sv.sched.tx, k), limit) ==> Waits(Mine(sv'.sched.tx, k), limit))
    decreases |events|
  {
    hide Sound, Step, Possible, Quiet, Overtakes, Mine, NewsAt, Waits;
    if events != [] {
      var e := events[0];
      StepKeeps(sv, e);
      QuietStep(sv, e, k, f);
      QuietRun(Step(sv, e), events[1..], k, if Overtakes(sv, e, k) then f + 1 else f);
    }
  }

  /** Taking the action transmits the first packet of the PCB. */
  ghost predicate Sends(sv: Server, e: Event, k: Key) {
    e.TakesAction? && sv.sched.actions != [] && Accepts(sv.sched) && sv.sched.tx[0].pcb == k
  }

  lemma SendTurns(sv: Server, e: Event, k: Key)
    requires Sound(sv, {}) && Possible(sv, e) && Sends(sv, e, k) && k in sv.pcbs
    requires sv.pcbs[k].state == Announce1 || sv.pcbs[k].state == Announce2
    ensures var sv' := Step(sv, e); var mine := Mine(sv.sched.tx, k);
      && mine != [] && mine[0] == sv.sched.tx[0]
      && k in sv'.pcbs && sv'.pcbs[k].state == (if sv.pcbs[k].state == Announce1 then Announce2 else Announce3)
      && sv'.sched.now == sv.sched.now && Mine(sv'.sched.tx, k) == Turn(mine, sv.sched.now)
  {
    hide Handle, Insert, PcbsOk, PacketsOk, RegistryOk, TwinsOk, DupsOk;
    SoundUsable(sv);
    var taken := sv.(sched := Take(sv.sched));
    var p := sv.sched.tx[0].(queued := false);
    HandleAgain(taken, p, e.allocOk, e.id);
    SortedTail(sv.sched.tx);
    MineOfInsert(sv.sched.tx[1..], p.(sendAt := sv.sched.now + 1000));
  }

  lemma HeadIsMine(sv: Server, e: Event, k: Key)
    requires Sends(sv, e, k)
    ensures Mine(sv.sched.tx, k) != [] && Mine(sv.sched.tx, k)[0] == sv.sched.tx[0]
  {
  }

  /** Up to the next transmission on the PCB, and that transmission. */
  ghost predicate Stage(sv: Server, events: seq<Event>, e: Event, k: Key) {
    && Sound(sv, {}) && ResponderRuns.IsRun(sv, events) && AllQuiet(sv, events, k)
    && Sound(ResponderRuns.After(sv, events), {}) && Possible(ResponderRuns.After(sv, events), e)
    && Sends(ResponderRuns.After(sv, events), e, k)
  }

  ghost function Staged(sv: Server, events: seq<Event>, e: Event, k: Key): Server
    requires Stage(sv, events, e, k)
  {
    Step(ResponderRuns.After(sv, events), e)
  }

  ghost function Sent(sv: Server, events: seq<Event>, e: Event, k: Key): Packet
    requires Stage(sv, events, e, k)
  {
    ResponderRuns.After(sv, events).sched.tx[0]
  }

  /** The answers that stand in front of the announcement when it has been sent. */
  ghost function Rivals(sv: Server, events: seq<Event>, e: Event, k: Key): nat
    requires Stage(sv, events, e, k)
  {
    var s := ResponderRuns.After(sv, events);
    HeadIsMine(s, e, k);
    Due(Mine(s.sched.tx, k)[1..], s.sched.now + 1000)
  }

  /** One stage: who is sent, and where the announcement is afterwards. */
  lemma StageMoves(sv: Server, events: seq<Event>, e: Event, k: Key, f: nat)
    requires Stage(sv, events, e, k) && k in sv.pcbs && (sv.pcbs[k].state == Announce1 || sv.pcbs[k].state == Announce2)
    requires NewsAt(Mine(sv.sched.tx, k), f, sv.sched.now)
    ensures var sv' := Staged(sv, events, e, k); var g := f + Overtakers(sv, events, k);
      && Sound(sv', {}) && k in sv'.pcbs && sv'.pcbs[k].state == (if sv.pcbs[k].state == Announce1 then Announce2 else Announce3)
      && sv.sched.now <= sv'.sched.now
      && (Sent(sv, events, e, k).announces <==> g == 0)
      && NewsAt(Mine(sv'.sched.tx, k), if g == 0 then Rivals(sv, events, e, k) else g - 1, sv'.sched.now)
      && (g > 0 ==> Waits(Mine(sv'.sched.tx, k), sv'.sched.now + 1000))
      && (g == 0 && Waits(Mine(sv.sched.tx, k), sv'.sched.now + 1000) ==> Rivals(sv, events, e, k) > 0)
  {
    hide Sound, Step, Possible, Waits, Overtakers, AllQuiet, Turn;
    QuietRun(sv, events, k, f);
    var s := ResponderRuns.After(sv, events);
    var mine := Mine(s.sched.tx, k);
    SendTurns(s, e, k);
    StepKeeps(s, e);
    assert Sorted(mine) by { SoundSorted(s, k); }
    var g := f + Overtakers(sv, events, k);
    TurnMoves(mine, g, s.sched.now);
    if g == 0 && Waits(Mine(sv.sched.tx, k), s.sched.now + 1000) { WaitsAhead(mine, s.sched.now); }
  }

  lemma SoundSorted(sv: Server, k: Key)
    requires Sound(sv, {})
    ensures Sorted(Mine(sv.sched.tx, k))
  {
    hide PcbsOk, PacketsOk, RegistryOk, TwinsOk, DupsOk;
    MineSorted(sv.sched.tx, k);
  }

  /** The last stage. */
  lemma StageEnds(sv: Server, events: seq<Event>, e: Event, k: Key, f: nat)
    requires Stage(sv, events, e, k) && k in sv.pcbs && sv.pcbs[k].state == Announce3
    requires NewsAt(Mine(sv.sched.tx, k), f, sv.sched.now)
    ensures Sent(sv, events, e, k).announces <==> f + Overtakers(sv, events, k) == 0
    ensures k in Staged(sv, events, e, k).pcbs && Staged(sv, events, e, k).pcbs[k].state == Running
  {
    hide Sound, Step, Possible, Overtakers, AllQuiet;
    QuietRun(sv, events, k, f);
    var s := ResponderRuns.After(sv, events);
    HeadIsMine(s, e, k);
    ActionMoves(s, e.allocOk, e.id, k);
  }

  function One(b: bool): nat {
    if b then 1 else 0
  }

  /** Section 8.3 of RFC 6762 asks for two announcements. Of the three transmissions that
      take a PCB from its first announcing state to running, two are of the announcement
      exactly if nothing of the PCB is in front of it at the start or is scheduled
      before it up to its first transmission, and then no answer comes in front of its
      next one, or only one up to the third. */
  lemma AnnouncedTwice(sv: Server, k: Key, f: nat, events1: seq<Event>, e1: Event, events2: seq<Event>, e2: Event,
                       events3: seq<Event>, e3: Event)
    requires k in sv.pcbs && sv.pcbs[k].state == Announce1 && NewsAt(Mine(sv.sched.tx, k), f, sv.sched.now)
    requires Stage(sv, events1, e1, k)
    requires Stage(Staged(sv, events1, e1, k), events2, e2, k)
    requires Stage(Staged(Staged(sv, events1, e1, k), events2, e2, k), events3, e3, k)
    ensures var sv1 := Staged(sv, events1, e1, k); var sv2 := Staged(sv1, events2, e2, k); var sv3 := Staged(sv2, events3, e3, k);
      var rivals := Rivals(sv, events1, e1, k) + Overtakers(sv1, events2, k);
      && k in sv3.pcbs && sv3.pcbs[k].state == Running
      && (One(Sent(sv, events1, e1, k).announces) + One(Sent(sv1, events2, e2, k).announces)
            + One(Sent(sv2, events3, e3, k).announces) >= 2
          <==> f + Overtakers(sv, events1, k) == 0
               && (rivals == 0 || rivals + Overtakers(sv2, events3, k) <= 1))
  {
    hide Sound, Staged, Sent, Rivals, Overtakers, NewsAt, Waits, Mine, AllQuiet, Possible, Sends;
    var sv1 := Staged(sv, events1, e1, k);
    var sv2 := Staged(sv1, events2, e2, k);
    var g := f + Overtakers(sv, events1, k);
    StageMoves(sv, events1, e1, k, f);
    var f1 := if g == 0 then Rivals(sv, events1, e1, k) else g - 1;
    StageMoves(sv1, events2, e2, k, f1);
    var g1 := f1 + Overtakers(sv1, events2, k);
    var f2 := if g1 == 0 then Rivals(sv1, events2, e2, k) else g1 - 1;
    StageEnds(sv2, events3, e3, k, f2);
    if g > 0 && g1 == 0 {
      WaitsLonger(Mine(sv1.sched.tx, k), sv1.sched.now + 1000, sv2.sched.now + 1000);
    }
  }

  lemma WaitsLonger(mine: seq<Packet>, limit: nat, limit': nat)
    requires Waits(mine, limit) && limit <= limit'
    ensures Waits(mine, limit')
  {
  }

  // ------------------------------------------------------ quiet events

  lemma TimerQuiet(sv: Server, sends: seq<bool>, k: Key)
    requires |sends| == |sv.sched.tx|
    ensures SameButMarks(Mine(sv.sched.tx, k), Mine(TimerRun(sv.sched, sends).tx, k)) && TimerRun(sv.sched, sends).now == sv.sched.now
  {
    var t := TimerRun(sv.sched, sends);
    TimerAt(sv.sched, sends);
    assert forall i :: 0 <= i < |t.tx| ==> t.tx[i] == sv.sched.tx[i].(queued := t.tx[i].queued);
    hide TimerRun;
    MineMarks(sv.sched.tx, t.tx, k);
  }

  lemma {:induction false} MineMarks(a: seq<Packet>, b: seq<Packet>, k: Key)
    requires SameButMarks(a, b)
    ensures SameButMarks(Mine(a, k), Mine(b, k))
  {
    if a != [] {
      assert SameButMarks(a[1..], b[1..]) by {
        forall i | 0 <= i < |a[1..]| ensures b[1..][i] == a[1..][i].(queued := b[1..][i].queued) {
          assert b[i + 1] == a[i + 1].(queued := b[i + 1].queued);
        }
      }
      MineMarks(a[1..], b[1..], k);
    }
  }

  lemma SelfMarks(a: seq<Packet>)
    ensures SameButMarks(a, a)
  {
  }

  /** The clock, the timer, answers, transmissions on other PCBs, and new or changed
      services leave the PCB's announcement alone. */
  lemma QuietEvents(sv: Server, e: Event, k: Key)
    requires Sound(sv, {}) && Possible(sv, e) && k in sv.pcbs && IsAnnouncing(sv.pcbs[k])
    requires e.Clock? || e.TimerRuns? || e.Answering? || e.Adds? || e.Changes? || (e.TakesAction? && !Sends(sv, e, k))
    ensures Quiet(sv, e, k)
  {
    hide Sound, Mine, SameButMarks, Insert;
    SelfMarks(Mine(sv.sched.tx, k));
    match e
    case TimerRuns(sends) => TimerQuiet(sv, sends, k);
    case TakesAction(allocOk, id) =>
      ActionOthers(sv, allocOk, id, k);
      ActionTime(sv, e);
    case Answering(p, delay) =>
      if p.pcb != k { MineInsert(sv.sched.tx, p.(sendAt := sv.sched.now + delay), k); }
    case _ =>
  }

  lemma ActionTime(sv: Server, e: Event)
    requires Sound(sv, {}) && Possible(sv, e) && e.TakesAction?
    ensures Step(sv, e).sched.now == sv.sched.now
  {
    hide Sound, Insert, AnnounceFromProbe, Multicast;
    SoundUsable(sv);
  }

  // -------------------------------------------------- beginning to announce

  /** After probing the announcement is the PCB's only packet: what becomes of it is up
      to the answers that are scheduled from then on. */
  lemma AfterProbing(sv: Server, id: nat, k: Key)
    requires Sound(sv, {}) && Possible(sv, TakesAction(true, id)) && Sends(sv, TakesAction(true, id), k)
    requires k in sv.pcbs && sv.pcbs[k].state == Probe3
    ensures var sv' := Step(sv, TakesAction(true, id)); var mine := Mine(sv'.sched.tx, k);
      && k in sv'.pcbs && sv'.pcbs[k] == Pcb(Announce1, [], false, false, 0) && |mine| == 1 && NewsAt(mine, 0, sv'.sched.now)
  {
    hide Sound, Handle, Insert, AnnounceFromProbe;
    SoundUsable(sv);
    ProbeAlone(sv, k);
    var taken := sv.(sched := Take(sv.sched));
    var p := sv.sched.tx[0].(queued := false);
    HandleAnnounced(taken, p, id);
    var a := AnnounceFromProbe(id, p, sv.info).(sendAt := sv.sched.now + 250);
    assert a.announces && a.pcb == k by { AnnounceIsMarked(id, p, sv.info); }
    MineInsert(sv.sched.tx[1..], a, k);
  }

  lemma AnnounceIsMarked(id: nat, p: Packet, info: map<nat, Service>)
    requires forall i :: 0 <= i < |p.servers| && p.servers[i].service.Some? ==> p.servers[i].service.value in info
    ensures AnnounceFromProbe(id, p, info).announces && AnnounceFromProbe(id, p, info).pcb == p.pcb
  {
  }

  lemma ProbeAlone(sv: Server, k: Key)
    requires Sound(sv, {}) && k in sv.pcbs && InProbe(sv.pcbs[k]) && sv.sched.tx != [] && sv.sched.tx[0].pcb == k
    ensures Mine(sv.sched.tx[1..], k) == []
  {
    hide Orderly, PacketsOk, RegistryOk, TwinsOk, DupsOk;
    assert PcbOk(sv, {}, k);
    assert Mine(sv.sched.tx, k) == [sv.sched.tx[0]] + Mine(sv.sched.tx[1..], k);
  }

  ghost predicate NoAnswers(events: seq<Event>, k: Key) {
    forall i :: 0 <= i < |events| ==> !(events[i].Answering? && events[i].packet.pcb == k)
  }

  lemma {:induction false} NoOvertakers(sv: Server, events: seq<Event>, k: Key)
    requires Sound(sv, {}) && ResponderRuns.IsRun(sv, events) && NoAnswers(events, k)
    ensures Overtakers(sv, events, k) == 0
    decreases |events|
  {
    hide Sound, Step, Possible;
    if events != [] {
      StepKeeps(sv, events[0]);
      assert NoAnswers(events[1..], k);
      NoOvertakers(Step(sv, events[0]), events[1..], k);
    }
  }

  /** When no answer is scheduled on the PCB meanwhile: two announcements go out exactly
      if nothing of the PCB was in front of the announcement and at most one packet of
      the PCB is due within a second of its first transmission. */
  lemma TwiceWithoutAnswers(sv: Server, k: Key, f: nat, events1: seq<Event>, e1: Event, events2: seq<Event>, e2: Event,
                            events3: seq<Event>, e3: Event)
    requires k in sv.pcbs && sv.pcbs[k].state == Announce1 && NewsAt(Mine(sv.sched.tx, k), f, sv.sched.now)
    requires Stage(sv, events1, e1, k) && NoAnswers(events1, k)
    requires Stage(Staged(sv, events1, e1, k), events2, e2, k) && NoAnswers(events2, k)
    requires Stage(Staged(Staged(sv, events1, e1, k), events2, e2, k), events3, e3, k) && NoAnswers(events3, k)
    ensures var sv1 := Staged(sv, events1, e1, k); var sv2 := Staged(sv1, events2, e2, k);
      One(Sent(sv, events1, e1, k).announces) + One(Sent(sv1, events2, e2, k).announces)
        + One(Sent(sv2, events3, e3, k).announces) >= 2
      <==> f == 0 && Rivals(sv, events1, e1, k) <= 1
  {
    hide Sound, Staged, Sent, Rivals, Overtakers, NewsAt, Mine, AllQuiet, Possible, Sends, NoAnswers;
    var sv1 := Staged(sv, events1, e1, k);
    var sv2 := Staged(sv1, events2, e2, k);
    NoOvertakers(sv, events1, k);
    NoOvertakers(sv1, events2, k);
    NoOvertakers(sv2, events3, k);
    AnnouncedTwice(sv, k, f, events1, e1, events2, e2, events3, e3);
  }

  // ------------------------------------------------- one announcement only

  /** An answer to an ordinary query, or to a truncated one. */
  function DueAnswer(id: nat, k: Key, truncated: bool): Packet {
    Packet(id, k, 25, true, truncated, false, [], [Answer(PTR, Some(1), None, false, false)], [], [])
  }

  function Announcement(id: nat, k: Key): Packet {
    Packet(id, k, 25, true, false, true, [], AddAnnounced([], [1]), [], [])
  }

  /** A PCB that has just begun to announce service 1, with two answers due before the
      announcement: all three are marked and sent to the action queue. */
  ghost function Busy(k: Key, svc: Service, truncated: bool): Server {
    At(k, svc, Announce1, [DueAnswer(0, k, truncated), DueAnswer(1, k, truncated), Announcement(2, k)], [0, 1, 2])
  }

  ghost function At(k: Key, svc: Service, state: PcbState, tx: seq<Packet>, actions: seq<nat>): Server {
    Server(Sched(26, tx, actions), map[k := Pcb(state, [], false, false, 0)], {k}, [1], map[1 := svc], true, map[])
  }

  /** A second later, not marked. */
  function Later(p: Packet): Packet {
    p.(queued := false, sendAt := 1026)
  }

  lemma BusySound(k: Key, svc: Service, truncated: bool)
    ensures Sound(Busy(k, svc, truncated), {})
  {
    hide AddAnnounced;
    var sv := Busy(k, svc, truncated);
    var tx := sv.sched.tx;
    assert tx[1..] == [tx[1], tx[2]] && tx[1..][1..] == [tx[2]] && tx[1..][1..][1..] == [];
    assert Orderly(sv.sched) by { BusyOrderly(tx, sv.sched); }
    assert Mine(tx[1..][1..], k) == [tx[2]];
    assert Mine(tx[1..], k) == [tx[1], tx[2]];
    assert Mine(tx, k) == tx;
    assert Solid(tx[2]);
    assert PcbOk(sv, {}, k) by { assert Mine(tx, k)[2] == tx[2]; }
  }

  lemma BusyOrderly(tx: seq<Packet>, s: Sched)
    requires |tx| == 3 && tx[1..] == [tx[1], tx[2]] && tx[1..][1..] == [tx[2]] && tx[1..][1..][1..] == []
    requires forall i :: 0 <= i < 3 ==> tx[i].id == i && tx[i].sendAt == 25 && tx[i].queued
    requires s == Sched(26, tx, [0, 1, 2])
    ensures Orderly(s)
  {
    assert QueuedIds(tx[1..][1..]) == [2];
    assert QueuedIds(tx[1..]) == [1, 2];
    assert QueuedIds(tx) == [0, 1, 2];
    SubseqSelf([0, 1, 2]);
  }

  /** Three transmissions later the PCB is done announcing, and its announcement, sent
      once, is no longer in the list: only the two answers are, to be sent again. */
  lemma AnnouncedOnce(k: Key, svc: Service, truncated: bool)
    ensures var e := TakesAction(true, 9); var p, q, a := DueAnswer(0, k, truncated), DueAnswer(1, k, truncated), Announcement(2, k);
      var sv := Busy(k, svc, truncated);
      var sv1 := At(k, svc, Announce2, [q, a, Later(p)], [1, 2]);
      var sv2 := At(k, svc, Announce3, [a, Later(p), Later(q)], [2]);
      && Sound(sv, {}) && Possible(sv, e) && Step(sv, e) == sv1
      && Sound(sv1, {}) && Possible(sv1, e) && Step(sv1, e) == sv2
      && Sound(sv2, {}) && Possible(sv2, e) && Step(sv2, e) == At(k, svc, Running, [Later(p), Later(q)], [])
  {
    hide Sound, AddAnnounced, Step;
    var p, q, a := DueAnswer(0, k, truncated), DueAnswer(1, k, truncated), Announcement(2, k);
    var sv1 := At(k, svc, Announce2, [q, a, Later(p)], [1, 2]);
    var sv2 := At(k, svc, Announce3, [a, Later(p), Later(q)], [2]);
    BusySound(k, svc, truncated);
    assert [p] + [q, a] == [p, q, a] && [p.id] + [1, 2] == [0, 1, 2] && [q, a] + [Later(p)] == [q, a, Later(p)];
    Taken(k, svc, Announce1, Announce2, p, [q, a], [1, 2]);
    assert [q] + [a, Later(p)] == [q, a, Later(p)] && [q.id] + [2] == [1, 2] && [a, Later(p)] + [Later(q)] == [a, Later(p), Later(q)];
    Taken(k, svc, Announce2, Announce3, q, [a, Later(p)], [2]);
    assert [a] + [Later(p), Later(q)] == [a, Later(p), Later(q)] && [a.id] + [] == [2];
    Taken(k, svc, Announce3, Running, a, [Later(p), Later(q)], []);
  }

  lemma Taken(k: Key, svc: Service, state: PcbState, next: PcbState, p: Packet, rest: seq<Packet>, more: seq<nat>)
    requires Sound(At(k, svc, state, [p] + rest, [p.id] + more), {})
    requires p.queued && p.pcb == k && p.id < 9 && forall i :: 0 <= i < |rest| ==> rest[i].sendAt <= 1026 && rest[i].id < 9
    requires (state == Announce1 && next == Announce2) || (state == Announce2 && next == Announce3) || (state == Announce3 && next == Running)
    ensures var sv := At(k, svc, state, [p] + rest, [p.id] + more); var e := TakesAction(true, 9);
      var sv' := At(k, svc, next, if state == Announce3 then rest else rest + [Later(p)], more);
      Possible(sv, e) && Step(sv, e) == sv' && Sound(sv', {})
  {
    hide Sound, Insert, Handle;
    var sv := At(k, svc, state, [p] + rest, [p.id] + more);
    SoundUsable(sv);
    assert ([p] + rest)[1..] == rest && ([p.id] + more)[1..] == more;
    InsertLast(rest, Later(p));
    var taken := sv.(sched := Take(sv.sched));
    var q := sv.sched.tx[0].(queued := false);
    assert ServersKnown(taken, q);
    if state == Announce3 { HandleLast(taken, q, true, 9); } else { HandleAgain(taken, q, true, 9); }
    StepKeeps(sv, TakesAction(true, 9));
  }

  lemma {:induction false} InsertLast(tx: seq<Packet>, p: Packet)
    requires forall i :: 0 <= i < |tx| ==> tx[i].sendAt <= p.sendAt
    ensures Insert(tx, p) == tx + [p]
  {
    if tx != [] { InsertLast(tx[1..], p); }
  }
}
