/**
 * The monitor itself (requi.py:175-240): the module-level whitelist and
 * the two breakers, the gateways that use them, the pass over the roster
 * and the poll cycle with its heartbeat, health-check and sleep pacing.
 * Each clock reading and each HTTP outcome the loop would obtain is an
 * input; the functions give the meaning of a visit, a roster pass, a cycle
 * and a run, and class Monitor is proved to carry them out in place.
 */
module Monitor {
  import opened Wrappers
  import Config
  import opened Breaker
  import opened Suppression
  import opened Gateways

  /** Everything the loop reads and writes that outlives a cycle. */
  datatype World = World(whitelist: Whitelist, flask: BreakerState, node: BreakerState)

  /**
   * The clock readings and HTTP outcomes of one name's turn in the loop, in
   * the order the code takes them.
   */
  datatype Visit = Visit(
    screenAt: int,        // datetime.now() of the whitelist test
    statusGateAt: int,    // datetime.now() of the status breaker's open-check
    statusDoneAt: int,    // datetime.now() of record_failure after the status request
    status: StatusReply,
    notifyGateAt: int,    // datetime.now() of the notification breaker's open-check
    notifyDoneAt: int,    // datetime.now() of record_failure after the notification
    delivered: bool,      // whether the notification service would accept the message
    listedAt: int)        // datetime.now() inside adicionar_whitelist

  /** How one name's turn ended. */
  datatype Verdict =
    | StillListed    // whitelisted and not yet expired: skipped
    | Unreachable    // the status lookup gave None: whitelisted
    | Online         // status "Online": nothing to do
    | Notified       // offline and notified: whitelisted
    | NotifyFailed   // offline, notification failed or skipped: retried next cycle
    | Crashed        // the status data is JSON but not an object: data.get raises

  /** The status lookup a visit performs, if the name is not skipped. */
  function LookupOf(w: World, v: Visit): (BreakerState, Option<Json>)
  {
    StatusLookup(w.flask, v.statusGateAt, v.statusDoneAt, v.status)
  }

  /** The notification a visit sends, if it gets that far. */
  function NotifyOf(w: World, v: Visit): (BreakerState, bool)
  {
    Notify(w.node, v.notifyGateAt, v.notifyDoneAt, v.delivered)
  }

  /** One iteration of `for nome in nomes` (requi.py:199-225). */
  function VisitName(w: World, name: string, v: Visit): (r: (World, Verdict))
    ensures r.1.StillListed? <==> name in w.whitelist && v.screenAt < w.whitelist[name]
    ensures r.1.StillListed? ==> r.0 == w
    ensures r.0.whitelist - {name} == w.whitelist - {name}
    ensures !r.1.StillListed? ==> (name in r.0.whitelist <==> r.1.Unreachable? || r.1.Notified?)
    ensures !r.1.StillListed? && name in r.0.whitelist ==> r.0.whitelist[name] == v.listedAt + Config.Window
    ensures !r.1.StillListed? ==> r.0.flask == LookupOf(w, v).0
    ensures r.1.Unreachable? <==> !r.1.StillListed? && LookupOf(w, v).1.None?
    ensures r.1.Crashed? <==> !r.1.StillListed? && LookupOf(w, v).1.Some? && !LookupOf(w, v).1.value.Object?
    ensures r.1.Online? <==> !r.1.StillListed? && LookupOf(w, v).1.Some? && IsOnline(LookupOf(w, v).1.value)
    ensures r.1.Notified? || r.1.NotifyFailed? ==> r.0.node == NotifyOf(w, v).0 && (r.1.Notified? <==> NotifyOf(w, v).1)
    ensures !(r.1.Notified? || r.1.NotifyFailed?) ==> r.0.node == w.node
  {
    var (wl, listed) := Screen(w.whitelist, name, v.screenAt);
    if listed then (w, StillListed)
    else
      var (flask, data) := LookupOf(w, v);
      var w1 := w.(whitelist := wl, flask := flask);
      match data
      case None => (w1.(whitelist := Suppress(wl, name, v.listedAt)), Unreachable)
      case Some(j) =>
        if !j.Object? then (w1, Crashed)
        else if IsOnline(j) then (w1, Online)
        else
          var (node, sent) := NotifyOf(w, v);
          if sent then (w1.(whitelist := Suppress(wl, name, v.listedAt), node := node), Notified)
          else (w1.(node := node), NotifyFailed)
  }

  /**
   * The pass over the roster: names in roster order, one verdict each,
   * ending early at a name whose status data crashes the cycle.
   */
  function Sweep(w: World, names: seq<string>, visits: seq<Visit>): (r: (World, seq<Verdict>))
    requires |visits| == |names|
    ensures |r.1| <= |names|
    ensures |r.1| == |names| || (|r.1| > 0 && r.1[|r.1| - 1].Crashed?)
    ensures forall i :: 0 <= i < |r.1| - 1 ==> !r.1[i].Crashed?
    ensures |names| > 0 ==> |r.1| > 0 && r.1[0] == VisitName(w, names[0], visits[0]).1
    decreases |names|
  {
    if |names| == 0 then (w, [])
    else
      var (w1, verdict) := VisitName(w, names[0], visits[0]);
      if verdict.Crashed? then (w1, [verdict])
      else
        var (w2, rest) := Sweep(w1, names[1..], visits[1..]);
        (w2, [verdict] + rest)
  }

  /** The first step of a pass. */
  lemma SweepUnfold(w: World, names: seq<string>, visits: seq<Visit>)
    requires |visits| == |names| > 0
    ensures var (w1, verdict) := VisitName(w, names[0], visits[0]);
      Sweep(w, names, visits)
      == if verdict.Crashed? then (w1, [verdict]) else Combine([verdict], Sweep(w1, names[1..], visits[1..]))
  {
  }

  /**
   * Names are visited in roster order: a pass over `a + b` is the pass over
   * `a` followed by a pass over `b` from where the first one left the world,
   * provided nothing in `a` crashed.
   */
  lemma {:induction false} SweepAppend(w: World, a: seq<string>, va: seq<Visit>, b: seq<string>, vb: seq<Visit>)
    requires |va| == |a| && |vb| == |b|
    requires forall i :: 0 <= i < |Sweep(w, a, va).1| ==> !Sweep(w, a, va).1[i].Crashed?
    ensures Sweep(w, a + b, va + vb) == Combine(Sweep(w, a, va).1, Sweep(Sweep(w, a, va).0, b, vb))
    decreases |a|
  {
    if |a| == 0 {
      assert a + b == b && va + vb == vb;
      assert [] + Sweep(w, b, vb).1 == Sweep(w, b, vb).1;
    } else {
      var step := VisitName(w, a[0], va[0]);
      var first := Sweep(step.0, a[1..], va[1..]);
      SweepUncrashedHead(w, a, va);
      SweepAppend(step.0, a[1..], va[1..], b, vb);
      SweepUnfoldAppend(w, a, va, b, vb);
      AppendAssoc([step.1], first.1, Sweep(first.0, b, vb).1);
    }
  }

  /** A pass that never crashed did not crash on its first name or after it. */
  lemma SweepUncrashedHead(w: World, a: seq<string>, va: seq<Visit>)
    requires |va| == |a| > 0
    requires forall i :: 0 <= i < |Sweep(w, a, va).1| ==> !Sweep(w, a, va).1[i].Crashed?
    ensures var (w1, verdict) := VisitName(w, a[0], va[0]);
      && !verdict.Crashed?
      && Sweep(w, a, va) == Combine([verdict], Sweep(w1, a[1..], va[1..]))
      && forall i :: 0 <= i < |Sweep(w1, a[1..], va[1..]).1| ==> !Sweep(w1, a[1..], va[1..]).1[i].Crashed?
  {
    var (w1, verdict) := VisitName(w, a[0], va[0]);
    SweepUnfold(w, a, va);
    assert Sweep(w, a, va).1[0] == verdict;
    var rest := Sweep(w1, a[1..], va[1..]).1;
    assert forall i :: 0 <= i < |rest| ==> rest[i] == Sweep(w, a, va).1[i + 1];
  }

  /** The first step of a pass over `a + b` is the first step over `a`. */
  lemma SweepUnfoldAppend(w: World, a: seq<string>, va: seq<Visit>, b: seq<string>, vb: seq<Visit>)
    requires |va| == |a| > 0 && |vb| == |b|
    requires !VisitName(w, a[0], va[0]).1.Crashed?
    ensures var (w1, verdict) := VisitName(w, a[0], va[0]);
      Sweep(w, a + b, va + vb) == Combine([verdict], Sweep(w1, a[1..] + b, va[1..] + vb))
  {
    HeadTail(a, b);
    HeadTail(va, vb);
    SweepUnfold(w, a + b, va + vb);
  }

  /** The suffix from `k` starts with `s[k]` and continues with the suffix from `k + 1`. */
  lemma DropHead<T>(s: seq<T>, k: nat)
    requires k < |s|
    ensures s[k..][0] == s[k] && s[k..][1..] == s[k + 1..]
  {
  }

  /** Concatenation regroups freely. */
  lemma AppendAssoc<T>(a: seq<T>, b: seq<T>, c: seq<T>)
    ensures a + (b + c) == (a + b) + c
  {
  }

  /** Head and tail of a concatenation whose front part is non-empty. */
  lemma HeadTail<T>(a: seq<T>, b: seq<T>)
    requires |a| > 0
    ensures (a + b)[0] == a[0] && (a + b)[1..] == a[1..] + b
  {
  }

  /** A pass never touches the whitelist entry of a name outside the roster. */
  lemma {:induction false} SweepLeavesOthers(w: World, names: seq<string>, visits: seq<Visit>, other: string)
    requires |visits| == |names| && other !in names
    ensures other in Sweep(w, names, visits).0.whitelist <==> other in w.whitelist
    ensures other in w.whitelist ==> Sweep(w, names, visits).0.whitelist[other] == w.whitelist[other]
    decreases |names|
  {
    if |names| > 0 {
      var w1 := VisitName(w, names[0], visits[0]).0;
      assert other != names[0];
      assert other in w1.whitelist - {names[0]} <==> other in w.whitelist - {names[0]};
      if other in w.whitelist {
        assert (w1.whitelist - {names[0]})[other] == (w.whitelist - {names[0]})[other];
      }
      if !VisitName(w, names[0], visits[0]).1.Crashed? {
        SweepLeavesOthers(w1, names[1..], visits[1..], other);
      }
    }
  }

  /** A pass keeps both breakers sound. */
  lemma {:induction false} SweepKeepsSound(w: World, names: seq<string>, visits: seq<Visit>)
    requires |visits| == |names|
    requires Sound(w.flask) && Sound(w.node)
    ensures Sound(Sweep(w, names, visits).0.flask) && Sound(Sweep(w, names, visits).0.node)
    decreases |names|
  {
    if |names| > 0 {
      var v := visits[0];
      GatewaysKeepSound(w.flask, v.statusGateAt, v.statusDoneAt, v.status, v.delivered);
      GatewaysKeepSound(w.node, v.notifyGateAt, v.notifyDoneAt, v.status, v.delivered);
      var w1 := VisitName(w, names[0], v).0;
      if !VisitName(w, names[0], v).1.Crashed? {
        SweepKeepsSound(w1, names[1..], visits[1..]);
      }
    }
  }

  /**
   * The notification breaker moves only for names found offline: a pass
   * in which no name reached send_notification leaves it as it was.
   */
  lemma {:induction false} SweepNotifiesOnlyOffline(w: World, names: seq<string>, visits: seq<Visit>)
    requires |visits| == |names|
    requires forall i :: 0 <= i < |Sweep(w, names, visits).1| ==>
               !(Sweep(w, names, visits).1[i].Notified? || Sweep(w, names, visits).1[i].NotifyFailed?)
    ensures Sweep(w, names, visits).0.node == w.node
    decreases |names|
  {
    if |names| > 0 {
      var (w1, verdict) := VisitName(w, names[0], visits[0]);
      assert Sweep(w, names, visits).1[0] == verdict;
      if !verdict.Crashed? {
        var rest := Sweep(w1, names[1..], visits[1..]).1;
        assert forall i :: 0 <= i < |rest| ==> rest[i] == Sweep(w, names, visits).1[i + 1];
        SweepNotifiesOnlyOffline(w1, names[1..], visits[1..]);
      }
    }
  }

  /**
   * A name found offline and notified is skipped, with no lookup and no
   * notification, by any later visit that comes before its entry expires.
   */
  lemma NotifiedThenSkipped(w: World, name: string, v: Visit, next: Visit)
    requires VisitName(w, name, v).1.Notified?
    requires next.screenAt < v.listedAt + Config.Window
    ensures VisitName(VisitName(w, name, v).0, name, next) == (VisitName(w, name, v).0, StillListed)
  {
  }

  /** The statistics main keeps in local variables between cycles. */
  datatype PollStats = PollStats(cycleCount: int, lastHeartbeat: int)

  /** The clock readings and per-name inputs of one trip round `while True`. */
  datatype CycleInput = CycleInput(
    startedAt: int,     // time.time() at the start of the cycle
    beatCheckAt: int,   // datetime.now() of the heartbeat test
    beatAt: int,        // datetime.now() stored as the new last heartbeat
    visits: seq<Visit>,
    endedAt: int,       // time.time() after the roster pass
    restartAt: int)     // datetime.now() taken by main when it restarts after a crash

  /** What one cycle did: heartbeat, health check, verdicts, and how long it then sleeps. */
  datatype CycleReport = CycleReport(heartbeat: bool, healthCheck: bool, verdicts: seq<Verdict>, crashed: bool, sleep: int)

  /**
   * max(0.1, CHECK_INTERVAL - cycle_elapsed): never below the floor, never
   * above the interval for a non-negative elapsed time, and otherwise
   * exactly what keeps the cadence at one cycle per interval.
   */
  function SleepTime(elapsed: int): (r: int)
    ensures r >= Config.MinSleep
    ensures elapsed >= 0 ==> r <= Config.CheckInterval
    ensures elapsed <= Config.CheckInterval - Config.MinSleep ==> elapsed + r == Config.CheckInterval
    ensures elapsed >= Config.CheckInterval - Config.MinSleep ==> r == Config.MinSleep
  {
    if Config.CheckInterval - elapsed > Config.MinSleep then Config.CheckInterval - elapsed else Config.MinSleep
  }

  /**
   * One cycle of main: count it, maybe beat, maybe check health, pass over
   * the roster, then pace. A crash ends the cycle early and main restarts
   * with fresh statistics, but the whitelist and breakers carry over.
   */
  function Cycle(w: World, stats: PollStats, roster: seq<string>, input: CycleInput): (r: (World, PollStats, CycleReport))
    requires |input.visits| == |roster|
    ensures r.2.heartbeat <==> input.beatCheckAt - stats.lastHeartbeat > Config.HeartbeatPeriod
    ensures r.2.healthCheck <==> (stats.cycleCount + 1) % Config.HealthEvery == 0
    ensures r.2.crashed ==> r.1 == PollStats(0, input.restartAt) && r.2.sleep == Config.RestartDelay
  {
    var count := stats.cycleCount + 1;
    var beat := input.beatCheckAt - stats.lastHeartbeat > Config.HeartbeatPeriod;
    var last := if beat then input.beatAt else stats.lastHeartbeat;
    var health := count % Config.HealthEvery == 0;
    var (w1, verdicts) := Sweep(w, roster, input.visits);
    var crashed := |verdicts| > 0 && verdicts[|verdicts| - 1].Crashed?;
    if crashed then
      (w1, PollStats(0, input.restartAt), CycleReport(beat, health, verdicts, true, Config.RestartDelay))
    else
      (w1, PollStats(count, last), CycleReport(beat, health, verdicts, false, SleepTime(input.endedAt - input.startedAt)))
  }

  /**
   * What one cycle promises: the heartbeat, health-check and sleep rules,
   * and that a crash resets only main's statistics, never the whitelist or
   * the breakers.
   */
  lemma CycleRules(w: World, stats: PollStats, roster: seq<string>, input: CycleInput)
    requires |input.visits| == |roster|
    ensures var (w1, next, report) := Cycle(w, stats, roster, input);
      && w1 == Sweep(w, roster, input.visits).0
      && report.verdicts == Sweep(w, roster, input.visits).1
      && (report.heartbeat <==> input.beatCheckAt - stats.lastHeartbeat > Config.HeartbeatPeriod)
      && (report.healthCheck <==> (stats.cycleCount + 1) % Config.HealthEvery == 0)
      && (report.crashed <==> |report.verdicts| > 0 && report.verdicts[|report.verdicts| - 1].Crashed?)
      && (report.crashed ==> next == PollStats(0, input.restartAt) && report.sleep == Config.RestartDelay)
      && (!report.crashed ==> |report.verdicts| == |roster|)
      && (!report.crashed ==> next.cycleCount == stats.cycleCount + 1)
      && (!report.crashed ==> next.lastHeartbeat == if report.heartbeat then input.beatAt else stats.lastHeartbeat)
      && (!report.crashed ==> report.sleep == SleepTime(input.endedAt - input.startedAt))
      && (!report.crashed ==> Config.MinSleep <= report.sleep)
      && (!report.crashed && input.startedAt <= input.endedAt ==> report.sleep <= Config.CheckInterval)
  {
  }

  /** Every cycle supplies one visit per roster name. */
  predicate Fits(roster: seq<string>, cycles: seq<CycleInput>)
  {
    forall k :: 0 <= k < |cycles| ==> |cycles[k].visits| == |roster|
  }

  /** A run of main over the given cycles, restarts included. */
  function RunCycles(w: World, stats: PollStats, roster: seq<string>, cycles: seq<CycleInput>): (r: (World, PollStats, seq<CycleReport>))
    requires Fits(roster, cycles)
    ensures |r.2| == |cycles|
    decreases |cycles|
  {
    if |cycles| == 0 then (w, stats, [])
    else
      var (w1, stats1, report) := Cycle(w, stats, roster, cycles[0]);
      var (w2, stats2, rest) := RunCycles(w1, stats1, roster, cycles[1..]);
      (w2, stats2, [report] + rest)
  }

  /** The first cycle of a run. */
  lemma RunUnfold(w: World, stats: PollStats, roster: seq<string>, cycles: seq<CycleInput>)
    requires Fits(roster, cycles) && |cycles| > 0
    ensures var (w1, stats1, report) := Cycle(w, stats, roster, cycles[0]);
      var rest := RunCycles(w1, stats1, roster, cycles[1..]);
      RunCycles(w, stats, roster, cycles) == (rest.0, rest.1, [report] + rest.2)
  {
  }

  /**
   * Until the first crash, the health check runs exactly on the cycles
   * whose number since the start of main is a multiple of six.
   */
  lemma {:induction false} HealthCheckEverySixth(w: World, stats: PollStats, roster: seq<string>, cycles: seq<CycleInput>, i: nat)
    requires Fits(roster, cycles) && i < |cycles|
    requires forall j :: 0 <= j < i ==> !RunCycles(w, stats, roster, cycles).2[j].crashed
    ensures RunCycles(w, stats, roster, cycles).2[i].healthCheck <==> (stats.cycleCount + i + 1) % Config.HealthEvery == 0
    decreases i
  {
    RunUnfold(w, stats, roster, cycles);
    CycleRules(w, stats, roster, cycles[0]);
    var (w1, stats1, report) := Cycle(w, stats, roster, cycles[0]);
    var reports := RunCycles(w, stats, roster, cycles).2;
    var rest := RunCycles(w1, stats1, roster, cycles[1..]).2;
    assert reports == [report] + rest;
    if i > 0 {
      assert !reports[0].crashed;
      assert stats1.cycleCount == stats.cycleCount + 1;
      forall j | 0 <= j < i - 1
        ensures !rest[j].crashed
      {
        assert rest[j] == reports[j + 1];
      }
      HealthCheckEverySixth(w1, stats1, roster, cycles[1..], i - 1);
      assert reports[i] == rest[i - 1];
    }
  }

  /** The verdicts so far put in front of a pass over the rest of the roster. */
  function Combine(done: seq<Verdict>, rest: (World, seq<Verdict>)): (World, seq<Verdict>)
  {
    (rest.0, done + rest.1)
  }

  /**
   * The monitor's long-lived state: the roster, the whitelist and the two
   * breakers, which requi.py keeps in module-level variables.
   */
  class Monitor {
    const roster: seq<string>
    var whitelist: Whitelist
    const flask: CircuitBreaker
    const node: CircuitBreaker

    ghost predicate Valid()
      reads this, flask, node
    {
      flask != node && Sound(flask.State()) && Sound(node.State())
    }

    /** The state the value-level functions talk about. */
    function Snapshot(): World
      reads this, flask, node
    {
      World(whitelist, flask.State(), node.State())
    }

    /** The module's start-up state: an empty whitelist and two fresh breakers. */
    constructor (roster: seq<string> := Config.Roster)
      ensures Valid() && fresh(flask) && fresh(node)
      ensures this.roster == roster
      ensures Snapshot() == World(map[], Fresh(Config.Threshold, Config.TimeoutSeconds), Fresh(Config.Threshold, Config.TimeoutSeconds))
    {
      this.roster := roster;
      whitelist := map[];
      flask := new CircuitBreaker("Flask API");
      node := new CircuitBreaker("Node API");
    }

    /** adicionar_whitelist, with `now` its clock reading. */
    method AddToWhitelist(name: string, now: int)
      modifies this
      ensures whitelist == Suppress(old(whitelist), name, now)
    {
      whitelist := whitelist[name := now + Config.Window];
    }

    /** The whitelist test at the top of the loop body: true means skip this name. */
    method CheckWhitelist(name: string, now: int) returns (listed: bool)
      modifies this
      ensures (whitelist, listed) == Screen(old(whitelist), name, now)
    {
      listed := false;
      if name in whitelist {
        if now < whitelist[name] {
          listed := true;
        } else {
          whitelist := whitelist - {name};
        }
      }
    }

    /** check_character_status, with the request's outcome given as `reply`. */
    method CheckCharacterStatus(name: string, gateAt: int, doneAt: int, reply: StatusReply) returns (data: Option<Json>)
      modifies flask
      ensures (flask.State(), data) == StatusLookup(old(flask.State()), gateAt, doneAt, reply)
      ensures Sound(old(flask.State())) ==> Sound(flask.State())
    {
      if Sound(flask.State()) {
        GatewaysKeepSound(flask.State(), gateAt, doneAt, reply, false);
      }
      var skip := flask.IsCircuitOpen(gateAt);
      if skip {
        return None;
      }
      match reply
      case Transport =>
        flask.RecordFailure(doneAt);
        data := None;
      case Malformed =>
        flask.failureCount := 0;
        flask.RecordFailure(doneAt);
        data := None;
      case Body(j) =>
        flask.failureCount := 0;
        data := if j.Null? then None else Some(j);
    }

    /** send_notification, with the service's answer given as `delivered`. */
    method SendNotification(name: string, gateAt: int, doneAt: int, delivered: bool) returns (sent: bool)
      modifies node
      ensures (node.State(), sent) == Notify(old(node.State()), gateAt, doneAt, delivered)
      ensures Sound(old(node.State())) ==> Sound(node.State())
    {
      if Sound(node.State()) {
        GatewaysKeepSound(node.State(), gateAt, doneAt, Transport, delivered);
      }
      var skip := node.IsCircuitOpen(gateAt);
      if skip {
        return false;
      }
      if delivered {
        node.failureCount := 0;
        sent := true;
      } else {
        node.RecordFailure(doneAt);
        sent := false;
      }
    }

    /** One turn of the loop body (requi.py:199-225) for `name`. */
    method ProcessName(name: string, v: Visit) returns (verdict: Verdict)
      requires Valid()
      modifies this, flask, node
      ensures Valid()
      ensures (Snapshot(), verdict) == VisitName(old(Snapshot()), name, v)
    {
      var listed := CheckWhitelist(name, v.screenAt);
      if listed {
        verdict := StillListed;
      } else {
        var data := CheckCharacterStatus(name, v.statusGateAt, v.statusDoneAt, v.status);
        if data.None? {
          AddToWhitelist(name, v.listedAt);
          verdict := Unreachable;
        } else if !data.value.Object? {
          verdict := Crashed;
        } else if IsOnline(data.value) {
          verdict := Online;
        } else {
          var sent := SendNotification(name, v.notifyGateAt, v.notifyDoneAt, v.delivered);
          if sent {
            AddToWhitelist(name, v.listedAt);
            verdict := Notified;
          } else {
            verdict := NotifyFailed;
          }
        }
      }
    }

    /** `for nome in nomes`, one visit per name, stopping at a crash. */
    method ProcessRoster(visits: seq<Visit>) returns (verdicts: seq<Verdict>)
      requires Valid() && |visits| == |roster|
      modifies this, flask, node
      ensures Valid()
      ensures (Snapshot(), verdicts) == Sweep(old(Snapshot()), roster, visits)
    {
      verdicts := [];
      ghost var total := Sweep(Snapshot(), roster, visits);
      assert roster[0..] == roster && visits[0..] == visits;
      assert [] + total.1 == total.1;
      var i := 0;
      var crashed := false;
      while i < |roster| && !crashed
        invariant 0 <= i <= |roster|
        invariant Valid()
        invariant crashed ==> (Snapshot(), verdicts) == total
        invariant !crashed ==> total == Combine(verdicts, Sweep(Snapshot(), roster[i..], visits[i..]))
      {
        var name, v := roster[i], visits[i];
        ghost var before := Snapshot();
        SweepUnfold(before, roster[i..], visits[i..]);
        DropHead(roster, i);
        DropHead(visits, i);
        var verdict := ProcessName(name, v);
        ghost var rest := Sweep(Snapshot(), roster[i + 1..], visits[i + 1..]);
        if !verdict.Crashed? {
          AppendAssoc(verdicts, [verdict], rest.1);
        }
        verdicts := verdicts + [verdict];
        crashed := verdict.Crashed?;
        i := i + 1;
      }
      if !crashed {
        assert roster[i..] == [] && visits[i..] == [];
        assert verdicts + [] == verdicts;
      }
    }

    /**
     * One trip round main's `while True` (requi.py:184-232), with main's
     * two statistics variables passed in and handed back.
     */
    method PollCycle(stats: PollStats, input: CycleInput) returns (next: PollStats, report: CycleReport)
      requires Valid() && |input.visits| == |roster|
      modifies this, flask, node
      ensures Valid()
      ensures (Snapshot(), next, report) == Cycle(old(Snapshot()), stats, roster, input)
    {
      var cycleCount := stats.cycleCount + 1;
      var lastHeartbeat := stats.lastHeartbeat;
      var heartbeat := false;
      if input.beatCheckAt - lastHeartbeat > Config.HeartbeatPeriod {
        heartbeat := true;
        lastHeartbeat := input.beatAt;
      }
      var healthCheck := cycleCount % Config.HealthEvery == 0;
      var verdicts := ProcessRoster(input.visits);
      var crashed := |verdicts| > 0 && verdicts[|verdicts| - 1].Crashed?;
      var sleep;
      if crashed {
        sleep := Config.RestartDelay;
        cycleCount := 0;
        lastHeartbeat := input.restartAt;
      } else {
        sleep := SleepTime(input.endedAt - input.startedAt);
      }
      next := PollStats(cycleCount, lastHeartbeat);
      report := CycleReport(heartbeat, healthCheck, verdicts, crashed, sleep);
    }

    /**
     * main run for the given cycles, restarting itself after a crash:
     * `bootAt` is the clock reading main stores as its first heartbeat time.
     */
    method Run(bootAt: int, cycles: seq<CycleInput>) returns (reports: seq<CycleReport>)
      requires Valid() && Fits(roster, cycles)
      modifies this, flask, node
      ensures Valid()
      ensures Snapshot() == RunCycles(old(Snapshot()), PollStats(0, bootAt), roster, cycles).0
      ensures reports == RunCycles(old(Snapshot()), PollStats(0, bootAt), roster, cycles).2
    {
      var stats := PollStats(0, bootAt);
      reports := [];
      ghost var total := RunCycles(Snapshot(), stats, roster, cycles);
      assert cycles[0..] == cycles;
      assert [] + total.2 == total.2;
      var k := 0;
      while k < |cycles|
        invariant 0 <= k <= |cycles|
        invariant Valid()
        invariant total.0 == RunCycles(Snapshot(), stats, roster, cycles[k..]).0
        invariant total.2 == reports + RunCycles(Snapshot(), stats, roster, cycles[k..]).2
      {
        RunUnfold(Snapshot(), stats, roster, cycles[k..]);
        DropHead(cycles, k);
        var report;
        stats, report := PollCycle(stats, cycles[k]);
        ghost var rest := RunCycles(Snapshot(), stats, roster, cycles[k + 1..]);
        AppendAssoc(reports, [report], rest.2);
        reports := reports + [report];
        k := k + 1;
      }
      assert cycles[k..] == [];
      assert reports + [] == reports;
    }
  }
}
