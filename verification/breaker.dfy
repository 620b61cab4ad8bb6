/** The three-state circuit breaker (backend/internal/pkg/breaker/breaker.go) under interleaved calls. */
module Breakers {

  datatype State = Closed | Open | HalfOpen

  /** Times are in milliseconds on a clock that never runs backwards. */
  datatype Options = Options(failureThreshold: int, cooldown: int, halfOpenMax: int)

  predicate Ready(o: Options) {
    o.failureThreshold >= 1 && o.cooldown >= 1 && o.halfOpenMax >= 1
  }

  function Normalized(o: Options): (n: Options)
    ensures Ready(n)
    ensures Ready(o) ==> n == o
  {
    Options(
      if o.failureThreshold <= 0 then 5 else o.failureThreshold,
      if o.cooldown <= 0 then 10000 else o.cooldown,
      if o.halfOpenMax <= 0 then 1 else o.halfOpenMax)
  }

  datatype Core = Core(state: State, failures: nat, probes: nat, successes: nat, openedAt: int)

  // ---- The transitions ----------------------------------------------------

  predicate Admits(o: Options, c: Core, now: int) {
    c.state == Closed || (c.state == Open && now - c.openedAt >= o.cooldown)
    || (c.state == HalfOpen && c.probes < o.halfOpenMax)
  }

  function AfterAllow(o: Options, c: Core, now: int): Core {
    if !Admits(o, c, now) then c
    else match c.state
      case Closed => c
      case Open => c.(state := HalfOpen, probes := 1, successes := 0)
      case HalfOpen => c.(probes := c.probes + 1)
  }

  function Opened(c: Core, now: int): Core {
    Core(Open, 0, 0, c.successes, now)
  }

  function AfterFailure(o: Options, c: Core, now: int): Core {
    match c.state
    case Closed => if c.failures + 1 >= o.failureThreshold then Opened(c, now) else c.(failures := c.failures + 1)
    case HalfOpen => Opened(c, now)
    case Open => c
  }

  function AfterSuccess(o: Options, c: Core): Core {
    match c.state
    case HalfOpen =>
      if c.successes + 1 >= o.halfOpenMax then Core(Closed, 0, c.probes, c.successes + 1, c.openedAt)
      else c.(successes := c.successes + 1)
    case Closed => c.(failures := 0)
    case Open => c
  }

  /** The guarded fields and the methods that update them. */
  class Breaker {
    var state: State
    var failures: nat
    var probes: nat
    var successes: nat
    var openedAt: int
    const opts: Options

    constructor (o: Options)
      ensures opts == Normalized(o) && View() == Core(Closed, 0, 0, 0, 0)
      ensures opts.failureThreshold == (if o.failureThreshold <= 0 then 5 else o.failureThreshold)
      ensures opts.cooldown == (if o.cooldown <= 0 then 10000 else o.cooldown)
      ensures opts.halfOpenMax == (if o.halfOpenMax <= 0 then 1 else o.halfOpenMax)
    {
      var n := o;
      if n.failureThreshold <= 0 { n := n.(failureThreshold := 5); }
      if n.cooldown <= 0 { n := n.(cooldown := 10000); }
      if n.halfOpenMax <= 0 { n := n.(halfOpenMax := 1); }
      opts := n;
      state, failures, probes, successes, openedAt := Closed, 0, 0, 0, 0;
    }

    function View(): Core
      reads this
    {
      Core(state, failures, probes, successes, openedAt)
    }

    method Allow(now: int) returns (ok: bool)
      modifies this
      ensures ok == Admits(opts, old(View()), now)
      ensures View() == AfterAllow(opts, old(View()), now)
    {
      match state {
        case Closed => ok := true;
        case Open =>
          ok := now - openedAt >= opts.cooldown;
          if ok {
            state := HalfOpen;
            probes := 0;
            successes := 0;
            probes := probes + 1;
          }
        case HalfOpen =>
          ok := probes < opts.halfOpenMax;
          if ok { probes := probes + 1; }
      }
    }

    method OpenLocked(now: int)
      modifies this
      ensures View() == Opened(old(View()), now)
    {
      state := Open;
      openedAt := now;
      failures := 0;
      probes := 0;
    }

    method RecordFailure(now: int)
      modifies this
      ensures View() == AfterFailure(opts, old(View()), now)
    {
      match state {
        case Closed =>
          failures := failures + 1;
          if failures >= opts.failureThreshold { OpenLocked(now); }
        case HalfOpen => OpenLocked(now);
        case Open =>
      }
    }

    method RecordSuccess()
      modifies this
      ensures View() == AfterSuccess(opts, old(View()))
    {
      match state {
        case HalfOpen =>
          successes := successes + 1;
          if successes >= opts.halfOpenMax {
            state := Closed;
            failures := 0;
          }
        case Closed => failures := 0;
        case Open =>
      }
    }

    /** One call: refused, or admitted at one time and its result recorded at a later one. */
    method Execute(now: int, succeeds: bool, later: int) returns (ran: bool, ok: bool)
      modifies this
      ensures ran == Admits(opts, old(View()), now) && ok == (ran && succeeds)
      ensures View() == (
        var c := AfterAllow(opts, old(View()), now);
        if !ran then old(View()) else if succeeds then AfterSuccess(opts, c) else AfterFailure(opts, c, later))
    {
      ran := Allow(now);
      ok := ran && succeeds;
      if ran {
        if succeeds { RecordSuccess(); } else { RecordFailure(later); }
      }
    }
  }

  // ---- Interleaved calls --------------------------------------------------

  /** A call asks to start, or an admitted call reports its result. */
  datatype Act = Allow(call: nat, now: int) | Report(call: nat, ok: bool, now: int)

  /** One step of the log; own says the reporting call was admitted in the current epoch. */
  datatype Entry = Entry(act: Act, before: State, after: State, admitted: bool, own: bool)

  /** An epoch lasts until the state changes; out maps each running call to its epoch. */
  datatype Sys = Sys(core: Core, now: int, epoch: nat, out: map<nat, nat>, used: set<nat>, log: seq<Entry>)

  function Init(now: int): Sys {
    Sys(Core(Closed, 0, 0, 0, 0), now, 0, map[], {}, [])
  }

  predicate Enabled(sys: Sys, a: Act) {
    a.now >= sys.now && if a.Allow? then a.call !in sys.used else a.call in sys.out
  }

  function NextCore(o: Options, c: Core, a: Act): Core {
    match a
    case Allow(_, now) => AfterAllow(o, c, now)
    case Report(_, ok, now) => if ok then AfterSuccess(o, c) else AfterFailure(o, c, now)
  }

  function Apply(o: Options, sys: Sys, a: Act): Sys {
    var core := NextCore(o, sys.core, a);
    var admitted := a.Allow? && Admits(o, sys.core, a.now);
    var own := a.Report? && a.call in sys.out && sys.out[a.call] == sys.epoch;
    var epoch := if core.state != sys.core.state then sys.epoch + 1 else sys.epoch;
    Sys(core, a.now, epoch,
      if admitted then sys.out[a.call := epoch] else if a.Report? then sys.out - {a.call} else sys.out,
      sys.used + {a.call},
      sys.log + [Entry(a, sys.core.state, core.state, admitted, own)])
  }

  function Run(o: Options, start: int, acts: seq<Act>): Sys {
    if acts == [] then Init(start) else Apply(o, Run(o, start, acts[..|acts| - 1]), acts[|acts| - 1])
  }

  ghost predicate Legal(o: Options, start: int, acts: seq<Act>) {
    acts != [] ==>
      Legal(o, start, acts[..|acts| - 1]) && Enabled(Run(o, start, acts[..|acts| - 1]), acts[|acts| - 1])
  }

  // ---- Reading the log ----------------------------------------------------

  /** The failures reported in a row since the breaker last became closed. */
  function TrailingFailures(log: seq<Entry>): nat {
    if log == [] then 0 else
      var e, rest := log[|log| - 1], log[..|log| - 1];
      if e.after != Closed || e.before != Closed then 0
      else if e.act.Allow? then TrailingFailures(rest)
      else if e.act.ok then 0
      else TrailingFailures(rest) + 1
  }

  /** Calls admitted since the breaker last became half-open; 0 when it is not. */
  function Probes(log: seq<Entry>): nat {
    if log == [] || log[|log| - 1].after != HalfOpen then 0
    else Probes(log[..|log| - 1]) + if log[|log| - 1].admitted then 1 else 0
  }

  /** Successes reported in the latest half-open epoch, by its own probes or by older calls. */
  function Successes(log: seq<Entry>, own: bool): nat {
    if log == [] || (log[|log| - 1].after != HalfOpen && log[|log| - 1].before != HalfOpen) then 0
    else
      var e := log[|log| - 1];
      var rest := if e.before == HalfOpen then Successes(log[..|log| - 1], own) else 0;
      rest + if e.act.Report? && e.act.ok && e.own == own then 1 else 0
  }

  predicate Opens(e: Entry) {
    e.before != Open && e.after == Open
  }

  /** Calls still running that were admitted in the current epoch. */
  function Outstanding(sys: Sys): set<nat> {
    set c | c in sys.out && sys.out[c] == sys.epoch
  }

  // ---- What every interleaving keeps --------------------------------------

  ghost predicate Counted(o: Options, sys: Sys) {
    var c := sys.core;
    && (sys.log != [] ==> sys.log[|sys.log| - 1].after == c.state)
    && (sys.log == [] ==> c.state == Closed)
    && c.failures == TrailingFailures(sys.log)
    && c.failures < o.failureThreshold
    && (c.state == HalfOpen ==>
          && c.probes == Probes(sys.log) <= o.halfOpenMax
          && c.successes == Successes(sys.log, true) + Successes(sys.log, false) < o.halfOpenMax)
  }

  ghost predicate ProbesLive(sys: Sys) {
    && (forall c :: c in sys.out ==> sys.out[c] <= sys.epoch && c in sys.used)
    && (sys.core.state == HalfOpen ==> sys.core.probes <= |Outstanding(sys)| + sys.core.successes)
  }

  ghost predicate Cooled(o: Options, sys: Sys) {
    && (forall i :: 0 <= i < |sys.log| ==> sys.log[i].act.now <= sys.now)
    && (sys.core.state == Open ==> sys.core.openedAt <= sys.now)
    && (forall i :: 0 <= i < |sys.log| && Opens(sys.log[i]) ==>
          if sys.core.state == Open then sys.log[i].act.now <= sys.core.openedAt
          else sys.log[i].act.now + o.cooldown <= sys.now)
    && (forall i, j :: 0 <= i < j < |sys.log| && Opens(sys.log[i]) && sys.log[j].admitted ==>
          sys.log[i].act.now + o.cooldown <= sys.log[j].act.now)
  }

  lemma CountedStep(o: Options, sys: Sys, a: Act)
    requires Ready(o) && Counted(o, sys)
    ensures Counted(o, Apply(o, sys, a))
  {
    var log := Apply(o, sys, a).log;
    assert log[..|log| - 1] == sys.log;
    if sys.core.state != HalfOpen {
      assert Probes(sys.log) == 0;
    }
  }

  lemma OutstandingReport(sys: Sys, next: Sys, call: nat)
    requires next.out == sys.out - {call} && next.epoch == sys.epoch
    ensures Outstanding(next) == Outstanding(sys) - {call}
  {
  }

  lemma OutstandingAdmit(sys: Sys, next: Sys, call: nat)
    requires next.out == sys.out[call := next.epoch] && next.epoch == sys.epoch
    ensures Outstanding(next) == Outstanding(sys) + {call}
  {
  }

  lemma OutstandingFirst(sys: Sys, next: Sys, call: nat)
    requires next.out == sys.out[call := next.epoch] && forall c :: c in sys.out ==> sys.out[c] < next.epoch
    ensures Outstanding(next) == {call}
  {
  }

  /** Probes not yet made up for by successes, across one transition. */
  lemma ProbeBalance(o: Options, c: Core, a: Act)
    requires Ready(o)
    ensures var n := NextCore(o, c, a);
      n.state == HalfOpen && c.state != HalfOpen ==> a.Allow? && n.probes == 1 && n.successes == 0
    ensures var n := NextCore(o, c, a);
      n.state == HalfOpen == c.state ==>
        n.probes - n.successes
        == c.probes - c.successes + (if a.Report? then -1 else if Admits(o, c, a.now) then 1 else 0)
  {
  }

  lemma ProbesLiveStep(o: Options, sys: Sys, a: Act)
    requires Ready(o) && ProbesLive(sys) && Enabled(sys, a)
    ensures ProbesLive(Apply(o, sys, a))
  {
    hide Outstanding;
    ProbeBalance(o, sys.core, a);
    var next := Apply(o, sys, a);
    hide NextCore, Admits, Apply;
    if a.Report? {
      assert next.core.state == HalfOpen ==> sys.core.state == HalfOpen && next.epoch == sys.epoch;
      if next.core.state == HalfOpen {
        OutstandingReport(sys, next, a.call);
        assert |Outstanding(sys) - {a.call}| >= |Outstanding(sys)| - 1;
      }
    } else if next.core.state == HalfOpen && sys.core.state != HalfOpen {
      OutstandingFirst(sys, next, a.call);
    } else if Admits(o, sys.core, a.now) && sys.core.state == HalfOpen {
      FreshCall(sys, a.call);
      OutstandingAdmit(sys, next, a.call);
    } else {
      SameOut(sys, next);
    }
  }

  lemma SameOut(sys: Sys, next: Sys)
    ensures next.out == sys.out && next.epoch == sys.epoch ==> Outstanding(next) == Outstanding(sys)
  {
  }

  lemma FreshCall(sys: Sys, call: nat)
    requires ProbesLive(sys) && call !in sys.used
    ensures call !in Outstanding(sys)
  {
  }

  lemma CooledStep(o: Options, sys: Sys, a: Act)
    requires Ready(o) && Cooled(o, sys) && Enabled(sys, a)
    ensures Cooled(o, Apply(o, sys, a))
  {
  }

  lemma {:induction false} RunKeeps(o: Options, start: int, acts: seq<Act>)
    requires Ready(o) && Legal(o, start, acts)
    ensures var sys := Run(o, start, acts); Counted(o, sys) && ProbesLive(sys) && Cooled(o, sys)
  {
    if acts != [] {
      hide Counted, ProbesLive, Cooled, Apply, Enabled;
      var prefix, a := acts[..|acts| - 1], acts[|acts| - 1];
      RunKeeps(o, start, prefix);
      CountedStep(o, Run(o, start, prefix), a);
      ProbesLiveStep(o, Run(o, start, prefix), a);
      CooledStep(o, Run(o, start, prefix), a);
    }
  }

  lemma Snoc(o: Options, start: int, acts: seq<Act>, a: Act)
    ensures Run(o, start, acts + [a]) == Apply(o, Run(o, start, acts), a)
    ensures Legal(o, start, acts + [a]) <==> Legal(o, start, acts) && Enabled(Run(o, start, acts), a)
  {
    assert (acts + [a])[..|acts|] == acts;
  }

  /** When the breaker last opened. */
  function LatestOpening(log: seq<Entry>): int {
    if log == [] then 0
    else if Opens(log[|log| - 1]) then log[|log| - 1].act.now else LatestOpening(log[..|log| - 1])
  }

  lemma {:induction false} OpenedAtIsLatest(o: Options, start: int, acts: seq<Act>)
    requires Ready(o) && Legal(o, start, acts)
    ensures var sys := Run(o, start, acts); sys.core.state == Open ==> sys.core.openedAt == LatestOpening(sys.log)
  {
    if acts != [] {
      var prefix, a := acts[..|acts| - 1], acts[|acts| - 1];
      OpenedAtIsLatest(o, start, prefix);
      OpenedAtStep(o, Run(o, start, prefix), a);
    }
  }

  lemma OpenedAtStep(o: Options, sys: Sys, a: Act)
    requires sys.core.state == Open ==> sys.core.openedAt == LatestOpening(sys.log)
    ensures var next := Apply(o, sys, a); next.core.state == Open ==> next.core.openedAt == LatestOpening(next.log)
  {
    var next := Apply(o, sys, a);
    assert next.log[..|next.log| - 1] == sys.log;
  }

  // ---- Main results -------------------------------------------------------

  /**
   * Whether a call is admitted, from the log alone: always while closed, while open exactly when
   * the cooldown since the latest opening is over, and while half-open exactly when fewer than
   * HalfOpenMax calls were admitted since it became half-open.
   */
  lemma {:induction false} AdmittedExactly(o: Options, start: int, acts: seq<Act>, call: nat, now: int)
    requires Ready(o) && Legal(o, start, acts + [Allow(call, now)])
    ensures var sys, next := Run(o, start, acts), Run(o, start, acts + [Allow(call, now)]);
      && |next.log| == |sys.log| + 1
      && (next.log[|sys.log|].admitted <==>
            match sys.core.state
            case Closed => true
            case Open => now >= LatestOpening(sys.log) + o.cooldown
            case HalfOpen => Probes(sys.log) < o.halfOpenMax)
      && (next.core.state != sys.core.state <==> sys.core.state == Open && next.log[|sys.log|].admitted)
      && (next.core.state != sys.core.state ==> next.core.state == HalfOpen)
  {
    Snoc(o, start, acts, Allow(call, now));
    RunKeeps(o, start, acts);
    OpenedAtIsLatest(o, start, acts);
    hide Run, Legal, LatestOpening, Probes;
  }

  /**
   * What a reported result does: a failure opens a half-open breaker, a success closes it when it
   * is the HalfOpenMax-th, and while open neither changes anything, not even the cooldown.
   */
  lemma {:induction false} ReportedExactly(o: Options, start: int, acts: seq<Act>, call: nat, ok: bool, now: int)
    requires Ready(o) && Legal(o, start, acts + [Report(call, ok, now)])
    ensures var sys, next := Run(o, start, acts), Run(o, start, acts + [Report(call, ok, now)]);
      match sys.core.state
      case Open => next.core == sys.core && LatestOpening(next.log) == LatestOpening(sys.log)
      case HalfOpen =>
        if !ok then next.core.state == Open
        else if Successes(sys.log, true) + Successes(sys.log, false) + 1 == o.halfOpenMax then next.core.state == Closed
        else next.core.state == HalfOpen
      case Closed =>
        if ok then next.core.state == Closed && next.core.failures == 0
        else next.core.state == if TrailingFailures(sys.log) + 1 == o.failureThreshold then Open else Closed
  {
    Snoc(o, start, acts, Report(call, ok, now));
    RunKeeps(o, start, acts);
    hide Run, Legal, Probes, Successes, TrailingFailures;
    var sys := Run(o, start, acts);
    var next := Apply(o, sys, Report(call, ok, now));
    assert next.log[..|next.log| - 1] == sys.log;
  }

  /** A half-open breaker with no probe of its epoch still running admits the next call. */
  lemma {:induction false} NeverWedged(o: Options, start: int, acts: seq<Act>, now: int)
    requires Ready(o) && Legal(o, start, acts)
    requires var sys := Run(o, start, acts); sys.core.state == HalfOpen && Outstanding(sys) == {}
    ensures Admits(o, Run(o, start, acts).core, now)
  {
    hide Run, Legal;
    RunKeeps(o, start, acts);
  }

  /** The failure counter is the run of failures since the breaker last became closed. */
  lemma {:induction false} FailuresAreTrailingRun(o: Options, start: int, acts: seq<Act>)
    requires Ready(o) && Legal(o, start, acts)
    ensures var sys := Run(o, start, acts);
      sys.core.failures == TrailingFailures(sys.log) < o.failureThreshold
  {
    hide Run, Legal;
    RunKeeps(o, start, acts);
  }

  /** A closed breaker opens exactly on the failure that brings the run to the threshold. */
  lemma {:induction false} OpensAtThreshold(o: Options, start: int, acts: seq<Act>, a: Act)
    requires Ready(o) && Legal(o, start, acts + [a]) && Run(o, start, acts).core.state == Closed
    ensures var sys := Run(o, start, acts);
      Run(o, start, acts + [a]).core.state == Open <==>
      a.Report? && !a.ok && TrailingFailures(sys.log) + 1 == o.failureThreshold
  {
    Snoc(o, start, acts, a);
    hide Run, Legal;
    RunKeeps(o, start, acts);
  }

  /** After any opening no call is admitted for the whole cooldown. */
  lemma {:induction false} NoAdmissionDuringCooldown(o: Options, start: int, acts: seq<Act>, i: nat, j: nat)
    requires Ready(o) && Legal(o, start, acts)
    requires var log := Run(o, start, acts).log; i < j < |log| && Opens(log[i]) && log[j].admitted
    ensures var log := Run(o, start, acts).log; log[i].act.now + o.cooldown <= log[j].act.now
  {
    hide Run, Legal;
    RunKeeps(o, start, acts);
  }

  function Admissions(log: seq<Entry>): nat {
    if log == [] then 0 else Admissions(log[..|log| - 1]) + if log[|log| - 1].admitted then 1 else 0
  }

  lemma {:induction false} LogOfPrefix(o: Options, start: int, acts: seq<Act>, j: nat)
    requires Legal(o, start, acts) && j <= |acts|
    ensures |Run(o, start, acts).log| == |acts|
    ensures Legal(o, start, acts[..j]) && Run(o, start, acts[..j]).log == Run(o, start, acts).log[..j]
  {
    if j == |acts| {
      assert acts[..j] == acts;
      if acts != [] { LogOfPrefix(o, start, acts[..|acts| - 1], 0); }
    } else {
      LogOfPrefix(o, start, acts[..|acts| - 1], j);
      assert acts[..|acts| - 1][..j] == acts[..j];
    }
  }

  lemma {:induction false} BlockBelowProbes(log: seq<Entry>, i: nat)
    requires i <= |log| && forall k :: i <= k < |log| ==> log[k].after == HalfOpen
    ensures Admissions(log[i..]) <= Probes(log)
    decreases |log|
  {
    if i < |log| {
      var rest := log[..|log| - 1];
      BlockBelowProbes(rest, i);
      assert log[i..][..|log[i..]| - 1] == rest[i..];
    }
  }

  /** Any stretch of the log that stays half-open admits at most HalfOpenMax calls. */
  lemma {:induction false} HalfOpenAdmitsAtMost(o: Options, start: int, acts: seq<Act>, i: nat, j: nat)
    requires Ready(o) && Legal(o, start, acts) && i <= j <= |acts|
    requires |Run(o, start, acts).log| == |acts|
    requires forall k :: i <= k < j ==> Run(o, start, acts).log[k].after == HalfOpen
    ensures Admissions(Run(o, start, acts).log[i..j]) <= o.halfOpenMax
  {
    var log := Run(o, start, acts).log;
    LogOfPrefix(o, start, acts, j);
    hide Run, Legal;
    RunKeeps(o, start, acts[..j]);
    BlockBelowProbes(log[..j], i);
    assert log[..j][i..] == log[i..j];
  }

  /**
   * A half-open breaker closes after HalfOpenMax successes, but not always of its own probes:
   * it is HalfOpenMax own probes that succeeded exactly when no older call reported a success.
   */
  lemma {:induction false} CloseIsEarned(o: Options, start: int, acts: seq<Act>, a: Act)
    requires Ready(o) && Legal(o, start, acts + [a])
    requires Run(o, start, acts).core.state == HalfOpen && Run(o, start, acts + [a]).core.state == Closed
    ensures var log := Run(o, start, acts + [a]).log;
      Successes(log, true) == o.halfOpenMax <==> Successes(log, false) == 0
  {
    var sys := Run(o, start, acts);
    Snoc(o, start, acts, a);
    hide Run, Legal, Enabled;
    RunKeeps(o, start, acts);
    ClosingSuccesses(o, sys, a);
  }

  lemma ClosingSuccesses(o: Options, sys: Sys, a: Act)
    requires Ready(o) && Counted(o, sys)
    requires sys.core.state == HalfOpen && NextCore(o, sys.core, a).state == Closed
    ensures var log := Apply(o, sys, a).log;
      Successes(log, true) + Successes(log, false) == o.halfOpenMax
  {
    var log := Apply(o, sys, a).log;
    assert log[..|log| - 1] == sys.log;
  }

  // ---- When a close is earned ---------------------------------------------

  /** Calls still running that were admitted in an earlier epoch. */
  function Older(sys: Sys): set<nat> {
    set c | c in sys.out && sys.out[c] < sys.epoch
  }

  /** The last of these moves turned the open breaker half-open. */
  ghost predicate Begins(o: Options, start: int, acts: seq<Act>) {
    acts != [] && Run(o, start, acts[..|acts| - 1]).core.state == Open && Run(o, start, acts).core.state == HalfOpen
  }

  /** The continuation stays half-open until its last move, which closes. */
  ghost predicate ClosesBy(o: Options, start: int, acts: seq<Act>, more: seq<Act>) {
    && Legal(o, start, acts + more) && Run(o, start, acts + more).core.state == Closed
    && forall j :: 0 <= j < |more| ==> Run(o, start, acts + more[..j]).core.state == HalfOpen
  }

  /** Stale successes, across one move of a half-open breaker. */
  lemma StaleStep(o: Options, sys: Sys, a: Act)
    requires Ready(o) && Counted(o, sys) && ProbesLive(sys) && Enabled(sys, a) && sys.core.state == HalfOpen
    requires Apply(o, sys, a).core.state != Open
    ensures var next := Apply(o, sys, a); var before := Successes(sys.log, false);
      && before <= Successes(next.log, false)
      && (Older(sys) == {} ==> Successes(next.log, false) == before)
      && (Older(sys) == {} && next.core.state == HalfOpen ==> Older(next) == {})
      && (a.Report? && a.ok && a.call in Older(sys) ==> Successes(next.log, false) > before)
  {
    var next := Apply(o, sys, a);
    assert next.log[..|next.log| - 1] == sys.log;
    if a.Report? && Older(sys) == {} {
      assert a.call !in Older(sys);
    }
  }

  lemma BeginsClean(o: Options, sys: Sys, a: Act)
    requires Ready(o) && sys.core.state == Open && Apply(o, sys, a).core.state == HalfOpen
    ensures Successes(Apply(o, sys, a).log, false) == 0
  {
  }

  lemma PrefixOf(o: Options, start: int, acts: seq<Act>, more: seq<Act>)
    requires more != []
    ensures var front := more[..|more| - 1];
      && acts + more == (acts + front) + [more[|more| - 1]]
      && forall j :: 0 <= j <= |front| ==> front[..j] == more[..j]
  {
  }

  /** With no older call running at its beginning, a half-open epoch counts no stale success. */
  lemma {:induction false} NoStale(o: Options, start: int, acts: seq<Act>, more: seq<Act>)
    requires Ready(o) && Legal(o, start, acts + more) && Begins(o, start, acts) && Older(Run(o, start, acts)) == {}
    requires forall j :: 0 <= j <= |more| ==> Run(o, start, acts + more[..j]).core.state == HalfOpen
    ensures Successes(Run(o, start, acts + more).log, false) == 0 && Older(Run(o, start, acts + more)) == {}
    decreases |more|
  {
    hide Apply, Enabled, Older, Successes, Counted, ProbesLive;
    if more == [] {
      assert acts + more == acts;
      BeginsClean(o, Run(o, start, acts[..|acts| - 1]), acts[|acts| - 1]);
    } else {
      var front, a := more[..|more| - 1], more[|more| - 1];
      PrefixOf(o, start, acts, more);
      Snoc(o, start, acts + front, a);
      assert more[..|more|] == more;
      NoStale(o, start, acts, front);
      RunKeeps(o, start, acts + front);
      assert more[..|front|] == front;
      StaleStep(o, Run(o, start, acts + front), a);
    }
  }

  /** A stale success stays counted while the epoch lasts. */
  lemma {:induction false} StaleStays(o: Options, start: int, acts: seq<Act>, more: seq<Act>)
    requires Ready(o) && Legal(o, start, acts + more) && Run(o, start, acts + more).core.state != Open
    requires forall j :: 0 <= j < |more| ==> Run(o, start, acts + more[..j]).core.state == HalfOpen
    ensures Successes(Run(o, start, acts).log, false) <= Successes(Run(o, start, acts + more).log, false)
    decreases |more|
  {
    hide Apply, Enabled, Older, Successes, Counted, ProbesLive;
    if more == [] {
      assert acts + more == acts;
    } else {
      var front, a := more[..|more| - 1], more[|more| - 1];
      PrefixOf(o, start, acts, more);
      Snoc(o, start, acts + front, a);
      assert more[..|front|] == front;
      assert Run(o, start, acts + front).core.state == HalfOpen;
      StaleStays(o, start, acts, front);
      RunKeeps(o, start, acts + front);
      StaleStep(o, Run(o, start, acts + front), a);
    }
  }

  /** Own and stale successes make up the quota of every close. */
  lemma CloseSplits(o: Options, start: int, acts: seq<Act>, more: seq<Act>)
    requires Ready(o) && ClosesBy(o, start, acts, more) && Run(o, start, acts).core.state == HalfOpen
    ensures var log := Run(o, start, acts + more).log; Successes(log, true) + Successes(log, false) == o.halfOpenMax
    ensures more != []
  {
    assert more == [] ==> acts + more == acts;
    var front, a := more[..|more| - 1], more[|more| - 1];
    PrefixOf(o, start, acts, more);
    Snoc(o, start, acts + front, a);
    assert more[..|front|] == front;
    hide Run, Legal, Enabled, Successes;
    RunKeeps(o, start, acts + front);
    ClosingSuccesses(o, Run(o, start, acts + front), a);
  }

  lemma {:induction false} FreshCallExists(used: set<nat>) returns (call: nat)
    ensures forall c :: c in used ==> c < call
    decreases used
  {
    if used == {} {
      call := 0;
    } else {
      var c :| c in used;
      var above := FreshCallExists(used - {c});
      assert forall x :: x in used ==> x == c || x in used - {c};
      call := if c < above then above else c + 1;
    }
  }

  lemma ClosesCons(o: Options, start: int, acts: seq<Act>, a: Act, more: seq<Act>)
    requires Run(o, start, acts).core.state == HalfOpen && ClosesBy(o, start, acts + [a], more)
    ensures ClosesBy(o, start, acts, [a] + more)
  {
    hide Run, Legal;
    var all := [a] + more;
    assert acts + all == acts + [a] + more;
    forall j | 0 <= j < |all| ensures Run(o, start, acts + all[..j]).core.state == HalfOpen {
      if j == 0 {
        assert acts + all[..0] == acts;
      } else {
        assert acts + all[..j] == acts + [a] + more[..j - 1];
      }
    }
  }

  /** A half-open breaker can always be closed by successes of its own probes. */
  lemma {:induction false} CanClose(o: Options, start: int, acts: seq<Act>) returns (more: seq<Act>)
    requires Ready(o) && Legal(o, start, acts) && Run(o, start, acts).core.state == HalfOpen
    ensures ClosesBy(o, start, acts, more)
    decreases o.halfOpenMax - Run(o, start, acts).core.successes, Outstanding(Run(o, start, acts)) == {}
  {
    hide Run, Legal, ClosesBy;
    var sys := Run(o, start, acts);
    RunKeeps(o, start, acts);
    var a: Act;
    if p :| p in Outstanding(sys) {
      a := Report(p, true, sys.now);
    } else {
      var c := FreshCallExists(sys.used);
      a := Allow(c, sys.now);
      OneOutstanding(o, sys, c);
    }
    Snoc(o, start, acts, a);
    if Apply(o, sys, a).core.state == Closed {
      more := [a];
      ClosesNow(o, start, acts, a);
    } else {
      var rest := CanClose(o, start, acts + [a]);
      more := [a] + rest;
      ClosesCons(o, start, acts, a, rest);
    }
  }

  lemma OneOutstanding(o: Options, sys: Sys, call: nat)
    requires Counted(o, sys) && ProbesLive(sys)
    requires sys.core.state == HalfOpen && Outstanding(sys) == {} && call !in sys.used
    ensures var next := Apply(o, sys, Allow(call, sys.now));
      next.core.state == HalfOpen && next.core.successes == sys.core.successes && call in Outstanding(next)
  {
    assert |Outstanding(sys)| == 0;
    assert Admits(o, sys.core, sys.now);
  }

  lemma ClosesNow(o: Options, start: int, acts: seq<Act>, a: Act)
    requires Legal(o, start, acts + [a]) && Run(o, start, acts).core.state == HalfOpen
    requires Run(o, start, acts + [a]).core.state == Closed
    ensures ClosesBy(o, start, acts, [a])
  {
    hide Run, Legal;
    assert acts + [a][..0] == acts;
  }

  /** An older call still running can report a success that the close then counts. */
  lemma StaleCloseExists(o: Options, start: int, acts: seq<Act>, c: nat) returns (more: seq<Act>)
    requires Ready(o) && Legal(o, start, acts) && Run(o, start, acts).core.state == HalfOpen
    requires c in Older(Run(o, start, acts))
    ensures ClosesBy(o, start, acts, more) && Successes(Run(o, start, acts + more).log, false) > 0
  {
    hide Run, Legal, Successes;
    var sys := Run(o, start, acts);
    var a := Report(c, true, sys.now);
    RunKeeps(o, start, acts);
    Snoc(o, start, acts, a);
    StaleStep(o, sys, a);
    if Apply(o, sys, a).core.state == Closed {
      more := [a];
      ClosesNow(o, start, acts, a);
    } else {
      var rest := CanClose(o, start, acts + [a]);
      more := [a] + rest;
      ClosesCons(o, start, acts, a, rest);
      StaleStays(o, start, acts + [a], rest);
      assert acts + more == acts + [a] + rest;
    }
  }

  /**
   * Main result: whether a half-open epoch's close is sure to be earned is known when it begins.
   * Every continuation that closes it took HalfOpenMax successes of its own probes exactly when no
   * call admitted before is still running.
   */
  lemma {:induction false} ClosesAreEarnedExactly(o: Options, start: int, acts: seq<Act>)
    requires Ready(o) && Legal(o, start, acts) && Begins(o, start, acts)
    ensures (forall more :: ClosesBy(o, start, acts, more) ==>
               Successes(Run(o, start, acts + more).log, true) == o.halfOpenMax)
      <==> Older(Run(o, start, acts)) == {}
  {
    hide Run, Legal, ClosesBy, Older, Successes, Begins;
    if Older(Run(o, start, acts)) == {} {
      forall more | ClosesBy(o, start, acts, more)
        ensures Successes(Run(o, start, acts + more).log, true) == o.halfOpenMax
      {
        EarnedAlone(o, start, acts, more);
      }
    } else {
      var c :| c in Older(Run(o, start, acts));
      HalfOpenAtBegin(o, start, acts);
      var more := StaleCloseExists(o, start, acts, c);
      CloseSplits(o, start, acts, more);
    }
  }

  lemma HalfOpenAtBegin(o: Options, start: int, acts: seq<Act>)
    requires Begins(o, start, acts)
    ensures Run(o, start, acts).core.state == HalfOpen
  {
  }

  lemma EarnedAlone(o: Options, start: int, acts: seq<Act>, more: seq<Act>)
    requires Ready(o) && Begins(o, start, acts) && Older(Run(o, start, acts)) == {} && ClosesBy(o, start, acts, more)
    ensures Successes(Run(o, start, acts + more).log, true) == o.halfOpenMax
  {
    CloseSplits(o, start, acts, more);
    var front, a := more[..|more| - 1], more[|more| - 1];
    PrefixOf(o, start, acts, more);
    Snoc(o, start, acts + front, a);
    assert more[..|front|] == front;
    hide Run, Legal, Successes, Older, Begins, Enabled;
    NoStale(o, start, acts, front);
    RunKeeps(o, start, acts + front);
    StaleStep(o, Run(o, start, acts + front), a);
  }

  /** With threshold 1 and one probe: a success from before the opening closes the circuit. */
  lemma StaleSuccessCloses()
    ensures var o := Options(1, 1, 1);
      var prefix := [] + [Allow(0, 0)] + [Allow(1, 0)] + [Report(0, false, 0)];
      var acts := prefix + [Allow(2, 1)] + [Report(1, true, 1)];
      && Legal(o, 0, acts) && Run(o, 0, prefix).core.state == Open
      && Run(o, 0, acts).core.state == Closed && 2 in Run(o, 0, acts).out
      && Successes(Run(o, 0, acts).log, true) == 0
  {
    var o := Options(1, 1, 1);
    var a0, a1, a2, a3, a4 := Allow(0, 0), Allow(1, 0), Report(0, false, 0), Allow(2, 1), Report(1, true, 1);
    var prefix := [] + [a0] + [a1] + [a2];
    Snoc(o, 0, [], a0);
    Snoc(o, 0, [] + [a0], a1);
    Snoc(o, 0, [] + [a0] + [a1], a2);
    Snoc(o, 0, prefix, a3);
    Snoc(o, 0, prefix + [a3], a4);
    assert Legal(o, 0, []) && Run(o, 0, []) == Init(0);
    hide Run, Legal;
    var sys := Run(o, 0, prefix);
    assert sys.core == Core(Open, 0, 0, 0, 0) && sys.now == 0 && sys.out == map[1 := 0] && sys.epoch == 1;
    assert sys.used == {0, 1};
    StaleAfter(o, sys);
  }

  lemma StaleAfter(o: Options, sys: Sys)
    requires o == Options(1, 1, 1) && sys.core == Core(Open, 0, 0, 0, 0) && sys.now == 0
    requires sys.out == map[1 := 0] && sys.epoch == 1 && sys.used == {0, 1}
    ensures var probing := Apply(o, sys, Allow(2, 1));
      var last := Apply(o, probing, Report(1, true, 1));
      && Enabled(sys, Allow(2, 1)) && Enabled(probing, Report(1, true, 1))
      && last.core.state == Closed && 2 in last.out && Successes(last.log, true) == 0
  {
    var probing := Apply(o, sys, Allow(2, 1));
    var log := Apply(o, probing, Report(1, true, 1)).log;
    assert probing.core == Core(HalfOpen, 0, 1, 0, 0);
    assert log[..|log| - 1] == probing.log && !log[|log| - 1].own;
  }
}
