// The package globals of metrics/metrics.go and metrics/instruments.go: a once-only
// setup that can fail at every stage, run by callers one after the other (the class)
// and by any number of callers at once (the step machine).
module MetricsSetup {
  import opened Wrappers
  import opened MetricsConfig

  // What the libraries do during one setup: which reader constructors fail, whether the
  // resource is built, which of the four instruments fail.
  datatype Env = Env(readerFails: nat -> bool, resourceFails: bool, instrumentFails: nat -> bool)

  datatype SetupError = Readers(reader: ReaderError) | Resource | Instrument(index: nat)
  datatype InitError = InvalidConfig | Setup(setup: SetupError)

  // The first of the four instruments that fails.
  function FirstInstrumentFailure(env: Env): (k: nat)
    ensures k <= 4
    ensures forall i :: 0 <= i < k ==> !env.instrumentFails(i)
    ensures k < 4 ==> env.instrumentFails(k)
  {
    if env.instrumentFails(0) then 0
    else if env.instrumentFails(1) then 1
    else if env.instrumentFails(2) then 2
    else if env.instrumentFails(3) then 3
    else 4
  }

  /** How a setup ends: with the failure of its first failing stage. */
  function Outcome(exporters: seq<ExporterType>, env: Env): Option<SetupError> {
    if ReadersError(exporters, env.readerFails).Some? then Some(Readers(ReadersError(exporters, env.readerFails).value))
    else if env.resourceFails then Some(Resource)
    else if FirstInstrumentFailure(env) < 4 then Some(Instrument(FirstInstrumentFailure(env)))
    else None
  }

  /** The stages in their order: readers, resource, the four instruments. The first one that
      fails gives the error, and there is none exactly if none fails. */
  lemma OutcomeByStages(exporters: seq<ExporterType>, env: Env)
    ensures var outcome, readers := Outcome(exporters, env), ReadersError(exporters, env.readerFails);
            && (outcome.None? <==>
                  readers.None? && !env.resourceFails && forall k :: 0 <= k < 4 ==> !env.instrumentFails(k))
            && (readers.Some? ==> outcome == Some(Readers(readers.value)))
            && (readers.None? && env.resourceFails ==> outcome == Some(Resource))
            && (readers.None? && !env.resourceFails && outcome.Some? ==>
                  && outcome.value.Instrument? && outcome.value.index < 4 && env.instrumentFails(outcome.value.index)
                  && forall k :: 0 <= k < outcome.value.index ==> !env.instrumentFails(k))
  {
  }

  // What one call asks for, and what the libraries do if it is the one that sets up.
  datatype Request = Request(exporters: seq<ExporterType>, env: Env)

  // ----- callers one after the other ----------------------------------------------------

  class Metrics {
    var onceDone: bool
    var initErr: Option<SetupError>
    var initialized: bool
    var otelProvider: Option<seq<Reader>>
    var promHTTP: bool
    var serverRequests: bool
    var serverSeconds: bool
    var clientRequests: bool
    var clientSeconds: bool
    // Which call ran the setup.
    ghost var ran: Option<Request>

    predicate AllInstruments()
      reads this
    {
      serverRequests && serverSeconds && clientRequests && clientSeconds
    }

    predicate Untouched()
      reads this
    {
      && !initialized && initErr.None? && otelProvider.None? && !promHTTP
      && !serverRequests && !serverSeconds && !clientRequests && !clientSeconds
    }

    // Before the once nothing is set; after it everything is as the one setup left it.
    ghost predicate Valid()
      reads this
    {
      && (onceDone <==> ran.Some?)
      && (!onceDone ==> Untouched())
      && (onceDone ==> !Conflicting(ran.value.exporters) && initErr == Outcome(ran.value.exporters, ran.value.env))
      && (initialized <==> onceDone && initErr.None?)
      && (initialized ==> AllInstruments() && otelProvider.Some?)
      && (promHTTP <==> initialized && PROMETHEUS in ran.value.exporters)
    }

    // The globals as the step machine has them, with its one caller as the winner.
    function AsGlobals(): Globals
      reads this
    {
      var instruments := [serverRequests, serverSeconds, clientRequests, clientSeconds];
      assert |instruments| == 4;
      Globals(if onceDone then Done(0) else Idle, initErr, initialized, otelProvider.Some?, promHTTP, instruments)
    }

    constructor ()
      ensures Valid() && !onceDone
    {
      onceDone, initErr, initialized, otelProvider, promHTTP, ran := false, None, false, None, false, None;
      serverRequests, serverSeconds, clientRequests, clientSeconds := false, false, false, false;
    }

    // A failing instrument leaves its own global nil and the later ones untouched.
    method SetupBusinessMetrics(env: Env) returns (err: Option<SetupError>)
      modifies this`serverRequests, this`serverSeconds, this`clientRequests, this`clientSeconds
      ensures var k := FirstInstrumentFailure(env);
              && err == (if k < 4 then Some(Instrument(k)) else None)
              && serverRequests == (if k > 0 then true else false)
              && serverSeconds == (if k > 1 then true else if k == 1 then false else old(serverSeconds))
              && clientRequests == (if k > 2 then true else if k == 2 then false else old(clientRequests))
              && clientSeconds == (if k > 3 then true else if k == 3 then false else old(clientSeconds))
    {
      serverRequests := !env.instrumentFails(0);
      if env.instrumentFails(0) {
        return Some(Instrument(0));
      }
      serverSeconds := !env.instrumentFails(1);
      if env.instrumentFails(1) {
        return Some(Instrument(1));
      }
      clientRequests := !env.instrumentFails(2);
      if env.instrumentFails(2) {
        return Some(Instrument(2));
      }
      clientSeconds := !env.instrumentFails(3);
      if env.instrumentFails(3) {
        return Some(Instrument(3));
      }
      err := None;
    }

    method SetupMetricProvider(exporters: seq<ExporterType>, env: Env) returns (err: Option<SetupError>)
      requires Untouched()
      modifies this`otelProvider, this`promHTTP, this`serverRequests, this`serverSeconds, this`clientRequests,
               this`clientSeconds
      ensures err == Outcome(exporters, env)
      ensures promHTTP <==> err.None? && PROMETHEUS in exporters
      ensures otelProvider.Some? <==> err.None? || err.value.Instrument?
      ensures otelProvider.Some? ==> |otelProvider.value| == |exporters|
      ensures var built := if otelProvider.Some? then FirstInstrumentFailure(env) else 0;
              && (serverRequests <==> built > 0) && (serverSeconds <==> built > 1)
              && (clientRequests <==> built > 2) && (clientSeconds <==> built > 3)
    {
      var readers := NewMetricReaders(exporters, env.readerFails);
      if readers.Err? {
        return Some(Readers(readers.error));
      }
      if env.resourceFails {
        return Some(Resource);
      }
      otelProvider := Some(readers.value);
      err := SetupBusinessMetrics(env);
      if err.Some? {
        return;
      }
      var listed := HasPrometheusExporter(exporters);
      if listed {
        promHTTP := true;
      }
    }

    /** InitWithConfig. A conflicting list is refused and changes nothing, not even the
        once; the first valid call decides, and all later ones repeat its result. */
    method InitWithConfig(exporters: seq<ExporterType>, env: Env) returns (err: Option<InitError>)
      requires Valid()
      modifies this
      ensures Valid()
      ensures Conflicting(exporters) ==> err == Some(InvalidConfig) && unchanged(this)
      ensures !Conflicting(exporters) ==>
                && err == (if initErr.Some? then Some(InitError.Setup(initErr.value)) else None)
                && ran == (if old(ran).Some? then old(ran) else Some(Request(exporters, env)))
                && (old(onceDone) ==> unchanged(this))
      // A caller of the step machine that is alone ends with these globals and this result.
      ensures Finish(Alone(old(AsGlobals()), Request(exporters, env), Calling, 0))
           == Alone(AsGlobals(), Request(exporters, env), Returned(err),
                    if old(onceDone) || Conflicting(exporters) then 0 else 1)
    {
      FinishOfACall(AsGlobals(), Request(exporters, env), 0);
      var ok := ValidateConfig(exporters);
      if !ok {
        return Some(InvalidConfig);
      }
      if !onceDone {
        initErr := SetupMetricProvider(exporters, env);
        initialized := initErr.None?;
        onceDone, ran := true, Some(Request(exporters, env));
      }
      err := AsInitError(initErr);
    }

    /** PromHandler hands out the real handler, and not the one that answers "not found",
        exactly when some call has run the setup to its end with Prometheus listed; all
        instruments are then there to be served. */
    method PromHandler() returns (found: bool)
      requires Valid()
      ensures found <==>
                && ran.Some? && Outcome(ran.value.exporters, ran.value.env).None?
                && PROMETHEUS in ran.value.exporters
      ensures found ==> serverRequests && serverSeconds && clientRequests && clientSeconds && otelProvider.Some?
    {
      if !initialized || !promHTTP {
        return false;
      }
      return true;
    }
  }

  function AsInitError(err: Option<SetupError>): Option<InitError> {
    match err
    case None => None
    case Some(e) => Some(Setup(e))
  }

  method HasPrometheusExporter(exporters: seq<ExporterType>) returns (listed: bool)
    ensures listed <==> PROMETHEUS in exporters
  {
    for i := 0 to |exporters|
      invariant PROMETHEUS !in exporters[..i]
    {
      if exporters[i] == PROMETHEUS {
        return true;
      }
    }
    assert exporters[..|exporters|] == exporters;
    return false;
  }

  // ----- callers at the same time ---------------------------------------------------------

  datatype Once = Idle | Running(owner: nat) | Done(winner: nat)

  // Server requests, server seconds, client requests, client seconds.
  type Instruments = s: seq<bool> | |s| == 4 witness [false, false, false, false]

  datatype Globals = Globals(
    once: Once, initErr: Option<SetupError>, initialized: bool, provider: bool, promHTTP: bool,
    instruments: Instruments)

  // Where a caller is; the stages of the setup body are taken one at a time.
  datatype Pc =
    | Calling
    | AtOnce
    | BuildReaders
    | BuildResource
    | SetProvider
    | BuildInstrument(index: nat)
    | SetHandler
    | StoreErr(err: Option<SetupError>)
    | StoreFlag
    | LeaveOnce
    | Returned(result: Option<InitError>)

  datatype Caller = Caller(exporters: seq<ExporterType>, env: Env, pc: Pc)

  // `bodies` counts how often the setup body was entered.
  datatype State = State(g: Globals, callers: seq<Caller>, bodies: nat)

  const FRESH_GLOBALS := Globals(Idle, None, false, false, false, [false, false, false, false])

  predicate Initial(s: State) {
    && s.g == FRESH_GLOBALS && s.bodies == 0
    && forall i :: 0 <= i < |s.callers| ==> s.callers[i].pc == Calling
  }

  // Any callers may begin.
  lemma AnyCallersCanBegin(requests: seq<Request>)
    ensures Initial(State(Globals(Idle, None, false, false, false, [false, false, false, false]),
                          seq(|requests|, i requires 0 <= i < |requests| =>
                            Caller(requests[i].exporters, requests[i].env, Calling)), 0))
  {
  }

  predicate InBody(pc: Pc) {
    !pc.Calling? && !pc.AtOnce? && !pc.Returned?
  }

  function Goto(s: State, i: nat, g: Globals, pc: Pc): State
    requires i < |s.callers|
  {
    s.(g := g, callers := s.callers[i := s.callers[i].(pc := pc)])
  }

  // One step of caller i; a caller that waits for the once stays where it is.
  function Step(s: State, i: nat): State
    requires i < |s.callers|
  {
    var c, g := s.callers[i], s.g;
    match c.pc
    case Calling => Goto(s, i, g, if Conflicting(c.exporters) then Returned(Some(InvalidConfig)) else AtOnce)
    case AtOnce =>
      (match g.once
       case Idle => Goto(s, i, g.(once := Running(i)), BuildReaders).(bodies := s.bodies + 1)
       case Running(_) => s
       case Done(_) => Goto(s, i, g, Returned(AsInitError(g.initErr))))
    case BuildReaders =>
      var err := ReadersError(c.exporters, c.env.readerFails);
      Goto(s, i, g, if err.Some? then StoreErr(Some(Readers(err.value))) else BuildResource)
    case BuildResource => Goto(s, i, g, if c.env.resourceFails then StoreErr(Some(Resource)) else SetProvider)
    case SetProvider => Goto(s, i, g.(provider := true), BuildInstrument(0))
    case BuildInstrument(k) =>
      if k >= 4 then Goto(s, i, g, SetHandler)
      else
        var g' := g.(instruments := g.instruments[k := !c.env.instrumentFails(k)]);
        Goto(s, i, g', if c.env.instrumentFails(k) then StoreErr(Some(Instrument(k))) else BuildInstrument(k + 1))
    case SetHandler => Goto(s, i, g.(promHTTP := g.promHTTP || PROMETHEUS in c.exporters), StoreErr(None))
    case StoreErr(err) => Goto(s, i, g.(initErr := err), StoreFlag)
    case StoreFlag => Goto(s, i, g.(initialized := g.initErr.None?), LeaveOnce)
    case LeaveOnce => Goto(s, i, g.(once := Done(i)), Returned(AsInitError(g.initErr)))
    case Returned(_) => s
  }

  // What holds of the globals while the owner of the once is at a point of the body.
  ghost predicate BodyHolds(g: Globals, c: Caller) {
    var outcome := Outcome(c.exporters, c.env);
    && !Conflicting(c.exporters)
    && (g.initialized <==> c.pc.LeaveOnce? && outcome.None?)
    && (g.promHTTP ==> PROMETHEUS in c.exporters && outcome.None?)
    && match c.pc
       case BuildReaders => !g.promHTTP && g.initErr.None?
       case BuildResource =>
         !g.promHTTP && g.initErr.None? && ReadersError(c.exporters, c.env.readerFails).None?
       case SetProvider =>
         !g.promHTTP && g.initErr.None? && ReadersError(c.exporters, c.env.readerFails).None? && !c.env.resourceFails
       case BuildInstrument(k) =>
         && !g.promHTTP && g.initErr.None? && k <= 4
         && ReadersError(c.exporters, c.env.readerFails).None? && !c.env.resourceFails
         && forall j :: 0 <= j < k ==> g.instruments[j] && !c.env.instrumentFails(j)
       case SetHandler =>
         !g.promHTTP && g.initErr.None? && outcome.None? && g.instruments == [true, true, true, true]
       case StoreErr(err) => err == outcome && Settled(g, c)
       case StoreFlag => g.initErr == outcome && Settled(g, c)
       case LeaveOnce => g.initErr == outcome && Settled(g, c)
       case _ => false
  }

  // The setup body has done all it will do to handler and instruments.
  ghost predicate Settled(g: Globals, c: Caller) {
    && (g.promHTTP <==> Outcome(c.exporters, c.env).None? && PROMETHEUS in c.exporters)
    && (Outcome(c.exporters, c.env).None? ==> g.instruments == [true, true, true, true])
  }

  ghost predicate Inv(s: State) {
    && (forall i :: 0 <= i < |s.callers| && s.callers[i].pc.AtOnce? ==> !Conflicting(s.callers[i].exporters))
    && (forall i :: 0 <= i < |s.callers| && InBody(s.callers[i].pc) ==> s.g.once == Running(i))
    && (forall i :: 0 <= i < |s.callers| && s.callers[i].pc.Returned? ==> ReturnedRight(s, s.callers[i]))
    && match s.g.once
       case Idle => s.g == FRESH_GLOBALS && s.bodies == 0
       case Running(owner) =>
         s.bodies == 1 && owner < |s.callers| && BodyHolds(s.g, s.callers[owner])
       case Done(winner) =>
         && s.bodies == 1 && winner < |s.callers|
         && !Conflicting(s.callers[winner].exporters)
         && s.g.initErr == Outcome(s.callers[winner].exporters, s.callers[winner].env)
         && Settled(s.g, s.callers[winner])
         && (s.g.initialized <==> s.g.initErr.None?)
  }

  ghost predicate ReturnedRight(s: State, c: Caller)
    requires c.pc.Returned?
  {
    if Conflicting(c.exporters) then c.pc.result == Some(InvalidConfig)
    else s.g.once.Done? && c.pc.result == AsInitError(s.g.initErr)
  }

  // The globals and the stepping caller after a step of the body.
  lemma BodyStepHolds(s: State, i: nat)
    requires Inv(s) && i < |s.callers| && s.g.once == Running(i) && InBody(s.callers[i].pc)
    ensures var s' := Step(s, i);
            && s'.bodies == 1
            && (s.callers[i].pc.LeaveOnce? ==>
                  && s'.g == s.g.(once := Done(i))
                  && s'.callers[i].pc == Returned(AsInitError(s.g.initErr)))
            && (!s.callers[i].pc.LeaveOnce? ==>
                  && InBody(s'.callers[i].pc) && s'.g.once == Running(i)
                  && BodyHolds(s'.g, s'.callers[i]))
  {
    var c := s.callers[i];
    if c.pc.BuildInstrument? && c.pc.index < 4 && c.env.instrumentFails(c.pc.index) {
      assert FirstInstrumentFailure(c.env) == c.pc.index;
    }
    if c.pc.BuildInstrument? && c.pc.index == 4 {
      assert s.g.instruments == [true, true, true, true];
      assert FirstInstrumentFailure(c.env) == 4;
    }
  }

  lemma StepKeepsInv(s: State, i: nat)
    requires Inv(s) && i < |s.callers|
    ensures Inv(Step(s, i))
  {
    var s' := Step(s, i);
    if InBody(s.callers[i].pc) {
      BodyStepHolds(s, i);
    }
    assert forall j :: 0 <= j < |s.callers| && j != i ==> s'.callers[j] == s.callers[j];
  }

  // A schedule names the caller that steps next; a name that does not exist is skipped.
  ghost function RunSchedule(s: State, schedule: seq<nat>): State {
    if schedule == [] then s
    else
      var before := RunSchedule(s, schedule[..|schedule| - 1]);
      var i := schedule[|schedule| - 1];
      if i < |before.callers| then Step(before, i) else before
  }

  lemma {:induction false} ScheduleKeepsInv(s: State, schedule: seq<nat>)
    requires Inv(s)
    ensures Inv(RunSchedule(s, schedule))
  {
    if schedule != [] {
      var before := RunSchedule(s, schedule[..|schedule| - 1]);
      var i := schedule[|schedule| - 1];
      ScheduleKeepsInv(s, schedule[..|schedule| - 1]);
      if i < |before.callers| {
        StepKeepsInv(before, i);
      }
    }
  }

  /** Over every interleaving of any number of callers: the setup body is entered at most
      once; a caller with conflicting exporters is refused; every valid caller that
      returns reports one and the same result, that of the caller that ran the body. */
  lemma OneSetupOneResult(s0: State, schedule: seq<nat>, i: nat)
    requires Initial(s0) && i < |RunSchedule(s0, schedule).callers|
    ensures var s := RunSchedule(s0, schedule);
            && s.bodies <= 1
            && (s.callers[i].pc.Returned? && Conflicting(s.callers[i].exporters) ==>
                  s.callers[i].pc.result == Some(InvalidConfig))
            && (s.callers[i].pc.Returned? && !Conflicting(s.callers[i].exporters) ==>
                  && s.g.once.Done? && s.g.once.winner < |s.callers|
                  && var winner := s.callers[s.g.once.winner];
                     && !Conflicting(winner.exporters)
                     && s.callers[i].pc.result == AsInitError(Outcome(winner.exporters, winner.env)))
  {
    ScheduleKeepsInv(s0, schedule);
  }

  /** A refused caller never takes the once: its steps leave the globals as they are. */
  lemma ConflictingCallerTouchesNothing(s0: State, schedule: seq<nat>, i: nat)
    requires Initial(s0) && i < |RunSchedule(s0, schedule).callers|
    requires Conflicting(RunSchedule(s0, schedule).callers[i].exporters)
    ensures Step(RunSchedule(s0, schedule), i).g == RunSchedule(s0, schedule).g
    ensures Step(RunSchedule(s0, schedule), i).callers[i].pc == Returned(Some(InvalidConfig))
  {
    ScheduleKeepsInv(s0, schedule);
  }

  // The caller that entered the body, once it has stored `initialized`.
  function Flagged(s: State): Option<nat> {
    match s.g.once
    case Idle => None
    case Running(owner) => if owner < |s.callers| && s.callers[owner].pc.LeaveOnce? then Some(owner) else None
    case Done(winner) => Some(winner)
  }

  /** In every reachable state, also in the middle of the setup, PromHandler hands out the
      real handler exactly when the one setup has ended without error and its exporters
      list Prometheus; and `initialized` implies that all four instruments are set. */
  lemma HandlerIsRealExactlyAfterSuccess(s0: State, schedule: seq<nat>)
    requires Initial(s0)
    ensures var s := RunSchedule(s0, schedule);
            && (s.g.initialized && s.g.promHTTP <==>
                  && Flagged(s).Some? && Flagged(s).value < |s.callers|
                  && var c := s.callers[Flagged(s).value];
                     Outcome(c.exporters, c.env).None? && PROMETHEUS in c.exporters)
            && (s.g.initialized ==> s.g.instruments == [true, true, true, true])
  {
    ScheduleKeepsInv(s0, schedule);
  }

  /** Nobody waits forever by design: as long as a caller has not returned, some caller can
      take a step that changes the state. */
  lemma SomeCallerCanMove(s: State, waiting: nat) returns (i: nat)
    requires Inv(s) && waiting < |s.callers| && !s.callers[waiting].pc.Returned?
    ensures i < |s.callers| && Step(s, i) != s
  {
    i := if s.callers[waiting].pc.AtOnce? && s.g.once.Running? then s.g.once.owner else waiting;
    assert Step(s, i).callers[i].pc != s.callers[i].pc;
  }

  // The steps that a caller at this point can still take, at most.
  function StepsLeft(pc: Pc): nat {
    match pc
    case Calling => MAX_STEPS
    case AtOnce => 13
    case BuildReaders => 12
    case BuildResource => 11
    case SetProvider => 10
    case BuildInstrument(k) => if k < 4 then 9 - k else 5
    case SetHandler => 4
    case StoreErr(_) => 3
    case StoreFlag => 2
    case LeaveOnce => 1
    case Returned(_) => 0
  }

  const MAX_STEPS: nat := 14

  function StepsLeftOf(callers: seq<Caller>): nat {
    if callers == [] then 0 else StepsLeftOf(callers[..|callers| - 1]) + StepsLeft(callers[|callers| - 1].pc)
  }

  lemma {:induction false} StepsLeftUpdate(callers: seq<Caller>, i: nat, c: Caller)
    requires i < |callers|
    ensures StepsLeftOf(callers[i := c]) == StepsLeftOf(callers) - StepsLeft(callers[i].pc) + StepsLeft(c.pc)
  {
    var last, updated := |callers| - 1, callers[i := c];
    if i == last {
      assert updated[..last] == callers[..last];
    } else {
      assert updated[..last] == callers[..last][i := c];
      StepsLeftUpdate(callers[..last], i, c);
    }
  }

  // A step that changes the state moves its caller, and no other, nearer to its return.
  lemma StepGoesOn(s: State, i: nat)
    requires i < |s.callers| && Step(s, i) != s
    ensures StepsLeft(Step(s, i).callers[i].pc) < StepsLeft(s.callers[i].pc)
  {
    match s.callers[i].pc
    case BuildInstrument(k) =>
    case AtOnce =>
    case BuildReaders =>
    case _ =>
  }

  lemma StepMovesOneCaller(s: State, i: nat)
    requires i < |s.callers|
    ensures Step(s, i).callers == s.callers[i := Step(s, i).callers[i]]
  {
  }

  lemma StepUsesUpOne(s: State, i: nat)
    requires i < |s.callers| && Step(s, i) != s
    ensures StepsLeftOf(Step(s, i).callers) < StepsLeftOf(s.callers)
  {
    StepGoesOn(s, i);
    StepMovesOneCaller(s, i);
    StepsLeftUpdate(s.callers, i, Step(s, i).callers[i]);
  }

  lemma {:induction false} FirstStepsLeft(callers: seq<Caller>)
    requires forall i :: 0 <= i < |callers| ==> callers[i].pc == Calling
    ensures StepsLeftOf(callers) == MAX_STEPS * |callers|
  {
    if callers != [] {
      FirstStepsLeft(callers[..|callers| - 1]);
    }
  }

  // The schedule names nobody who has returned or waits for the once.
  ghost predicate Busy(s: State, schedule: seq<nat>) {
    schedule != [] ==>
      && Busy(s, schedule[..|schedule| - 1])
      && var before := RunSchedule(s, schedule[..|schedule| - 1]);
         var i := schedule[|schedule| - 1];
         i < |before.callers| && Step(before, i) != before
  }

  /** Every run that does not idle ends, after a bounded number of steps for each caller, and
      when it cannot go on all callers have returned. */
  lemma {:induction false} EveryBusyRunReturnsAll(s0: State, schedule: seq<nat>)
    requires Initial(s0) && Busy(s0, schedule)
    ensures var s := RunSchedule(s0, schedule);
            && |schedule| + StepsLeftOf(s.callers) <= MAX_STEPS * |s0.callers|
            && ((forall i :: 0 <= i < |s.callers| ==> s.callers[i].pc.Returned?)
                <==> forall i: nat :: !Busy(s0, schedule + [i]))
  {
    BusyRunIsBounded(s0, schedule);
    ScheduleKeepsInv(s0, schedule);
    var s := RunSchedule(s0, schedule);
    forall i: nat ensures Busy(s0, schedule + [i]) <==> i < |s.callers| && Step(s, i) != s {
      BusyOneMore(s0, schedule, i);
    }
    StuckExactlyWhenAllReturned(s);
  }

  lemma StuckExactlyWhenAllReturned(s: State)
    requires Inv(s)
    ensures (forall i :: 0 <= i < |s.callers| ==> s.callers[i].pc.Returned?)
       <==> forall i :: 0 <= i < |s.callers| ==> Step(s, i) == s
  {
    if waiting: nat :| waiting < |s.callers| && !s.callers[waiting].pc.Returned? {
      var i := SomeCallerCanMove(s, waiting);
    }
  }

  lemma BusyOneMore(s0: State, schedule: seq<nat>, i: nat)
    requires Busy(s0, schedule)
    ensures Busy(s0, schedule + [i]) <==>
            i < |RunSchedule(s0, schedule).callers| && Step(RunSchedule(s0, schedule), i) != RunSchedule(s0, schedule)
  {
    assert (schedule + [i])[..|schedule|] == schedule;
  }

  lemma {:induction false} BusyRunIsBounded(s0: State, schedule: seq<nat>)
    requires Initial(s0) && Busy(s0, schedule)
    ensures |schedule| + StepsLeftOf(RunSchedule(s0, schedule).callers) <= MAX_STEPS * |s0.callers|
  {
    if schedule == [] {
      FirstStepsLeft(s0.callers);
    } else {
      var init := schedule[..|schedule| - 1];
      BusyRunIsBounded(s0, init);
      StepUsesUpOne(RunSchedule(s0, init), schedule[|schedule| - 1]);
    }
  }

  /** Once the once is done the globals are final: a handler that was fetched then is the one
      that every later call of PromHandler hands out, whoever else initialises. */
  lemma {:induction false} GlobalsAreFinalAfterTheOnce(s0: State, schedule: seq<nat>, more: seq<nat>)
    requires Initial(s0) && RunSchedule(s0, schedule).g.once.Done?
    ensures RunSchedule(s0, schedule + more).g == RunSchedule(s0, schedule).g
  {
    if more == [] {
      assert schedule + more == schedule;
    } else {
      var init := more[..|more| - 1];
      GlobalsAreFinalAfterTheOnce(s0, schedule, init);
      assert (schedule + more)[..|schedule + more| - 1] == schedule + init;
      ScheduleKeepsInv(s0, schedule + init);
    }
  }

  // ----- one caller alone is the sequential code ---------------------------------------------

  // A caller that runs without any other, to the end of its call.
  ghost function Finish(s: State): (end: State)
    requires |s.callers| == 1
    decreases StepsLeft(s.callers[0].pc)
  {
    if Step(s, 0) == s then s else StepGoesOn(s, 0); Finish(Step(s, 0))
  }

  function Alone(g: Globals, request: Request, pc: Pc, bodies: nat): State {
    State(g, [Caller(request.exporters, request.env, pc)], bodies)
  }

  lemma FinishGoesOn(s: State)
    requires |s.callers| == 1
    ensures Finish(s) == Finish(Step(s, 0))
  {
  }

  // Finish is a schedule of the machine.
  lemma {:induction false} FinishIsASchedule(s: State) returns (schedule: seq<nat>)
    requires |s.callers| == 1
    ensures RunSchedule(s, schedule) == Finish(s)
    decreases StepsLeft(s.callers[0].pc)
  {
    if Step(s, 0) == s {
      schedule := [];
    } else {
      StepGoesOn(s, 0);
      var rest := FinishIsASchedule(Step(s, 0));
      schedule := [0] + rest;
      StepFirst(s, rest);
    }
  }

  lemma {:induction false} StepFirst(s: State, rest: seq<nat>)
    requires |s.callers| == 1
    ensures RunSchedule(s, [0] + rest) == RunSchedule(Step(s, 0), rest)
  {
    if rest == [] {
      assert [0] + rest == [0] && [0][..0] == [];
    } else {
      StepFirst(s, rest[..|rest| - 1]);
      assert ([0] + rest)[..|rest|] == [0] + rest[..|rest| - 1];
    }
  }

  // The globals that a first setup leaves.
  function AfterSetup(request: Request): Globals {
    var err := Outcome(request.exporters, request.env);
    var provided := err.None? || err.value.Instrument?;
    var built := if provided then FirstInstrumentFailure(request.env) else 0;
    Globals(Done(0), err, err.None?, provided, err.None? && PROMETHEUS in request.exporters,
            [built > 0, built > 1, built > 2, built > 3])
  }

  lemma FinishFromStore(g: Globals, request: Request, err: Option<SetupError>, bodies: nat)
    ensures Finish(Alone(g, request, StoreErr(err), bodies))
         == Alone(g.(once := Done(0), initErr := err, initialized := err.None?), request,
                  Returned(AsInitError(err)), bodies)
  {
    var flag := Alone(g.(initErr := err), request, StoreFlag, bodies);
    var leave := Alone(g.(initErr := err, initialized := err.None?), request, LeaveOnce, bodies);
    var returned := Alone(
      g.(once := Done(0), initErr := err, initialized := err.None?), request, Returned(AsInitError(err)), bodies);
    FinishGoesOn(Alone(g, request, StoreErr(err), bodies));
    assert Step(Alone(g, request, StoreErr(err), bodies), 0) == flag;
    FinishGoesOn(flag);
    assert Step(flag, 0) == leave;
    FinishGoesOn(leave);
    assert Step(leave, 0) == returned && Step(returned, 0) == returned;
  }

  lemma {:induction false} FinishFromInstruments(g: Globals, request: Request, k: nat, bodies: nat)
    requires k <= 4 && k <= FirstInstrumentFailure(request.env)
    requires g.once == Running(0) && g.provider && !g.promHTTP && !g.initialized && g.initErr.None?
    requires g.instruments == [k > 0, k > 1, k > 2, k > 3]
    requires ReadersError(request.exporters, request.env.readerFails).None? && !request.env.resourceFails
    ensures Finish(Alone(g, request, BuildInstrument(k), bodies))
         == Alone(AfterSetup(request), request, Returned(AsInitError(Outcome(request.exporters, request.env))), bodies)
    decreases 4 - k
  {
    var s, env := Alone(g, request, BuildInstrument(k), bodies), request.env;
    FinishGoesOn(s);
    if k == 4 {
      var handler := Alone(g, request, SetHandler, bodies);
      var g' := g.(promHTTP := PROMETHEUS in request.exporters);
      FinishGoesOn(handler);
      assert Step(s, 0) == handler && Step(handler, 0) == Alone(g', request, StoreErr(None), bodies);
      FinishFromStore(g', request, None, bodies);
    } else if env.instrumentFails(k) {
      assert k == FirstInstrumentFailure(env);
      assert Step(s, 0) == Alone(g, request, StoreErr(Some(Instrument(k))), bodies) by {
        assert g.instruments[k := false] == g.instruments;
      }
      FinishFromStore(g, request, Some(Instrument(k)), bodies);
    } else {
      var g' := g.(instruments := g.instruments[k := true]);
      assert Step(s, 0) == Alone(g', request, BuildInstrument(k + 1), bodies);
      assert g'.instruments == [k + 1 > 0, k + 1 > 1, k + 1 > 2, k + 1 > 3];
      FinishFromInstruments(g', request, k + 1, bodies);
    }
  }

  lemma FinishFromReaders(request: Request, bodies: nat)
    ensures Finish(Alone(FRESH_GLOBALS.(once := Running(0)), request, BuildReaders, bodies))
         == Alone(AfterSetup(request), request, Returned(AsInitError(Outcome(request.exporters, request.env))), bodies)
  {
    var g := FRESH_GLOBALS.(once := Running(0));
    var s := Alone(g, request, BuildReaders, bodies);
    var readers := ReadersError(request.exporters, request.env.readerFails);
    FinishGoesOn(s);
    if readers.Some? {
      assert Step(s, 0) == Alone(g, request, StoreErr(Some(Readers(readers.value))), bodies);
      FinishFromStore(g, request, Some(Readers(readers.value)), bodies);
    } else {
      var resource := Alone(g, request, BuildResource, bodies);
      assert Step(s, 0) == resource;
      FinishGoesOn(resource);
      if request.env.resourceFails {
        assert Step(resource, 0) == Alone(g, request, StoreErr(Some(Resource)), bodies);
        FinishFromStore(g, request, Some(Resource), bodies);
      } else {
        var provider := Alone(g, request, SetProvider, bodies);
        var g' := g.(provider := true);
        FinishGoesOn(provider);
        assert Step(resource, 0) == provider && Step(provider, 0) == Alone(g', request, BuildInstrument(0), bodies);
        FinishFromInstruments(g', request, 0, bodies);
      }
    }
  }

  /** A call of the machine that nobody interferes with: refused at once, deciding if it is
      the first, and repeating the result else. */
  lemma FinishOfACall(g: Globals, request: Request, bodies: nat)
    requires g == FRESH_GLOBALS || g.once.Done?
    ensures Finish(Alone(g, request, Calling, bodies))
         == if Conflicting(request.exporters) then Alone(g, request, Returned(Some(InvalidConfig)), bodies)
            else if g.once.Done? then Alone(g, request, Returned(AsInitError(g.initErr)), bodies)
            else Alone(AfterSetup(request), request, Returned(AsInitError(AfterSetup(request).initErr)), bodies + 1)
  {
    var s, next := Alone(g, request, Calling, bodies), Alone(g, request, AtOnce, bodies);
    FinishGoesOn(s);
    if !Conflicting(request.exporters) {
      assert Step(s, 0) == next;
      FinishGoesOn(next);
      if g.once.Idle? {
        assert Step(next, 0) == Alone(g.(once := Running(0)), request, BuildReaders, bodies + 1);
        FinishFromReaders(request, bodies + 1);
      }
    }
  }
}
