/** tools/pkg/fccutils/registration.go: RegisterNode, resumed over any number of runs. */
module Registration {
  datatype State = State(completed: string, attestId: nat, instructionId: nat)

  const FRESH := State("", 0, 0)

  /** What has taken effect on chain, oldest first; registering also requests an attestation. */
  datatype Effect =
    | Registered(id: nat)
    | Attested(step: char, id: nat)
    | Checked(attestId: nat, id: nat)
    | Produced(id: nat)

  /** The state file; a write that failed half way leaves a text that does not parse. */
  datatype File = Absent | Holding(st: State) | Broken

  /** The state file and the chain. */
  datatype Machine = Machine(file: File, log: seq<Effect>)

  /** One remote call: confirmed, refused without effect, or lost: it took effect but the caller
      saw an error or the process died before the next save. */
  datatype Reply = Confirmed(id: nat) | Rejected | Lost(id: nat)

  function IdOf(r: Reply): nat { if r.Rejected? then 0 else r.id }

  /** How a write of the state file ends: done, failed before truncating the file, or after. */
  datatype Write = Written | Untouched | Truncated

  /** Everything one run meets outside itself.  A failing lookup reads as "not registered". */
  datatype Env = Env(
    readable: bool,
    lookupSaysRegistered: bool,
    register: Reply, registerSaved: Write,
    attest: Reply, attestSaved: Write,
    policyOk: bool, check: Reply, checkSaved: Write,
    proofOk: bool, produce: Reply,
    removed: bool)

  /** A run under way, or stopped with an error. */
  datatype Progress = Going(m: Machine, st: State, attestId: nat, instructionId: nat) | Stopped(m: Machine)

  function SavedFile(file: File, st: State, w: Write): File {
    match w
    case Written => Holding(st)
    case Untouched => file
    case Truncated => Broken
  }

  function Save(m: Machine, st: State, w: Write): Machine {
    m.(file := SavedFile(m.file, st, w))
  }

  /** What a run starts from when the file can be read. */
  function Loaded(file: File): State {
    if file.Holding? then file.st else FRESH
  }

  function Log(m: Machine, e: Effect): Machine {
    m.(log := m.log + [e])
  }

  function StepPreRegister(command: string, env: Env, g: Progress): Progress
    requires g.Going?
  {
    if 'r' !in command then g
    else if 'r' in g.st.completed then g.(attestId := g.st.attestId)
    else
      match env.register
      case Rejected => Stopped(g.m)
      case Lost(id) => Stopped(Log(g.m, if env.lookupSaysRegistered then Attested('r', id) else Registered(id)))
      case Confirmed(id) =>
        var m := Log(g.m, if env.lookupSaysRegistered then Attested('r', id) else Registered(id));
        var st := g.st.(completed := g.st.completed + "r", attestId := id);
        Going(Save(m, st, env.registerSaved), st, id, g.instructionId)
  }

  function StepAttest(command: string, env: Env, g: Progress): Progress
    requires g.Going?
  {
    if 'R' !in command then g
    else if 'R' in g.st.completed then g.(attestId := g.st.attestId)
    else
      match env.attest
      case Rejected => Stopped(g.m)
      case Lost(id) => Stopped(Log(g.m, Attested('R', id)))
      case Confirmed(id) =>
        var st := g.st.(completed := g.st.completed + "R", attestId := id);
        Going(Save(Log(g.m, Attested('R', id)), st, env.attestSaved), st, id, g.instructionId)
  }

  function StepCheck(command: string, given: nat, env: Env, g: Progress): Progress
    requires g.Going?
  {
    if 'a' !in command then g.(instructionId := given)
    else if 'a' in g.st.completed then g.(instructionId := g.st.instructionId)
    else if !env.policyOk then Stopped(g.m)
    else
      match env.check
      case Rejected => Stopped(g.m)
      case Lost(id) => Stopped(Log(g.m, Checked(g.attestId, id)))
      case Confirmed(id) =>
        var st := g.st.(completed := g.st.completed + "a", instructionId := id);
        Going(Save(Log(g.m, Checked(g.attestId, id)), st, env.checkSaved), st, g.attestId, id)
  }

  function StepProduce(command: string, env: Env, g: Progress): Progress
    requires g.Going?
  {
    if 'p' !in command then g
    else if !env.proofOk then Stopped(g.m)
    else
      match env.produce
      case Rejected => Stopped(g.m)
      case Lost(_) => Stopped(Log(g.m, Produced(g.instructionId)))
      case Confirmed(_) => g.(m := Log(g.m, Produced(g.instructionId)))
  }

  /** The four steps in order. */
  function Steps(command: string, given: nat, env: Env, m: Machine): Progress {
    var g0 := StepPreRegister(command, env, Going(m, Loaded(m.file), 0, 0));
    var g1 := if g0.Going? then StepAttest(command, env, g0) else g0;
    var g2 := if g1.Going? then StepCheck(command, given, env, g1) else g1;
    if g2.Going? then StepProduce(command, env, g2) else g2
  }

  /** One run of RegisterNode: the machine after it and whether it returned without error. */
  function RunOnce(command: string, given: nat, env: Env, m: Machine): (Machine, bool) {
    if !env.readable || m.file.Broken? then (m, false)
    else
      var g := Steps(command, given, env, m);
      if g.Stopped? then (g.m, false)
      else (if env.removed then g.m.(file := Absent) else g.m, true)
  }

  /** Runs of one command, each resumed from what the one before left. */
  function Runs(command: string, given: nat, envs: seq<Env>, m: Machine): Machine {
    if envs == [] then m
    else RunOnce(command, given, envs[|envs| - 1], Runs(command, given, envs[..|envs| - 1], m)).0
  }

  // ---------------------------------------------------------------- ids follow their steps

  function IsAttestation(e: Effect): bool { e.Registered? || e.Attested? }

  /** The newest attestation request, 0 if there is none. */
  function NewestAttestation(log: seq<Effect>): nat {
    if log == [] then 0
    else
      var e := log[|log| - 1];
      if IsAttestation(e) then e.id else NewestAttestation(log[..|log| - 1])
  }

  function NewestCheck(log: seq<Effect>): nat {
    if log == [] then 0
    else
      var e := log[|log| - 1];
      if e.Checked? then e.id else NewestCheck(log[..|log| - 1])
  }

  predicate AsksAttestation(command: string) { 'r' in command || 'R' in command }

  /** What one effect must name, given the effects before it. */
  predicate EffectOk(command: string, given: nat, before: seq<Effect>, e: Effect) {
    && (e.Checked? ==> e.attestId == if AsksAttestation(command) then NewestAttestation(before) else 0)
    && (e.Produced? ==> e.id == if 'a' in command then NewestCheck(before) else given)
  }

  predicate LogOk(command: string, given: nat, log: seq<Effect>) {
    forall i | 0 <= i < |log| :: EffectOk(command, given, log[..i], log[i])
  }

  /** Every attestation step of the command is completed. */
  predicate AttestsDone(command: string, st: State) {
    ('r' in command ==> 'r' in st.completed) && ('R' in command ==> 'R' in st.completed)
  }

  /** What a state file may claim: steps completed in order, and the newest ids once no step that
      makes newer ones is left. */
  predicate StateOk(command: string, st: State, log: seq<Effect>) {
    && ('R' in st.completed && 'r' in command ==> 'r' in st.completed)
    && ('a' in st.completed ==> AttestsDone(command, st) && st.instructionId == NewestCheck(log))
    && (AsksAttestation(command) && AttestsDone(command, st) ==> st.attestId == NewestAttestation(log))
  }

  /** The file on disk never claims more than the run in memory. */
  predicate Behind(file: File, st: State) {
    file.Holding? ==>
      && ('r' in file.st.completed ==> 'r' in st.completed)
      && ('R' in file.st.completed ==> 'R' in st.completed)
      && ('a' in file.st.completed ==> 'a' in st.completed)
  }

  predicate MachineOk(command: string, given: nat, m: Machine) {
    LogOk(command, given, m.log) && (m.file.Holding? ==> StateOk(command, m.file.st, m.log))
  }

  predicate ProgressOk(command: string, given: nat, g: Progress) {
    && MachineOk(command, given, g.m)
    && (g.Going? ==> StateOk(command, g.st, g.m.log) && Behind(g.m.file, g.st))
  }

  lemma LogAppends(command: string, given: nat, log: seq<Effect>, e: Effect)
    requires LogOk(command, given, log) && EffectOk(command, given, log, e)
    ensures LogOk(command, given, log + [e])
  {
    forall i | 0 <= i < |log + [e]| ensures EffectOk(command, given, (log + [e])[..i], (log + [e])[i]) {
      assert (log + [e])[..i] == log[..i];
    }
    assert log[..|log|] == log;
  }

  lemma NewestAppends(log: seq<Effect>, e: Effect)
    ensures NewestAttestation(log + [e]) == if IsAttestation(e) then e.id else NewestAttestation(log)
    ensures NewestCheck(log + [e]) == if e.Checked? then e.id else NewestCheck(log)
  {
    assert (log + [e])[..|log|] == log;
  }

  /** A new attestation is harmless while some attestation step is open in the file. */
  lemma AttestationLogged(command: string, given: nat, m: Machine, e: Effect)
    requires MachineOk(command, given, m) && IsAttestation(e)
    requires m.file.Holding? ==> !AttestsDone(command, m.file.st)
    ensures MachineOk(command, given, Log(m, e))
  {
    LogAppends(command, given, m.log, e);
    NewestAppends(m.log, e);
  }

  lemma PreRegisterOk(command: string, given: nat, env: Env, g: Progress)
    requires g.Going? && ProgressOk(command, given, g) && g.attestId == 0
    ensures var g' := StepPreRegister(command, env, g);
            && ProgressOk(command, given, g')
            && (g'.Going? ==>
                  && ('r' in command ==> 'r' in g'.st.completed)
                  && ('R' !in command ==>
                        g'.attestId == if AsksAttestation(command) then NewestAttestation(g'.m.log) else 0))
  {
    if 'r' in command && 'r' !in g.st.completed && !env.register.Rejected? {
      var e := if env.lookupSaysRegistered then Attested('r', env.register.id) else Registered(env.register.id);
      AttestationLogged(command, given, g.m, e);
      NewestAppends(g.m.log, e);
    }
  }

  lemma AttestOk(command: string, given: nat, env: Env, g: Progress)
    requires g.Going? && ProgressOk(command, given, g)
    requires 'r' in command ==> 'r' in g.st.completed
    requires 'R' !in command ==> g.attestId == if AsksAttestation(command) then NewestAttestation(g.m.log) else 0
    ensures var g' := StepAttest(command, env, g);
            && ProgressOk(command, given, g')
            && (g'.Going? ==>
                  && AttestsDone(command, g'.st)
                  && g'.attestId == if AsksAttestation(command) then NewestAttestation(g'.m.log) else 0)
  {
    if 'R' in command && 'R' !in g.st.completed && !env.attest.Rejected? {
      var e := Attested('R', env.attest.id);
      AttestationLogged(command, given, g.m, e);
      NewestAppends(g.m.log, e);
    }
  }

  lemma CheckOk(command: string, given: nat, env: Env, g: Progress)
    requires g.Going? && ProgressOk(command, given, g) && AttestsDone(command, g.st)
    requires g.attestId == if AsksAttestation(command) then NewestAttestation(g.m.log) else 0
    ensures var g' := StepCheck(command, given, env, g);
            && ProgressOk(command, given, g')
            && (g'.Going? ==> g'.instructionId == if 'a' in command then NewestCheck(g'.m.log) else given)
  {
    if 'a' in command && 'a' !in g.st.completed && env.policyOk && !env.check.Rejected? {
      var e := Checked(g.attestId, env.check.id);
      LogAppends(command, given, g.m.log, e);
      NewestAppends(g.m.log, e);
    }
  }

  lemma ProduceOk(command: string, given: nat, env: Env, g: Progress)
    requires g.Going? && ProgressOk(command, given, g)
    requires g.instructionId == if 'a' in command then NewestCheck(g.m.log) else given
    ensures ProgressOk(command, given, StepProduce(command, env, g))
  {
    var e := Produced(g.instructionId);
    LogAppends(command, given, g.m.log, e);
    NewestAppends(g.m.log, e);
  }

  lemma RunOnceOk(command: string, given: nat, env: Env, m: Machine)
    requires MachineOk(command, given, m)
    ensures MachineOk(command, given, RunOnce(command, given, env, m).0)
  {
    var g := Going(m, Loaded(m.file), 0, 0);
    PreRegisterOk(command, given, env, g);
    var g0 := StepPreRegister(command, env, g);
    if g0.Going? {
      AttestOk(command, given, env, g0);
      var g1 := StepAttest(command, env, g0);
      if g1.Going? {
        CheckOk(command, given, env, g1);
        var g2 := StepCheck(command, given, env, g1);
        if g2.Going? {
          ProduceOk(command, given, env, g2);
        }
      }
    }
  }

  /** Over any runs whatever of one command, with failing saves, lost replies and crashes allowed:
      every availability check uses the newest attestation request, provided the command asks for
      one at all (otherwise it uses the zero id), and production always uses the newest check, or
      the id given on the command line when the command makes none. */
  lemma {:induction false} IdsFollowTheirSteps(command: string, given: nat, envs: seq<Env>, m: Machine)
    requires MachineOk(command, given, m)
    ensures MachineOk(command, given, Runs(command, given, envs, m))
  {
    if envs != [] {
      var front := envs[..|envs| - 1];
      IdsFollowTheirSteps(command, given, front, m);
      RunOnceOk(command, given, envs[|envs| - 1], Runs(command, given, front, m));
    }
  }

  // ---------------------------------------------------------------- registered once

  function Registrations(log: seq<Effect>): nat {
    if log == [] then 0
    else Registrations(log[..|log| - 1]) + if log[|log| - 1].Registered? then 1 else 0
  }

  lemma RegistrationsAppend(log: seq<Effect>, e: Effect)
    ensures Registrations(log + [e]) == Registrations(log) + if e.Registered? then 1 else 0
  {
    assert (log + [e])[..|log|] == log;
  }

  /** Each run's lookup answers truthfully for the chain it starts from. */
  predicate ReliableLookups(command: string, given: nat, envs: seq<Env>, m: Machine) {
    envs != [] ==>
      var front := envs[..|envs| - 1];
      && ReliableLookups(command, given, front, m)
      && (envs[|envs| - 1].lookupSaysRegistered <==> Registrations(Runs(command, given, front, m).log) > 0)
  }

  /** The guard of PreRegistration: a run that can read its file, has "r" to do, does not learn
      that the machine is registered, and is not refused, registers it. */
  predicate Registers(command: string, env: Env, m: Machine) {
    && env.readable && !m.file.Broken?
    && 'r' in command && 'r' !in Loaded(m.file).completed
    && !env.lookupSaysRegistered && !env.register.Rejected?
  }

  lemma AttestNeverRegisters(command: string, env: Env, g: Progress)
    requires g.Going?
    ensures Registrations(StepAttest(command, env, g).m.log) == Registrations(g.m.log)
  {
    RegistrationsAppend(g.m.log, Attested('R', IdOf(env.attest)));
  }

  lemma CheckNeverRegisters(command: string, given: nat, env: Env, g: Progress)
    requires g.Going?
    ensures Registrations(StepCheck(command, given, env, g).m.log) == Registrations(g.m.log)
  {
    RegistrationsAppend(g.m.log, Checked(g.attestId, IdOf(env.check)));
  }

  lemma ProduceNeverRegisters(command: string, env: Env, g: Progress)
    requires g.Going?
    ensures Registrations(StepProduce(command, env, g).m.log) == Registrations(g.m.log)
  {
    RegistrationsAppend(g.m.log, Produced(g.instructionId));
  }

  lemma PreRegisterRegisters(command: string, env: Env, m: Machine)
    requires env.readable && !m.file.Broken?
    ensures Registrations(StepPreRegister(command, env, Going(m, Loaded(m.file), 0, 0)).m.log)
            == Registrations(m.log) + if Registers(command, env, m) then 1 else 0
  {
    var id := IdOf(env.register);
    RegistrationsAppend(m.log, if env.lookupSaysRegistered then Attested('r', id) else Registered(id));
  }

  /** A run registers the machine once if it meets the guard and not at all otherwise. */
  lemma RunRegisters(command: string, given: nat, env: Env, m: Machine)
    ensures Registrations(RunOnce(command, given, env, m).0.log)
            == Registrations(m.log) + if Registers(command, env, m) then 1 else 0
  {
    if env.readable && !m.file.Broken? {
      PreRegisterRegisters(command, env, m);
      var g0 := StepPreRegister(command, env, Going(m, Loaded(m.file), 0, 0));
      if g0.Going? {
        AttestNeverRegisters(command, env, g0);
        var g1 := StepAttest(command, env, g0);
        if g1.Going? {
          CheckNeverRegisters(command, given, env, g1);
          var g2 := StepCheck(command, given, env, g1);
          if g2.Going? {
            ProduceNeverRegisters(command, env, g2);
          }
        }
      }
    }
  }

  /** How many of these runs meet the guard, each in the machine it starts from. */
  function RegisteringRuns(command: string, given: nat, envs: seq<Env>, m: Machine): nat {
    if envs == [] then 0
    else
      var front := envs[..|envs| - 1];
      RegisteringRuns(command, given, front, m)
      + if Registers(command, envs[|envs| - 1], Runs(command, given, front, m)) then 1 else 0
  }

  lemma {:induction false} RegistrationsTotal(command: string, given: nat, envs: seq<Env>, m: Machine)
    ensures Registrations(Runs(command, given, envs, m).log)
            == Registrations(m.log) + RegisteringRuns(command, given, envs, m)
  {
    if envs != [] {
      var front := envs[..|envs| - 1];
      RegistrationsTotal(command, given, front, m);
      RunRegisters(command, given, envs[|envs| - 1], Runs(command, given, front, m));
    }
  }

  /** Over any runs the machine is registered at most once if and only if the guard is met at
      most once, or never when it was registered before. */
  lemma RegisteredOnceExactly(command: string, given: nat, envs: seq<Env>, m: Machine)
    ensures Registrations(Runs(command, given, envs, m).log) <= 1
            <==> RegisteringRuns(command, given, envs, m) <= 1 - Registrations(m.log)
  {
    RegistrationsTotal(command, given, envs, m);
  }

  /** Some run starts with the machine registered and meets the guard all the same. */
  predicate RegistersAgain(command: string, given: nat, envs: seq<Env>, m: Machine) {
    envs != [] &&
    var front := envs[..|envs| - 1];
    var mid := Runs(command, given, front, m);
    RegistersAgain(command, given, front, m)
    || (Registrations(mid.log) > 0 && Registers(command, envs[|envs| - 1], mid))
  }

  /** Sharper: of a machine registered at most once before, it stays so if and only if no run that
      starts with it registered meets the guard. */
  lemma {:induction false} OnceUnlessRegisteredAgain(command: string, given: nat, envs: seq<Env>, m: Machine)
    requires Registrations(m.log) <= 1
    ensures Registrations(Runs(command, given, envs, m).log) <= 1 <==> !RegistersAgain(command, given, envs, m)
  {
    if envs != [] {
      var front := envs[..|envs| - 1];
      OnceUnlessRegisteredAgain(command, given, front, m);
      RunRegisters(command, given, envs[|envs| - 1], Runs(command, given, front, m));
    }
  }

  /** With reliable lookups the machine is never registered twice: not across failed and resumed
      runs, not when saves fail, not when a run dies between an effect and its save. */
  lemma {:induction false} NeverRegisteredTwice(command: string, given: nat, envs: seq<Env>, m: Machine)
    requires Registrations(m.log) <= 1 && ReliableLookups(command, given, envs, m)
    ensures Registrations(Runs(command, given, envs, m).log) <= 1
  {
    if envs != [] {
      var front := envs[..|envs| - 1];
      NeverRegisteredTwice(command, given, front, m);
      RunRegisters(command, given, envs[|envs| - 1], Runs(command, given, front, m));
    }
  }

  /** The lookup fails, registering takes effect, and the run dies before its save. */
  function CrashAfterRegistering(): Env {
    Env(true, false, Lost(1), Written, Rejected, Written, true, Rejected, Written, true, Rejected, true)
  }

  /** Reliability is needed: a lookup that fails is read as "not registered", so a crash after
      registering followed by a failing lookup registers again. */
  lemma FailingLookupRegistersTwice()
    ensures var crash := CrashAfterRegistering();
            Registrations(Runs("r", 0, [crash, crash], Machine(Absent, [])).log) == 2
  {
    var crash := CrashAfterRegistering();
    var start := Machine(Absent, []);
    assert [crash, crash][..1] == [crash] && [crash][..0] == [];
    var once := Machine(Absent, [Registered(1)]);
    assert start.log + [Registered(1)] == once.log;
    assert RunOnce("r", 0, crash, start) == (once, false);
    assert Runs("r", 0, [crash], start) == RunOnce("r", 0, crash, Runs("r", 0, [], start)).0;
    var twice := Machine(Absent, [Registered(1), Registered(1)]);
    assert once.log + [Registered(1)] == twice.log;
    assert RunOnce("r", 0, crash, once) == (twice, false);
    RegistrationsAppend([], Registered(1));
    RegistrationsAppend([Registered(1)], Registered(1));
    assert [] + [Registered(1)] == [Registered(1)];
  }

  // ---------------------------------------------------------------- each step once

  /** The effects of step r, R or a. */
  predicate IsEffectOf(step: char, e: Effect) {
    match e
    case Registered(_) => step == 'r'
    case Attested(s, _) => step == s
    case Checked(_, _) => step == 'a'
    case Produced(_) => false
  }

  function Count(step: char, log: seq<Effect>): nat {
    if log == [] then 0
    else Count(step, log[..|log| - 1]) + if IsEffectOf(step, log[|log| - 1]) then 1 else 0
  }

  lemma CountAppend(step: char, log: seq<Effect>, e: Effect)
    ensures Count(step, log + [e]) == Count(step, log) + if IsEffectOf(step, e) then 1 else 0
  {
    assert (log + [e])[..|log|] == log;
  }

  /** Every write of the state file works. */
  predicate Saves(env: Env) {
    env.registerSaved.Written? && env.attestSaved.Written? && env.checkSaved.Written?
  }

  predicate IsStep(step: char) { step == 'r' || step == 'R' || step == 'a' }

  predicate LosesRegister(command: string, env: Env, st: State) {
    'r' in command && 'r' !in st.completed && env.register.Lost?
  }

  predicate LosesAttest(command: string, env: Env, st: State) {
    'R' in command && 'R' !in st.completed && env.attest.Lost?
  }

  predicate LosesCheck(command: string, env: Env, st: State) {
    'a' in command && 'a' !in st.completed && env.policyOk && env.check.Lost?
  }

  /** The run gets as far as this step, has it to do, and loses the reply. */
  predicate Loses(command: string, env: Env, m: Machine, step: char) {
    && env.readable && !m.file.Broken?
    && var g := Going(m, Loaded(m.file), 0, 0);
       var g0 := StepPreRegister(command, env, g);
       if step == 'r' then LosesRegister(command, env, g.st)
       else if g0.Stopped? then false
       else if step == 'R' then LosesAttest(command, env, g0.st)
       else
         var g1 := StepAttest(command, env, g0);
         step == 'a' && g1.Going? && LosesCheck(command, env, g1.st)
  }

  function One(b: bool): nat { if b then 1 else 0 }

  /** A step has taken effect `lost` times without being recorded, and once more if the state calls
      it completed. */
  predicate Tallied(st: State, log: seq<Effect>, lost: nat, step: char) {
    Count(step, log) == lost + One(step in st.completed)
  }

  /** Completing step `done` together with its effect keeps the tally of every step. */
  lemma TallyNext(st: State, st': State, log: seq<Effect>, lost: nat, step: char, done: char, e: Effect)
    requires Tallied(st, log, lost, step) && done !in st.completed && st'.completed == st.completed + [done]
    requires IsEffectOf(step, e) <==> step == done
    ensures Tallied(st', log + [e], lost, step)
    ensures done in st'.completed && (step in st.completed ==> step in st'.completed)
  {
    CountAppend(step, log, e);
    assert step in st'.completed <==> step in st.completed || step == done;
  }

  /** Disk and memory agree, and both agree with the chain. */
  predicate InStep(g: Progress, lost: nat, step: char) {
    match g
    case Going(m, st, _, _) =>
      (m.file == Holding(st) || (m.file.Absent? && st == FRESH)) && Tallied(st, m.log, lost, step)
    case Stopped(m) => !m.file.Broken? && Tallied(Loaded(m.file), m.log, lost, step)
  }

  /** A step done and recorded keeps disk, memory and chain in step. */
  lemma DoneInStep(g: Progress, lost: nat, step: char, done: char, e: Effect, st': State, attestId: nat, id: nat)
    requires g.Going? && InStep(g, lost, step) && done !in g.st.completed
    requires st'.completed == g.st.completed + [done] && (IsEffectOf(step, e) <==> step == done)
    ensures InStep(Going(Save(Log(g.m, e), st', Written), st', attestId, id), lost, step)
    ensures done in st'.completed && (step in g.st.completed ==> step in st'.completed)
  {
    TallyNext(g.st, st', g.m.log, lost, step, done, e);
  }

  /** A step whose reply is lost leaves one effect more than is recorded. */
  lemma LostInStep(g: Progress, lost: nat, step: char, e: Effect)
    requires g.Going? && InStep(g, lost, step)
    ensures InStep(Stopped(Log(g.m, e)), lost + One(IsEffectOf(step, e)), step)
    ensures InStep(Stopped(g.m), lost, step)
  {
    CountAppend(step, g.m.log, e);
  }

  /** What a block does to the tally: a lost reply stops the run with one effect unrecorded. */
  predicate BlockInStep(g: Progress, g': Progress, lost: nat, step: char, done: char, command: string, loses: bool)
    requires g.Going?
  {
    && InStep(g', lost + One(step == done && loses), step)
    && (loses ==> g'.Stopped?)
    && (g'.Going? ==> (step in g.st.completed || (step == done && step in command) ==> step in g'.st.completed))
  }

  lemma PreRegisterInStep(command: string, env: Env, g: Progress, lost: nat, step: char)
    requires g.Going? && Saves(env) && IsStep(step) && InStep(g, lost, step)
    ensures BlockInStep(g, StepPreRegister(command, env, g), lost, step, 'r', command,
                        LosesRegister(command, env, g.st))
  {
    var id := IdOf(env.register);
    var e := if env.lookupSaysRegistered then Attested('r', id) else Registered(id);
    LostInStep(g, lost, step, e);
    if 'r' in command && 'r' !in g.st.completed && env.register.Confirmed? {
      DoneInStep(g, lost, step, 'r', e, g.st.(completed := g.st.completed + "r", attestId := id), id, g.instructionId);
    }
  }

  lemma AttestInStep(command: string, env: Env, g: Progress, lost: nat, step: char)
    requires g.Going? && Saves(env) && IsStep(step) && InStep(g, lost, step)
    ensures BlockInStep(g, StepAttest(command, env, g), lost, step, 'R', command, LosesAttest(command, env, g.st))
  {
    var id := IdOf(env.attest);
    var e := Attested('R', id);
    LostInStep(g, lost, step, e);
    if 'R' in command && 'R' !in g.st.completed && env.attest.Confirmed? {
      DoneInStep(g, lost, step, 'R', e, g.st.(completed := g.st.completed + "R", attestId := id), id, g.instructionId);
    }
  }

  lemma CheckInStep(command: string, given: nat, env: Env, g: Progress, lost: nat, step: char)
    requires g.Going? && Saves(env) && IsStep(step) && InStep(g, lost, step)
    ensures BlockInStep(g, StepCheck(command, given, env, g), lost, step, 'a', command, LosesCheck(command, env, g.st))
  {
    var id := IdOf(env.check);
    var e := Checked(g.attestId, id);
    LostInStep(g, lost, step, e);
    if 'a' in command && 'a' !in g.st.completed && env.policyOk && env.check.Confirmed? {
      DoneInStep(g, lost, step, 'a', e, g.st.(completed := g.st.completed + "a", instructionId := id), g.attestId, id);
    }
  }

  lemma ProduceInStep(command: string, env: Env, g: Progress, lost: nat, step: char)
    requires g.Going? && InStep(g, lost, step)
    ensures var g' := StepProduce(command, env, g);
            InStep(g', lost, step) && (g'.Going? ==> g'.st == g.st)
  {
    LostInStep(g, lost, step, Produced(g.instructionId));
  }

  /** The last two blocks lose only the reply of an `a` step. */
  lemma RestInStep(command: string, given: nat, env: Env, g: Progress, lost: nat, step: char)
    requires g.Going? && Saves(env) && IsStep(step) && InStep(g, lost, step)
    ensures var g2 := StepCheck(command, given, env, g);
            var g' := if g2.Going? then StepProduce(command, env, g2) else g2;
            && InStep(g', lost + One(step == 'a' && LosesCheck(command, env, g.st)), step)
            && (g'.Going? ==> (step in g.st.completed || (step == 'a' && step in command) ==> step in g'.st.completed))
  {
    CheckInStep(command, given, env, g, lost, step);
    var g2 := StepCheck(command, given, env, g);
    if g2.Going? {
      ProduceInStep(command, env, g2, lost, step);
    }
  }

  lemma StepsInStep(command: string, given: nat, env: Env, m: Machine, lost: nat, step: char)
    requires Saves(env) && IsStep(step) && env.readable
    requires !m.file.Broken? && Tallied(Loaded(m.file), m.log, lost, step)
    ensures InStep(Steps(command, given, env, m), lost + One(Loses(command, env, m, step)), step)
    ensures var g := Steps(command, given, env, m);
            g.Going? && step in command ==> step in g.st.completed
  {
    var g := Going(m, Loaded(m.file), 0, 0);
    PreRegisterInStep(command, env, g, lost, step);
    var g0 := StepPreRegister(command, env, g);
    if g0.Going? {
      AttestInStep(command, env, g0, lost, step);
      var g1 := StepAttest(command, env, g0);
      if g1.Going? {
        RestInStep(command, given, env, g1, lost, step);
      }
    }
  }

  /** Runs with working saves, none of which removed the state file. */
  predicate Unfinished(command: string, given: nat, envs: seq<Env>, m: Machine) {
    envs != [] ==>
      var front, env := envs[..|envs| - 1], envs[|envs| - 1];
      && Unfinished(command, given, front, m) && Saves(env)
      && !(RunOnce(command, given, env, Runs(command, given, front, m)).1 && env.removed)
  }

  /** How many of the runs lose the reply of this step. */
  function LostRuns(command: string, given: nat, envs: seq<Env>, m: Machine, step: char): nat {
    if envs == [] then 0
    else
      var front := envs[..|envs| - 1];
      LostRuns(command, given, front, m, step)
      + One(Loses(command, envs[|envs| - 1], Runs(command, given, front, m), step))
  }

  lemma {:induction false} UnfinishedTallied(command: string, given: nat, envs: seq<Env>, m: Machine, step: char)
    requires m.file.Absent? && IsStep(step) && Unfinished(command, given, envs, m)
    ensures var m' := Runs(command, given, envs, m);
            && !m'.file.Broken?
            && Tallied(Loaded(m'.file), m'.log, Count(step, m.log) + LostRuns(command, given, envs, m, step), step)
  {
    if envs != [] {
      var front, env := envs[..|envs| - 1], envs[|envs| - 1];
      UnfinishedTallied(command, given, front, m, step);
      if env.readable {
        StepsInStep(command, given, env, Runs(command, given, front, m),
                    Count(step, m.log) + LostRuns(command, given, front, m, step), step);
      }
    }
  }

  /** With working saves, from the creation of the state file to its removal, each of r, R and a
      takes effect once for every run that loses its reply, and once more when it is completed. */
  lemma EffectsExactly(command: string, given: nat, envs: seq<Env>, m: Machine, step: char)
    requires m.file.Absent? && IsStep(step) && Unfinished(command, given, envs, m)
    ensures var m' := Runs(command, given, envs, m);
            Count(step, m'.log) == Count(step, m.log) + LostRuns(command, given, envs, m, step)
                                   + One(step in Loaded(m'.file).completed)
  {
    UnfinishedTallied(command, given, envs, m, step);
  }

  /** So it takes effect at most once if and only if no reply of it was lost, or a single one was
      and the step has not been completed since. */
  lemma AtMostOnceExactly(command: string, given: nat, envs: seq<Env>, m: Machine, step: char)
    requires m.file.Absent? && IsStep(step) && Unfinished(command, given, envs, m)
    ensures var m' := Runs(command, given, envs, m);
            Count(step, m'.log) - Count(step, m.log) <= 1
            <==> LostRuns(command, given, envs, m, step) <= One(step !in Loaded(m'.file).completed)
  {
    EffectsExactly(command, given, envs, m, step);
  }

  /** When no reply of a step was lost, over any number of failing runs and a last one that may
      succeed, the step takes effect at most once, and exactly once when the last run succeeds and
      the command contains it. */
  lemma EachStepOnce(command: string, given: nat, envs: seq<Env>, last: Env, m: Machine, step: char)
    requires m.file.Absent? && IsStep(step) && Unfinished(command, given, envs, m) && Saves(last)
    requires LostRuns(command, given, envs + [last], m, step) == 0
    ensures var (m', ok) := RunOnce(command, given, last, Runs(command, given, envs, m));
            var times := Count(step, m'.log) - Count(step, m.log);
            && 0 <= times <= 1
            && (ok && step in command ==> times == 1)
  {
    assert (envs + [last])[..|envs|] == envs;
    var mid := Runs(command, given, envs, m);
    UnfinishedTallied(command, given, envs, m, step);
    if last.readable {
      StepsInStep(command, given, last, mid, Count(step, m.log), step);
    }
  }

  /** Requesting the attestation takes effect and its reply is lost. */
  function LostAttestation(): Env {
    Env(true, false, Rejected, Written, Lost(1), Written, true, Rejected, Written, true, Rejected, true)
  }

  lemma LostAttestationStops(m: Machine)
    requires m.file.Absent?
    ensures RunOnce("R", 0, LostAttestation(), m) == (Log(m, Attested('R', 1)), false)
  {
  }

  /** Working saves alone do not suffice: a reply lost after its transaction was mined stops the run
      before anything is recorded, and the next run does the step again. */
  lemma LostReplyRepeatsStep()
    ensures var envs := [LostAttestation(), LostAttestation()];
            var start := Machine(Absent, []);
            && Unfinished("R", 0, envs, start)
            && Count('R', Runs("R", 0, envs, start).log) == 2
  {
    var e, start := LostAttestation(), Machine(Absent, []);
    var once := Log(start, Attested('R', 1));
    assert [e, e][..1] == [e] && [e][..0] == [];
    LostAttestationStops(start);
    LostAttestationStops(once);
    assert Runs("R", 0, [], start) == start;
    assert Runs("R", 0, [e], start) == once;
    CountAppend('R', start.log, Attested('R', 1));
    CountAppend('R', once.log, Attested('R', 1));
  }

  // ---------------------------------------------------------------- production and success

  function Productions(log: seq<Effect>): nat {
    if log == [] then 0
    else Productions(log[..|log| - 1]) + One(log[|log| - 1].Produced?)
  }

  lemma ProductionsAppend(log: seq<Effect>, e: Effect)
    ensures Productions(log + [e]) == Productions(log) + One(e.Produced?)
  {
    assert (log + [e])[..|log|] == log;
  }

  /** Every step before production is skipped, already recorded, or confirmed. */
  predicate EarlierStepsPass(command: string, env: Env, m: Machine) {
    var done := Loaded(m.file).completed;
    && env.readable && !m.file.Broken?
    && ('r' in command && 'r' !in done ==> env.register.Confirmed?)
    && ('R' in command && 'R' !in done ==> env.attest.Confirmed?)
    && ('a' in command && 'a' !in done ==> env.policyOk && env.check.Confirmed?)
  }

  /** The instruction id production works on. */
  function IdAtHand(command: string, given: nat, env: Env, m: Machine): nat {
    if 'a' !in command then given
    else if 'a' in Loaded(m.file).completed then Loaded(m.file).instructionId
    else IdOf(env.check)
  }

  /** The blocks before production in plain conditions. */
  lemma BeforeProduction(command: string, given: nat, env: Env, m: Machine) returns (g: Progress)
    requires env.readable && !m.file.Broken?
    ensures Steps(command, given, env, m) == if g.Going? then StepProduce(command, env, g) else g
    ensures g.Going? <==> EarlierStepsPass(command, env, m)
    ensures g.Going? ==> g.instructionId == IdAtHand(command, given, env, m)
    ensures Productions(g.m.log) == Productions(m.log)
  {
    var g0 := StepPreRegister(command, env, Going(m, Loaded(m.file), 0, 0));
    RegisterProducesNothing(command, env, m);
    g := g0;
    if g0.Going? {
      assert 'R' in g0.st.completed <==> 'R' in Loaded(m.file).completed;
      assert 'a' in g0.st.completed <==> 'a' in Loaded(m.file).completed;
      AttestProducesNothing(command, env, g0);
      var g1 := StepAttest(command, env, g0);
      g := g1;
      if g1.Going? {
        assert 'a' in g1.st.completed <==> 'a' in Loaded(m.file).completed;
        CheckProducesNothing(command, given, env, g1);
        g := StepCheck(command, given, env, g1);
      }
    }
  }

  lemma RegisterProducesNothing(command: string, env: Env, m: Machine)
    ensures var g := StepPreRegister(command, env, Going(m, Loaded(m.file), 0, 0));
            && Productions(g.m.log) == Productions(m.log)
            && (g.Going? <==> 'r' in command && 'r' !in Loaded(m.file).completed ==> env.register.Confirmed?)
            && (g.Going? ==> g.st.instructionId == Loaded(m.file).instructionId)
  {
    var id := IdOf(env.register);
    ProductionsAppend(m.log, if env.lookupSaysRegistered then Attested('r', id) else Registered(id));
  }

  lemma AttestProducesNothing(command: string, env: Env, g: Progress)
    requires g.Going?
    ensures var g' := StepAttest(command, env, g);
            && Productions(g'.m.log) == Productions(g.m.log)
            && (g'.Going? <==> 'R' in command && 'R' !in g.st.completed ==> env.attest.Confirmed?)
            && (g'.Going? ==> g'.st.instructionId == g.st.instructionId)
  {
    ProductionsAppend(g.m.log, Attested('R', IdOf(env.attest)));
  }

  lemma CheckProducesNothing(command: string, given: nat, env: Env, g: Progress)
    requires g.Going?
    ensures var g' := StepCheck(command, given, env, g);
            && Productions(g'.m.log) == Productions(g.m.log)
            && (g'.Going? <==> 'a' in command && 'a' !in g.st.completed ==> env.policyOk && env.check.Confirmed?)
            && (g'.Going? ==> g'.instructionId == if 'a' !in command then given
                                                  else if 'a' in g.st.completed then g.st.instructionId
                                                  else IdOf(env.check))
  {
    ProductionsAppend(g.m.log, Checked(g.attestId, IdOf(env.check)));
  }

  /** The run gets to production, has it to do, has the proof, and is not refused. */
  predicate Produces(command: string, env: Env, m: Machine) {
    EarlierStepsPass(command, env, m) && 'p' in command && env.proofOk && !env.produce.Rejected?
  }

  /** A run produces once if it meets these conditions, as its last effect and with the id at hand, and
      not at all otherwise. */
  lemma RunProduces(command: string, given: nat, env: Env, m: Machine)
    ensures var log := RunOnce(command, given, env, m).0.log;
            && Productions(log) == Productions(m.log) + One(Produces(command, env, m))
            && (Produces(command, env, m) ==>
                  log != [] && log[|log| - 1] == Produced(IdAtHand(command, given, env, m)))
  {
    if env.readable && !m.file.Broken? {
      var g := BeforeProduction(command, given, env, m);
      if g.Going? {
        ProductionsAppend(g.m.log, Produced(g.instructionId));
      }
    }
  }

  /** A run succeeds if and only if every step it has to do is confirmed, production included; so a
      successful run with `p` has produced exactly once. */
  lemma RunSucceeds(command: string, given: nat, env: Env, m: Machine)
    ensures RunOnce(command, given, env, m).1
            <==> EarlierStepsPass(command, env, m) && ('p' in command ==> env.proofOk && env.produce.Confirmed?)
    ensures RunOnce(command, given, env, m).1 && 'p' in command ==>
              Productions(RunOnce(command, given, env, m).0.log) == Productions(m.log) + 1
  {
    RunProduces(command, given, env, m);
    if env.readable && !m.file.Broken? {
      var g := BeforeProduction(command, given, env, m);
    }
  }

  function ProducingRuns(command: string, given: nat, envs: seq<Env>, m: Machine): nat {
    if envs == [] then 0
    else
      var front := envs[..|envs| - 1];
      ProducingRuns(command, given, front, m)
      + One(Produces(command, envs[|envs| - 1], Runs(command, given, front, m)))
  }

  /** Over any runs, one production for every run that meets the conditions. */
  lemma {:induction false} ProductionsTotal(command: string, given: nat, envs: seq<Env>, m: Machine)
    ensures Productions(Runs(command, given, envs, m).log)
            == Productions(m.log) + ProducingRuns(command, given, envs, m)
  {
    if envs != [] {
      var front := envs[..|envs| - 1];
      ProductionsTotal(command, given, front, m);
      RunProduces(command, given, envs[|envs| - 1], Runs(command, given, front, m));
    }
  }

  // ---------------------------------------------------------------- every effect of a run

  predicate ToDo(command: string, m: Machine, step: char) {
    step in command && step !in Loaded(m.file).completed
  }

  predicate Readable(env: Env, m: Machine) { env.readable && !m.file.Broken? }

  predicate RegisterPasses(command: string, env: Env, m: Machine) {
    Readable(env, m) && (ToDo(command, m, 'r') ==> env.register.Confirmed?)
  }

  predicate AttestPasses(command: string, env: Env, m: Machine) {
    RegisterPasses(command, env, m) && (ToDo(command, m, 'R') ==> env.attest.Confirmed?)
  }

  /** The attestation id a check uses: the one this run obtained last, else the recorded one if the
      command asks for attestations at all, else zero. */
  function AttestationAtHand(command: string, env: Env, m: Machine): nat {
    if ToDo(command, m, 'R') then IdOf(env.attest)
    else if ToDo(command, m, 'r') then IdOf(env.register)
    else if AsksAttestation(command) then Loaded(m.file).attestId
    else 0
  }

  function RegisterEffects(command: string, env: Env, m: Machine): seq<Effect> {
    if !Readable(env, m) || !ToDo(command, m, 'r') || env.register.Rejected? then []
    else if env.lookupSaysRegistered then [Attested('r', env.register.id)]
    else [Registered(env.register.id)]
  }

  function AttestEffects(command: string, env: Env, m: Machine): seq<Effect> {
    if !RegisterPasses(command, env, m) || !ToDo(command, m, 'R') || env.attest.Rejected? then []
    else [Attested('R', env.attest.id)]
  }

  function CheckEffects(command: string, env: Env, m: Machine): seq<Effect> {
    if !AttestPasses(command, env, m) || !ToDo(command, m, 'a') || !env.policyOk || env.check.Rejected? then []
    else [Checked(AttestationAtHand(command, env, m), env.check.id)]
  }

  function ProduceEffects(command: string, given: nat, env: Env, m: Machine): seq<Effect> {
    if Produces(command, env, m) then [Produced(IdAtHand(command, given, env, m))] else []
  }

  lemma RegisterBlock(command: string, env: Env, m: Machine)
    requires Readable(env, m)
    ensures var g := StepPreRegister(command, env, Going(m, Loaded(m.file), 0, 0));
            && g.m.log == m.log + RegisterEffects(command, env, m)
            && (g.Going? <==> RegisterPasses(command, env, m))
            && (g.Going? ==>
                  && ('R' in g.st.completed <==> 'R' in Loaded(m.file).completed)
                  && ('a' in g.st.completed <==> 'a' in Loaded(m.file).completed)
                  && g.st.attestId == (if ToDo(command, m, 'r') then IdOf(env.register) else Loaded(m.file).attestId)
                  && g.st.instructionId == Loaded(m.file).instructionId
                  && g.attestId == if 'r' in command then g.st.attestId else 0)
  {
  }

  lemma AttestBlock(command: string, env: Env, m: Machine, g: Progress)
    requires Readable(env, m) && g == StepPreRegister(command, env, Going(m, Loaded(m.file), 0, 0)) && g.Going?
    ensures var g' := StepAttest(command, env, g);
            && g'.m.log == g.m.log + AttestEffects(command, env, m)
            && (g'.Going? <==> AttestPasses(command, env, m))
            && (g'.Going? ==>
                  && ('a' in g'.st.completed <==> 'a' in Loaded(m.file).completed)
                  && g'.st.instructionId == Loaded(m.file).instructionId
                  && g'.attestId == AttestationAtHand(command, env, m))
  {
    RegisterBlock(command, env, m);
  }

  lemma CheckBlock(command: string, given: nat, env: Env, m: Machine, g: Progress)
    requires g.Going? && AttestPasses(command, env, m) && g.attestId == AttestationAtHand(command, env, m)
    requires 'a' in g.st.completed <==> 'a' in Loaded(m.file).completed
    requires g.st.instructionId == Loaded(m.file).instructionId
    ensures var g' := StepCheck(command, given, env, g);
            && g'.m.log == g.m.log + CheckEffects(command, env, m)
            && (g'.Going? <==> EarlierStepsPass(command, env, m))
            && (g'.Going? ==> g'.instructionId == IdAtHand(command, given, env, m))
  {
  }

  lemma ProduceBlock(command: string, given: nat, env: Env, m: Machine, g: Progress)
    requires g.Going? && EarlierStepsPass(command, env, m) && g.instructionId == IdAtHand(command, given, env, m)
    ensures StepProduce(command, env, g).m.log == g.m.log + ProduceEffects(command, given, env, m)
  {
  }

  /** A run has exactly these effects, in this order and with the ids of their replies. */
  lemma RunEffects(command: string, given: nat, env: Env, m: Machine)
    ensures RunOnce(command, given, env, m).0.log
            == m.log + RegisterEffects(command, env, m) + AttestEffects(command, env, m)
               + CheckEffects(command, env, m) + ProduceEffects(command, given, env, m)
  {
    if Readable(env, m) {
      RegisterBlock(command, env, m);
      var g0 := StepPreRegister(command, env, Going(m, Loaded(m.file), 0, 0));
      if g0.Going? {
        AttestBlock(command, env, m, g0);
        var g1 := StepAttest(command, env, g0);
        if g1.Going? {
          CheckBlock(command, given, env, m, g1);
          var g2 := StepCheck(command, given, env, g1);
          if g2.Going? {
            ProduceBlock(command, given, env, m, g2);
          }
        }
      }
    }
  }

  // ---------------------------------------------------------------- the state file after a run

  /** The steps a successful run leaves recorded, in the order they are done. */
  function Recorded(command: string, done: string): string {
    done + (if 'r' in command && 'r' !in done then "r" else "")
    + (if 'R' in command && 'R' !in done then "R" else "")
    + (if 'a' in command && 'a' !in done then "a" else "")
  }

  /** A successful run removes the state file, or leaves in it exactly what was and has been done when
      removing fails; a failing run never removes it. */
  lemma FileAfterRun(command: string, given: nat, env: Env, m: Machine)
    ensures var (m', ok) := RunOnce(command, given, env, m);
            && (ok && env.removed ==> m'.file.Absent?)
            && (ok && !env.removed && Saves(env) ==>
                  Loaded(m'.file).completed == Recorded(command, Loaded(m.file).completed))
            && (!ok && m'.file.Absent? ==> m.file.Absent?)
  {
    if env.readable && !m.file.Broken? {
      var g := Going(m, Loaded(m.file), 0, 0);
      var g0 := StepPreRegister(command, env, g);
      RegisterRecords(command, env, m);
      if g0.Going? {
        AttestRecords(command, env, g0);
        var g1 := StepAttest(command, env, g0);
        if g1.Going? {
          CheckRecords(command, given, env, g1);
        }
      }
    }
  }

  /** And the ids it leaves are those of the last attestation and of the check it made, or else the
      ones recorded before. */
  lemma IdsRecorded(command: string, given: nat, env: Env, m: Machine)
    requires RunOnce(command, given, env, m).1 && !env.removed && Saves(env)
    ensures var before, after := Loaded(m.file), Loaded(RunOnce(command, given, env, m).0.file);
            && after.attestId == (if ToDo(command, m, 'r') || ToDo(command, m, 'R')
                                  then AttestationAtHand(command, env, m) else before.attestId)
            && after.instructionId == (if ToDo(command, m, 'a') then IdOf(env.check) else before.instructionId)
  {
    RegisterBlock(command, env, m);
    RegisterRecords(command, env, m);
    var g0 := StepPreRegister(command, env, Going(m, Loaded(m.file), 0, 0));
    AttestBlock(command, env, m, g0);
    AttestRecords(command, env, g0);
    var g1 := StepAttest(command, env, g0);
    AttestIds(command, env, g0);
    CheckRecords(command, given, env, g1);
    CheckIds(command, given, env, g1);
  }

  lemma AttestIds(command: string, env: Env, g: Progress)
    requires g.Going? && StepAttest(command, env, g).Going?
    ensures StepAttest(command, env, g).st.attestId
            == if 'R' in command && 'R' !in g.st.completed then IdOf(env.attest) else g.st.attestId
  {
  }

  lemma CheckIds(command: string, given: nat, env: Env, g: Progress)
    requires g.Going? && StepCheck(command, given, env, g).Going?
    ensures var g' := StepCheck(command, given, env, g);
            && g'.st.attestId == g.st.attestId
            && g'.st.instructionId
               == if 'a' in command && 'a' !in g.st.completed then IdOf(env.check) else g.st.instructionId
  {
  }

  /** In a run under way the file, where it is not absent for want of anything to record, holds the
      state in memory. */
  predicate Current(g: Progress) {
    g.Going? ==> Loaded(g.m.file) == g.st
  }

  lemma RegisterRecords(command: string, env: Env, m: Machine)
    ensures var g := StepPreRegister(command, env, Going(m, Loaded(m.file), 0, 0));
            && (Saves(env) ==> Current(g))
            && (g.Going? ==> g.st.completed == Loaded(m.file).completed
                             + if 'r' in command && 'r' !in Loaded(m.file).completed then "r" else "")
            && (g.m.file.Absent? ==> m.file.Absent?)
  {
  }

  lemma AttestRecords(command: string, env: Env, g: Progress)
    requires g.Going?
    ensures var g' := StepAttest(command, env, g);
            && (Saves(env) && Current(g) ==> Current(g'))
            && (g'.Going? ==>
                  g'.st.completed == g.st.completed + if 'R' in command && 'R' !in g.st.completed then "R" else "")
            && (g'.m.file.Absent? ==> g.m.file.Absent?)
  {
  }

  lemma CheckRecords(command: string, given: nat, env: Env, g: Progress)
    requires g.Going?
    ensures var g' := StepCheck(command, given, env, g);
            && (Saves(env) && Current(g) ==> Current(g'))
            && (g'.Going? ==>
                  g'.st.completed == g.st.completed + if 'a' in command && 'a' !in g.st.completed then "a" else "")
            && (g'.m.file.Absent? ==> g.m.file.Absent?)
  {
  }

  // ---------------------------------------------------------------- the command

  /** The state file and the chain as RegisterNode finds and leaves them. */
  class Registrar {
    var file: File
    var log: seq<Effect>

    function Both(): Machine
      reads this
    {
      Machine(file, log)
    }

    /** Opening the file truncates it before anything is written. */
    method SaveState(st: State, w: Write)
      modifies this
      ensures Both() == Save(old(Both()), st, w)
    {
      if w.Untouched? { return; }
      file := Broken;
      if w.Written? { file := Holding(st); }
    }

    /** The "r" block: register, or ask for a fresh attestation of a machine already registered. */
    method PreRegister(command: string, env: Env, st: State) returns (ok: bool, state: State, attestId: nat)
      modifies this
      ensures StepPreRegister(command, env, Going(old(Both()), st, 0, 0))
              == if ok then Going(Both(), state, attestId, 0) else Stopped(Both())
    {
      state, attestId := st, 0;
      if 'r' !in command { return true, st, 0; }
      if 'r' in state.completed { return true, state, state.attestId; }
      if env.register.Rejected? { return false, st, 0; }
      log := log + [if env.lookupSaysRegistered then Attested('r', env.register.id) else Registered(env.register.id)];
      if env.register.Lost? { return false, st, 0; }
      attestId := env.register.id;
      state := state.(completed := state.completed + "r", attestId := attestId);
      SaveState(state, env.registerSaved);
      ok := true;
    }

    /** The "R" block. */
    method Attest(command: string, env: Env, st: State, known: nat) returns (ok: bool, state: State, attestId: nat)
      modifies this
      ensures StepAttest(command, env, Going(old(Both()), st, known, 0))
              == if ok then Going(Both(), state, attestId, 0) else Stopped(Both())
    {
      state, attestId := st, known;
      if 'R' !in command { return true, st, known; }
      if 'R' in state.completed { return true, state, state.attestId; }
      if env.attest.Rejected? { return false, st, known; }
      log := log + [Attested('R', env.attest.id)];
      if env.attest.Lost? { return false, st, known; }
      attestId := env.attest.id;
      state := state.(completed := state.completed + "R", attestId := attestId);
      SaveState(state, env.attestSaved);
      ok := true;
    }

    /** The "a" block: check availability of the attestation at hand. */
    method Check(command: string, given: nat, env: Env, st: State, attestId: nat)
      returns (ok: bool, state: State, instructionId: nat)
      modifies this
      ensures StepCheck(command, given, env, Going(old(Both()), st, attestId, 0))
              == if ok then Going(Both(), state, attestId, instructionId) else Stopped(Both())
    {
      state, instructionId := st, given;
      if 'a' !in command { return true, st, given; }
      if 'a' in state.completed { return true, state, state.instructionId; }
      if !env.policyOk || env.check.Rejected? { return false, st, 0; }
      log := log + [Checked(attestId, env.check.id)];
      if env.check.Lost? { return false, st, 0; }
      instructionId := env.check.id;
      state := state.(completed := state.completed + "a", instructionId := instructionId);
      SaveState(state, env.checkSaved);
      ok := true;
    }

    /** The "p" block. */
    method Produce(command: string, env: Env, instructionId: nat) returns (ok: bool)
      modifies this
      ensures forall st: State, attestId: nat ::
                StepProduce(command, env, Going(old(Both()), st, attestId, instructionId))
                == if ok then Going(Both(), st, attestId, instructionId) else Stopped(Both())
    {
      if 'p' !in command { return true; }
      if !env.proofOk || env.produce.Rejected? { return false; }
      log := log + [Produced(instructionId)];
      return env.produce.Confirmed?;
    }

    method RegisterNode(command: string, given: nat, env: Env) returns (ok: bool)
      modifies this
      ensures (Both(), ok) == RunOnce(command, given, env, old(Both()))
    {
      if !env.readable || file.Broken? { return false; }
      var state := Loaded(file);
      var attestId, instructionId;
      ok, state, attestId := PreRegister(command, env, state);
      if !ok { return false; }
      ok, state, attestId := Attest(command, env, state, attestId);
      if !ok { return false; }
      ok, state, instructionId := Check(command, given, env, state, attestId);
      if !ok { return false; }
      ok := Produce(command, env, instructionId);
      if !ok { return false; }
      if env.removed { file := Absent; }
      return true;
    }
  }
}
