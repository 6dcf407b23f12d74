// The restore reconciler in the order of its code, against an API server that others use too.
// Its outcome is exactly that of the state machine of RestoreProtocol under the same
// interference, answers and crashes, so what holds of all runs holds of it.
module RestoreReconciler {
  import opened Wrappers
  import opened JobState
  import opened Conditions
  import opened Labels
  import opened Environment
  import opened Turns
  import opened RestoreProtocol

  predicate External(e: Event) { e.Progress? || e.Edit? || e.Appear? }

  // Whatever is not the operator's own doing may happen between two of its calls.
  lemma OthersAreExternal(e: Event)
    ensures External(e) <==> !e.Begin? && !e.Call? && !e.Crash?
  {
  }

  predicate Ended(s: State) { s.pc.Idle? }

  function Reconciler(): Machine<State, Event> {
    Machine(Step, External, Ended, (reply, now, stamp) => Call(reply, now, stamp), Crash)
  }

  class ApiServer {
    var world: World
    var turns: seq<Turn<Event>>

    constructor (world: World, turns: seq<Turn<Event>>)
      ensures this.world == world && this.turns == turns
    {
      this.world := world;
      this.turns := turns;
    }

    // The others act, then a call is made; nothing comes back from a dead operator's call.
    method Await(ghost pc: Pc) returns (turn: Turn<Event>)
      modifies this
      ensures old(turns) == [] ==> turn.fate.OperatorCrash? && world == old(world) && turns == []
      ensures old(turns) != [] ==>
                && turn == old(turns)[0] && turns == old(turns)[1..]
                && State(world, pc) == Turns.Disturbed(Reconciler(), State(old(world), pc), turn.before)
    {
      if turns == [] {
        return Turn([], OperatorCrash, 0, "");
      }
      turn := turns[0];
      turns := turns[1..];
      for i := 0 to |turn.before|
        invariant State(world, pc) == Turns.Disturbed(Reconciler(), State(old(world), pc), turn.before[..i])
        invariant turns == old(turns)[1..]
      {
        assert turn.before[..i + 1] == turn.before[..i] + [turn.before[i]];
        DisturbedSnoc(Reconciler(), State(old(world), pc), turn.before[..i], turn.before[i]);
        if External(turn.before[i]) {
          world := RestoreProtocol.Disturbed(world, turn.before[i]);
        }
      }
      assert turn.before[..|turn.before|] == turn.before;
    }

    // A call that changes nothing on the server.
    method Read(ghost pc: Pc) returns (outcome: Outcome, now: int)
      requires !pc.Idle? && !pc.PatchStatus? && !pc.AddFinalizer? && !pc.CreateJob?
      modifies this
      ensures Play(Reconciler(), State(old(world), pc), old(turns)) ==
              Play(Reconciler(), State(world, match outcome
                                case Success => Answered(world, pc, now)
                                case Failure(error, message) => Erred(pc, error, message)
                                case Crashed => Idle), turns)
    {
      var turn := Await(pc);
      outcome, now := OutcomeOf(turn.fate), turn.now;
    }

    method PatchRestoreStatus(c: Restore, w: Write)
      modifies this
      ensures Play(Reconciler(), State(old(world), PatchStatus(c, w)), old(turns)) == (State(world, Idle), turns)
    {
      var turn := Await(PatchStatus(c, w));
      if TookEffect(turn.fate) {
        var status := Written(world.cr.status, c, w, turn.now);
        var cr := world.cr.(status := status);
        world := world.(cr := cr, versions := world.versions + [cr], writes := world.writes + [w]);
      }
    }

    method PatchFinalizer(ghost c: Restore) returns (ok: bool)
      modifies this
      ensures Play(Reconciler(), State(old(world), AddFinalizer(c)), old(turns)) ==
              Play(Reconciler(), State(world, if ok then Checked(c) else Idle), turns)
    {
      var turn := Await(AddFinalizer(c));
      if TookEffect(turn.fate) {
        var cr := world.cr.(finalizer := true);
        world := world.(cr := cr, versions := world.versions + [cr]);
      }
      ok := OutcomeOf(turn.fate).Success?;
    }

    method ListRestoreJobs(ghost c: Restore) returns (r: Option<seq<Job>>, now: int)
      modifies this
      ensures Play(Reconciler(), State(old(world), ListJobs(c)), old(turns)) ==
              Play(Reconciler(), State(world, if r.Some? then Decided(c, r.value, now) else Idle), turns)
    {
      var outcome;
      outcome, now := Read(ListJobs(c));
      r := if outcome.Success? then Some(Listed(world)) else None;
    }

    // The name taken is refused by the server.
    method CreateRestoreJob(c: Restore) returns (ok: bool)
      modifies this
      ensures Play(Reconciler(), State(old(world), CreateJob(c)), old(turns)) ==
              Play(Reconciler(), State(world, if ok then PatchStatus(c, RunningWrite) else Idle), turns)
    {
      var turn := Await(CreateJob(c));
      var jobName := world.name + "-" + turn.stamp;
      ok := OutcomeOf(turn.fate).Success?;
      if exists j :: j in world.jobs && j.name == jobName {
        ok := false;
      } else if TookEffect(turn.fate) {
        var labels := BuildJobLabels(world.name, c.cluster, RestoreJob, c.templateLabels);
        world := world.(jobs := world.jobs + [Job(jobName, labels, None)], created := world.created + [jobName]);
      }
    }
  }

  // One reconcile from the cached version of the CR with the given index: the world it leaves
  // and the turns it takes are those of the machine.
  method ReconcileRestore(api: ApiServer, version: nat)
    requires version < |api.world.versions|
    modifies api
    ensures Play(Reconciler(), Step(State(old(api.world), Idle), Begin(version)), old(api.turns)) ==
            (State(api.world, Idle), api.turns)
  {
    var restore := api.world.versions[version];

    if restore.paused {
      var alreadyCurrent := PausedShown(restore.status) && restore.status.observedGeneration == Some(restore.generation);
      if !alreadyCurrent {
        api.PatchRestoreStatus(restore, PausedWrite);
      }
      return;
    }

    if !restore.finalizer {
      var added := api.PatchFinalizer(restore);
      if !added { return; }
    }
    if Complete(restore.status) { return; }

    var jobs, now := api.ListRestoreJobs(restore);
    if jobs.None? { return; }

    match ClassifyJobs(jobs.value)
    case Succeeded(jobName) =>
      api.PatchRestoreStatus(restore, CompletedWrite(InfoOf(jobs.value, jobName, now)));
    case Failed(jobName) =>
      if !FailedShown(restore.status) { api.PatchRestoreStatus(restore, FailedWrite(jobName)); }
    case InProgress =>
      if !RunningShown(restore.status) { api.PatchRestoreStatus(restore, RunningWrite); }
    case NoJobs =>
      CreateRestore(api, restore);
  }

  // No Job exists yet: resolve the dependencies and create one.
  method CreateRestore(api: ApiServer, restore: Restore)
    modifies api
    ensures Play(Reconciler(), State(old(api.world), GetBackup(restore)), old(api.turns)) ==
            (State(api.world, Idle), api.turns)
  {
    var resolved := ResolveDependencies(api, restore);
    if !resolved { return; }

    var created := api.CreateRestoreJob(restore);
    if !created { return; }

    api.PatchRestoreStatus(restore, RunningWrite);
  }

  // Source backup, cluster, certificates, credentials, ConfigMap.
  method ResolveDependencies(api: ApiServer, restore: Restore) returns (ok: bool)
    modifies api
    ensures Play(Reconciler(), State(old(api.world), GetBackup(restore)), old(api.turns)) ==
            Play(Reconciler(), State(api.world, if ok then CreateJob(restore) else Idle), api.turns)
  {
    var outcome, now := api.Read(GetBackup(restore));
    if !outcome.Success? { return false; }

    outcome, now := api.Read(ResolveCluster(restore));
    if outcome.Crashed? { return false; }
    if outcome.Failure? {
      api.PatchRestoreStatus(restore, ErrorWrite(outcome.error, outcome.message));
      return false;
    }
    ok := PrepareConfig(api, restore);
  }

  method PrepareConfig(api: ApiServer, restore: Restore) returns (ok: bool)
    modifies api
    ensures Play(Reconciler(), State(old(api.world), ResolveTls(restore)), old(api.turns)) ==
            Play(Reconciler(), State(api.world, if ok then CreateJob(restore) else Idle), api.turns)
  {
    ok := ResolveCredentials(api, restore);
    if ok { ok := ApplyConfig(api, restore); }
  }

  method ApplyConfig(api: ApiServer, restore: Restore) returns (ok: bool)
    modifies api
    ensures Play(Reconciler(), State(old(api.world), ApplyConfigMap(restore)), old(api.turns)) ==
            Play(Reconciler(), State(api.world, if ok then CreateJob(restore) else Idle), api.turns)
  {
    var outcome, now := api.Read(ApplyConfigMap(restore));
    ok := outcome.Success?;
  }

  // Certificates, whose absence is no error, and credentials.
  method ResolveCredentials(api: ApiServer, restore: Restore) returns (ok: bool)
    modifies api
    ensures Play(Reconciler(), State(old(api.world), ResolveTls(restore)), old(api.turns)) ==
            Play(Reconciler(), State(api.world, if ok then ApplyConfigMap(restore) else Idle), api.turns)
  {
    var outcome, now := api.Read(ResolveTls(restore));
    if outcome.Crashed? { return false; }
    ok := ResolveAuthentication(api, restore);
  }

  method ResolveAuthentication(api: ApiServer, restore: Restore) returns (ok: bool)
    modifies api
    ensures Play(Reconciler(), State(old(api.world), ResolveAuth(restore)), old(api.turns)) ==
            Play(Reconciler(), State(api.world, if ok then ApplyConfigMap(restore) else Idle), api.turns)
  {
    var outcome, now := api.Read(ResolveAuth(restore));
    ok := outcome.Success?;
  }
}
