/** Without a context pack writer the two engines are the same engine. */
module Agreement {
  import opened Wrappers
  import opened Graph
  import opened State
  import opened Events
  import opened Disk
  import opened Machine
  import opened Sessions
  import opened Refinement
  import opened SyncEngine
  import opened AsyncEngine

  /** Run both on equal worlds with the same answers from outside: they save the same snapshots, emit the same
      events, write the same artifacts, leave equal worlds and end the same way, although one closes a cancelled
      session where it reads the signal and the other where it catches the cancellation. */
  method RunBoth(plain: WorkflowEngine, awaited: AsyncWorkflowEngine, req: RunRequest, answers: seq<Input>)
    returns (a: Exit, b: Exit, first: Option<SessionState>, second: Option<SessionState>)
    requires plain.Valid() && awaited.Valid() && awaited.pack == null
    requires plain.graph == awaited.graph && plain.cfg == awaited.cfg
    requires plain.store != awaited.store && plain.artifacts != awaited.artifacts
    requires plain.World() == awaited.World()
    modifies plain, plain.store, plain.artifacts, awaited, awaited.store, awaited.artifacts
    ensures a == b && (a.Normal? ==> first == second)
    ensures plain.World() == awaited.World()
    ensures old(plain.trace) <= plain.trace && old(awaited.trace) <= awaited.trace
    ensures plain.trace[|old(plain.trace)|..] == awaited.trace[|old(awaited.trace)|..]
  {
    hide Session;
    a, first := plain.Run(req, answers);
    b, second := awaited.Run(req, answers);
  }
}
