/** The filesystem stores, as objects whose files are replaced atomically, one at a time. */
module Stores {
  import opened Wrappers
  import opened Graph
  import opened State
  import opened Events
  import opened Names
  import opened Disk
  import opened Machine

  function NewSession(sessionId: string, contextId: Option<string>, firstPhase: PhaseId, startedAt: Time): SessionState {
    SessionState(sessionId, contextId, startedAt, firstPhase, [], [], 0, Initialized, None)
  }

  /** The state snapshot and its revision, two files of one run directory. */
  class FsStateStore {
    var stateFile: Option<SessionState>
    var revisionFile: Option<nat>

    constructor ()
      ensures stateFile == None && revisionFile == None
    {
      stateFile, revisionFile := None, None;
    }

    function Revision(): nat
      reads this
    {
      if revisionFile.Some? then revisionFile.value else 0
    }

    /** Loading fails when there is no file, when the snapshot does not validate, or when it belongs to another
        session. */
    method Load(sessionId: string) returns (r: Result<Stored, EngineError>)
      ensures r.Success? <==> stateFile.Some? && Loadable(stateFile.value) && stateFile.value.sessionId == sessionId
      ensures r.Success? ==> r.value == Stored(stateFile.value, Revision())
      ensures r == Failure(StateNotFoundError) <==> stateFile.None?
      ensures r == Failure(ValidationError) <==> stateFile.Some? && !Loadable(stateFile.value)
      ensures r.Failure? ==> r.error in {StateNotFoundError, ValidationError, StateError}
    {
      if stateFile.None? {
        return Failure(StateNotFoundError);
      }
      var state := stateFile.value;
      if !Loadable(state) {
        return Failure(ValidationError);
      }
      if state.sessionId != sessionId {
        return Failure(StateError);
      }
      r := Success(Stored(state, Revision()));
    }

    /** Compare and set: the snapshot is written only at the expected revision, which then grows by one. */
    method Save(snapshot: SessionState, expected: nat) returns (r: Result<Stored, EngineError>)
      modifies this
      ensures r.Success? <==> old(stateFile).Some? && old(Revision()) == expected
      ensures r.Success? ==> r.value == Stored(snapshot, expected + 1)
      ensures r.Success? ==> stateFile == Some(snapshot) && revisionFile == Some(expected + 1)
      ensures r.Failure? ==> stateFile == old(stateFile) && revisionFile == old(revisionFile)
      ensures r.Failure? ==> r.error == if stateFile.None? then StateNotFoundError else ConcurrencyError
    {
      if stateFile.None? {
        return Failure(StateNotFoundError);
      }
      var current := Revision();
      if current != expected {
        return Failure(ConcurrencyError);
      }
      var next := current + 1;
      stateFile := Some(snapshot);
      revisionFile := Some(next);
      r := Success(Stored(snapshot, next));
    }

    /** A new session, unless one is there already. */
    method Initialize(sessionId: string, contextId: Option<string>, firstPhase: PhaseId, startedAt: Time)
      returns (r: Result<Stored, EngineError>)
      modifies this
      ensures r.Success? <==> old(stateFile).None?
      ensures r.Success? ==> r.value == Stored(NewSession(sessionId, contextId, firstPhase, startedAt), 0)
      ensures r.Success? ==> stateFile == Some(r.value.state) && revisionFile == Some(0)
      ensures r.Failure? ==> r.error == StateError && stateFile == old(stateFile) && revisionFile == old(revisionFile)
    {
      if stateFile.Some? {
        return Failure(StateError);
      }
      var state := NewSession(sessionId, contextId, firstPhase, startedAt);
      stateFile := Some(state);
      revisionFile := Some(0);
      r := Success(Stored(state, 0));
    }

    /** Deleting nothing succeeds; the session of someone else, or a snapshot that does not load, stays. */
    method Delete(sessionId: string) returns (error: Option<EngineError>)
      modifies this
      ensures error.None? ==> stateFile.None? && (old(stateFile).Some? ==> revisionFile.None?)
      ensures error.None? <==>
        (old(stateFile).Some? ==> Loadable(old(stateFile).value) && old(stateFile).value.sessionId == sessionId)
      ensures error.Some? ==> stateFile == old(stateFile) && revisionFile == old(revisionFile)
    {
      if stateFile.None? {
        return None;
      }
      if !Loadable(stateFile.value) {
        return Some(ValidationError);
      }
      if stateFile.value.sessionId != sessionId {
        return Some(StateError);
      }
      stateFile := None;
      revisionFile := None;
      error := None;
    }
  }

  /** Handoffs and decisions under a run directory. */
  class FsArtifactStore {
    var files: map<Ref, Document>

    constructor ()
      ensures files == map[]
    {
      files := map[];
    }

    method SaveHandoff(id: PhaseId, roleId: string, sequence: nat, body: string) returns (ref: Ref)
      modifies this
      ensures ref == HandoffName(id, sequence)
      ensures files == old(files)[ref := HandoffDocument(id, roleId, body)]
    {
      ref := InDirectory("handoffs", FileName(id, sequence));
      files := files[ref := HandoffDocument(id, roleId, body)];
    }

    method SaveDecision(id: PhaseId, sequence: nat, payload: DecisionPayload) returns (ref: Ref)
      modifies this
      ensures ref == DecisionName(id, sequence)
      ensures files == old(files)[ref := DecisionDocument(payload)]
    {
      ref := InDirectory("decisions", FileName(id, sequence));
      files := files[ref := DecisionDocument(payload)];
    }

    method LoadArtifact(ref: Ref) returns (r: Result<Document, EngineError>)
      ensures r.Success? <==> ref in files
      ensures r.Success? ==> r.value == files[ref]
      ensures r.Failure? ==> r.error == StateNotFoundError
    {
      if ref !in files {
        return Failure(StateNotFoundError);
      }
      r := Success(files[ref]);
    }
  }

  /** The context pack of a discovery session: its files, its questions, and whether it is locked. */
  class FsContextPackWriter {
    var files: map<Ref, Document>
    var questions: seq<string>
    var locked: bool

    constructor ()
      ensures files == map[] && questions == [] && !locked
    {
      files, questions, locked := map[], [], false;
    }

    method WriteDiscoveryFile(ref: Ref, content: Document)
      modifies this`files
      ensures files == old(files)[ref := content]
    {
      files := files[ref := content];
    }

    method AppendQuestion(question: string)
      modifies this`questions
      ensures questions == old(questions) + [question]
    {
      questions := questions + [question];
    }

    /** Finalizing without `lock` leaves a locked pack locked. */
    method Finalize(lock: bool)
      modifies this`locked
      ensures locked == (old(locked) || lock)
    {
      if lock {
        locked := true;
      }
    }
  }
}
