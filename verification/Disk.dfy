/** Durable storage: what survives a crash, and how an effect changes it. */
module Disk {
  import opened Wrappers
  import opened Graph
  import opened State
  import opened Events

  /** The state file and its revision file, the run directory, and the context pack of a discovery. */
  datatype Disk = Disk(
    state: Option<SessionState>,
    revision: Option<nat>,
    files: map<Ref, Document>,
    pack: map<Ref, Document>,
    questions: seq<string>,
    locked: bool)

  const EMPTY_DISK := Disk(None, None, map[], map[], [], false)

  /** A missing revision file reads as 0. */
  function ReadRevision(d: Disk): nat {
    if d.revision.Some? then d.revision.value else 0
  }

  function ApplyEffect(d: Disk, e: Effect): Disk {
    match e
    case StateWrite(st) => d.(state := Some(st))
    case RevisionWrite(n) => d.(revision := Some(n))
    case ArtifactWrite(ref, doc) => d.(files := d.files[ref := doc])
    case PackWrite(ref, doc) => d.(pack := d.pack[ref := doc])
    case PackQuestion(q, _, _, _) => d.(questions := d.questions + [q])
    case PackLock => d.(locked := true)
    case AskExecutor(_, _, _) => d
    case AskReviewer(_, _, _) => d
    case Emit(_) => d
  }

  function Apply(d: Disk, trace: seq<Effect>): Disk
    decreases |trace|
  {
    if trace == [] then d else Apply(ApplyEffect(d, trace[0]), trace[1..])
  }

  lemma {:induction false} ApplyConcat(d: Disk, a: seq<Effect>, b: seq<Effect>)
    ensures Apply(d, a + b) == Apply(Apply(d, a), b)
    decreases |a|
  {
    if a == [] {
      assert a + b == b;
    } else {
      assert (a + b)[1..] == a[1..] + b;
      ApplyConcat(ApplyEffect(d, a[0]), a[1..], b);
    }
  }

  lemma {:induction false} NothingDone(d: Disk)
    ensures Apply(d, []) == d
  {
  }

  lemma {:induction false} OneMore(d: Disk, done: seq<Effect>, x: Effect)
    ensures Apply(d, done + [x]) == ApplyEffect(Apply(d, done), x)
    ensures Apply(d, [x]) == ApplyEffect(d, x)
  {
    ApplyConcat(d, done, [x]);
    assert [x][1..] == [];
    assert Apply(ApplyEffect(d, x), []) == ApplyEffect(d, x);
    assert Apply(ApplyEffect(Apply(d, done), x), []) == ApplyEffect(Apply(d, done), x);
  }

  /** A save writes both files. */
  lemma {:induction false} WritesBoth(d: Disk, s: Stored)
    ensures Apply(d, [StateWrite(s.state), RevisionWrite(s.revision)]) ==
            d.(state := Some(s.state), revision := Some(s.revision))
  {
    var w := [StateWrite(s.state), RevisionWrite(s.revision)];
    assert w == [w[0]] + [w[1]];
    OneMore(d, [w[0]], w[1]);
    OneMore(d, [], w[0]);
  }

  /** Effects that leave the two state files alone. */
  predicate NoSave(trace: seq<Effect>) {
    forall i :: 0 <= i < |trace| ==> !trace[i].StateWrite? && !trace[i].RevisionWrite?
  }

  lemma {:induction false} NoSaveKeepsState(d: Disk, trace: seq<Effect>)
    requires NoSave(trace)
    ensures Apply(d, trace).state == d.state && Apply(d, trace).revision == d.revision
    ensures SavesOf(trace) == []
    decreases |trace|
  {
    if trace != [] {
      NoSaveKeepsState(ApplyEffect(d, trace[0]), trace[1..]);
    }
  }

  /** What comes before a save: calls to roles, artifacts and pack files. */
  predicate Groundwork(trace: seq<Effect>) {
    forall i :: 0 <= i < |trace| ==>
      trace[i].AskExecutor? || trace[i].AskReviewer? || trace[i].ArtifactWrite? || trace[i].PackWrite?
  }

  /** What comes after it: events, questions and the pack lock. */
  predicate Aftermath(trace: seq<Effect>) {
    forall i :: 0 <= i < |trace| ==> trace[i].Emit? || trace[i].PackQuestion? || trace[i].PackLock?
  }
}
