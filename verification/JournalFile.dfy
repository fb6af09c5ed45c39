/**
 The journal on disk. A save writes a temporary file and renames it over the journal; a delete
 unlinks the journal. The process may die, or a primitive may throw, between any two primitives.
 Only process crashes are covered: the code does not call fsync.
 */
module JournalFile {
  import opened Commands

  datatype Path = JournalPath | TempPath(uuid: nat)

  /** A JSON text cut short does not parse, so all unfinished contents look alike. */
  datatype Content = Whole(journal: Journal) | Partial

  type Files = map<Path, Content>

  datatype Primitive =
    | BeginWrite(path: Path)
    | FinishWrite(path: Path, journal: Journal)
    | Rename(source: Path, target: Path)
    | Unlink(path: Path)

  function Do(files: Files, p: Primitive): Files {
    match p
    case BeginWrite(path) => files[path := Partial]
    case FinishWrite(path, j) => files[path := Whole(j)]
    case Rename(source, target) => if source in files then files[target := files[source]] - {source} else files
    case Unlink(path) => files - {path}
  }

  function DoFirst(files: Files, ps: seq<Primitive>, n: nat): Files
    requires n <= |ps|
  {
    if n == 0 then files else Do(DoFirst(files, ps, n - 1), ps[n - 1])
  }

  /** What load returns when reading works: null for a missing or unparsable file. */
  function Loaded(files: Files): Option<Journal> {
    if JournalPath in files && files[JournalPath].Whole? then Some(files[JournalPath].journal) else None
  }

  // ---------------------------------------------------------------- calls cut short anywhere

  const SAVE_STEPS := 3

  function SaveSteps(j: Journal, uuid: nat): seq<Primitive> {
    [BeginWrite(TempPath(uuid)), FinishWrite(TempPath(uuid), j), Rename(TempPath(uuid), JournalPath)]
  }

  /** A call that ran its first `steps` primitives. A save stopped short was a crash, or an
      exception whose handler may have managed to unlink the temporary file. */
  datatype Call =
    | Save(journal: Journal, uuid: nat, steps: nat, cleaned: bool)
    | Delete(unlinked: bool)
  {
    predicate WellFormed() {
      Save? ==> steps <= SAVE_STEPS && (cleaned ==> steps < SAVE_STEPS)
    }
  }

  function DoCall(files: Files, call: Call): Files
    requires call.WellFormed()
  {
    match call
    case Save(j, uuid, steps, cleaned) =>
      var written := DoFirst(files, SaveSteps(j, uuid), steps);
      if cleaned then Do(written, Unlink(TempPath(uuid))) else written
    case Delete(unlinked) => if unlinked then Do(files, Unlink(JournalPath)) else files
  }

  function DoCalls(files: Files, calls: seq<Call>, k: nat): Files
    requires k <= |calls| && forall i | 0 <= i < |calls| :: calls[i].WellFormed()
  {
    if k == 0 then files else DoCall(DoCalls(files, calls, k - 1), calls[k - 1])
  }

  /** The journal of the last completed save, or None if a completed delete came later. */
  function LastEffect(initial: Option<Journal>, calls: seq<Call>, k: nat): Option<Journal>
    requires k <= |calls|
  {
    if k == 0 then initial
    else match calls[k - 1]
         case Save(j, _, steps, _) => if steps == SAVE_STEPS then Some(j) else LastEffect(initial, calls, k - 1)
         case Delete(unlinked) => if unlinked then None else LastEffect(initial, calls, k - 1)
  }

  /** The journal file itself is never half written, whatever lies in temporary files. */
  predicate Intact(files: Files) {
    JournalPath in files ==> files[JournalPath].Whole?
  }

  /** A call takes effect whole or not at all; a save leaves its own temporary file behind only if it
      stopped half-way and the file was not unlinked, and touches no other. */
  lemma CallIsAtomic(files: Files, call: Call)
    requires Intact(files) && call.WellFormed()
    ensures Intact(DoCall(files, call))
    ensures Loaded(DoCall(files, call)) ==
            if call.Save? && call.steps == SAVE_STEPS then Some(call.journal)
            else if call == Delete(true) then None
            else Loaded(files)
    ensures forall path: Path | path.TempPath? && !(call.Save? && path.uuid == call.uuid) ::
              (path in DoCall(files, call) <==> path in files) &&
              (path in files ==> DoCall(files, call)[path] == files[path])
    ensures call.Save? && (call.steps == SAVE_STEPS || call.cleaned) ==> TempPath(call.uuid) !in DoCall(files, call)
  {
    if call.Save? {
      var ps := SaveSteps(call.journal, call.uuid);
      assert DoFirst(files, ps, 1) == Do(files, ps[0]);
      assert DoFirst(files, ps, 2) == Do(DoFirst(files, ps, 1), ps[1]);
      assert DoFirst(files, ps, 3) == Do(DoFirst(files, ps, 2), ps[2]);
    }
  }

  /** Crash atomicity: after any sequence of saves and deletes, each cut short by a crash or an
      exception anywhere, load returns the last journal whose rename took place, or nothing if a
      delete took effect after it. Leftover temporary files never matter. */
  lemma {:induction false} CrashAtomicity(files: Files, calls: seq<Call>, k: nat)
    requires Intact(files) && k <= |calls| && forall i | 0 <= i < |calls| :: calls[i].WellFormed()
    ensures Intact(DoCalls(files, calls, k))
    ensures Loaded(DoCalls(files, calls, k)) == LastEffect(Loaded(files), calls, k)
  {
    if k > 0 {
      CrashAtomicity(files, calls, k - 1);
      CallIsAtomic(DoCalls(files, calls, k - 1), calls[k - 1]);
    }
  }

  // ---------------------------------------------------------------- the journal manager

  /** What the file system does to one save: the random part of the temporary name, how many of the
      three primitives succeed before one throws, and whether the handler can unlink the file. */
  datatype SaveIo = SaveIo(uuid: nat, succeeding: nat, unlinks: bool)
  {
    predicate Works() {
      succeeding >= 3
    }
  }

  /** The journal manager of one agent process. Which primitives fail is a parameter of each call. */
  class JournalManager {
    var files: Files

    constructor (files: Files)
      requires Intact(files)
      ensures this.files == files
    {
      this.files := files;
    }

    ghost predicate Valid()
      reads this
    {
      Intact(files)
    }

    ghost function Disk(): Option<Journal>
      reads this
    {
      Loaded(files)
    }

    method Load(readable: bool) returns (r: Option<Journal>)
      requires Valid()
      ensures r == if readable then Disk() else None
    {
      if !readable || JournalPath !in files {
        return None;
      }
      match files[JournalPath] {
        case Whole(j) => r := Some(j);
        case Partial => r := None;
      }
    }

    method Save(j: Journal, io: SaveIo) returns (ok: bool, ghost call: Call)
      requires Valid()
      modifies this
      ensures Valid() && call.WellFormed() && files == DoCall(old(files), call)
      ensures call.Save? && call.journal == j && call.uuid == io.uuid
      ensures call.steps == if io.Works() then 3 else io.succeeding
      ensures call.cleaned <==> !io.Works() && io.unlinks
      ensures ok <==> io.Works()
      ensures Disk() == if io.Works() then Some(j) else old(Disk())
    {
      var temp, steps := TempPath(io.uuid), 0;
      ghost var before, ps := files, SaveSteps(j, io.uuid);
      if io.succeeding >= 1 {
        files, steps := Do(files, BeginWrite(temp)), 1;
      }
      if io.succeeding >= 2 {
        files, steps := Do(files, FinishWrite(temp, j)), 2;
      }
      if io.succeeding >= 3 {
        files, steps := Do(files, Rename(temp, JournalPath)), 3;
      }
      assert files == DoFirst(before, ps, steps) by {
        assert steps >= 1 ==> DoFirst(before, ps, 1) == Do(before, ps[0]);
        assert steps >= 2 ==> DoFirst(before, ps, 2) == Do(DoFirst(before, ps, 1), ps[1]);
        assert steps >= 3 ==> DoFirst(before, ps, 3) == Do(DoFirst(before, ps, 2), ps[2]);
      }
      ok := steps == SAVE_STEPS;
      if !ok && io.unlinks {
        files := Do(files, Unlink(temp));
      }
      call := Call.Save(j, io.uuid, steps, !ok && io.unlinks);
      CallIsAtomic(before, call);
    }

    method Delete(unlinks: bool)
      requires Valid()
      modifies this
      ensures Valid() && files == DoCall(old(files), Call.Delete(unlinks))
      ensures Disk() == if unlinks then None else old(Disk())
    {
      if unlinks {
        files := Do(files, Unlink(JournalPath));
      }
    }

    /** Returns the in-memory journal, which exists even when saving it failed. */
    method CreateClaimed(c: ClaimResponse, io: SaveIo) returns (j: Journal, ok: bool)
      requires Valid()
      modifies this
      ensures Valid() && (ok <==> io.Works())
      ensures j == Journal(c.commandId, c.leaseId, c.payload.Type(), c.startedAt, c.scheduledEndAt, None, CLAIMED)
      ensures Disk() == if ok then Some(j) else old(Disk())
    {
      j := ClaimedJournal(c);
      ghost var call;
      ok, call := Save(j, io);
    }

    /** The in-memory journal has the new stage even when saving it failed. */
    method UpdateStage(j: Journal, stage: Stage, io: SaveIo) returns (updated: Journal, ok: bool)
      requires Valid()
      modifies this
      ensures Valid() && (ok <==> io.Works())
      ensures updated == j.(stage := stage)
      ensures Disk() == if ok then Some(updated) else old(Disk())
    {
      updated := j.(stage := stage);
      ghost var call;
      ok, call := Save(updated, io);
    }

    method UpdateHttpSnapshot(j: Journal, snapshot: HttpGetJsonResult, io: SaveIo)
      returns (updated: Journal, ok: bool)
      requires Valid()
      modifies this
      ensures Valid() && (ok <==> io.Works())
      ensures updated == j.(httpSnapshot := Some(snapshot), stage := RESULT_SAVED)
      ensures Disk() == if ok then Some(updated) else old(Disk())
    {
      updated := j.(httpSnapshot := Some(snapshot), stage := RESULT_SAVED);
      ghost var call;
      ok, call := Save(updated, io);
    }
  }
}
