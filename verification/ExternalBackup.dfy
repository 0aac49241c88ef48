/**
 The external backup protocol (scripts/admin_target_external_backup.py): quiesce, dump, stop the
 database, archive, write the manifests, rename, and restart what was running. Every remote or local
 operation may fail, with or without its effect, or claim success without it.
 */
module ExternalBackup {
  import opened FiniteSets
  import opened Outcomes
  import opened TransferBudget

  datatype Container =
    | Postgres
    | AcquisitionBridge | MetadataWorker | MusicWorker | WorkerCpu | Stream
    | Operator | TailnetAdmin | TailnetMobileEdge | MobileApi | Api
    | Unrelated(name: string)

  const STATEFUL: seq<Container> := [
    AcquisitionBridge, MetadataWorker, MusicWorker, WorkerCpu, Stream,
    Operator, TailnetAdmin, TailnetMobileEdge, MobileApi, Api]
  const CORE_ORDER: seq<Container> := [Api, MobileApi, Stream, WorkerCpu]
  const AUXILIARY_ORDER: seq<Container> := [
    Operator, MetadataWorker, MusicWorker, AcquisitionBridge, TailnetMobileEdge, TailnetAdmin]

  /** The volumes in their order, and whether the backup cannot do without them. */
  const VOLUMES: seq<(string, bool)> := [
    ("postgres-volume.tar.gz", true), ("vault-volume.tar.gz", true),
    ("privacy-ledger-volume.tar.gz", false), ("training-consent-ledger-volume.tar.gz", false)]

  lemma Core(c: Container)
    ensures c in CORE_ORDER <==> c in {Api, MobileApi, Stream, WorkerCpu}
  {
    var s := CORE_ORDER;
    assert s[0] == Api && s[1] == MobileApi && s[2] == Stream && s[3] == WorkerCpu && |s| == 4;
  }

  lemma Auxiliary(c: Container)
    ensures c in AUXILIARY_ORDER <==>
      c in {Operator, MetadataWorker, MusicWorker, AcquisitionBridge, TailnetMobileEdge, TailnetAdmin}
  {
    var s := AUXILIARY_ORDER;
    assert s[0] == Operator && s[1] == MetadataWorker && s[2] == MusicWorker && s[3] == AcquisitionBridge
      && s[4] == TailnetMobileEdge && s[5] == TailnetAdmin && |s| == 6;
  }

  lemma Stateful(c: Container)
    ensures c in STATEFUL <==> !c.Postgres? && !c.Unrelated?
  {
    var s := STATEFUL;
    assert s[0] == AcquisitionBridge && s[1] == MetadataWorker && s[2] == MusicWorker && s[3] == WorkerCpu
      && s[4] == Stream && s[5] == Operator && s[6] == TailnetAdmin && s[7] == TailnetMobileEdge
      && s[8] == MobileApi && s[9] == Api && |s| == 10;
  }

  /** The two restart orders together hold every stateful container, each of them once. */
  lemma RestartCovers()
    ensures SetOf(STATEFUL) == SetOf(CORE_ORDER) + SetOf(AUXILIARY_ORDER)
    ensures SetOf(CORE_ORDER) !! SetOf(AUXILIARY_ORDER)
    ensures Postgres !in SetOf(STATEFUL)
    ensures |STATEFUL| == |CORE_ORDER| + |AUXILIARY_ORDER|
  {
    forall c: Container
      ensures c in STATEFUL <==> c in CORE_ORDER || c in AUXILIARY_ORDER
      ensures !(c in CORE_ORDER && c in AUXILIARY_ORDER)
    {
      Core(c);
      Auxiliary(c);
      Stateful(c);
    }
    Stateful(Postgres);
  }

  // ---------------------------------------------------------------- what happens, and what may fail

  datatype Fault = Fine | Fails(effect: bool) | Silent

  /** What ran, and what had been seen healthy since the run began, when an operation began. */
  datatype Op =
    | Dumping(running: set<Container>)
    | Archiving(running: set<Container>)
    | Starting(c: Container, ready: set<Container>)

  /** Dumps need PostgreSQL and nothing stateful beside it, archives PostgreSQL stopped as well; a core container
      starts after PostgreSQL is healthy, an auxiliary one after every core one is healthy too; and
      nothing starts that was not stopped. */
  predicate OpOk(op: Op, stopped: set<Container>) {
    match op
    case Dumping(running) => running !! SetOf(STATEFUL) && Postgres in running
    case Archiving(running) => running !! SetOf(STATEFUL) && Postgres !in running
    case Starting(c, ready) =>
      && (c == Postgres || c in stopped)
      && (c in CORE_ORDER ==> Postgres in ready)
      && (c in AUXILIARY_ORDER ==> Postgres in ready && SetOf(CORE_ORDER) * stopped <= ready)
  }

  predicate LogOk(log: seq<Op>, stopped: set<Container>) {
    forall i :: 0 <= i < |log| ==> OpOk(log[i], stopped)
  }

  datatype File = File(name: string, size: nat)

  /** What one remote command streams back. */
  datatype Remote = Remote(blocks: seq<nat>, code: int)

  function Sum(sizes: seq<nat>): nat {
    if sizes == [] then 0 else Sum(sizes[..|sizes| - 1]) + sizes[|sizes| - 1]
  }

  function FileBytes(files: seq<File>): nat {
    if files == [] then 0 else FileBytes(files[..|files| - 1]) + files[|files| - 1].size
  }

  lemma FileAdded(files: seq<File>, f: File)
    ensures FileBytes(files + [f]) == FileBytes(files) + f.size
  {
    assert (files + [f])[..|files|] == files;
  }

  lemma SumTo(sizes: seq<nat>, i: nat)
    requires i < |sizes|
    ensures Sum(sizes[..i + 1]) == Sum(sizes[..i]) + sizes[i]
  {
    assert sizes[..i + 1][..i] == sizes[..i];
  }

  /** SHA256SUMS holds a digest, two spaces, the name and a newline for every file. */
  function SumsSize(files: seq<File>): nat {
    if files == [] then 0
    else SumsSize(files[..|files| - 1])
         + (if files[|files| - 1].name in EXCLUDED then 0 else 64 + 2 + |files[|files| - 1].name| + 1)
  }

  const BACKUP_SHA256_SIZE: nat := 65

  // ---------------------------------------------------------------- the files of a generation

  function Streamed(remote: string -> Remote, name: string): File {
    File(name, Sum(remote(name).blocks))
  }

  /** The Vault is archived without compression on request. */
  function DestinationName(volume: string, vaultGzip: bool): string {
    if volume == "vault-volume.tar.gz" && !vaultGzip then "vault-volume.tar" else volume
  }

  /** The archives of those of the first `n` volumes that exist. */
  function VolumeFiles(n: nat, remote: string -> Remote, present: string -> bool, vaultGzip: bool): seq<File>
    requires n <= |VOLUMES|
  {
    if n == 0 then []
    else
      VolumeFiles(n - 1, remote, present, vaultGzip)
      + (if present(VOLUMES[n - 1].0) then [Streamed(remote, DestinationName(VOLUMES[n - 1].0, vaultGzip))] else [])
  }

  lemma NoVolumes(remote: string -> Remote, present: string -> bool, vaultGzip: bool)
    ensures VolumeFiles(0, remote, present, vaultGzip) == []
  {
  }

  lemma VolumeNext(i: nat, remote: string -> Remote, present: string -> bool, vaultGzip: bool)
    requires i < |VOLUMES|
    ensures VolumeFiles(i + 1, remote, present, vaultGzip) == VolumeFiles(i, remote, present, vaultGzip)
      + (if present(VOLUMES[i].0) then [Streamed(remote, DestinationName(VOLUMES[i].0, vaultGzip))] else [])
  {
  }

  /** Both dumps, the volumes, the configuration and the rollback image, after what is there already. */
  function Archived(files: seq<File>, remote: string -> Remote, present: string -> bool, vaultGzip: bool): seq<File> {
    files + [Streamed(remote, "postgres.dump")] + [Streamed(remote, "postgres-globals.sql")]
    + VolumeFiles(|VOLUMES|, remote, present, vaultGzip)
    + [Streamed(remote, "config-and-secrets.tar.gz")] + [Streamed(remote, "rollback-image.docker.tar.gz")]
  }

  /** The manifest of the backup, the hashes of everything so far, and the completion record. */
  function Sealed(files: seq<File>, manifestSize: nat, completedSize: nat, newline: nat): seq<File> {
    var described := files + [File("BACKUP_MANIFEST.json", manifestSize)];
    described + [File("SHA256SUMS", SumsSize(described))] + [File("BACKUP_SHA256", 64 + newline)]
    + [File("COMPLETED.json", completedSize)]
  }

  class Backup {
    const budget: Budget
    const faults: nat -> Fault
    const remote: string -> Remote
    const newline: nat
    var tick: nat
    var running: set<Container>
    var ready: set<Container>
    var files: seq<File>
    var renamed: bool
    ghost var log: seq<Op>

    constructor (budget: Budget, faults: nat -> Fault, remote: string -> Remote, newline: nat,
                 running: set<Container>, files: seq<File>)
      ensures fresh(this) && this.budget == budget && this.newline == newline
      ensures this.running == running && this.files == files && ready == {} && log == [] && !renamed
    {
      this.budget, this.faults, this.remote, this.newline := budget, faults, remote, newline;
      this.running, this.files := running, files;
      tick, ready, renamed, log := 0, {}, false, [];
    }

    /** Nothing fails from this operation on. */
    ghost predicate Faultless(from: nat) {
      forall n :: n >= from ==> faults(n) == Fine
    }

    method Next() returns (f: Fault)
      modifies this`tick
      ensures f == faults(old(tick)) && tick == old(tick) + 1
    {
      f := faults(tick);
      tick := tick + 1;
    }

    // -------------------------------------------------------------- containers

    method Stop(c: Container) returns (ok: bool)
      modifies this`tick, this`running
      ensures tick >= old(tick)
      ensures running == old(running) || running == old(running) - {c}
    {
      var f := Next();
      if f == Fine || f == Fails(true) {
        running := running - {c};
      }
      ok := !f.Fails?;
    }

    method Start(c: Container) returns (ok: bool)
      modifies this`tick, this`running, this`log
      ensures tick >= old(tick)
      ensures running == old(running) || running == old(running) + {c}
      ensures log == old(log) + [Starting(c, ready)]
      ensures Faultless(old(tick)) ==> ok && c in running
    {
      log := log + [Starting(c, ready)];
      var f := Next();
      if f == Fine || f == Fails(true) {
        running := running + {c};
      }
      ok := !f.Fails?;
    }

    /** Polls until the container is healthy; gives up otherwise. */
    method WaitHealthy(c: Container) returns (ok: bool)
      modifies this`tick, this`ready
      ensures tick >= old(tick)
      ensures ok ==> c in running && ready == old(ready) + {c}
      ensures !ok ==> ready == old(ready)
      ensures Faultless(old(tick)) && c in running ==> ok
    {
      var f := Next();
      ok := f == Fine && c in running;
      if ok {
        ready := ready + {c};
      }
    }

    method RunningNames() returns (names: Option<set<Container>>)
      modifies this`tick
      ensures tick >= old(tick)
      ensures names.Some? ==> names.value == running
      ensures Faultless(old(tick)) ==> names.Some?
    {
      var f := Next();
      names := if f.Fails? then None else Some(running);
    }

    method StopAll(stopped: seq<Container>) returns (ok: bool)
      modifies this`tick, this`running
      ensures tick >= old(tick)
      ensures old(running) - SetOf(stopped) <= running <= old(running)
    {
      for i := 0 to |stopped|
        invariant tick >= old(tick)
        invariant old(running) - SetOf(stopped) <= running <= old(running)
      {
        assert stopped[i] in SetOf(stopped);
        ok := Stop(stopped[i]);
        if !ok {
          return;
        }
      }
      ok := true;
    }

    /** Starts, in this order, those containers of `order` that were stopped. */
    method StartAll(order: seq<Container>, stopped: set<Container>) returns (ok: bool)
      requires LogOk(log, stopped) && Postgres in ready
      requires order == CORE_ORDER || (order == AUXILIARY_ORDER && SetOf(CORE_ORDER) * stopped <= ready)
      modifies this`tick, this`running, this`log
      ensures tick >= old(tick)
      ensures LogOk(log, stopped)
      ensures old(running) <= running <= old(running) + SetOf(order) * stopped
      ensures Faultless(old(tick)) ==> ok && SetOf(order) * stopped <= running
    {
      RestartCovers();
      for i := 0 to |order|
        invariant LogOk(log, stopped)
        invariant tick >= old(tick)
        invariant Faultless(old(tick)) ==> forall k :: 0 <= k < i && order[k] in stopped ==> order[k] in running
        invariant old(running) <= running <= old(running) + SetOf(order) * stopped
      {
        if order[i] in stopped {
          assert order[i] in SetOf(order);
          ok := Start(order[i]);
          if !ok {
            return;
          }
        }
      }
      ok := true;
    }

    method WaitAll(order: seq<Container>, stopped: set<Container>) returns (ok: bool)
      modifies this`tick, this`ready
      ensures tick >= old(tick)
      ensures old(ready) <= ready
      ensures ok ==> SetOf(order) * stopped <= ready
      ensures Faultless(old(tick)) && SetOf(order) * stopped <= running ==> ok
    {
      for i := 0 to |order|
        invariant tick >= old(tick)
        invariant old(ready) <= ready && forall k :: 0 <= k < i && order[k] in stopped ==> order[k] in ready
      {
        if order[i] in stopped {
          assert order[i] in SetOf(order) * stopped;
          ok := WaitHealthy(order[i]);
          if !ok {
            return;
          }
        }
      }
      ok := true;
    }

    /** Restores the containers that ran before; the caller learns whether that is certain. */
    method RestartOriginalRuntime(stopped: seq<Container>) returns (ok: bool)
      requires LogOk(log, SetOf(stopped)) && SetOf(stopped) <= SetOf(STATEFUL)
      modifies this`tick, this`running, this`ready, this`log
      ensures tick >= old(tick)
      ensures LogOk(log, SetOf(stopped))
      ensures old(running) <= running <= old(running) + SetOf(stopped) + {Postgres}
      ensures ok ==> SetOf(stopped) + {Postgres} <= running
      ensures Faultless(old(tick)) ==> ok
    {
      var stoppedSet := SetOf(stopped);
      RestartCovers();
      ok := Start(Postgres);
      if !ok {
        return;
      }
      ok := WaitHealthy(Postgres);
      if !ok {
        return;
      }
      ok := StartAll(CORE_ORDER, stoppedSet);
      if !ok {
        return;
      }
      ok := WaitAll(CORE_ORDER, stoppedSet);
      if !ok {
        return;
      }
      ok := StartAll(AUXILIARY_ORDER, stoppedSet);
      if !ok {
        return;
      }
      var names := RunningNames();
      ok := names.Some? && stoppedSet + {Postgres} <= names.value;
    }

    // -------------------------------------------------------------- files

    /** How far the bytes on disk are ahead of the bytes counted. */
    ghost function Ahead(): int
      reads this, budget
    {
      FileBytes(files) - budget.total
    }

    method AddFile(name: string, size: nat)
      modifies this`files
      ensures files == old(files) + [File(name, size)] && FileBytes(files) == FileBytes(old(files)) + size
    {
      FileAdded(files, File(name, size));
      files := files + [File(name, size)];
    }

    method Count(size: nat) returns (ok: bool)
      requires budget.Valid()
      modifies this`tick, budget
      ensures tick >= old(tick)
      ensures budget.Valid() && budget.total - old(budget.total) in {0, size}
      ensures ok ==> budget.total == old(budget.total) + size
    {
      var callback := Next();
      var verdict := budget.Accept(size, callback != Fine);
      ok := verdict == Accepted;
    }

    method WriteJson(name: string, size: nat) returns (ok: bool)
      requires budget.Valid()
      modifies this`tick, this`files, budget
      ensures tick >= old(tick)
      ensures budget.Valid() && Ahead() <= old(Ahead())
      ensures ok ==> Ahead() == old(Ahead()) && files == old(files) + [File(name, size)]
    {
      ok := Count(size);
      if !ok {
        return;
      }
      var write := Next();
      if write != Fails(false) {
        AddFile(name, size);
      }
      ok := !write.Fails?;
    }

    /** Streams one remote command into a file; each block is counted before it is written. */
    method RemoteToFile(name: string, minimum: nat) returns (ok: bool)
      requires budget.Valid()
      modifies this`tick, this`files, budget
      ensures tick >= old(tick)
      ensures budget.Valid() && Ahead() <= old(Ahead())
      ensures exists size :: files == old(files) + [File(name, size)]
      ensures ok ==> Ahead() == old(Ahead())
      ensures ok ==> files == old(files) + [Streamed(remote, name)]
      ensures ok ==> remote(name).code == 0 && Sum(remote(name).blocks) >= minimum
    {
      var size;
      ok, size := Pull(remote(name).blocks);
      AddFile(name, size);
      ok := ok && remote(name).code == 0 && size >= minimum;
    }

    method Pull(blocks: seq<nat>) returns (ok: bool, size: nat)
      requires budget.Valid()
      modifies this`tick, budget
      ensures tick >= old(tick)
      ensures budget.Valid() && old(budget.total) + size <= budget.total
      ensures ok ==> size == Sum(blocks) && budget.total == old(budget.total) + size
    {
      size := 0;
      for i := 0 to |blocks|
        invariant tick >= old(tick)
        invariant budget.Valid() && size == Sum(blocks[..i]) && budget.total == old(budget.total) + size
      {
        SumTo(blocks, i);
        ok := Count(blocks[i]);
        if !ok {
          return;
        }
        var write := Next();
        if write.Fails? {
          return false, size;
        }
        size := size + blocks[i];
      }
      assert blocks[..|blocks|] == blocks;
      ok := true;
    }

    /** SHA256SUMS and BACKUP_SHA256. The latter is counted as 65 bytes, but it is written as text:
        its newline takes `newline` bytes. */
    method WriteHashManifest() returns (ok: bool)
      requires budget.Valid() && newline >= 1
      modifies this`tick, this`files, budget
      ensures tick >= old(tick)
      ensures budget.Valid() && Ahead() <= old(Ahead()) + newline - 1
      ensures ok ==> Ahead() == old(Ahead()) + newline - 1
      ensures var sums := File("SHA256SUMS", SumsSize(old(files)));
        ok ==> files == old(files) + [sums] + [File("BACKUP_SHA256", 64 + newline)]
    {
      var payload := 0;
      for i := 0 to |files|
        invariant payload == SumsSize(files[..i])
      {
        assert files[..i + 1][..i] == files[..i];
        payload := payload + (if files[i].name in EXCLUDED then 0 else 64 + 2 + |files[i].name| + 1);
      }
      assert files[..|files|] == files;
      ok := Count(payload + BACKUP_SHA256_SIZE);
      if !ok {
        return;
      }
      var write := Next();
      if write.Fails? {
        return false;
      }
      AddFile("SHA256SUMS", payload);
      write := Next();
      if write.Fails? {
        return false;
      }
      AddFile("BACKUP_SHA256", 64 + newline);
      var readback := Next();
      ok := readback == Fine;
    }

    // -------------------------------------------------------------- the protocol

    /** Stops the stateful containers and checks that they have stopped. */
    method Quiesce(stopped: seq<Container>) returns (ok: bool)
      modifies this`tick, this`running
      ensures tick >= old(tick)
      ensures old(running) - SetOf(stopped) <= running <= old(running)
      ensures ok ==> running == old(running) - SetOf(stopped)
    {
      ok := StopAll(stopped);
      if ok {
        var names := RunningNames();
        ok := names.Some? && SetOf(stopped) * names.value == {};
        assert ok ==> forall c :: c in running ==> c !in SetOf(stopped) * running;
      }
    }

    method StopPostgres(stopped: seq<Container>) returns (ok: bool)
      modifies this`tick, this`running
      ensures tick >= old(tick)
      ensures old(running) - {Postgres} <= running <= old(running)
      ensures ok ==> running == old(running) - {Postgres} && running !! SetOf(stopped)
    {
      ok := Stop(Postgres);
      if ok {
        var names := RunningNames();
        ok := names.Some? && (SetOf(stopped) + {Postgres}) * names.value == {};
        assert ok ==> forall c :: c in running ==> c !in (SetOf(stopped) + {Postgres}) * running;
      }
    }

    method Dump(name: string, minimum: nat, ghost stopped: set<Container>) returns (ok: bool)
      requires budget.Valid() && running !! SetOf(STATEFUL) && Postgres in running && LogOk(log, stopped)
      modifies this`tick, this`files, this`log, budget
      ensures tick >= old(tick)
      ensures LogOk(log, stopped) && budget.Valid() && Ahead() <= old(Ahead())
      ensures ok ==> Ahead() == old(Ahead()) && files == old(files) + [Streamed(remote, name)]
    {
      log := log + [Dumping(running)];
      ok := RemoteToFile(name, minimum);
    }

    method Archive(name: string, ghost stopped: set<Container>) returns (ok: bool)
      requires budget.Valid() && running !! SetOf(STATEFUL) && Postgres !in running && LogOk(log, stopped)
      modifies this`tick, this`files, this`log, budget
      ensures tick >= old(tick)
      ensures LogOk(log, stopped) && budget.Valid() && Ahead() <= old(Ahead())
      ensures ok ==> Ahead() == old(Ahead()) && files == old(files) + [Streamed(remote, name)]
    {
      log := log + [Archiving(running)];
      ok := RemoteToFile(name, 1);
    }

    method ArchiveVolumes(present: string -> bool, vaultGzip: bool, ghost stopped: set<Container>) returns (ok: bool)
      requires budget.Valid() && running !! SetOf(STATEFUL) && Postgres !in running && LogOk(log, stopped)
      modifies this`tick, this`files, this`log, budget
      ensures tick >= old(tick)
      ensures LogOk(log, stopped) && budget.Valid() && Ahead() <= old(Ahead())
      ensures ok ==> Ahead() == old(Ahead())
      ensures ok ==> files == old(files) + VolumeFiles(|VOLUMES|, remote, present, vaultGzip)
      ensures ok ==> forall v :: v in VOLUMES && v.1 ==> present(v.0)
    {
      hide LogOk, FileBytes, VolumeFiles, DestinationName;
      NoVolumes(remote, present, vaultGzip);
      for i := 0 to |VOLUMES|
        invariant tick >= old(tick)
        invariant LogOk(log, stopped) && budget.Valid() && Ahead() == old(Ahead())
        invariant files == old(files) + VolumeFiles(i, remote, present, vaultGzip)
        invariant forall k :: 0 <= k < i && VOLUMES[k].1 ==> present(VOLUMES[k].0)
      {
        var (name, required) := VOLUMES[i];
        VolumeNext(i, remote, present, vaultGzip);
        if present(name) {
          ok := Archive(DestinationName(name, vaultGzip), stopped);
          if !ok {
            return;
          }
        } else if required {
          return false;
        }
      }
      ok := true;
    }

    /** Everything up to the rename; `complete` is set once the rename has returned. */
    method Generate(stopped: seq<Container>, present: string -> bool, vaultGzip: bool,
                    manifestSize: nat, completedSize: nat)
      returns (complete: bool)
      requires budget.Valid() && newline >= 1 && log == [] && !renamed
      requires running * SetOf(STATEFUL) == SetOf(stopped) && Postgres in running
      modifies this`tick, this`running, this`files, this`log, this`renamed, budget
      ensures tick >= old(tick)
      ensures LogOk(log, SetOf(stopped))
      ensures old(running) - SetOf(stopped) - {Postgres} <= running <= old(running)
      ensures budget.Valid() && Ahead() <= old(Ahead()) + newline - 1
      ensures complete ==>
        && renamed && running == old(running) - SetOf(stopped) - {Postgres}
        && Ahead() == old(Ahead()) + newline - 1
        && files == Sealed(Archived(old(files), remote, present, vaultGzip), manifestSize, completedSize, newline)
        && (forall v :: v in VOLUMES && v.1 ==> present(v.0))
    {
      hide OpOk, FileBytes;
      ghost var s := SetOf(stopped);
      RestartCovers();
      complete := Quiesce(stopped);
      if !complete {
        return;
      }
      complete := Dump("postgres.dump", 10001, s);
      if !complete {
        return;
      }
      complete := Dump("postgres-globals.sql", 1, s);
      if !complete {
        return;
      }
      complete := StopPostgres(stopped);
      if !complete {
        return;
      }
      complete := ArchiveVolumes(present, vaultGzip, s);
      if !complete {
        return;
      }
      complete := Archive("config-and-secrets.tar.gz", s);
      if !complete {
        return;
      }
      complete := Archive("rollback-image.docker.tar.gz", s);
      if !complete {
        return;
      }
      complete := Seal(manifestSize, completedSize);
    }

    /** The manifests, and the rename that publishes the generation. */
    method Seal(manifestSize: nat, completedSize: nat) returns (complete: bool)
      requires budget.Valid() && newline >= 1 && !renamed
      modifies this`tick, this`files, this`renamed, budget
      ensures tick >= old(tick)
      ensures budget.Valid() && Ahead() <= old(Ahead()) + newline - 1
      ensures complete ==> renamed && Ahead() == old(Ahead()) + newline - 1
      ensures complete ==> files == Sealed(old(files), manifestSize, completedSize, newline)
    {
      complete := WriteJson("BACKUP_MANIFEST.json", manifestSize);
      if !complete {
        return;
      }
      complete := WriteHashManifest();
      if !complete {
        return;
      }
      complete := WriteJson("COMPLETED.json", completedSize);
      if !complete {
        return;
      }
      var rename := Next();
      if rename != Fails(false) {
        renamed := true;
      }
      complete := rename == Fine;
    }

    /** The whole backup. `complete` says that the rename returned, `restarted` whether the restart ran
        and, if so, whether it ended well: it does if nothing fails from `restartAt` on, whatever did before. */
    method ExecuteBackup(leaveStopped: bool, present: string -> bool, vaultGzip: bool,
                    manifestSize: nat, completedSize: nat)
      returns (completed: bool, complete: bool, restarted: Option<bool>, ghost restartAt: nat)
      requires budget.Valid() && newline >= 1 && log == [] && !renamed && Ahead() == 0
      modifies this, budget
      ensures LogOk(log, old(running) * SetOf(STATEFUL))
      ensures old(running) - SetOf(STATEFUL) - {Postgres} <= running <= old(running)
      ensures restarted == None && !complete ==> running == old(running) && files == old(files) && log == []
      ensures restarted == None && complete ==> leaveStopped && running == old(running) - SetOf(STATEFUL) - {Postgres}
      ensures leaveStopped && complete ==> restarted == None
      ensures restarted == Some(true) ==> running == old(running)
      ensures Faultless(restartAt) ==> restarted != Some(false)
      ensures completed ==> complete && renamed && restarted != Some(false)
      ensures budget.Valid() && FileBytes(files) <= budget.total + newline - 1
      ensures complete ==> (FileBytes(files) == budget.total <==> newline == 1)
      ensures complete ==>
        && files == Sealed(Archived(old(files), remote, present, vaultGzip), manifestSize, completedSize, newline)
        && (forall v :: v in VOLUMES && v.1 ==> present(v.0))
    {
      hide OpOk, FileBytes;
      completed, complete, restarted, restartAt := false, false, None, 0;
      var names := RunningNames();
      if names.None? || Postgres !in names.value {
        return;
      }
      var stopped := Among(STATEFUL, names.value);
      assert SetOf(stopped) == running * SetOf(STATEFUL);
      var callback := Next();
      var told := budget.Report(callback != Fine);
      if !told {
        return;
      }
      completed, complete, restarted, restartAt :=
        Protected(stopped, leaveStopped, present, vaultGzip, manifestSize, completedSize);
    }

    /** The part after which the runtime is restarted, come what may, unless the generation is complete
        and the caller wants the containers left stopped. */
    method Protected(stopped: seq<Container>, leaveStopped: bool, present: string -> bool, vaultGzip: bool,
                     manifestSize: nat, completedSize: nat)
      returns (completed: bool, complete: bool, restarted: Option<bool>, ghost restartAt: nat)
      requires budget.Valid() && newline >= 1 && log == [] && !renamed
      requires running * SetOf(STATEFUL) == SetOf(stopped) && Postgres in running
      modifies this, budget
      ensures LogOk(log, SetOf(stopped))
      ensures old(running) - SetOf(stopped) - {Postgres} <= running <= old(running)
      ensures restarted == None <==> leaveStopped && complete
      ensures restarted == None ==> running == old(running) - SetOf(stopped) - {Postgres}
      ensures restarted == Some(true) ==> running == old(running)
      ensures Faultless(restartAt) ==> restarted != Some(false)
      ensures completed ==> complete && renamed && restarted != Some(false)
      ensures budget.Valid() && Ahead() <= old(Ahead()) + newline - 1
      ensures complete ==> Ahead() == old(Ahead()) + newline - 1
      ensures complete ==>
        && files == Sealed(Archived(old(files), remote, present, vaultGzip), manifestSize, completedSize, newline)
        && (forall v :: v in VOLUMES && v.1 ==> present(v.0))
    {
      hide OpOk, FileBytes;
      complete := Generate(stopped, present, vaultGzip, manifestSize, completedSize);
      completed, restarted := complete, None;
      if complete {
        var callback := Next();
        completed := budget.Report(callback != Fine);
        if completed {
          var published := Next();
          completed := !published.Fails?;
        }
      }
      restartAt := tick;
      if !leaveStopped || !complete {
        var restored := RestartOriginalRuntime(stopped);
        restarted := Some(restored);
        completed := completed && restored;
      }
    }
  }

  const EXCLUDED: set<string> := {"SHA256SUMS", "BACKUP_SHA256", "COMPLETED.json"}

  function Among(order: seq<Container>, names: set<Container>): (r: seq<Container>)
    ensures forall c :: c in r <==> c in order && c in names
  {
    if order == [] then []
    else (if order[0] in names then [order[0]] else []) + Among(order[1..], names)
  }
}
