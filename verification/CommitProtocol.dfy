/** The commit protocol of the registry file: any number of processes that lock, load,
    apply, back up, write a temporary file and rename it, beside readers that take no
    lock. Every step of every process may be interleaved with the others, any process
    may die at any step, and every write may stop half way. */
module CommitProtocol {
  import opened Wrappers
  import opened Records

  type Content = string

  /** The JSON codec of the registry file: a text is read back, and one that was cut short
      is no JSON text. */
  datatype Codec = Codec(marshal: Registry -> Content, unmarshal: Content -> Option<Registry>) {
    ghost predicate Lawful() {
      && (forall r: Registry :: unmarshal(marshal(r)) == Some(r))
      && (forall r: Registry, t: Content | t < marshal(r) :: unmarshal(t) == None)
    }
  }

  // ----- the disk and the processes -----

  /** inodes holds the content of every file ever created; the three paths name some of
      them. A file that lost its name stays readable to whoever opened it. */
  datatype Disk = Disk(inodes: seq<Content>, main: Option<nat>, bak: Option<nat>, tmp: Option<nat>)

  datatype Writer =
    | Ready                                          // called, lock not yet taken
    | Locked                                         // lock taken, registry not yet loaded
    | Loaded(next: Registry)                         // mutation applied in memory
    | BackingUp(next: Registry, inode: nat, rest: Content)
    | BackedUp(next: Registry)                       // backup written, failed or not needed
    | Writing(next: Registry, inode: nat, rest: Content)
    | Written(next: Registry, inode: nat)            // temporary file complete
    | Renamed                                        // committed, lock still held
    | Failing                                        // an error, lock still held
    | Returned(ok: bool)
    | Died(committed: bool)

  datatype Reader =
    | Asked
    | Reading(inode: nat, got: Content, at: nat)     // at is the number of commits when it opened the file
    | Absent(at: nat)                                // there was no file
    | Read(content: Content, at: nat)

  /** What the backup path holds: what was there before the run, the beginning of the
      registry after n commits, or all of it. */
  datatype Copy = Original | Torn(n: nat) | Of(n: nat)

  /** One call of mutate per writer number, one call of Load per reader number.
      committed lists the writers in the order of their renames; copy is a history of what
      was written to the backup. */
  datatype State = State(
    disk: Disk,
    lock: Option<nat>,
    writers: map<nat, Writer>,
    readers: map<nat, Reader>,
    committed: seq<nat>,
    copy: Copy)

  /** What does not change along a run: the codec, the closure of each writer, the
      registry before the run and the backup before it (None when there was no file). */
  datatype Setup = Setup(
    codec: Codec, ops: map<nat, Registry -> Registry>, initial: Option<Registry>, oldBackup: Option<Content>)

  datatype WriterStep =
    | Lock
    | LockFails
    | Load                       // and the closure runs
    | LoadFails                  // the file cannot be read, or the closure returns an error
    | SaveFails                  // the new registry cannot be encoded
    | StartBackup
    | SkipBackup                 // no file to back up
    | BackupUnreadable           // the old file cannot be read, or the backup not opened
    | ExtendBackup(n: nat)
    | FinishBackup
    | BackupFails
    | StartWrite
    | WriteFails                 // creating, writing or chmod of the temporary file
    | ExtendWrite(n: nat)
    | FinishWrite
    | RenameFails
    | Rename
    | Unlock
    | Die

  datatype ReaderStep =
    | Open
    | ReadMore(n: nat)
    | FinishRead

  datatype Action = Write(w: nat, step: WriterStep) | Reads(r: nat, step': ReaderStep)

  // ----- what the state means -----

  function Start(c: Setup): Registry {
    if c.initial.Some? then c.initial.value else EMPTY_REGISTRY
  }

  /** The registry after the first n commits. */
  function RegistryAt(c: Setup, committed: seq<nat>, n: nat): Registry
    requires n <= |committed|
    requires forall i | 0 <= i < |committed| :: committed[i] in c.ops
  {
    if n == 0 then Start(c) else c.ops[committed[n - 1]](RegistryAt(c, committed, n - 1))
  }

  /** The registry the last commit left. */
  function Current(c: Setup, s: State): Registry
    requires forall i | 0 <= i < |s.committed| :: s.committed[i] in c.ops
  {
    RegistryAt(c, s.committed, |s.committed|)
  }

  predicate InLock(w: Writer) {
    !(w.Ready? || w.Returned? || w.Died?)
  }

  /** Between the start of the backup and the rename. */
  predicate PastBackup(w: Writer) {
    w.BackingUp? || w.BackedUp? || w.Writing? || w.Written?
  }

  // ----- the steps -----

  predicate ValidInode(d: Disk, path: Option<nat>) {
    path.Some? ==> path.value < |d.inodes|
  }

  predicate WriterEnabled(c: Setup, s: State, w: nat, step: WriterStep)
    requires w in s.writers
  {
    var pc := s.writers[w];
    match step
    case Lock => pc.Ready? && s.lock == None
    case LockFails => pc.Ready?
    case Load =>
      && pc.Locked? && ValidInode(s.disk, s.disk.main)
      && (s.disk.main.Some? ==> c.codec.unmarshal(s.disk.inodes[s.disk.main.value]).Some?)
    case LoadFails => pc.Locked?
    case SaveFails => pc.Loaded?
    case StartBackup => pc.Loaded? && s.disk.main.Some? && ValidInode(s.disk, s.disk.main) && ValidInode(s.disk, s.disk.bak)
    case SkipBackup => pc.Loaded? && s.disk.main.None?
    case BackupUnreadable => pc.Loaded? && s.disk.main.Some?
    case ExtendBackup(n) => pc.BackingUp? && pc.inode < |s.disk.inodes| && n <= |pc.rest|
    case FinishBackup => pc.BackingUp? && pc.rest == ""
    case BackupFails => pc.BackingUp?
    case StartWrite => pc.BackedUp? && ValidInode(s.disk, s.disk.tmp)
    case WriteFails => pc.BackedUp? || pc.Writing?
    case ExtendWrite(n) => pc.Writing? && pc.inode < |s.disk.inodes| && n <= |pc.rest|
    case FinishWrite => pc.Writing? && pc.rest == ""
    case RenameFails => pc.Written?
    case Rename => pc.Written? && s.disk.tmp == Some(pc.inode)
    case Unlock => pc.Renamed? || pc.Failing?
    case Die => !pc.Returned? && !pc.Died?
  }

  predicate ReaderEnabled(s: State, r: nat, step: ReaderStep)
    requires r in s.readers
  {
    var pc := s.readers[r];
    match step
    case Open => pc.Asked?
    case ReadMore(n) => pc.Reading? && pc.inode < |s.disk.inodes| && |pc.got| + n <= |s.disk.inodes[pc.inode]|
    case FinishRead => pc.Reading? && pc.inode < |s.disk.inodes| && |pc.got| >= |s.disk.inodes[pc.inode]|
  }

  predicate Enabled(c: Setup, s: State, a: Action) {
    match a
    case Write(w, step) => w in s.writers && w in c.ops && WriterEnabled(c, s, w, step)
    case Reads(r, step) => r in s.readers && ReaderEnabled(s, r, step)
  }

  /** Opens a path for writing from scratch: an existing file is emptied, a missing one
      created. The result is the inodes and the opened one. */
  function Truncated(inodes: seq<Content>, path: Option<nat>): (seq<Content>, nat)
    requires path.Some? ==> path.value < |inodes|
  {
    if path.Some? then (inodes[path.value := ""], path.value) else (inodes + [""], |inodes|)
  }

  function Appended(d: Disk, inode: nat, more: Content): Disk
    requires inode < |d.inodes|
  {
    d.(inodes := d.inodes[inode := d.inodes[inode] + more])
  }

  /** What the backup holds while rest of the registry after n commits is still to come. */
  function Copied(rest: Content, n: nat): Copy {
    if rest == "" then Of(n) else Torn(n)
  }

  function At(s: State, w: nat, pc: Writer): State {
    s.(writers := s.writers[w := pc])
  }

  function WriterNext(c: Setup, s: State, w: nat, step: WriterStep): State
    requires w in s.writers && w in c.ops && WriterEnabled(c, s, w, step)
  {
    var pc := s.writers[w];
    match step
    case Lock => At(s, w, Locked).(lock := Some(w))
    case LockFails => At(s, w, Returned(false))
    case Load =>
      var reg := if s.disk.main.None? then EMPTY_REGISTRY else c.codec.unmarshal(s.disk.inodes[s.disk.main.value]).value;
      At(s, w, Loaded(c.ops[w](reg)))
    case LoadFails => At(s, w, Failing)
    case SaveFails => At(s, w, Failing)
    case StartBackup =>
      var (inodes, i) := Truncated(s.disk.inodes, s.disk.bak);
      var content := s.disk.inodes[s.disk.main.value];
      At(s, w, BackingUp(pc.next, i, content)).(
        disk := s.disk.(inodes := inodes, bak := Some(i)), copy := Copied(content, |s.committed|))
    case SkipBackup => At(s, w, BackedUp(pc.next))
    case BackupUnreadable => At(s, w, BackedUp(pc.next))
    case ExtendBackup(n) =>
      At(s, w, BackingUp(pc.next, pc.inode, pc.rest[n..])).(
        disk := Appended(s.disk, pc.inode, pc.rest[..n]), copy := Copied(pc.rest[n..], |s.committed|))
    case FinishBackup => At(s, w, BackedUp(pc.next))
    case BackupFails => At(s, w, BackedUp(pc.next))
    case StartWrite =>
      var (inodes, i) := Truncated(s.disk.inodes, s.disk.tmp);
      At(s, w, Writing(pc.next, i, c.codec.marshal(pc.next))).(disk := s.disk.(inodes := inodes, tmp := Some(i)))
    case WriteFails => At(s, w, Failing)
    case ExtendWrite(n) => At(s, w, Writing(pc.next, pc.inode, pc.rest[n..])).(disk := Appended(s.disk, pc.inode, pc.rest[..n]))
    case FinishWrite => At(s, w, Written(pc.next, pc.inode))
    case RenameFails => At(s, w, Failing)
    case Rename => At(s, w, Renamed).(disk := s.disk.(main := Some(pc.inode), tmp := None), committed := s.committed + [w])
    case Unlock => At(s, w, Returned(pc.Renamed?)).(lock := None)
    case Die =>
      At(s, w, Died(pc.Renamed?)).(lock := if s.lock == Some(w) then None else s.lock)
  }

  function ReaderNext(s: State, r: nat, step: ReaderStep): State
    requires r in s.readers && ReaderEnabled(s, r, step)
  {
    var pc := s.readers[r];
    match step
    case Open =>
      s.(readers := s.readers[r :=
        if s.disk.main.Some? then Reading(s.disk.main.value, "", |s.committed|) else Absent(|s.committed|)])
    case ReadMore(n) =>
      var more := s.disk.inodes[pc.inode][|pc.got|..|pc.got| + n];
      s.(readers := s.readers[r := Reading(pc.inode, pc.got + more, pc.at)])
    case FinishRead => s.(readers := s.readers[r := Read(pc.got, pc.at)])
  }

  function Next(c: Setup, s: State, a: Action): State
    requires Enabled(c, s, a)
  {
    match a
    case Write(w, step) => WriterNext(c, s, w, step)
    case Reads(r, step) => ReaderNext(s, r, step)
  }

  // ----- the invariant -----

  ghost predicate DiskInv(d: Disk) {
    && (d.main.Some? ==> d.main.value < |d.inodes|)
    && (d.bak.Some? ==> d.bak.value < |d.inodes|)
    && (d.tmp.Some? ==> d.tmp.value < |d.inodes|)
    && (d.main.Some? ==> d.bak != d.main && d.tmp != d.main)
    && (d.bak.Some? ==> d.tmp != d.bak)
  }

  ghost predicate HistoryInv(c: Setup, s: State) {
    && (forall i | 0 <= i < |s.committed| :: s.committed[i] in c.ops && s.committed[i] in s.writers)
    && (forall i, j | 0 <= i < j < |s.committed| :: s.committed[i] != s.committed[j])
    && (forall w | w in s.writers ::
          w in s.committed <==> s.writers[w] == Renamed || s.writers[w] == Returned(true) || s.writers[w] == Died(true))
  }

  /** The main file is a complete registry: the result of the committed mutations. */
  ghost predicate MainInv(c: Setup, s: State)
    requires DiskInv(s.disk) && HistoryInv(c, s)
  {
    && (s.disk.main.None? <==> c.initial.None? && s.committed == [])
    && (s.disk.main.Some? ==> s.disk.inodes[s.disk.main.value] == c.codec.marshal(Current(c, s)))
  }

  /** What a writer carries is the next registry, and what it has written so far is the
      beginning of the file it writes. */
  ghost predicate Promise(c: Setup, s: State, w: nat)
    requires DiskInv(s.disk) && w in s.writers && w in c.ops
    requires forall i | 0 <= i < |s.committed| :: s.committed[i] in c.ops
  {
    var pc := s.writers[w];
    var next := c.ops[w](Current(c, s));
    && (pc.Loaded? || PastBackup(pc) ==> pc.next == next)
    && (pc.BackingUp? ==>
         && s.disk.main.Some? && s.disk.bak == Some(pc.inode)
         && s.disk.inodes[pc.inode] + pc.rest == s.disk.inodes[s.disk.main.value])
    && (pc.Writing? ==>
         s.disk.tmp == Some(pc.inode) && s.disk.inodes[pc.inode] + pc.rest == c.codec.marshal(next))
    && (pc.Written? ==>
         s.disk.tmp == Some(pc.inode) && s.disk.inodes[pc.inode] == c.codec.marshal(next))
  }

  /** Only the lock holder is inside. */
  ghost predicate WriterInv(c: Setup, s: State, w: nat)
    requires DiskInv(s.disk) && HistoryInv(c, s) && w in s.writers
  {
    && (InLock(s.writers[w]) <==> s.lock == Some(w))
    && (InLock(s.writers[w]) ==> w in c.ops)
    && (w in c.ops ==> Promise(c, s, w))
  }

  /** A reader holds a file no one writes, with the registry as it was when it opened. */
  ghost predicate ReaderInv(c: Setup, s: State, r: nat)
    requires DiskInv(s.disk) && HistoryInv(c, s) && r in s.readers
  {
    match s.readers[r]
    case Asked => true
    case Reading(i, got, at) =>
      && at <= |s.committed| && i < |s.disk.inodes|
      && Some(i) != s.disk.bak && Some(i) != s.disk.tmp
      && s.disk.inodes[i] == c.codec.marshal(RegistryAt(c, s.committed, at))
      && got <= s.disk.inodes[i]
    case Absent(at) => at == 0 && c.initial.None?
    case Read(content, at) => at <= |s.committed| && content == c.codec.marshal(RegistryAt(c, s.committed, at))
  }

  /** The backup path holds what its history says. */
  ghost predicate BackupInv(c: Setup, s: State)
    requires DiskInv(s.disk) && HistoryInv(c, s)
  {
    match s.copy
    case Original =>
      && (s.disk.bak.None? <==> c.oldBackup.None?)
      && (s.disk.bak.Some? ==> s.disk.inodes[s.disk.bak.value] == c.oldBackup.value)
    case Torn(n) =>
      && n <= |s.committed| && s.disk.bak.Some?
      && s.disk.inodes[s.disk.bak.value] < c.codec.marshal(RegistryAt(c, s.committed, n))
    case Of(n) =>
      && n <= |s.committed| && s.disk.bak.Some?
      && s.disk.inodes[s.disk.bak.value] == c.codec.marshal(RegistryAt(c, s.committed, n))
  }

  ghost predicate Inv(c: Setup, s: State) {
    && c.codec.Lawful()
    && DiskInv(s.disk)
    && HistoryInv(c, s)
    && (s.lock.Some? ==> s.lock.value in s.writers)
    && MainInv(c, s)
    && (forall w | w in s.writers :: WriterInv(c, s, w))
    && (forall r | r in s.readers :: ReaderInv(c, s, r))
    && BackupInv(c, s)
  }

  /** Before the run: everyone has just called, and the disk holds the initial registry. */
  ghost predicate Initial(c: Setup, s: State) {
    && c.codec.Lawful()
    && DiskInv(s.disk)
    && s.lock == None && s.committed == []
    && (forall w | w in s.writers :: s.writers[w] == Ready)
    && (forall r | r in s.readers :: s.readers[r] == Asked)
    && (s.disk.main.None? <==> c.initial.None?)
    && (s.disk.main.Some? ==> s.disk.inodes[s.disk.main.value] == c.codec.marshal(c.initial.value))
    && s.copy == Original
    && (s.disk.bak.None? <==> c.oldBackup.None?)
    && (s.disk.bak.Some? ==> s.disk.inodes[s.disk.bak.value] == c.oldBackup.value)
  }

  lemma InitialInv(c: Setup, s: State)
    requires Initial(c, s)
    ensures Inv(c, s)
  {
  }

  // ----- every step keeps it -----

  lemma {:induction false} CommitExtends(c: Setup, committed: seq<nat>, w: nat, n: nat)
    requires forall i | 0 <= i < |committed| :: committed[i] in c.ops
    requires w in c.ops && n <= |committed|
    ensures RegistryAt(c, committed + [w], n) == RegistryAt(c, committed, n)
  {
    if n > 0 {
      CommitExtends(c, committed, w, n - 1);
    }
  }

  /** A writer outside the lock has nothing to keep. */
  lemma OutsideTheLock(c: Setup, s: State, w: nat)
    requires DiskInv(s.disk) && HistoryInv(c, s) && w in s.writers
    requires !InLock(s.writers[w]) && s.lock != Some(w)
    ensures WriterInv(c, s, w)
  {
  }

  /** Readers are not disturbed by a step that adds no commit and changes no file but
      the backup and the temporary one. */
  lemma ReadersUndisturbed(c: Setup, s: State, s': State)
    requires DiskInv(s.disk) && HistoryInv(c, s) && DiskInv(s'.disk) && HistoryInv(c, s')
    requires forall r | r in s.readers :: ReaderInv(c, s, r)
    requires s'.readers == s.readers && s'.committed == s.committed
    requires |s.disk.inodes| <= |s'.disk.inodes|
    requires forall i | 0 <= i < |s.disk.inodes| && Some(i) != s.disk.bak && Some(i) != s.disk.tmp ::
      s'.disk.inodes[i] == s.disk.inodes[i]
    requires s'.disk.bak == s.disk.bak || s'.disk.bak == Some(|s.disk.inodes|)
    requires s'.disk.tmp == s.disk.tmp || s'.disk.tmp == Some(|s.disk.inodes|)
    ensures forall r | r in s'.readers :: ReaderInv(c, s', r)
  {
  }

  lemma ReaderStepKeepsReader(c: Setup, s: State, r: nat, step: ReaderStep)
    requires DiskInv(s.disk) && HistoryInv(c, s) && MainInv(c, s)
    requires r in s.readers && ReaderInv(c, s, r) && ReaderEnabled(s, r, step)
    requires HistoryInv(c, ReaderNext(s, r, step))
    ensures ReaderInv(c, ReaderNext(s, r, step), r)
  {
  }

  lemma ReaderStepKeepsRest(c: Setup, s: State, r: nat, pc: Reader)
    requires Inv(c, s)
    ensures var s' := s.(readers := s.readers[r := pc]);
      && HistoryInv(c, s') && MainInv(c, s') && BackupInv(c, s')
      && (forall w | w in s'.writers :: WriterInv(c, s', w))
  {
  }

  lemma ReaderStepKeepsInv(c: Setup, s: State, r: nat, step: ReaderStep)
    requires Inv(c, s) && Enabled(c, s, Reads(r, step))
    ensures Inv(c, Next(c, s, Reads(r, step)))
  {
    var s' := ReaderNext(s, r, step);
    ReaderStepKeepsRest(c, s, r, s'.readers[r]);
    assert s' == s.(readers := s.readers[r := s'.readers[r]]);
    forall q | q in s'.readers ensures ReaderInv(c, s', q) {
      assert ReaderInv(c, s, q);
      if q == r {
        ReaderStepKeepsReader(c, s, r, step);
      }
    }
  }

  /** A step of one writer that adds no commit: only its own program counter, the lock,
      the backup file and the temporary file may change. */
  ghost predicate LocalStep(c: Setup, s: State, s': State, w: nat)
    requires w in s.writers
  {
    && w in s'.writers && s'.writers == s.writers[w := s'.writers[w]]
    && s'.readers == s.readers && s'.committed == s.committed
    && (InLock(s'.writers[w]) ==> InLock(s.writers[w]) || s.lock == None)
    && s'.lock == (if InLock(s'.writers[w]) then Some(w) else if InLock(s.writers[w]) then None else s.lock)
    && (s'.writers[w].Renamed? || s'.writers[w] == Returned(true) || s'.writers[w] == Died(true) <==>
        s.writers[w].Renamed? || s.writers[w] == Returned(true) || s.writers[w] == Died(true))
    && (InLock(s'.writers[w]) ==> w in c.ops)
    && (!InLock(s.writers[w]) ==> s'.disk == s.disk)
    && s'.disk.main == s.disk.main
    && |s.disk.inodes| <= |s'.disk.inodes|
    && (forall i | 0 <= i < |s.disk.inodes| && Some(i) != s.disk.bak && Some(i) != s.disk.tmp ::
          s'.disk.inodes[i] == s.disk.inodes[i])
    && (s'.disk.bak == s.disk.bak || s'.disk.bak == Some(|s.disk.inodes|))
    && (s'.disk.tmp == s.disk.tmp || s'.disk.tmp == Some(|s.disk.inodes|))
    && DiskInv(s'.disk)
  }

  lemma LocalStepKeepsInv(c: Setup, s: State, s': State, w: nat)
    requires Inv(c, s) && w in s.writers && w in c.ops
    requires LocalStep(c, s, s', w)
    requires Promise(c, s', w)
    requires HistoryInv(c, s') ==> BackupInv(c, s')
    ensures Inv(c, s')
  {
    assert WriterInv(c, s, w);
    HistoryKept(c, s, s', w);
    assert MainInv(c, s');
    ReadersUndisturbed(c, s, s');
    forall v | v in s'.writers ensures WriterInv(c, s', v) {
      assert WriterInv(c, s, v);
      if v != w {
        assert InLock(s.writers[v]) ==> s.lock == Some(v) && s'.disk == s.disk;
      }
    }
  }

  lemma HistoryKept(c: Setup, s: State, s': State, w: nat)
    requires HistoryInv(c, s) && w in s.writers && DiskInv(s.disk) && LocalStep(c, s, s', w)
    ensures HistoryInv(c, s')
  {
  }

  /** The part of the invariant that concerns the stepping writer. */
  ghost predicate Core(c: Setup, s: State, w: nat) {
    && c.codec.Lawful() && DiskInv(s.disk) && HistoryInv(c, s) && MainInv(c, s)
    && w in s.writers && w in c.ops && WriterInv(c, s, w)
    && BackupInv(c, s)
  }

  ghost predicate Stepped(c: Setup, s: State, s': State, w: nat)
    requires HistoryInv(c, s)
  {
    && w in s.writers && w in c.ops
    && LocalStep(c, s, s', w)
    && Promise(c, s', w)
  }

  predicate LockStep(step: WriterStep) {
    step.Lock? || step.LockFails? || step.LoadFails? || step.SaveFails? || step.Unlock? || step.Die?
  }

  predicate BackupStep(step: WriterStep) {
    step.SkipBackup? || step.BackupUnreadable? || step.FinishBackup? || step.BackupFails?
  }

  predicate FileStep(step: WriterStep) {
    step.WriteFails? || step.FinishWrite? || step.RenameFails?
  }

  lemma LockStepped(c: Setup, s: State, w: nat, step: WriterStep)
    requires Core(c, s, w) && WriterEnabled(c, s, w, step) && (step.Lock? || step.LockFails?)
    ensures Stepped(c, s, WriterNext(c, s, w, step), w)
  {
  }

  lemma LeaveStepped(c: Setup, s: State, w: nat, step: WriterStep)
    requires Core(c, s, w) && WriterEnabled(c, s, w, step)
    requires step.LoadFails? || step.SaveFails? || step.Unlock? || step.Die?
    ensures Stepped(c, s, WriterNext(c, s, w, step), w)
  {
  }

  lemma LoadStepped(c: Setup, s: State, w: nat)
    requires Core(c, s, w) && WriterEnabled(c, s, w, Load)
    ensures Stepped(c, s, WriterNext(c, s, w, Load), w)
  {
  }

  lemma BackupStepped(c: Setup, s: State, w: nat, step: WriterStep)
    requires Core(c, s, w) && WriterEnabled(c, s, w, step) && BackupStep(step)
    ensures Stepped(c, s, WriterNext(c, s, w, step), w)
  {
  }

  lemma FileStepped(c: Setup, s: State, w: nat, step: WriterStep)
    requires Core(c, s, w) && WriterEnabled(c, s, w, step) && FileStep(step)
    ensures Stepped(c, s, WriterNext(c, s, w, step), w)
  {
  }

  lemma StartBackupStepped(c: Setup, s: State, w: nat)
    requires Core(c, s, w) && WriterEnabled(c, s, w, StartBackup)
    ensures Stepped(c, s, WriterNext(c, s, w, StartBackup), w)
  {
  }

  lemma ExtendBackupStepped(c: Setup, s: State, w: nat, n: nat)
    requires Core(c, s, w) && WriterEnabled(c, s, w, ExtendBackup(n))
    ensures Stepped(c, s, WriterNext(c, s, w, ExtendBackup(n)), w)
  {
    var pc := s.writers[w];
    assert s.disk.inodes[pc.inode] + pc.rest[..n] + pc.rest[n..] == s.disk.inodes[pc.inode] + pc.rest;
  }

  lemma StartWriteStepped(c: Setup, s: State, w: nat)
    requires Core(c, s, w) && WriterEnabled(c, s, w, StartWrite)
    ensures Stepped(c, s, WriterNext(c, s, w, StartWrite), w)
  {
  }

  lemma ExtendWriteStepped(c: Setup, s: State, w: nat, n: nat)
    requires Core(c, s, w) && WriterEnabled(c, s, w, ExtendWrite(n))
    ensures Stepped(c, s, WriterNext(c, s, w, ExtendWrite(n)), w)
  {
    var pc := s.writers[w];
    assert s.disk.inodes[pc.inode] + pc.rest[..n] + pc.rest[n..] == s.disk.inodes[pc.inode] + pc.rest;
  }

  predicate FileWriting(step: WriterStep) {
    step.StartBackup? || step.ExtendBackup? || step.StartWrite? || step.ExtendWrite?
  }

  lemma WritingStepped(c: Setup, s: State, w: nat, step: WriterStep)
    requires Core(c, s, w) && WriterEnabled(c, s, w, step) && FileWriting(step)
    ensures Stepped(c, s, WriterNext(c, s, w, step), w)
  {
    match step
    case StartBackup => StartBackupStepped(c, s, w);
    case ExtendBackup(n) => ExtendBackupStepped(c, s, w, n);
    case StartWrite => StartWriteStepped(c, s, w);
    case ExtendWrite(n) => ExtendWriteStepped(c, s, w, n);
  }

  lemma EveryStepStepped(c: Setup, s: State, w: nat, step: WriterStep)
    requires Core(c, s, w) && WriterEnabled(c, s, w, step) && !step.Rename?
    ensures Stepped(c, s, WriterNext(c, s, w, step), w)
  {
    if FileWriting(step) {
      WritingStepped(c, s, w, step);
    } else if step.Load? {
      LoadStepped(c, s, w);
    } else if step.Lock? || step.LockFails? {
      LockStepped(c, s, w, step);
    } else if LockStep(step) {
      LeaveStepped(c, s, w, step);
    } else if BackupStep(step) {
      BackupStepped(c, s, w, step);
    } else {
      FileStepped(c, s, w, step);
    }
  }

  lemma StartBackupKeepsBackup(c: Setup, s: State, w: nat)
    requires Core(c, s, w) && WriterEnabled(c, s, w, StartBackup)
    requires DiskInv(WriterNext(c, s, w, StartBackup).disk) && HistoryInv(c, WriterNext(c, s, w, StartBackup))
    ensures BackupInv(c, WriterNext(c, s, w, StartBackup))
  {
  }

  lemma ExtendBackupKeepsBackup(c: Setup, s: State, w: nat, n: nat)
    requires Core(c, s, w) && WriterEnabled(c, s, w, ExtendBackup(n))
    requires DiskInv(WriterNext(c, s, w, ExtendBackup(n)).disk) && HistoryInv(c, WriterNext(c, s, w, ExtendBackup(n)))
    ensures BackupInv(c, WriterNext(c, s, w, ExtendBackup(n)))
  {
    var pc := s.writers[w];
    assert s.disk.inodes[pc.inode] + pc.rest[..n] + pc.rest[n..] == s.disk.inodes[s.disk.main.value];
  }

  /** A step that touches no file keeps the claim about the backup. */
  lemma NoFileKeepsBackup(c: Setup, s: State, s': State)
    requires DiskInv(s.disk) && HistoryInv(c, s) && HistoryInv(c, s') && BackupInv(c, s)
    requires s'.disk == s.disk && s'.committed == s.committed && s'.copy == s.copy
    ensures DiskInv(s'.disk) && BackupInv(c, s')
  {
  }

  lemma TemporaryKeepsBackup(c: Setup, s: State, w: nat, step: WriterStep)
    requires Core(c, s, w) && WriterEnabled(c, s, w, step) && (step.StartWrite? || step.ExtendWrite?)
    requires DiskInv(WriterNext(c, s, w, step).disk) && HistoryInv(c, WriterNext(c, s, w, step))
    ensures BackupInv(c, WriterNext(c, s, w, step))
  {
  }

  lemma StepKeepsBackup(c: Setup, s: State, w: nat, step: WriterStep)
    requires Core(c, s, w) && WriterEnabled(c, s, w, step) && !step.Rename?
    requires DiskInv(WriterNext(c, s, w, step).disk) && HistoryInv(c, WriterNext(c, s, w, step))
    ensures BackupInv(c, WriterNext(c, s, w, step))
  {
    if step.StartBackup? {
      StartBackupKeepsBackup(c, s, w);
    } else if step.ExtendBackup? {
      ExtendBackupKeepsBackup(c, s, w, step.n);
    } else if FileWriting(step) {
      TemporaryKeepsBackup(c, s, w, step);
    } else {
      NoFileKeepsBackup(c, s, WriterNext(c, s, w, step));
    }
  }

  lemma RenameKeepsHistory(c: Setup, s: State, w: nat)
    requires Core(c, s, w) && WriterEnabled(c, s, w, Rename)
    ensures var s' := WriterNext(c, s, w, Rename);
      DiskInv(s'.disk) && HistoryInv(c, s')
  {
  }

  lemma RenameCommits(c: Setup, s: State, w: nat)
    requires Core(c, s, w) && WriterEnabled(c, s, w, Rename)
    ensures var s' := WriterNext(c, s, w, Rename);
      && DiskInv(s'.disk) && HistoryInv(c, s')
      && Current(c, s') == c.ops[w](Current(c, s))
      && MainInv(c, s') && WriterInv(c, s', w)
  {
    RenameKeepsHistory(c, s, w);
    CommitExtends(c, s.committed, w, |s.committed|);
  }

  lemma RenameKeepsBackup(c: Setup, s: State, w: nat)
    requires Core(c, s, w) && WriterEnabled(c, s, w, Rename)
    requires DiskInv(WriterNext(c, s, w, Rename).disk) && HistoryInv(c, WriterNext(c, s, w, Rename))
    ensures BackupInv(c, WriterNext(c, s, w, Rename))
  {
    if !s.copy.Original? {
      CommitExtends(c, s.committed, w, s.copy.n);
    }
  }

  lemma RenameKeepsReader(c: Setup, s: State, w: nat, r: nat)
    requires Core(c, s, w) && WriterEnabled(c, s, w, Rename)
    requires DiskInv(WriterNext(c, s, w, Rename).disk) && HistoryInv(c, WriterNext(c, s, w, Rename))
    requires r in s.readers && ReaderInv(c, s, r)
    ensures ReaderInv(c, WriterNext(c, s, w, Rename), r)
  {
    if s.readers[r].Reading? || s.readers[r].Read? {
      CommitExtends(c, s.committed, w, s.readers[r].at);
    }
  }

  lemma RenameKeepsInv(c: Setup, s: State, w: nat)
    requires Inv(c, s) && Enabled(c, s, Write(w, Rename))
    ensures Inv(c, Next(c, s, Write(w, Rename)))
  {
    var s' := WriterNext(c, s, w, Rename);
    assert WriterInv(c, s, w);
    RenameCommits(c, s, w);
    RenameKeepsBackup(c, s, w);
    forall v | v in s'.writers ensures WriterInv(c, s', v) {
      assert WriterInv(c, s, v);
      if v != w {
        OutsideTheLock(c, s', v);
      }
    }
    forall r | r in s'.readers ensures ReaderInv(c, s', r) {
      RenameKeepsReader(c, s, w, r);
    }
  }

  lemma StepKeepsInv(c: Setup, s: State, a: Action)
    requires Inv(c, s) && Enabled(c, s, a)
    ensures Inv(c, Next(c, s, a))
  {
    match a
    case Reads(r, step) => ReaderStepKeepsInv(c, s, r, step);
    case Write(w, step) =>
      if step.Rename? {
        RenameKeepsInv(c, s, w);
      } else {
        EveryStepStepped(c, s, w, step);
        HistoryKept(c, s, Next(c, s, a), w);
        StepKeepsBackup(c, s, w, step);
        LocalStepKeepsInv(c, s, Next(c, s, a), w);
      }
  }

  /** The conditions about inodes and decoding in the steps exclude nothing: a process
      that reached a step can always take it. */
  lemma NoProcessIsBlockedByTheDisk(c: Setup, s: State, w: nat, n: nat)
    requires Inv(c, s) && w in s.writers && w in c.ops
    ensures var pc := s.writers[w];
      && (pc.Locked? ==> WriterEnabled(c, s, w, Load))
      && (pc.Loaded? ==> WriterEnabled(c, s, w, if s.disk.main.Some? then StartBackup else SkipBackup))
      && (pc.BackingUp? && n <= |pc.rest| ==> WriterEnabled(c, s, w, ExtendBackup(n)))
      && (pc.BackedUp? ==> WriterEnabled(c, s, w, StartWrite))
      && (pc.Writing? && n <= |pc.rest| ==> WriterEnabled(c, s, w, ExtendWrite(n)))
      && (pc.Written? ==> WriterEnabled(c, s, w, Rename))
  {
    assert WriterInv(c, s, w);
  }

  /** A process may die between any two of its steps, and each step that touches the lock or
      the disk may fail. */
  lemma AnythingMayGoWrong(c: Setup, s: State, w: nat)
    requires Inv(c, s) && w in s.writers && w in c.ops
    ensures var pc := s.writers[w];
      && (!pc.Returned? && !pc.Died? ==> Enabled(c, s, Write(w, Die)))
      && (pc.Ready? ==> Enabled(c, s, Write(w, LockFails)))
      && (pc.Locked? ==> Enabled(c, s, Write(w, LoadFails)))
      && (pc.Loaded? ==> Enabled(c, s, Write(w, SaveFails)))
      && (pc.Loaded? && s.disk.main.Some? ==> Enabled(c, s, Write(w, BackupUnreadable)))
      && (pc.BackingUp? ==> Enabled(c, s, Write(w, BackupFails)))
      && (pc.BackedUp? || pc.Writing? ==> Enabled(c, s, Write(w, WriteFails)))
      && (pc.Written? ==> Enabled(c, s, Write(w, RenameFails)))
  {
  }

  // ----- runs -----

  ghost predicate EnabledRun(c: Setup, s: State, acts: seq<Action>)
    decreases |acts|
  {
    acts != [] ==> Enabled(c, s, acts[0]) && EnabledRun(c, Next(c, s, acts[0]), acts[1..])
  }

  ghost function Run(c: Setup, s: State, acts: seq<Action>): State
    requires EnabledRun(c, s, acts)
    decreases |acts|
  {
    if acts == [] then s else Run(c, Next(c, s, acts[0]), acts[1..])
  }

  lemma {:induction false} RunKeepsInv(c: Setup, s: State, acts: seq<Action>)
    requires Inv(c, s) && EnabledRun(c, s, acts)
    ensures Inv(c, Run(c, s, acts))
    decreases |acts|
  {
    if acts != [] {
      StepKeepsInv(c, s, acts[0]);
      RunKeepsInv(c, Next(c, s, acts[0]), acts[1..]);
    }
  }

  /** At every moment of every run the main file, once there is one, decodes to the
      result of the committed closures in commit order, so no load ever meets a torn or
      stale file. */
  lemma MainFileIsAlwaysComplete(c: Setup, s: State, acts: seq<Action>)
    requires Initial(c, s) && EnabledRun(c, s, acts)
    ensures var s' := Run(c, s, acts);
      && Inv(c, s')
      && (s'.disk.main.None? <==> c.initial.None? && s'.committed == [])
      && (s'.disk.main.Some? ==> c.codec.unmarshal(s'.disk.inodes[s'.disk.main.value]) == Some(Current(c, s')))
  {
    InitialInv(c, s);
    RunKeepsInv(c, s, acts);
  }

  /** No update is lost and none is invented: a call that returned success was committed
      exactly once, and a call that returned an error was not. */
  lemma NoUpdateIsLost(c: Setup, s: State, acts: seq<Action>, w: nat)
    requires Initial(c, s) && EnabledRun(c, s, acts) && w in Run(c, s, acts).writers
    ensures var s' := Run(c, s, acts);
      && Inv(c, s')
      && (s'.writers[w] == Returned(true) ==> exists i :: 0 <= i < |s'.committed| && s'.committed[i] == w)
      && (s'.writers[w] == Returned(false) ==> w !in s'.committed)
      && (forall i, j | 0 <= i < |s'.committed| && 0 <= j < |s'.committed| && s'.committed[i] == s'.committed[j] :: i == j)
  {
    InitialInv(c, s);
    RunKeepsInv(c, s, acts);
  }

  /** A reader that took no lock still read one complete registry: the one that was
      current when it opened the file. */
  lemma LoadsReturnCommittedStates(c: Setup, s: State, acts: seq<Action>, r: nat)
    requires Initial(c, s) && EnabledRun(c, s, acts) && r in Run(c, s, acts).readers
    ensures var s' := Run(c, s, acts);
      && Inv(c, s')
      && (s'.readers[r].Read? ==>
            && s'.readers[r].at <= |s'.committed|
            && c.codec.unmarshal(s'.readers[r].content) == Some(RegistryAt(c, s'.committed, s'.readers[r].at)))
      && (s'.readers[r].Absent? ==> EMPTY_REGISTRY == RegistryAt(c, s'.committed, 0))
  {
    InitialInv(c, s);
    RunKeepsInv(c, s, acts);
    assert ReaderInv(c, Run(c, s, acts), r);
  }

  /** How many commits a reader is guaranteed to see. */
  predicate SeesAtLeast(s: State, r: nat, n: nat) {
    r in s.readers && (s.readers[r].Asked? ==> n <= |s.committed|) && (!s.readers[r].Asked? ==> n <= s.readers[r].at)
  }

  lemma {:induction false} ViewsNeverAge(c: Setup, s: State, acts: seq<Action>, r: nat, n: nat)
    requires EnabledRun(c, s, acts) && SeesAtLeast(s, r, n) && n <= |s.committed|
    ensures SeesAtLeast(Run(c, s, acts), r, n)
    ensures s.committed <= Run(c, s, acts).committed
    decreases |acts|
  {
    if acts != [] {
      ViewsNeverAge(c, Next(c, s, acts[0]), acts[1..], r, n);
    }
  }

  /** A load that starts after a call returned success sees its mutation. */
  lemma LoadsSeeReturnedUpdates(c: Setup, s: State, acts: seq<Action>, r: nat, w: nat)
    requires Inv(c, s) && EnabledRun(c, s, acts)
    requires w in s.writers && s.writers[w] == Returned(true)
    requires r in s.readers && s.readers[r].Asked?
    ensures var s' := Run(c, s, acts);
      && r in s'.readers
      && (s'.readers[r].Read? ==> s'.readers[r].at <= |s'.committed| && w in s'.committed[..s'.readers[r].at])
      && !s'.readers[r].Absent?
  {
    var s' := Run(c, s, acts);
    ViewsNeverAge(c, s, acts, r, |s.committed|);
    RunKeepsInv(c, s, acts);
    assert ReaderInv(c, s', r);
    var i :| 0 <= i < |s.committed| && s.committed[i] == w;
    assert s'.committed[i] == w;
    if s'.readers[r].Read? {
      assert s'.committed[..s'.readers[r].at][i] == w;
    }
  }

  // ----- the backup -----

  /** The backup file decodes to this registry. */
  ghost predicate BackupReads(c: Setup, d: Disk, r: Registry) {
    d.bak.Some? && d.bak.value < |d.inodes| && c.codec.unmarshal(d.inodes[d.bak.value]) == Some(r)
  }

  /** The state before the last commit was a file. */
  predicate HadPrevious(c: Setup, s: State) {
    |s.committed| >= 2 || (|s.committed| == 1 && c.initial.Some?)
  }

  /** What the backup holds at every moment of every run, whatever failed or died: an
      untouched backup is the one from before the run, one cut short decodes to nothing,
      and a complete one to the registry after the commits it was made at. */
  lemma BackupIsAccountedFor(c: Setup, s: State, acts: seq<Action>, r: Registry)
    requires Initial(c, s) && EnabledRun(c, s, acts)
    ensures var s' := Run(c, s, acts);
      && Inv(c, s')
      && (BackupReads(c, s'.disk, r) <==>
            match s'.copy
            case Original => c.oldBackup.Some? && c.codec.unmarshal(c.oldBackup.value) == Some(r)
            case Torn(n) => false
            case Of(n) => r == RegistryAt(c, s'.committed, n))
  {
    InitialInv(c, s);
    RunKeepsInv(c, s, acts);
  }

  /** The backup is the registry before the last commit exactly when it was completed, in
      the run or before it, with that registry. */
  lemma BackupIsPreviousState(c: Setup, s: State, acts: seq<Action>)
    requires Initial(c, s) && EnabledRun(c, s, acts) && Run(c, s, acts).committed != []
    ensures var s' := Run(c, s, acts);
      && Inv(c, s')
      && var previous := RegistryAt(c, s'.committed, |s'.committed| - 1);
         BackupReads(c, s'.disk, previous) <==>
           || (s'.copy.Of? && RegistryAt(c, s'.committed, s'.copy.n) == previous)
           || (s'.copy.Original? && c.oldBackup.Some? && c.codec.unmarshal(c.oldBackup.value) == Some(previous))
  {
    InitialInv(c, s);
    RunKeepsInv(c, s, acts);
    var s' := Run(c, s, acts);
    BackupIsAccountedFor(c, s, acts, RegistryAt(c, s'.committed, |s'.committed| - 1));
  }

  /** A step that leaves the backup and the main file out of step: a backup is not made or
      not finished, or a call ends between its backup and its rename. */
  predicate Troubled(s: State, a: Action) {
    && a.Write? && a.w in s.writers
    && (a.step.BackupUnreadable? || a.step.BackupFails? || a.step.WriteFails? || a.step.RenameFails? ||
        (a.step.Die? && PastBackup(s.writers[a.w])))
  }

  ghost predicate UntroubledRun(c: Setup, s: State, acts: seq<Action>)
    requires EnabledRun(c, s, acts)
    decreases |acts|
  {
    acts != [] ==> !Troubled(s, acts[0]) && UntroubledRun(c, Next(c, s, acts[0]), acts[1..])
  }

  /** The lock holder has started its backup and not yet renamed. */
  predicate HolderPastBackup(s: State) {
    s.lock.Some? && s.lock.value in s.writers && PastBackup(s.writers[s.lock.value])
  }

  /** While a holder is past its backup, that is a copy of the main file, as far as it
      goes; otherwise it is one of the state before the last commit. */
  predicate InStep(c: Setup, s: State) {
    if HolderPastBackup(s) then
      var pc := s.writers[s.lock.value];
      if pc.BackingUp? then s.copy == Copied(pc.rest, |s.committed|)
      else s.disk.main.Some? ==> s.copy == Of(|s.committed|)
    else
      HadPrevious(c, s) ==> s.copy == Of(|s.committed| - 1)
  }

  /** A holder that does not write its backup yet, or a process outside the lock. */
  lemma LockStepStaysInStep(c: Setup, s: State, w: nat, step: WriterStep)
    requires Core(c, s, w) && WriterEnabled(c, s, w, step) && !Troubled(s, Write(w, step)) && InStep(c, s)
    requires LockStep(step) || step.Load?
    ensures InStep(c, WriterNext(c, s, w, step))
  {
  }

  lemma BackupStepStaysInStep(c: Setup, s: State, w: nat, step: WriterStep)
    requires Core(c, s, w) && WriterEnabled(c, s, w, step) && !Troubled(s, Write(w, step)) && InStep(c, s)
    requires BackupStep(step) || step.StartBackup? || step.ExtendBackup?
    ensures InStep(c, WriterNext(c, s, w, step))
  {
  }

  lemma LateStepStaysInStep(c: Setup, s: State, w: nat, step: WriterStep)
    requires Core(c, s, w) && WriterEnabled(c, s, w, step) && !Troubled(s, Write(w, step)) && InStep(c, s)
    requires step.StartWrite? || step.ExtendWrite? || step.FinishWrite? || step.Rename?
    ensures InStep(c, WriterNext(c, s, w, step))
  {
  }

  lemma UntroubledWriteStaysInStep(c: Setup, s: State, w: nat, step: WriterStep)
    requires Core(c, s, w) && WriterEnabled(c, s, w, step) && !Troubled(s, Write(w, step)) && InStep(c, s)
    ensures InStep(c, WriterNext(c, s, w, step))
  {
    if step.StartWrite? || step.ExtendWrite? || step.FinishWrite? || step.Rename? {
      LateStepStaysInStep(c, s, w, step);
    } else if LockStep(step) || step.Load? {
      LockStepStaysInStep(c, s, w, step);
    } else {
      BackupStepStaysInStep(c, s, w, step);
    }
  }

  lemma WriterHasCore(c: Setup, s: State, w: nat)
    requires Inv(c, s) && w in s.writers && w in c.ops
    ensures Core(c, s, w)
  {
    assert WriterInv(c, s, w);
  }

  lemma ReadStaysInStep(c: Setup, s: State, r: nat, step: ReaderStep)
    requires r in s.readers && ReaderEnabled(s, r, step) && InStep(c, s)
    ensures InStep(c, ReaderNext(s, r, step))
  {
  }

  lemma UntroubledStepStaysInStep(c: Setup, s: State, a: Action)
    requires Inv(c, s) && Enabled(c, s, a) && !Troubled(s, a) && InStep(c, s)
    ensures InStep(c, Next(c, s, a))
  {
    match a
    case Write(w, step) =>
      WriterHasCore(c, s, w);
      UntroubledWriteStaysInStep(c, s, w, step);
    case Reads(r, step) => ReadStaysInStep(c, s, r, step);
  }

  lemma {:induction false} UntroubledRunStaysInStep(c: Setup, s: State, acts: seq<Action>)
    requires Inv(c, s) && EnabledRun(c, s, acts) && UntroubledRun(c, s, acts) && InStep(c, s)
    ensures InStep(c, Run(c, s, acts))
    decreases |acts|
  {
    if acts != [] {
      StepKeepsInv(c, s, acts[0]);
      UntroubledStepStaysInStep(c, s, acts[0]);
      UntroubledRunStaysInStep(c, Next(c, s, acts[0]), acts[1..]);
    }
  }

  lemma StartsInStep(c: Setup, s: State)
    requires Initial(c, s)
    ensures Inv(c, s) && InStep(c, s)
  {
    InitialInv(c, s);
  }

  /** When every backup was finished and no call ended between its backup and its rename,
      the backup is the registry before the last commit whenever the lock is free. */
  lemma UntroubledBackupIsPreviousState(c: Setup, s: State, acts: seq<Action>, s': State)
    requires Initial(c, s) && EnabledRun(c, s, acts) && UntroubledRun(c, s, acts) && s' == Run(c, s, acts)
    requires s'.lock == None && HadPrevious(c, s')
    ensures Inv(c, s') && BackupReads(c, s'.disk, RegistryAt(c, s'.committed, |s'.committed| - 1))
  {
    StartsInStep(c, s);
    UntroubledRunStaysInStep(c, s, acts);
    assert s'.copy == Of(|s'.committed| - 1);
    BackupIsPreviousState(c, s, acts);
  }

  /** When the temporary file cannot be written after a completed backup, the backup is
      left a copy of the main file, not of the state before it. */
  lemma FailedWriteLeavesCurrentBackup(c: Setup, s: State, w: nat)
    requires Inv(c, s) && w in s.writers && s.writers[w].BackedUp? && s.copy == Of(|s.committed|) && s.disk.main.Some?
    ensures Enabled(c, s, Write(w, WriteFails))
    ensures BackupIsMain(Next(c, s, Write(w, WriteFails)).disk)
  {
    assert WriterInv(c, s, w);
  }

  lemma {:induction false} RunSnoc(c: Setup, s: State, acts: seq<Action>, a: Action)
    requires EnabledRun(c, s, acts) && Enabled(c, Run(c, s, acts), a)
    ensures EnabledRun(c, s, acts + [a]) && Run(c, s, acts + [a]) == Next(c, Run(c, s, acts), a)
    decreases |acts|
  {
    if acts == [] {
      assert acts + [a] == [a] && [a][1..] == [];
    } else {
      assert (acts + [a])[1..] == acts[1..] + [a];
      RunSnoc(c, Next(c, s, acts[0]), acts[1..], a);
    }
  }

  /** A run from the start that led to s. */
  ghost predicate Led(c: Setup, start: State, acts: seq<Action>, s: State) {
    EnabledRun(c, start, acts) && s == Run(c, start, acts)
  }

  /** One more step of writer w at the end of a run. */
  lemma OneMore(c: Setup, start: State, acts: seq<Action>, s: State, w: nat, step: WriterStep)
    returns (acts': seq<Action>, s': State)
    requires Led(c, start, acts, s) && Enabled(c, s, Write(w, step))
    ensures acts' == acts + [Write(w, step)] && Led(c, start, acts', s') && s' == Next(c, s, Write(w, step))
  {
    RunSnoc(c, start, acts, Write(w, step));
    acts', s' := acts + [Write(w, step)], Next(c, s, Write(w, step));
  }

  lemma LockAndLoad(c: Setup, s: State, w: nat) returns (acts: seq<Action>, s': State)
    requires Inv(c, s) && s.lock == None && s.disk.main.Some?
    requires w in s.writers && w in c.ops && s.writers[w].Ready?
    ensures acts == [Write(w, Lock), Write(w, Load)] && Led(c, s, acts, s')
    ensures s'.disk.main == s.disk.main && s'.committed == s.committed
    ensures w in s'.writers && s'.writers[w].Loaded?
  {
    acts, s' := OneMore(c, s, [], s, w, Lock);
    acts, s' := OneMore(c, s, acts, s', w, Load);
  }

  lemma BeginBackup(c: Setup, start: State, acts: seq<Action>, s: State, w: nat) returns (acts': seq<Action>, s': State)
    requires Inv(c, start) && Led(c, start, acts, s)
    requires s.disk.main.Some? && w in s.writers && w in c.ops && s.writers[w].Loaded?
    ensures acts' == acts + [Write(w, StartBackup)] && Led(c, start, acts', s')
    ensures w in s'.writers && s'.writers[w].BackingUp?
    ensures s'.disk.main == s.disk.main && s'.committed == s.committed
  {
    RunKeepsInv(c, start, acts);
    NoProcessIsBlockedByTheDisk(c, s, w, 0);
    acts', s' := OneMore(c, start, acts, s, w, StartBackup);
  }

  lemma WriteRestOfBackup(c: Setup, start: State, acts: seq<Action>, s: State, w: nat)
    returns (acts': seq<Action>, s': State, n: nat)
    requires Inv(c, start) && Led(c, start, acts, s)
    requires w in s.writers && w in c.ops && s.writers[w].BackingUp?
    ensures acts' == acts + [Write(w, ExtendBackup(n))] && Led(c, start, acts', s')
    ensures w in s'.writers && s'.writers[w].BackingUp? && s'.writers[w].rest == "" && s'.copy == Of(|s'.committed|)
    ensures s'.disk.main == s.disk.main && s'.committed == s.committed
  {
    RunKeepsInv(c, start, acts);
    n := |s.writers[w].rest|;
    NoProcessIsBlockedByTheDisk(c, s, w, n);
    acts', s' := OneMore(c, start, acts, s, w, ExtendBackup(n));
  }

  lemma CompleteBackup(c: Setup, start: State, acts: seq<Action>, s: State, w: nat)
    returns (acts': seq<Action>, s': State, n: nat)
    requires Inv(c, start) && Led(c, start, acts, s)
    requires s.disk.main.Some? && w in s.writers && w in c.ops && s.writers[w].BackingUp?
    ensures acts' == acts + [Write(w, ExtendBackup(n)), Write(w, FinishBackup)] && Led(c, start, acts', s')
    ensures w in s'.writers && s'.writers[w].BackedUp? && s'.copy == Of(|s'.committed|)
    ensures s'.disk.main == s.disk.main && s'.committed == s.committed
  {
    acts', s', n := WriteRestOfBackup(c, start, acts, s, w);
    acts', s' := OneMore(c, start, acts', s', w, FinishBackup);
  }

  lemma FailWrite(c: Setup, start: State, acts: seq<Action>, s: State, w: nat) returns (acts': seq<Action>, s': State)
    requires Inv(c, start) && Led(c, start, acts, s)
    requires s.disk.main.Some? && w in s.writers && w in c.ops && s.writers[w].BackedUp? && s.copy == Of(|s.committed|)
    ensures acts' == acts + [Write(w, WriteFails)] && Led(c, start, acts', s')
    ensures Enabled(c, s, Write(w, WriteFails)) && s' == Next(c, s, Write(w, WriteFails)) && BackupIsMain(s'.disk)
  {
    RunKeepsInv(c, start, acts);
    FailedWriteLeavesCurrentBackup(c, s, w);
    acts', s' := OneMore(c, start, acts, s, w, WriteFails);
  }

  lemma FailAndUnlock(c: Setup, start: State, acts: seq<Action>, s: State, w: nat) returns (acts': seq<Action>, s': State)
    requires Inv(c, start) && Led(c, start, acts, s)
    requires s.disk.main.Some? && w in s.writers && w in c.ops && s.writers[w].BackedUp? && s.copy == Of(|s.committed|)
    ensures acts' == acts + [Write(w, WriteFails), Write(w, Unlock)] && Led(c, start, acts', s')
    ensures s'.lock == None && s'.committed == s.committed && BackupIsMain(s'.disk)
  {
    acts', s' := FailWrite(c, start, acts, s, w);
    acts', s' := OneMore(c, start, acts', s', w, Unlock);
  }

  /** The backup is a copy of the main file. */
  predicate BackupIsMain(d: Disk) {
    && d.bak.Some? && d.bak.value < |d.inodes| && d.main.Some? && d.main.value < |d.inodes|
    && d.inodes[d.bak.value] == d.inodes[d.main.value]
  }

  /** From every state with a registry file and a free lock, there is a call of mutate in
      which nothing but the temporary file fails and no process dies, after which the
      backup is a copy of the main file: the state before the last commit is gone. */
  lemma FailedAttemptOverwritesBackup(c: Setup, s: State, w: nat) returns (acts: seq<Action>, s': State, n: nat)
    requires Inv(c, s) && s.lock == None && s.disk.main.Some?
    requires w in s.writers && w in c.ops && s.writers[w].Ready?
    ensures acts == [Write(w, Lock), Write(w, Load), Write(w, StartBackup), Write(w, ExtendBackup(n)), Write(w, FinishBackup),
                     Write(w, WriteFails), Write(w, Unlock)]
    ensures Led(c, s, acts, s') && s'.lock == None && s'.committed == s.committed && BackupIsMain(s'.disk)
  {
    acts, s' := LockAndLoad(c, s, w);
    acts, s' := BeginBackup(c, s, acts, s', w);
    acts, s', n := CompleteBackup(c, s, acts, s', w);
    acts, s' := FailAndUnlock(c, s, acts, s', w);
  }
}
