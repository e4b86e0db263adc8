/** Every sequence of operations on a file system behaves as one on a map from names to
    byte strings of fixed length. */
module FileSystemRuns {
  import opened Common
  import opened BitMaps
  import opened Encoding
  import opened FileHeaders
  import opened OpenFiles
  import opened Directories
  import opened Volumes
  import opened VolumeSteps
  import opened FileSystems
  import opened FreeSpace

  datatype Op =
    | Create(name: CString, size: Int32)
    | Open(name: CString)
    | ReadAt(handle: nat, numBytes: Int32, position: Int32)
    | WriteAt(handle: nat, bytes: seq<Byte>, position: Int32)
    | Remove(name: CString)

  datatype Outcome = Done(ok: bool) | Opened(handle: nat) | NotFound | Read(bytes: seq<Byte>) | Written(count: nat)

  /** The map of files; for each handle the file it is on, or None once that is removed; and
      the number of free sectors. */
  datatype State = State(files: map<seq<Byte>, seq<Byte>>, handles: seq<Option<seq<Byte>>>, free: nat)

  ghost predicate Live(s: State, handle: nat) {
    handle < |s.handles| && s.handles[handle].Some? && s.handles[handle].value in s.files
  }

  /** A new name and a free entry, but a size that fits the disk and not a header. */
  ghost predicate Overruns(s: State, key: seq<Byte>, size: Int32) {
    && key !in s.files && |s.files| < NUM_DIR_ENTRIES
    && NUM_DIRECT < Blocks(size) <= s.free - 1
  }

  /** What is asked of a client: handles of existing files, positions that are not negative,
      and no size for which Create overruns the header. */
  ghost predicate Enabled(s: State, op: Op) {
    match op
    case Create(name, size) => !Overruns(s, Key(name), size)
    case Open(name) => true
    case ReadAt(h, n, p) => Live(s, h) && Defined(|s.files[s.handles[h].value]|, n, p)
    case WriteAt(h, bytes, p) =>
      Live(s, h) && |bytes| < 0x8000_0000 && Defined(|s.files[s.handles[h].value]|, |bytes|, p)
    case Remove(name) => true
  }

  ghost function Forget(handles: seq<Option<seq<Byte>>>, key: seq<Byte>): (r: seq<Option<seq<Byte>>>)
    ensures |r| == |handles|
  {
    seq(|handles|, i requires 0 <= i < |handles| => if handles[i] == Some(key) then None else handles[i])
  }

  ghost function Without(s: State, key: seq<Byte>): State
    requires key in s.files
  {
    State(s.files - {key}, Forget(s.handles, key), s.free + SectorsNeeded(|s.files[key]|))
  }

  /** One operation on the map. Only the contents of a new file are left open. */
  ghost predicate Step(s: State, op: Op, out: Outcome, s': State)
    requires Enabled(s, op)
  {
    match op
    case Create(name, size) =>
      var key := Key(name);
      var ok := key !in s.files && |s.files| < NUM_DIR_ENTRIES && size <= MAX_FILE_SIZE;
      && out == Done(ok)
      && s'.handles == s.handles
      && (if !ok then s'.files == s.files && s'.free == s.free
          else
            && s'.files.Keys == s.files.Keys + {key}
            && s'.free == s.free - SectorsNeeded(|s'.files[key]|)
            && |s'.files[key]| == (if size < 0 then 0 else size)
            && forall k :: k in s.files ==> s'.files[k] == s.files[k])
    case Open(name) =>
      if Key(name) in s.files
      then out == Opened(|s.handles|) && s' == s.(handles := s.handles + [Some(Key(name))])
      else out == NotFound && s' == s
    case ReadAt(h, n, p) =>
      var c := s.files[s.handles[h].value];
      var count := Transferred(|c|, n, p);
      out == Read(if count == 0 then [] else c[p..p + count]) && s' == s
    case WriteAt(h, bytes, p) =>
      var key := s.handles[h].value;
      var count := Transferred(|s.files[key]|, |bytes|, p);
      && out == Written(count)
      && s' == if count == 0 then s else s.(files := s.files[key := Splice(s.files[key], p, bytes[..count])])
    case Remove(name) =>
      var ok := Key(name) in s.files;
      && out == Done(ok)
      && s' == if ok then Without(s, Key(name)) else s
  }

  /** After a name has been given to a new file, another name finds that file exactly if the two
      have the same first nine characters, and else what it found before. */
  lemma NamesApart(s: State, a: CString, size: Int32, s': State, b: CString, out: Outcome, s'': State)
    requires Enabled(s, Create(a, size)) && Step(s, Create(a, size), Done(true), s')
    requires Step(s', Open(b), out, s'')
    ensures out.Opened? <==> Cut(a, 9) == Cut(b, 9) || Key(b) in s.files
    ensures out.Opened? ==>
              var found := s''.handles[out.handle].value;
              if Cut(a, 9) == Cut(b, 9) then found !in s.files else s''.files[found] == s.files[found]
  {
    hide Key, Cut;
    SameKeyIff(a, b);
  }

  /** A read gets as much as was asked for and the file has, each byte as the write before it left
      that byte: the one written there, or else the one that was there. */
  lemma ReadBack(s: State, h: nat, bytes: seq<Byte>, p: Int32, out: Outcome, s': State, n: Int32, q: Int32, got: Outcome)
    requires Enabled(s, WriteAt(h, bytes, p)) && Step(s, WriteAt(h, bytes, p), out, s')
    requires Enabled(s', ReadAt(h, n, q)) && Step(s', ReadAt(h, n, q), got, s')
    ensures var c := s.files[s.handles[h].value];
            && got.Read? && |got.bytes| <= (if n < 0 then 0 else n) && (got.bytes != [] ==> q + |got.bytes| <= |c|)
            && (|got.bytes| < n ==> q + |got.bytes| >= |c|)
            && forall k :: 0 <= k < |got.bytes| ==>
                 got.bytes[k] == if p <= q + k < p + |bytes| then bytes[q + k - p] else c[q + k]
  {
  }

  /** From operation `i` on, the client stays within what is asked of it, whatever the outcomes. */
  ghost predicate WellBehaved(s: State, ops: seq<Op>, i: nat)
    requires i <= |ops|
    decreases |ops| - i
  {
    i == |ops| || (Enabled(s, ops[i]) && forall out, s' :: Step(s, ops[i], out, s') ==> WellBehaved(s', ops, i + 1))
  }

  /** `states` and `outcomes` are a run of `ops` on maps, starting in `s`. */
  ghost predicate IsRun(s: State, ops: seq<Op>, outcomes: seq<Outcome>, states: seq<State>) {
    && |outcomes| == |ops| && |states| == |ops| + 1 && states[0] == s
    && forall i :: 0 <= i < |ops| ==> Enabled(states[i], ops[i]) && Step(states[i], ops[i], outcomes[i], states[i + 1])
  }

  /** The handles of the client, on a disk that shows the state `s`. */
  ghost predicate Shows(fs: FileSystem, files: seq<OpenFile>, s: State)
    reads fs.disk, fs.freeMapFile.hdr, fs.directoryFile.hdr, set f | f in files :: f.hdr
  {
    && fs.Valid() && Files(fs.disk.sectors) == s.files && Free(fs.disk.sectors) == s.free && |files| == |s.handles|
    && forall i :: 0 <= i < |files| ==> files[i].disk == fs.disk && HandleOk(fs.disk.sectors, files[i].hdr.Value(), s.handles[i])
  }

  ghost predicate HandleOk(d: Image, h: Header, key: Option<seq<Byte>>)
    requires FsOk(d)
  {
    key.Some? ==> key.value in Files(d) && HeaderFor(d, key.value) == h
  }

  // ---------------------------------------------------------------- each operation

  method DoCreate(fs: FileSystem, files: seq<OpenFile>, op: Op, ghost s: State) returns (out: Outcome, ghost s': State)
    requires op.Create? && Enabled(s, op) && Shows(fs, files, s)
    modifies fs.disk
    ensures Shows(fs, files, s') && Step(s, op, out, s')
  {
    hide FsOk, Files, AreFiles, HeaderFor, Free, ClearCount, MarkedOn, Key, SectorsFor, Created, Step;
    ghost var d := fs.disk.sectors;
    OverrunsAgree(d, s, Key(op.name), op.size);
    var r := fs.Create(op.name, op.size);
    out := Done(r.Granted?);
    s' := s.(files := Files(fs.disk.sectors), free := Free(fs.disk.sectors));
    if r.Granted? {
      CreateStep(d, fs.disk.sectors, s, op, s');
    } else {
      CreateFails(d, s, op);
    }
  }

  lemma OverrunsAgree(d: Image, s: State, key: seq<Byte>, size: Int32)
    requires FsOk(d) && Files(d) == s.files && Free(d) == s.free
    ensures Overruns(s, key, size) <==> CreateOverruns(d, key, size)
  {
    hide FsOk, Files, AreFiles, MarkedOn, ClearCount;
  }

  lemma CreateFails(d: Image, s: State, op: Op)
    requires FsOk(d) && Files(d) == s.files && op.Create? && Enabled(s, op)
    requires !CreateSucceeds(d, Key(op.name), op.size)
    ensures Step(s, op, Done(false), s)
  {
    hide FsOk, Files, AreFiles;
  }

  lemma CreateStep(d: Image, d': Image, s: State, op: Op, s': State)
    requires FsOk(d) && Files(d) == s.files && op.Create? && Enabled(s, op)
    requires CreateSucceeds(d, Key(op.name), op.size) && Created(d, d', Key(op.name), op.size)
    requires Free(d) == s.free && s' == s.(files := Files(d'), free := Free(d'))
    ensures Step(s, op, Done(true), s')
    ensures forall k :: k in Files(d) ==> k in Files(d') && HeaderFor(d', k) == HeaderFor(d, k)
  {
    hide FsOk, Files, AreFiles, HeaderFor, MarkedOn, Key, SectorsFor, Free, SectorsNeeded;
    NewLength(d', Key(op.name));
    CreateTakes(d, d', Key(op.name), op.size);
  }

  method DoOpen(fs: FileSystem, files: seq<OpenFile>, op: Op, ghost s: State)
    returns (out: Outcome, files': seq<OpenFile>, ghost s': State)
    requires op.Open? && Enabled(s, op) && Shows(fs, files, s)
    ensures Shows(fs, files', s') && Step(s, op, out, s')
    ensures files <= files' && forall f :: f in files' && f !in files ==> fresh(f) && fresh(f.hdr)
  {
    hide FsOk, Files, AreFiles, HeaderFor, Key, Free;
    var f := fs.Open(op.name);
    if f == null {
      out, files', s' := NotFound, files, s;
    } else {
      out, files' := Opened(|files|), files + [f];
      s' := s.(handles := s.handles + [Some(Key(op.name))]);
    }
  }

  method DoRemove(fs: FileSystem, files: seq<OpenFile>, op: Op, ghost s: State) returns (out: Outcome, ghost s': State)
    requires op.Remove? && Enabled(s, op) && Shows(fs, files, s)
    modifies fs.disk
    ensures Shows(fs, files, s') && Step(s, op, out, s')
  {
    hide FsOk, Files, AreFiles, HeaderFor, Key, SectorsFor, MarkedOn, Free, SectorsNeeded;
    ghost var d, key := fs.disk.sectors, Key(op.name);
    var ok := fs.Remove(op.name);
    out, s' := Done(ok), s;
    if ok {
      RemoveGives(d, fs.disk.sectors, key);
      s' := Without(s, key);
    }
  }

  method DoRead(fs: FileSystem, files: seq<OpenFile>, op: Op, ghost s: State) returns (out: Outcome)
    requires op.ReadAt? && Enabled(s, op) && Shows(fs, files, s)
    ensures Step(s, op, out, s) && Shows(fs, files, s)
  {
    hide FsOk, Files, AreFiles, Key, Content, Free, HeaderOk, HeaderFor, Step, Splice;
    var f := files[op.handle];
    HandleBytes(fs.disk.sectors, s.handles[op.handle].value);
    var buf := new Byte[if op.numBytes < 0 then 0 else op.numBytes];
    ghost var empty, c := buf[..], f.Bytes();
    var count := f.ReadAt(buf, 0, op.numBytes, op.position);
    if count > 0 {
      SplicePrefix(empty, 0, c[op.position..op.position + count]);
    }
    ReadStep(s, op, buf[..count]);
    out := Read(buf[..count]);
  }

  lemma ReadStep(s: State, op: Op, got: seq<Byte>)
    requires op.ReadAt? && Enabled(s, op)
    requires var c := s.files[s.handles[op.handle].value];
             var count := Transferred(|c|, op.numBytes, op.position);
             |got| == count && (count > 0 ==> got == c[op.position..op.position + count])
    ensures Step(s, op, Read(got), s)
  {
  }

  method DoWrite(fs: FileSystem, files: seq<OpenFile>, op: Op, ghost s: State) returns (out: Outcome, ghost s': State)
    requires op.WriteAt? && Enabled(s, op) && Shows(fs, files, s)
    modifies fs.disk
    ensures Shows(fs, files, s') && Step(s, op, out, s')
  {
    hide FsOk, Files, AreFiles, Key, Content, Step, Splice, MarkedOn, ClearCount, HeaderOk, OnlyFileChanged, TableOf;
    var f := files[op.handle];
    ghost var d, key := fs.disk.sectors, s.handles[op.handle].value;
    HandleBytes(d, key);
    var buf := new Byte[|op.bytes|](i requires 0 <= i < |op.bytes| => op.bytes[i]);
    assert buf[..] == op.bytes;
    var count := f.WriteAt(buf, |op.bytes|, op.position);
    assert buf[..count] == op.bytes[..count];
    FileWritten(d, fs.disk.sectors, key);
    out := Written(count);
    s' := s.(files := Files(fs.disk.sectors));
    WriteStep(d, fs.disk.sectors, s, op, count, s');
  }

  lemma WriteStep(d: Image, d': Image, s: State, op: Op, count: nat, s': State)
    requires FsOk(d) && FsOk(d') && Files(d) == s.files && op.WriteAt? && Enabled(s, op)
    requires var key := s.handles[op.handle].value;
             && count == Transferred(|s.files[key]|, |op.bytes|, op.position)
             && (count == 0 ==> d' == d)
             && (count > 0 ==> Files(d') == Files(d)[key := Splice(s.files[key], op.position, op.bytes[..count])])
    requires s' == s.(files := Files(d'))
    ensures Step(s, op, Written(count), s')
  {
    hide FsOk, Files, AreFiles, Splice;
  }

  lemma NewLength(d: Image, key: seq<Byte>)
    requires FsOk(d) && key in Files(d)
    ensures |Files(d)[key]| == Length(HeaderFor(d, key))
  {
    hide Lookup, Content, MarkedIn, DecodeTable, DecodeHeader, Owners;
  }

  lemma HandleBytes(d: Image, key: seq<Byte>)
    requires FsOk(d) && key in Files(d)
    ensures HeaderOk(HeaderFor(d, key)) && Files(d)[key] == Content(d, HeaderFor(d, key))
  {
    hide Lookup, Content, MarkedIn, DecodeTable, DecodeHeader, Owners;
  }

  // ---------------------------------------------------------------- whole runs

  ghost function Start(d: Image): State
    requires FsOk(d)
  {
    State(Files(d), [], Free(d))
  }

  /** Carry out `ops` on a file system. The outcomes are those of a run on a map of files,
      starting from the files that are there; on a formatted disk there are none. */
  method Run(fs: FileSystem, ops: seq<Op>) returns (outcomes: seq<Outcome>, ghost states: seq<State>)
    requires fs.Valid() && WellBehaved(Start(fs.disk.sectors), ops, 0)
    modifies fs.disk
    ensures fs.Valid()
    ensures IsRun(Start(old(fs.disk.sectors)), ops, outcomes, states)
    ensures states[|ops|].files == Files(fs.disk.sectors) && states[|ops|].free == Free(fs.disk.sectors)
  {
    hide FsOk, Files, AreFiles, Free, Step, Enabled;
    var files: seq<OpenFile> := [];
    ghost var s := Start(fs.disk.sectors);
    outcomes, states := [], [s];
    for i := 0 to |ops|
      invariant Shows(fs, files, s) && WellBehaved(s, ops, i)
      invariant |outcomes| == i && |states| == i + 1 && states[i] == s
      invariant states[0] == Start(old(fs.disk.sectors))
      invariant forall j :: 0 <= j < i ==> Enabled(states[j], ops[j]) && Step(states[j], ops[j], outcomes[j], states[j + 1])
    {
      var out: Outcome;
      ghost var s' := s;
      match ops[i] {
        case Create(_, _) => out, s' := DoCreate(fs, files, ops[i], s);
        case Open(_) => out, files, s' := DoOpen(fs, files, ops[i], s);
        case ReadAt(_, _, _) => out := DoRead(fs, files, ops[i], s);
        case WriteAt(_, _, _) => out, s' := DoWrite(fs, files, ops[i], s);
        case Remove(_) => out, s' := DoRemove(fs, files, ops[i], s);
      }
      assert Step(s, ops[i], out, s');
      s, outcomes, states := s', outcomes + [out], states + [s'];
    }
  }
}
