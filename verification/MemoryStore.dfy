/** The versioned memory store and its write contract (io_iii/memory/store.py, io_iii/memory/write.py). */
module MemoryStore {
  import opened Values

  const VALID_SENSITIVITY := {"standard", "elevated", "restricted"}
  const VALID_PROVENANCE_LITERALS := {"human", "mixed"}

  datatype MemoryRecord = MemoryRecord(
    key: string,
    scope: string,
    value: string,
    version: int,
    provenance: string,
    createdAt: string,
    updatedAt: string,
    sensitivity: string)
  {
    /** The checks of `__post_init__`. */
    predicate WellFormed() {
      && key != "" && scope != ""
      && version >= 1
      && ValidProvenance(provenance)
      && sensitivity in VALID_SENSITIVITY
      && createdAt != "" && updatedAt != ""
    }
  }

  predicate IsSlugChar(c: char) {
    'a' <= c <= 'z' || 'A' <= c <= 'Z' || '0' <= c <= '9' || c == '.' || c == '_' || c == '-'
  }

  predicate IsSlug(s: string) {
    s != "" && forall i | 0 <= i < |s| :: IsSlugChar(s[i])
  }

  /** `_validate_provenance`; the pattern's end also matches in front of one final line feed. */
  predicate ValidProvenance(p: string) {
    || p in VALID_PROVENANCE_LITERALS
    || ("llm:" <= p
        && var slug := p[4..];
           IsSlug(if slug != "" && slug[|slug| - 1] == '\n' then slug[..|slug| - 1] else slug))
  }

  /** The form the error message documents. */
  predicate DocumentedProvenance(p: string) {
    p in VALID_PROVENANCE_LITERALS || ("llm:" <= p && IsSlug(p[4..]))
  }

  /** Exactly one more form is accepted: a slug and one line feed. */
  lemma ProvenanceIff(p: string)
    ensures ValidProvenance(p) <==>
            || DocumentedProvenance(p)
            || ("llm:" <= p && p[|p| - 1] == '\n' && IsSlug(p[4..][..|p| - 5]))
  {
    if "llm:" <= p && p[4..] != "" {
      var slug := p[4..];
      assert slug[|slug| - 1] == p[|p| - 1];
      assert slug[..|slug| - 1] == p[4..][..|p| - 5];
    }
  }

  lemma LineFeedIsAccepted()
    ensures ValidProvenance("llm:a\n") && !DocumentedProvenance("llm:a\n")
  {
    var slug := "llm:a\n"[4..];
    assert slug == "a\n" && slug[..1] == "a" && slug[1] == '\n';
  }

  // ---- Where records are stored ---------------------------------------------------------

  /** The parts of an absolute path, ".." included. */
  type Path = seq<string>

  predicate SlashFree(s: string) {
    '/' !in s
  }

  function FirstSlash(s: string): (i: nat)
    ensures i <= |s|
    ensures i < |s| ==> s[i] == '/'
    ensures forall j | 0 <= j < i :: s[j] != '/'
  {
    if s == "" || s[0] == '/' then 0 else 1 + FirstSlash(s[1..])
  }

  /** The parts of a path, without empty ones and without dots. */
  function Parts(s: string): seq<string>
    decreases |s|
  {
    var i := FirstSlash(s);
    var head := if s[..i] == "" || s[..i] == "." then [] else [s[..i]];
    if i == |s| then head else head + Parts(s[i + 1..])
  }

  /** `base / s`: an absolute second part replaces the base. */
  function Join(base: Path, s: string): Path {
    if s != "" && s[0] == '/' then Parts(s) else base + Parts(s)
  }

  /** `_record_path`. */
  function RecordPath(root: Path, scope: string, key: string): Path {
    Join(Join(root, scope), key + ".json")
  }

  /** The place a path leads to: ".." undoes the part in front of it, and does nothing at the top. */
  function Resolve(path: Path): Path {
    if path == [] then []
    else
      var up, last := Resolve(path[..|path| - 1]), path[|path| - 1];
      if last != ".." then up + [last] else if up == [] then [] else up[..|up| - 1]
  }

  /** The file a scope and a key lead to. */
  function FileOf(root: Path, scope: string, key: string): Path {
    Resolve(RecordPath(root, scope, key))
  }

  /** The directories a path passes, the first n of them. */
  function Passed(path: Path, n: nat): set<Path> {
    set i | 0 < i < |path| && i <= n :: Resolve(path[..i])
  }

  /** The file system follows a path only through directories that are there, in front of a ".." too. */
  predicate Walkable(dirs: set<Path>, path: Path) {
    Passed(path, |path|) <= dirs
  }

  lemma SlashFreeParts(s: string)
    requires SlashFree(s)
    ensures Parts(s) == if s == "" || s == "." then [] else [s]
    ensures s == "" || s[0] != '/'
  {
    assert FirstSlash(s) == |s|;
    assert s[..|s|] == s;
  }

  lemma ResolveOne(path: Path, part: string)
    ensures var up := Resolve(path);
            Resolve(path + [part]) == if part != ".." then up + [part] else if up == [] then [] else up[..|up| - 1]
  {
    assert (path + [part])[..|path|] == path;
  }

  /** The directory of a scope without slashes, below the place the root leads to. */
  function ScopeDir(root: Path, scope: string): Path {
    if scope == "." then Resolve(root)
    else if scope != ".." then Resolve(root) + [scope]
    else if Resolve(root) == [] then []
    else Resolve(root)[..|Resolve(root)| - 1]
  }

  lemma SlashFreeFile(root: Path, scope: string, key: string)
    requires SlashFree(scope) && SlashFree(key) && scope != ""
    ensures FileOf(root, scope, key) == ScopeDir(root, scope) + [key + ".json"]
  {
    hide Resolve, Parts, SlashFree;
    var file := key + ".json";
    assert file != ".." && file != "." by {
      assert file[|file| - 1] == 'n';
    }
    assert SlashFree(file) by {
      NoSlashInFile(key);
    }
    SlashFreeParts(scope);
    SlashFreeParts(file);
    assert root + [] == root;
    ResolveOne(root, scope);
    ResolveOne(root, file);
    ResolveOne(root + [scope], file);
  }

  lemma NoSlashInFile(key: string)
    requires SlashFree(key)
    ensures SlashFree(key + ".json")
  {
  }

  /** Slash-free scopes and keys lead to one file only if both are equal, unless the storage root is
      the top of the file system, where "." and ".." are the same. */
  lemma SlashFreeFilesDiffer(root: Path, scope: string, key: string, scope': string, key': string)
    requires SlashFree(scope) && SlashFree(key) && SlashFree(scope') && SlashFree(key')
    requires scope != "" && scope' != ""
    ensures FileOf(root, scope, key) == FileOf(root, scope', key') <==>
            key == key' && (scope == scope' || (Resolve(root) == [] && {scope, scope'} == {".", ".."}))
  {
    hide FileOf, Resolve, SlashFree;
    SlashFreeFile(root, scope, key);
    SlashFreeFile(root, scope', key');
    assert (key + ".json")[..|key|] == key && (key' + ".json")[..|key'|] == key';
    var d, d' := ScopeDir(root, scope), ScopeDir(root, scope');
    assert (d + [key + ".json"])[..|d|] == d && (d' + [key' + ".json"])[..|d'|] == d';
    ScopeDirsDiffer(root, scope, scope');
    assert d + [key + ".json"] == d' + [key' + ".json"] ==> (d + [key + ".json"])[|d|] == (d' + [key' + ".json"])[|d'|];
  }

  lemma ScopeDirsDiffer(root: Path, scope: string, scope': string)
    ensures ScopeDir(root, scope) == ScopeDir(root, scope') <==>
            scope == scope' || (Resolve(root) == [] && {scope, scope'} == {".", ".."})
  {
    hide Resolve;
    var r := Resolve(root);
    assert (r + [scope])[|r|] == scope && (r + [scope'])[|r|] == scope';
    assert {scope, scope'} == {".", ".."} <==> (scope == "." && scope' == "..") || (scope == ".." && scope' == ".") by {
      assert scope in {scope, scope'} && scope' in {scope, scope'};
      assert "." in {".", ".."} && ".." in {".", ".."};
    }
  }

  lemma PartsOfPair(a: string, b: string)
    requires SlashFree(a)
    ensures Parts(a + "/" + b) == Parts(a) + Parts(b)
  {
    var s := a + "/" + b;
    SlashFreeParts(a);
    assert s[|a|] == '/' && forall j | 0 <= j < |a| :: s[j] == a[j];
    assert FirstSlash(s) == |a|;
    assert s[..|a|] == a && s[|a| + 1..] == b;
  }

  /** A slash that moves from the key to the scope leads to the same file. */
  lemma SlashesCollide(root: Path, a: string, b: string, c: string)
    requires SlashFree(a) && SlashFree(b) && a != "" && b != "" && (c == "" || c[0] != '/')
    ensures RecordPath(root, a, b + "/" + c) == RecordPath(root, a + "/" + b, c)
  {
    hide Parts;
    var file := c + ".json";
    assert b + "/" + c + ".json" == b + "/" + file;
    assert file[0] != '/' && (b + "/" + file)[0] == b[0] && a[0] != '/' && b[0] != '/';
    PartsOfPair(b, file);
    PartsOfPair(a, b);
    assert root + Parts(a) + (Parts(b) + Parts(file)) == root + (Parts(a) + Parts(b)) + Parts(file);
  }

  // ---- The store ------------------------------------------------------------------------------

  /** A stored file: a record, or text that does not deserialise into one. */
  datatype Stored = Record(record: MemoryRecord) | Corrupt

  /** The record files and the directories that are there. */
  datatype Disk = Disk(files: map<Path, Stored>, dirs: set<Path>)

  /** What the file system lets one call do: read everything, not read the contents of a file that
      is there, or not even see whether it is there. */
  datatype Access = Readable | Unreadable | Hidden

  /** The record, its absence, or the exception the reader raises. */
  datatype Lookup = Absent | Found(record: MemoryRecord) | Failed

  /** `get`: a path that cannot be walked leads to no file, whatever is at the place it names. */
  function Get(disk: Disk, access: Access, path: Path): Lookup {
    if access.Hidden? then Failed
    else if !Walkable(disk.dirs, path) || Resolve(path) !in disk.files then Absent
    else if access.Unreadable? then Failed
    else match disk.files[Resolve(path)]
      case Corrupt => Failed
      case Record(r) => if r.WellFormed() then Found(r) else Failed
  }

  /** How the user answers: `confirm_fn` may raise as well. */
  datatype Answer = Granted | Denied | Interrupted

  /** One call of `memory_write`: its arguments, the answer to the confirmation, the time, and what
      the file system allows. A record is not writable for any of its reasons, from permissions to a
      file where a directory is needed; the call has then made `made` of the directories on its path. */
  datatype Write = Write(
    scope: string,
    key: string,
    value: string,
    provenance: string,
    sensitivity: string,
    answer: Answer,
    now: string,
    access: Access,
    writable: bool,
    made: nat)

  /** Stored under an identifier, refused with MEMORY_WRITE_FAILED, or ended by an exception of the
      confirmation or the reader, which carries no such prefix. */
  datatype Outcome = Written(identifier: string) | WriteFailed | ConfirmationRaised | ReadRaised

  function NewRecord(w: Write, existing: Lookup): MemoryRecord {
    MemoryRecord(
      w.key, w.scope, w.value,
      if existing.Found? then existing.record.version + 1 else 1,
      w.provenance,
      if existing.Found? then existing.record.createdAt else w.now,
      w.now, w.sensitivity)
  }

  /** The arguments pass the checks in front of the confirmation. */
  predicate ArgumentsAccepted(w: Write) {
    w.scope != "" && w.key != "" && w.sensitivity in VALID_SENSITIVITY
  }

  /** The call passes every check that does not depend on the store. */
  predicate Admitted(w: Write) {
    ArgumentsAccepted(w) && w.answer.Granted? && ValidProvenance(w.provenance) && w.now != "" && w.writable
  }

  function PathOf(root: Path, w: Write): Path {
    RecordPath(root, w.scope, w.key)
  }

  class Store {
    const root: Path
    var disk: Disk

    constructor (root: Path, disk: Disk)
      ensures this.root == root && this.disk == disk
    {
      this.root := root;
      this.disk := disk;
    }

    /** `put`: the directories on the path are made, then the record's file is replaced as a whole. */
    method Put(r: MemoryRecord, writable: bool, made: nat) returns (ok: bool)
      modifies this
      ensures ok == writable
      ensures disk == Putting(old(disk), RecordPath(root, r.scope, r.key), r, writable, made)
    {
      var path := RecordPath(root, r.scope, r.key);
      ok := writable;
      if ok {
        disk := Disk(disk.files[Resolve(path) := Record(r)], disk.dirs + Passed(path, |path|));
      } else {
        disk := disk.(dirs := disk.dirs + Passed(path, made));
      }
    }

    /** `list_by_keys`: the records there are, in the order of the keys; None when reading one raises. */
    method ListByKeys(scope: string, keys: seq<string>, access: Access) returns (records: Option<seq<MemoryRecord>>)
      ensures records.None? <==>
              exists i :: 0 <= i < |keys| && Get(disk, access, RecordPath(root, scope, keys[i])).Failed?
      ensures records.Some? ==> records.value == RecordsFor(root, disk, access, scope, keys)
    {
      hide Get, RecordPath;
      var result := [];
      for i := 0 to |keys|
        invariant forall j | 0 <= j < i :: !Get(disk, access, RecordPath(root, scope, keys[j])).Failed?
        invariant result == RecordsFor(root, disk, access, scope, keys[..i])
      {
        assert keys[..i + 1][..i] == keys[..i];
        match Get(disk, access, RecordPath(root, scope, keys[i])) {
          case Absent =>
          case Found(r) => result := result + [r];
          case Failed => return None;
        }
      }
      assert keys[..|keys|] == keys;
      records := Some(result);
    }

    /** `memory_write`. */
    method MemoryWrite(w: Write) returns (outcome: Outcome)
      modifies this
      ensures (outcome, disk) == WriteSpec(root, old(disk), w)
    {
      hide RecordPath, Get, Putting, ValidProvenance;
      if w.scope == "" || w.key == "" || w.sensitivity !in VALID_SENSITIVITY {
        return WriteFailed;
      }
      if w.answer.Interrupted? {
        return ConfirmationRaised;
      }
      if w.answer.Denied? {
        return WriteFailed;
      }
      var existing := Get(disk, w.access, RecordPath(root, w.scope, w.key));
      if existing.Failed? {
        return ReadRaised;
      }
      var version, createdAt := 1, w.now;
      if existing.Found? {
        version, createdAt := existing.record.version + 1, existing.record.createdAt;
      }
      var record := MemoryRecord(w.key, w.scope, w.value, version, w.provenance, createdAt, w.now, w.sensitivity);
      if !record.WellFormed() {
        return WriteFailed;
      }
      var ok := Put(record, w.writable, w.made);
      outcome := if ok then Written(w.scope + "/" + w.key) else WriteFailed;
    }
  }

  function Putting(disk: Disk, path: Path, r: MemoryRecord, writable: bool, made: nat): Disk {
    if writable then Disk(disk.files[Resolve(path) := Record(r)], disk.dirs + Passed(path, |path|))
    else disk.(dirs := disk.dirs + Passed(path, made))
  }

  function RecordsFor(root: Path, disk: Disk, access: Access, scope: string, keys: seq<string>): seq<MemoryRecord> {
    if keys == [] then []
    else
      var last := Get(disk, access, RecordPath(root, scope, keys[|keys| - 1]));
      RecordsFor(root, disk, access, scope, keys[..|keys| - 1]) + if last.Found? then [last.record] else []
  }

  /** How many of the first keys have a record. */
  function FoundBefore(root: Path, disk: Disk, access: Access, scope: string, keys: seq<string>, i: nat): nat
    requires i <= |keys|
  {
    if i == 0 then 0
    else
      FoundBefore(root, disk, access, scope, keys, i - 1)
      + if Get(disk, access, RecordPath(root, scope, keys[i - 1])).Found? then 1 else 0
  }

  /** The records stand in the order of their keys: the record of key i comes after those found in front of
      it, and there are no others. */
  lemma {:induction false} RecordsKeepTheOrder(root: Path, disk: Disk, access: Access, scope: string, keys: seq<string>,
                                               i: nat)
    requires i <= |keys|
    ensures var records := RecordsFor(root, disk, access, scope, keys);
            && |records| == FoundBefore(root, disk, access, scope, keys, |keys|)
            && FoundBefore(root, disk, access, scope, keys, i) <= |records|
            && (i < |keys| && Get(disk, access, RecordPath(root, scope, keys[i])).Found? ==>
                  && FoundBefore(root, disk, access, scope, keys, i) < |records|
                  && records[FoundBefore(root, disk, access, scope, keys, i)] ==
                       Get(disk, access, RecordPath(root, scope, keys[i])).record)
    decreases |keys|
  {
    hide Get, RecordPath;
    if keys != [] {
      var n := |keys| - 1;
      FoundInFront(root, disk, access, scope, keys, n, n);
      if i <= n {
        RecordsKeepTheOrder(root, disk, access, scope, keys[..n], i);
        FoundInFront(root, disk, access, scope, keys, n, i);
      } else {
        RecordsKeepTheOrder(root, disk, access, scope, keys[..n], n);
      }
    }
  }

  lemma {:induction false} FoundInFront(root: Path, disk: Disk, access: Access, scope: string, keys: seq<string>,
                                        n: nat, i: nat)
    requires i <= n <= |keys|
    ensures FoundBefore(root, disk, access, scope, keys[..n], i) == FoundBefore(root, disk, access, scope, keys, i)
    decreases i
  {
    hide Get, RecordPath;
    if i > 0 {
      FoundInFront(root, disk, access, scope, keys, n, i - 1);
    }
  }

  function WriteSpec(root: Path, disk: Disk, w: Write): (Outcome, Disk) {
    var existing := Get(disk, w.access, PathOf(root, w));
    if !ArgumentsAccepted(w) || w.answer.Denied? then (WriteFailed, disk)
    else if w.answer.Interrupted? then (ConfirmationRaised, disk)
    else if existing.Failed? then (ReadRaised, disk)
    else if !NewRecord(w, existing).WellFormed() then (WriteFailed, disk)
    else
      (if w.writable then Written(w.scope + "/" + w.key) else WriteFailed,
       Putting(disk, PathOf(root, w), NewRecord(w, existing), w.writable, w.made))
  }

  // ---- One write --------------------------------------------------------------------------------

  /** Every outcome, from any store: a write is stored exactly if its arguments are valid, the user grants
      it, the file system allows it and the record it replaces can be read, and anything else leaves all
      files as they were. */
  lemma WriteSucceedsIff(root: Path, disk: Disk, w: Write)
    ensures var (outcome, after) := WriteSpec(root, disk, w);
            && (outcome.Written? <==>
                  && w.scope != "" && w.key != "" && w.now != ""
                  && w.sensitivity in {"standard", "elevated", "restricted"}
                  && ValidProvenance(w.provenance)
                  && w.answer == Granted && w.writable
                  && !Get(disk, w.access, PathOf(root, w)).Failed?)
            && (outcome.Written? ==> outcome.identifier == w.scope + "/" + w.key)
            && (!outcome.Written? ==> after.files == disk.files)
  {
    hide PathOf, ValidProvenance, Get, Passed;
    GetIsWellFormed(disk, w.access, PathOf(root, w));
  }

  /** The records that can be read back. */
  predicate Deserialises(r: MemoryRecord) {
    && "" !in {r.key, r.scope, r.createdAt, r.updatedAt} && r.version > 0
    && ValidProvenance(r.provenance) && r.sensitivity in {"standard", "elevated", "restricted"}
  }

  /** What a lookup finds: nothing where the path leads to no file, the record of a readable file, and an
      exception otherwise. */
  lemma GetFinds(disk: Disk, access: Access, path: Path)
    ensures var l, there := Get(disk, access, path), Walkable(disk.dirs, path) && Resolve(path) in disk.files;
            && (l.Absent? <==> !access.Hidden? && !there)
            && (l.Found? <==>
                  && access.Readable? && there
                  && disk.files[Resolve(path)].Record? && Deserialises(disk.files[Resolve(path)].record))
            && (l.Found? ==> disk.files[Resolve(path)] == Record(l.record))
  {
    hide Walkable, Resolve, ValidProvenance;
  }

  lemma GetIsWellFormed(disk: Disk, access: Access, path: Path)
    ensures var l := Get(disk, access, path); l.Found? ==> l.record.WellFormed()
  {
  }

  /** The contract says that every failure carries MEMORY_WRITE_FAILED. It does, unless the arguments
      are accepted and either the confirmation raises or, once it is granted, the existing record
      cannot be read: those two calls stand outside the handler that adds the prefix. */
  lemma FailuresCarryThePrefixIff(root: Path, disk: Disk, w: Write)
    ensures var outcome := WriteSpec(root, disk, w).0;
            outcome.Written? || outcome.WriteFailed? <==>
            !(ArgumentsAccepted(w)
              && (w.answer.Interrupted? || (w.answer.Granted? && Get(disk, w.access, PathOf(root, w)).Failed?)))
  {
    hide Get, NewRecord, PathOf, Putting;
  }

  /** Three writes that fail without the prefix. */
  lemma FailuresWithoutThePrefix(root: Path)
    ensures var w := Write("s", "k", "v", "human", "standard", Granted, "t", Readable, true, 0);
            var stored := MemoryRecord("k", "s", "v", 1, "human", "t", "t", "standard");
            var file, dirs := FileOf(root, "s", "k"), Passed(PathOf(root, w), |PathOf(root, w)|);
            && WriteSpec(root, Disk(map[file := Corrupt], dirs), w).0 == ReadRaised
            && WriteSpec(root, Disk(map[file := Record(stored)], dirs), w.(access := Access.Unreadable)).0 == ReadRaised
            && WriteSpec(root, Disk(map[], {}), w.(answer := Interrupted)).0 == ConfirmationRaised
  {
    hide RecordPath, Passed, Resolve;
  }

  /** A write that succeeds changes the file its path leads to, and no other; writes only add directories. */
  lemma WriteIsLocal(root: Path, disk: Disk, w: Write, file: Path)
    ensures var (outcome, after) := WriteSpec(root, disk, w);
            && disk.dirs <= after.dirs <= disk.dirs + Passed(PathOf(root, w), |PathOf(root, w)|)
            && (outcome.Written? ==> Walkable(after.dirs, PathOf(root, w)))
            && if outcome.Written? && file == Resolve(PathOf(root, w))
               then
                 && file in after.files
                 && after.files[file] == Record(NewRecord(w, Get(disk, w.access, PathOf(root, w))))
               else
                 && (file in after.files <==> file in disk.files)
                 && (file in disk.files ==> after.files[file] == disk.files[file])
  {
    hide PathOf, Get, NewRecord, Resolve;
  }

  // ---- Any sequence of writes -------------------------------------------------------------------

  /** The store after some writes, from one that holds no record yet and has these directories. */
  function DiskAfter(root: Path, dirs: set<Path>, writes: seq<Write>): Disk {
    if writes == [] then Disk(map[], dirs)
    else WriteSpec(root, DiskAfter(root, dirs, writes[..|writes| - 1]), writes[|writes| - 1]).1
  }

  /** The writes that were stored, in order. */
  function Successes(root: Path, dirs: set<Path>, writes: seq<Write>): seq<Write> {
    if writes == [] then []
    else
      var before, w := writes[..|writes| - 1], writes[|writes| - 1];
      Successes(root, dirs, before) + if WriteSpec(root, DiskAfter(root, dirs, before), w).0.Written? then [w] else []
  }

  predicate IsFor(w: Write, scope: string, key: string) {
    w.scope == scope && w.key == key
  }

  function ToKey(ws: seq<Write>, scope: string, key: string): seq<Write> {
    if ws == [] then []
    else
      var w := ws[|ws| - 1];
      ToKey(ws[..|ws| - 1], scope, key) + if IsFor(w, scope, key) then [w] else []
  }

  function ToFile(root: Path, ws: seq<Write>, file: Path): seq<Write> {
    if ws == [] then []
    else
      var w := ws[|ws| - 1];
      ToFile(root, ws[..|ws| - 1], file) + if Resolve(PathOf(root, w)) == file then [w] else []
  }

  /** What writes to one key should leave: nothing if there were none, and otherwise the last value
      under the number of writes, created when the first was made. */
  function Latest(ws: seq<Write>): Lookup {
    if ws == [] then Absent
    else
      var last := ws[|ws| - 1];
      Found(MemoryRecord(last.key, last.scope, last.value, |ws|, last.provenance, ws[0].now, last.now,
                         last.sensitivity))
  }

  /** The key's path can be walked to a file that a write to another scope or key was the last to store. */
  predicate IntrudedOn(disk: Disk, path: Path, scope: string, key: string, stored: seq<Write>) {
    Walkable(disk.dirs, path) && stored != [] && !IsFor(stored[|stored| - 1], scope, key)
  }

  /** What is known of one key's path: the writes stored at its file and those of the key itself. */
  ghost predicate Tracks(disk: Disk, path: Path, scope: string, key: string, own: seq<Write>, stored: seq<Write>) {
    && (Resolve(path) in disk.files <==> stored != [])
    && (stored != [] ==>
          var last := stored[|stored| - 1];
          && disk.files[Resolve(path)].Record?
          && disk.files[Resolve(path)].record.WellFormed()
          && disk.files[Resolve(path)].record.scope == last.scope && disk.files[Resolve(path)].record.key == last.key)
    && (stored != [] && IsFor(stored[|stored| - 1], scope, key) ==> own != [])
    && (own != [] ==> stored != [] && IsFor(own[|own| - 1], scope, key) && Walkable(disk.dirs, path))
  }

  lemma StepTracks(root: Path, disk: Disk, w: Write, scope: string, key: string, own: seq<Write>, stored: seq<Write>)
    requires Tracks(disk, RecordPath(root, scope, key), scope, key, own, stored)
    ensures var (outcome, after) := WriteSpec(root, disk, w);
            var path := RecordPath(root, scope, key);
            Tracks(after, path, scope, key,
                   own + (if outcome.Written? && IsFor(w, scope, key) then [w] else []),
                   stored + (if outcome.Written? && Resolve(PathOf(root, w)) == Resolve(path) then [w] else []))
  {
    hide RecordPath, Resolve, Passed, Get, ValidProvenance;
    WriteIsLocal(root, disk, w, Resolve(RecordPath(root, scope, key)));
    assert own + [] == own && stored + [] == stored;
  }

  /** From a state in which the key's record is what its own writes left, one write leaves such a state
      exactly if nothing intrudes on the key afterwards. */
  lemma StepKeepsOwnIff(root: Path, disk: Disk, w: Write, scope: string, key: string, own: seq<Write>,
                        stored: seq<Write>)
    requires var path := RecordPath(root, scope, key);
             && Tracks(disk, path, scope, key, own, stored)
             && Get(disk, Readable, path) == Latest(own) && !IntrudedOn(disk, path, scope, key, stored)
    ensures var (outcome, after) := WriteSpec(root, disk, w);
            var path := RecordPath(root, scope, key);
            var own' := own + (if outcome.Written? && IsFor(w, scope, key) then [w] else []);
            var stored' := stored + (if outcome.Written? && Resolve(PathOf(root, w)) == Resolve(path) then [w] else []);
            Get(after, Readable, path) == Latest(own') <==> !IntrudedOn(after, path, scope, key, stored')
  {
    hide RecordPath, Resolve, Passed, ValidProvenance;
    var path := RecordPath(root, scope, key);
    StepTracks(root, disk, w, scope, key, own, stored);
    WriteIsLocal(root, disk, w, Resolve(path));
    assert own + [] == own && stored + [] == stored;
    if WriteSpec(root, disk, w).0.Written? && IsFor(w, scope, key) {
      WriteSucceedsIff(root, disk, w);
      assert Get(disk, w.access, path) == Get(disk, Readable, path);
      assert own != [] ==> (own + [w])[0] == own[0];
      assert Latest(own + [w]) == Found(NewRecord(w, Latest(own)));
    }
  }

  lemma {:induction false} RunTracks(root: Path, dirs: set<Path>, writes: seq<Write>, scope: string, key: string)
    ensures var path, stored := RecordPath(root, scope, key), Successes(root, dirs, writes);
            Tracks(DiskAfter(root, dirs, writes), path, scope, key, ToKey(stored, scope, key),
                   ToFile(root, stored, Resolve(path)))
    decreases |writes|
  {
    hide RecordPath, Resolve, WriteSpec, Tracks, IsFor, DiskAfter, Successes, ToKey, ToFile;
    var path := RecordPath(root, scope, key);
    if writes == [] {
      NothingSucceeded(root, dirs, scope, key);
      NothingTracks(root, dirs, scope, key);
    } else {
      var before, w := writes[..|writes| - 1], writes[|writes| - 1];
      RunTracks(root, dirs, before, scope, key);
      var s := Successes(root, dirs, before);
      StepTracks(root, DiskAfter(root, dirs, before), w, scope, key, ToKey(s, scope, key),
                 ToFile(root, s, Resolve(path)));
      OneMoreSuccess(root, dirs, before, w, scope, key);
      assert writes == before + [w];
    }
  }

  lemma NothingTracks(root: Path, dirs: set<Path>, scope: string, key: string)
    ensures Tracks(Disk(map[], dirs), RecordPath(root, scope, key), scope, key, [], [])
    ensures ToFile(root, [], FileOf(root, scope, key)) == []
  {
  }

  lemma NothingSucceeded(root: Path, dirs: set<Path>, scope: string, key: string)
    ensures DiskAfter(root, dirs, []) == Disk(map[], dirs) && Successes(root, dirs, []) == []
    ensures ToKey([], scope, key) == []
  {
  }

  lemma OneMoreSuccess(root: Path, dirs: set<Path>, before: seq<Write>, w: Write, scope: string, key: string)
    ensures var outcome := WriteSpec(root, DiskAfter(root, dirs, before), w).0;
            var s, after := Successes(root, dirs, before), Successes(root, dirs, before + [w]);
            var file := FileOf(root, scope, key);
            && DiskAfter(root, dirs, before + [w]) == WriteSpec(root, DiskAfter(root, dirs, before), w).1
            && after == s + (if outcome.Written? then [w] else [])
            && ToKey(after, scope, key) ==
                 ToKey(s, scope, key) + (if outcome.Written? && IsFor(w, scope, key) then [w] else [])
            && ToFile(root, after, file) ==
                 ToFile(root, s, file) + (if outcome.Written? && Resolve(PathOf(root, w)) == file then [w] else [])
  {
    hide WriteSpec, PathOf, FileOf, IsFor, Resolve;
    assert (before + [w])[..|before|] == before;
    var s := Successes(root, dirs, before);
    assert (s + [w])[..|s|] == s && s + [] == s;
    var own, stored := ToKey(s, scope, key), ToFile(root, s, FileOf(root, scope, key));
    assert own + [] == own && stored + [] == stored;
  }

  /** What the key holds is what its own stored writes leave. */
  ghost predicate IsOwn(root: Path, dirs: set<Path>, writes: seq<Write>, scope: string, key: string) {
    Get(DiskAfter(root, dirs, writes), Readable, RecordPath(root, scope, key)) ==
    Latest(ToKey(Successes(root, dirs, writes), scope, key))
  }

  ghost predicate Intruded(root: Path, dirs: set<Path>, writes: seq<Write>, scope: string, key: string) {
    IntrudedOn(DiskAfter(root, dirs, writes), RecordPath(root, scope, key), scope, key,
               ToFile(root, Successes(root, dirs, writes), FileOf(root, scope, key)))
  }

  /** The same in every state a sequence of writes goes through. */
  ghost predicate AlwaysOwn(root: Path, dirs: set<Path>, writes: seq<Write>, scope: string, key: string)
    decreases |writes|
  {
    && IsOwn(root, dirs, writes, scope, key)
    && (writes != [] ==> AlwaysOwn(root, dirs, writes[..|writes| - 1], scope, key))
  }

  ghost predicate NeverIntruded(root: Path, dirs: set<Path>, writes: seq<Write>, scope: string, key: string)
    decreases |writes|
  {
    && !Intruded(root, dirs, writes, scope, key)
    && (writes != [] ==> NeverIntruded(root, dirs, writes[..|writes| - 1], scope, key))
  }

  lemma NothingStored(root: Path, dirs: set<Path>, scope: string, key: string)
    ensures IsOwn(root, dirs, [], scope, key) && !Intruded(root, dirs, [], scope, key)
  {
    hide RecordPath, FileOf, Resolve, Passed;
  }

  lemma OneMoreWrite(root: Path, dirs: set<Path>, before: seq<Write>, w: Write, scope: string, key: string)
    requires IsOwn(root, dirs, before, scope, key) && !Intruded(root, dirs, before, scope, key)
    ensures IsOwn(root, dirs, before + [w], scope, key) <==> !Intruded(root, dirs, before + [w], scope, key)
  {
    hide RecordPath, Resolve, WriteSpec, Tracks, IsFor, IntrudedOn, Get, Latest, ToKey, ToFile;
    RunTracks(root, dirs, before, scope, key);
    OneMoreSuccess(root, dirs, before, w, scope, key);
    var s := Successes(root, dirs, before);
    StepKeepsOwnIff(root, DiskAfter(root, dirs, before), w, scope, key, ToKey(s, scope, key),
                    ToFile(root, s, FileOf(root, scope, key)));
  }

  /** Over any sequence of writes, one key's record is in every state exactly what the stored writes to
      that key leave (versions count them, the creation time is the first one's, other writes change
      nothing) if and only if in no state the key's path can be walked to a file that a write to
      another scope or key was the last to store. */
  lemma {:induction false} AlwaysOwnIff(root: Path, dirs: set<Path>, writes: seq<Write>, scope: string, key: string)
    ensures AlwaysOwn(root, dirs, writes, scope, key) <==> NeverIntruded(root, dirs, writes, scope, key)
    decreases |writes|
  {
    hide IsOwn, Intruded;
    if writes == [] {
      NothingStored(root, dirs, scope, key);
    } else {
      var before, w := writes[..|writes| - 1], writes[|writes| - 1];
      AlwaysOwnIff(root, dirs, before, scope, key);
      assert AlwaysOwn(root, dirs, before, scope, key) ==> IsOwn(root, dirs, before, scope, key);
      assert NeverIntruded(root, dirs, before, scope, key) ==> !Intruded(root, dirs, before, scope, key);
      assert writes == before + [w];
      if AlwaysOwn(root, dirs, before, scope, key) {
        OneMoreWrite(root, dirs, before, w, scope, key);
      }
    }
  }

  // ---- Shared files -------------------------------------------------------------------------------

  /** A stored write to another scope or key led to this key's file. */
  ghost predicate FileIsShared(root: Path, ws: seq<Write>, scope: string, key: string) {
    exists i :: 0 <= i < |ws| && LeadsToAnothers(root, ws[i], scope, key)
  }

  predicate LeadsToAnothers(root: Path, w: Write, scope: string, key: string) {
    !IsFor(w, scope, key) && Resolve(PathOf(root, w)) == FileOf(root, scope, key)
  }

  lemma SharedByOneMore(root: Path, ws: seq<Write>, w: Write, scope: string, key: string)
    ensures FileIsShared(root, ws + [w], scope, key) <==>
            FileIsShared(root, ws, scope, key) || LeadsToAnothers(root, w, scope, key)
  {
    hide LeadsToAnothers;
    assert forall i | 0 <= i < |ws| :: (ws + [w])[i] == ws[i];
    assert (ws + [w])[|ws|] == w;
  }

  lemma {:induction false} UnsharedStoresOwn(root: Path, ws: seq<Write>, scope: string, key: string)
    requires !FileIsShared(root, ws, scope, key)
    ensures ToFile(root, ws, FileOf(root, scope, key)) == ToKey(ws, scope, key)
    ensures var own := ToKey(ws, scope, key); own != [] ==> IsFor(own[|own| - 1], scope, key)
    decreases |ws|
  {
    if ws != [] {
      hide FileOf, Resolve, FileIsShared;
      var before, w := ws[..|ws| - 1], ws[|ws| - 1];
      assert ws == before + [w];
      SharedByOneMore(root, before, w, scope, key);
      UnsharedStoresOwn(root, before, scope, key);
      SameFile(root, w, scope, key);
    }
  }

  lemma SameFile(root: Path, w: Write, scope: string, key: string)
    ensures IsFor(w, scope, key) ==> Resolve(PathOf(root, w)) == FileOf(root, scope, key)
  {
  }

  lemma {:induction false} UnsharedIsNeverIntruded(root: Path, dirs: set<Path>, writes: seq<Write>, scope: string,
                                                   key: string)
    requires !FileIsShared(root, Successes(root, dirs, writes), scope, key)
    ensures NeverIntruded(root, dirs, writes, scope, key)
    decreases |writes|
  {
    hide FileOf, Resolve, FileIsShared, RecordPath, WriteSpec, ToKey, ToFile, IsFor, DiskAfter, Passed, Successes;
    UnsharedStoresOwn(root, Successes(root, dirs, writes), scope, key);
    if writes != [] {
      var before, w := writes[..|writes| - 1], writes[|writes| - 1];
      assert writes == before + [w];
      OneMoreSuccess(root, dirs, before, w, scope, key);
      SharedByOneMore(root, Successes(root, dirs, before), w, scope, key);
      var s := Successes(root, dirs, before);
      assert s + [] == s;
      UnsharedIsNeverIntruded(root, dirs, before, scope, key);
    }
  }

  /** Every directory above a place is passed on any path that leads there. */
  lemma {:induction false} AbovePassed(path: Path, j: nat)
    requires 0 < j < |Resolve(path)|
    ensures Resolve(path)[..j] in Passed(path, |path|)
    decreases |path|
  {
    var n := |path| - 1;
    var front := path[..n];
    var up := Resolve(front);
    if j < |up| {
      AbovePassed(front, j);
      var i :| 0 < i < n && up[..j] == Resolve(front[..i]);
      assert front[..i] == path[..i] && Resolve(path)[..j] == up[..j];
      assert Resolve(path[..i]) in Passed(path, |path|);
    } else {
      assert Resolve(path)[..j] == up == Resolve(path[..n]);
      assert Resolve(path[..n]) in Passed(path, |path|);
    }
  }

  lemma {:induction false} PlainResolves(path: Path)
    requires ".." !in path
    ensures Resolve(path) == path
    decreases |path|
  {
    if path != [] {
      PlainResolves(path[..|path| - 1]);
      assert path == path[..|path| - 1] + [path[|path| - 1]];
    }
  }

  /** A path without ".." can be walked as soon as any path to the same place can. */
  lemma PlainIsWalkable(dirs: set<Path>, path: Path, other: Path)
    requires ".." !in path && Resolve(other) == Resolve(path) && Walkable(dirs, other)
    ensures Walkable(dirs, path)
  {
    PlainResolves(path);
    forall i | 0 < i < |path|
      ensures Resolve(path[..i]) in dirs
    {
      PlainResolves(path[..i]);
      AbovePassed(other, i);
    }
  }

  lemma {:induction false} SharedIsIntruded(root: Path, dirs: set<Path>, writes: seq<Write>, scope: string, key: string)
    requires ".." !in RecordPath(root, scope, key) && FileIsShared(root, Successes(root, dirs, writes), scope, key)
    ensures !NeverIntruded(root, dirs, writes, scope, key)
    decreases |writes|
  {
    hide FileIsShared, RecordPath, Resolve, WriteSpec, ToKey, ToFile, IsFor, DiskAfter, Walkable, Successes;
    if writes == [] {
      NothingIsShared(root, dirs, scope, key);
    } else {
      var before, w := writes[..|writes| - 1], writes[|writes| - 1];
      assert writes == before + [w];
      var s := Successes(root, dirs, before);
      OneMoreSuccess(root, dirs, before, w, scope, key);
      SharedByOneMore(root, s, w, scope, key);
      assert s + [] == s;
      if FileIsShared(root, s, scope, key) {
        SharedIsIntruded(root, dirs, before, scope, key);
      } else {
        WriteIsLocal(root, DiskAfter(root, dirs, before), w, FileOf(root, scope, key));
        PlainIsWalkable(DiskAfter(root, dirs, writes).dirs, RecordPath(root, scope, key), PathOf(root, w));
        assert Intruded(root, dirs, writes, scope, key);
      }
    }
  }

  lemma NothingIsShared(root: Path, dirs: set<Path>, scope: string, key: string)
    ensures !FileIsShared(root, Successes(root, dirs, []), scope, key)
  {
  }

  /** For a key whose path holds no "..": its record is always what its own stored writes leave if and
      only if no stored write to another scope or key leads to its file. */
  lemma PlainKeyIsOwnIff(root: Path, dirs: set<Path>, writes: seq<Write>, scope: string, key: string)
    requires ".." !in RecordPath(root, scope, key)
    ensures AlwaysOwn(root, dirs, writes, scope, key) <==>
            !FileIsShared(root, Successes(root, dirs, writes), scope, key)
  {
    hide AlwaysOwn, NeverIntruded, FileIsShared, Successes, RecordPath;
    AlwaysOwnIff(root, dirs, writes, scope, key);
    if FileIsShared(root, Successes(root, dirs, writes), scope, key) {
      SharedIsIntruded(root, dirs, writes, scope, key);
    } else {
      UnsharedIsNeverIntruded(root, dirs, writes, scope, key);
    }
  }

  predicate SlashFreeWrite(w: Write) {
    SlashFree(w.scope) && SlashFree(w.key)
  }

  lemma {:induction false} SuccessesAreWrites(root: Path, dirs: set<Path>, writes: seq<Write>, i: nat)
    requires i < |Successes(root, dirs, writes)|
    ensures var s := Successes(root, dirs, writes); ArgumentsAccepted(s[i]) && s[i] in writes
    decreases |writes|
  {
    hide Get, RecordPath, Putting;
    var before := writes[..|writes| - 1];
    if i < |Successes(root, dirs, before)| {
      SuccessesAreWrites(root, dirs, before, i);
      assert Successes(root, dirs, writes)[i] == Successes(root, dirs, before)[i];
    }
  }

  /** With slash-free scopes and keys no file is shared, so the store is always a map keyed by scope and
      key, unless its root is the top of the file system, where "." and ".." are one scope. */
  lemma SlashFreeStoreIsAMap(root: Path, dirs: set<Path>, writes: seq<Write>, scope: string, key: string)
    requires forall i | 0 <= i < |writes| :: SlashFreeWrite(writes[i])
    requires SlashFree(scope) && SlashFree(key) && scope != ""
    requires Resolve(root) != [] || scope !in {".", ".."}
    ensures AlwaysOwn(root, dirs, writes, scope, key)
  {
    hide RecordPath, DiskAfter, AlwaysOwn, NeverIntruded, Successes, SlashFree, Resolve;
    var s := Successes(root, dirs, writes);
    forall i | 0 <= i < |s|
      ensures !LeadsToAnothers(root, s[i], scope, key)
    {
      SuccessesAreWrites(root, dirs, writes, i);
      SlashFreeFilesDiffer(root, scope, key, s[i].scope, s[i].key);
      assert scope in {scope, s[i].scope};
    }
    UnsharedIsNeverIntruded(root, dirs, writes, scope, key);
    AlwaysOwnIff(root, dirs, writes, scope, key);
  }

  // Writes that break it.

  /** A slash that moves from the scope to the key: the second write takes over the first one's file and
      counts its version on. */
  lemma MovedSlashTakesOver(root: Path, dirs: set<Path>, w: Write, v: Write)
    requires Admitted(w) && Admitted(v) && w.access.Readable? && v.access.Readable?
    requires IsFor(w, "a", "b/c") && IsFor(v, "a/b", "c")
    ensures Get(DiskAfter(root, dirs, [w, v]), Readable, RecordPath(root, "a", "b/c")) ==
            Found(NewRecord(v, Found(NewRecord(w, Absent))))
    ensures !IsOwn(root, dirs, [w, v], "a", "b/c")
  {
    hide RecordPath, Resolve, ValidProvenance, Passed, DiskAfter, Get, NewRecord, IsOwn, Admitted;
    SlashesCollide(root, "a", "b", "c");
    assert "b" + "/" + "c" == "b/c" && "a" + "/" + "b" == "a/b";
    TwoWrites(root, dirs, w, v);
  }

  /** The same with an absolute scope that lies in the storage root. */
  lemma AbsoluteScopeTakesOver(dirs: set<Path>, w: Write, v: Write)
    requires Admitted(w) && Admitted(v) && w.access.Readable? && v.access.Readable?
    requires IsFor(w, "s", "k") && IsFor(v, "/mem/s", "k")
    ensures Get(DiskAfter(["mem"], dirs, [w, v]), Readable, RecordPath(["mem"], "s", "k")) ==
            Found(NewRecord(v, Found(NewRecord(w, Absent))))
    ensures !IsOwn(["mem"], dirs, [w, v], "s", "k")
  {
    hide RecordPath, Resolve, ValidProvenance, Passed, DiskAfter, Get, NewRecord, IsOwn, Admitted;
    AbsoluteAndRelativeMeet();
    TwoWrites(["mem"], dirs, w, v);
  }

  lemma AbsoluteAndRelativeMeet()
    ensures RecordPath(["mem"], "/mem/s", "k") == RecordPath(["mem"], "s", "k")
  {
    hide Parts;
    SlashFreeParts("s");
    SlashFreeParts("");
    assert "" + "/" + "mem/s" == "/mem/s" && "mem" + "/" + "s" == "mem/s";
    SlashFreeParts("mem");
    PartsOfPair("", "mem/s");
    PartsOfPair("mem", "s");
    assert Parts("/mem/s") == [] + (["mem"] + ["s"]) == ["mem"] + ["s"];
    SlashFreeParts("k.json");
    assert "k" + ".json" == "k.json";
  }

  /** A ".." after a directory that is not there yet: the lookup finds nothing, so the second write starts
      over at version 1, makes the directory and replaces the first one's record. */
  lemma ParentPartOverwrites(dirs: set<Path>, w: Write, v: Write)
    requires Admitted(w) && Admitted(v) && w.access.Readable? && v.access.Readable?
    requires IsFor(w, "s", "k") && IsFor(v, "x/../s", "k") && ["mem", "x"] !in dirs
    ensures Get(DiskAfter(["mem"], dirs, [w, v]), Readable, RecordPath(["mem"], "s", "k")) ==
            Found(NewRecord(v, Absent))
    ensures !IsOwn(["mem"], dirs, [w, v], "s", "k")
  {
    hide RecordPath, Resolve, ValidProvenance, Passed, DiskAfter, Get, NewRecord, IsOwn, FileOf, Admitted;
    ParentPartLeads();
    TwoWrites(["mem"], dirs, w, v);
  }

  /** The two paths of this example: they lead to one file, and only the second passes x. */
  lemma ParentPartLeads()
    ensures FileOf(["mem"], "x/../s", "k") == FileOf(["mem"], "s", "k")
    ensures var path, other := RecordPath(["mem"], "s", "k"), RecordPath(["mem"], "x/../s", "k");
            ["mem", "x"] in Passed(other, |other|) && ["mem", "x"] !in Passed(path, |path|)
  {
    hide Parts, Resolve;
    SlashFreeParts("x");
    SlashFreeParts("..");
    SlashFreeParts("s");
    assert "x" + "/" + "../s" == "x/../s" && ".." + "/" + "s" == "../s" && "k" + ".json" == "k.json";
    PartsOfPair("x", "../s");
    PartsOfPair("..", "s");
    SlashFreeParts("k.json");
    var path, other := RecordPath(["mem"], "s", "k"), RecordPath(["mem"], "x/../s", "k");
    assert path == ["mem", "s", "k.json"];
    assert other == ["mem", "x", "..", "s", "k.json"];
    ResolveSteps(path, other);
  }

  lemma ResolveSteps(path: Path, other: Path)
    requires path == ["mem", "s", "k.json"] && other == ["mem", "x", "..", "s", "k.json"]
    ensures Resolve(path) == Resolve(other) == path
    ensures Resolve(path[..1]) == ["mem"] && Resolve(path[..2]) == ["mem", "s"] && Resolve(other[..2]) == ["mem", "x"]
  {
    hide Resolve;
    var mem := [] + ["mem"];
    var s, x := mem + ["s"], mem + ["x"];
    var up := x + [".."];
    ResolveNothing();
    ResolveOne([], "mem");
    ResolveOne(mem, "s");
    ResolveOne(s, "k.json");
    ResolveOne(mem, "x");
    ResolveOne(x, "..");
    assert Resolve(up) == ["mem"];
    ResolveOne(up, "s");
    ResolveOne(up + ["s"], "k.json");
    assert path[..1] == mem && path[..2] == s && path == s + ["k.json"];
    assert other[..2] == x && other == up + ["s"] + ["k.json"];
  }

  lemma ResolveNothing()
    ensures Resolve([]) == []
  {
  }

  lemma FirstWrite(root: Path, dirs: set<Path>, w: Write)
    requires Admitted(w) && w.access.Readable?
    ensures var path := PathOf(root, w);
            WriteSpec(root, Disk(map[], dirs), w) ==
            (Written(w.scope + "/" + w.key),
             Disk(map[Resolve(path) := Record(NewRecord(w, Absent))], dirs + Passed(path, |path|)))
  {
    hide PathOf, Resolve, ValidProvenance, Passed;
    var path := PathOf(root, w);
    assert map[][Resolve(path) := Record(NewRecord(w, Absent))] == map[Resolve(path) := Record(NewRecord(w, Absent))];
  }

  lemma SecondWrite(root: Path, disk: Disk, v: Write, path: Path, r: MemoryRecord)
    requires Admitted(v) && v.access.Readable? && Resolve(PathOf(root, v)) == Resolve(path)
    requires Walkable(disk.dirs, path) && r.WellFormed()
    requires Resolve(path) in disk.files && disk.files[Resolve(path)] == Record(r)
    ensures var (outcome, after) := WriteSpec(root, disk, v);
            && outcome.Written?
            && Get(after, Readable, path) ==
                 Found(NewRecord(v, if Walkable(disk.dirs, PathOf(root, v)) then Found(r) else Absent))
  {
    hide PathOf, Resolve, ValidProvenance, Passed;
  }

  lemma TwoWrites(root: Path, dirs: set<Path>, w: Write, v: Write)
    requires Admitted(w) && Admitted(v) && w.access.Readable? && v.access.Readable?
    requires !IsFor(v, w.scope, w.key) && FileOf(root, v.scope, v.key) == FileOf(root, w.scope, w.key)
    ensures var path := RecordPath(root, w.scope, w.key);
            var seen := Walkable(dirs + Passed(path, |path|), PathOf(root, v));
            && Get(DiskAfter(root, dirs, [w, v]), Readable, path) ==
                 Found(NewRecord(v, if seen then Found(NewRecord(w, Absent)) else Absent))
            && !IsOwn(root, dirs, [w, v], w.scope, w.key)
  {
    hide RecordPath, Resolve, ValidProvenance, Passed, WriteSpec, ToKey, ToFile, Successes, DiskAfter, Get;
    var path, r := PathOf(root, w), NewRecord(w, Absent);
    NothingSucceeded(root, dirs, w.scope, w.key);
    FirstWrite(root, dirs, w);
    OneMoreSuccess(root, dirs, [], w, w.scope, w.key);
    assert [] + [w] == [w] && [w] + [] == [w] && [w] + [v] == [w, v];
    SecondWrite(root, DiskAfter(root, dirs, [w]), v, path, r);
    OneMoreSuccess(root, dirs, [w], v, w.scope, w.key);
  }
}
