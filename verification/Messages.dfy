/** What the two sides say to each other, and the provider's settings. */
module Messages {
  import opened Options
  import opened Bytes

  /** A JSON value as far as the provider looks at it. `Number` holds whole numbers; every
      other value is known up to Python's `==` only. A missing field reads as `Null`. */
  datatype Json = Null | Text(text: string) | Number(number: int) | Other(id: nat)

  datatype FileInfo = NoFile | File(path: Json, fileName: Json, sizeBytes: Json)

  /** A message from GameHQ: the fields the provider reads. */
  datatype Message = Message(
    kind: string, jobId: Json, token: Json, requestId: Json, code: Json, query: Json,
    targetId: Json, file: FileInfo)

  datatype Target = Target(id: string, name: string)

  datatype Outcome = Copied | Cancelled | Failed(code: string)

  /** A message to GameHQ. */
  datatype Output =
    | Hello
    | FutureThing
    | TargetsResult(requestId: Json, found: seq<Target>)
    | Preparing(jobId: Json, token: Json)
    | Transferring(jobId: Json, token: Json, copied: nat, total: nat)
    | Result(jobId: Json, token: Json, outcome: Outcome)
    | Goodbye

  /** A file as the system tells it from others, whatever path it was reached by. */
  type FileId = nat

  /** The arguments, and what is foreign: JSON decoding and encoding, the text search, and which
      file a path names. Nothing is assumed about them; two spellings may name one file. */
  datatype Settings = Settings(
    parse: seq<byte> -> Option<Message>,
    encode: Output -> seq<byte>,
    matches: (Json, string) -> bool,
    fileOf: string -> FileId,
    targets: seq<Target>,
    destDir: string,
    connectTimeout: real,
    reconnect: bool,
    fragmentWrites: bool,
    sendUnknownType: bool,
    exitAfterJobs: int,
    coalesceGoodbye: bool)

  function Parse(cfg: Settings, payload: seq<byte>): Option<Message> {
    cfg.parse(payload)
  }

  function Encode(cfg: Settings, o: Output): seq<byte> {
    cfg.encode(o)
  }

  function FileOf(cfg: Settings, path: string): FileId {
    cfg.fileOf(path)
  }

  /** The targets a search finds, in the order they are listed. */
  function Found(cfg: Settings, query: Json, targets: seq<Target>): (found: seq<Target>)
    ensures forall t :: t in found <==> t in targets && cfg.matches(query, t.name)
  {
    if targets == [] then []
    else
      var more := Found(cfg, query, targets[1..]);
      if cfg.matches(query, targets[0].name) then [targets[0]] + more else more
  }

  /** A search keeps the order of the list and finds a target as often as it is listed. */
  lemma {:induction false} FoundInOrder(cfg: Settings, query: Json, before: seq<Target>, after: seq<Target>)
    ensures Found(cfg, query, before + after) == Found(cfg, query, before) + Found(cfg, query, after)
  {
    if before == [] {
      assert before + after == after;
    } else {
      assert (before + after)[1..] == before[1..] + after;
      FoundInOrder(cfg, query, before[1..], after);
    }
  }

  /** The one answer to a target request. */
  function Answer(cfg: Settings, request: Message): Output {
    TargetsResult(request.requestId, Found(cfg, request.query, cfg.targets))
  }

  /** `finished` in `session`: a count of zero never ends it. */
  predicate Finished(cfg: Settings, jobs: int) {
    cfg.exitAfterJobs != 0 && jobs >= cfg.exitAfterJobs
  }

  /** A negative count, which the option accepts, is reached by any job: only a positive one means
      that so many jobs were done. */
  lemma FinishedCount(cfg: Settings, jobs: nat)
    ensures Finished(cfg, jobs) <==> 1 <= cfg.exitAfterJobs <= jobs || cfg.exitAfterJobs < 0
  {
  }

  predicate Cancels(m: Message, job: Message) {
    m.kind == "job.cancel" && m.jobId == job.jobId && m.token == job.token
  }

  predicate IsSeparator(c: char) {
    c == '/' || c == '\\'
  }

  predicate HasDrive(name: string) {
    |name| >= 2 && name[1] == ':'
  }

  function AfterSeparator(name: string): string {
    if name == [] then ""
    else
      var last := |name| - 1;
      if IsSeparator(name[last]) then "" else AfterSeparator(name[..last]) + [name[last]]
  }

  /** `os.path.basename`: what follows the last separator, after a drive letter. */
  function BaseName(name: string): string {
    AfterSeparator(if HasDrive(name) then name[2..] else name)
  }

  /** A name without separators and drive. */
  predicate PlainName(name: string) {
    name != "" && !HasDrive(name) && '/' !in name && '\\' !in name
  }

  lemma {:induction false} AfterSeparatorShortens(name: string)
    ensures |AfterSeparator(name)| <= |name|
    ensures AfterSeparator(name) == name <==> '/' !in name && '\\' !in name
  {
    if name != [] {
      var last := |name| - 1;
      AfterSeparatorShortens(name[..last]);
      assert name == name[..last] + [name[last]];
    }
  }

  /** The test `name == basename(name)` accepts exactly the plain names. */
  lemma BaseNameIsPlain(name: string)
    ensures name != "" && BaseName(name) == name <==> PlainName(name)
  {
    AfterSeparatorShortens(if HasDrive(name) then name[2..] else name);
  }

  predicate HasTarget(cfg: Settings, id: Json) {
    exists t :: t in cfg.targets && id == Text(t.id)
  }

  predicate GoodFile(info: FileInfo) {
    && info.File? && info.path.Text? && info.fileName.Text?
    && PlainName(info.fileName.text)
  }

  predicate GoodJob(cfg: Settings, job: Message) {
    HasTarget(cfg, job.targetId) && GoodFile(job.file)
  }

  /** A job is good exactly if its target is configured and its file is described by a path and a name,
      and the name is not empty, has no separator and no drive. */
  lemma GoodJobMeans(cfg: Settings, job: Message)
    ensures GoodJob(cfg, job) <==>
              && (exists t :: t in cfg.targets && job.targetId == Text(t.id))
              && (exists path, name, size ::
                    && job.file == File(Text(path), Text(name), size)
                    && name != "" && '/' !in name && '\\' !in name && !(|name| >= 2 && name[1] == ':'))
  {
    if GoodFile(job.file) {
      assert job.file == File(Text(job.file.path.text), Text(job.file.fileName.text), job.file.sizeBytes);
    }
  }

  // -- where a copy goes ---------------------------------------------------------------------

  /** `os.path.join` for a relative second part without a drive. */
  function Join(folder: string, name: string): string {
    if folder == "" || IsSeparator(folder[|folder| - 1]) then folder + name else folder + "\\" + name
  }

  function TargetFolder(cfg: Settings, id: string): string {
    Join(cfg.destDir, id)
  }

  /** The one place a job's copy goes. */
  function Destination(cfg: Settings, job: Message): string
    requires GoodJob(cfg, job)
  {
    Join(TargetFolder(cfg, job.targetId.text), job.file.fileName.text)
  }

  function SourceFile(cfg: Settings, job: Message): FileId
    requires GoodJob(cfg, job)
  {
    FileOf(cfg, job.file.path.text)
  }

  function CopyFile(cfg: Settings, job: Message): FileId
    requires GoodJob(cfg, job)
  {
    FileOf(cfg, Destination(cfg, job))
  }

  /** The job names, by whatever path, its own destination as the file to copy. */
  predicate SelfCopy(cfg: Settings, job: Message) {
    GoodJob(cfg, job) && SourceFile(cfg, job) == CopyFile(cfg, job)
  }

  /** What stands between the separators of a path. */
  function Parts(path: string): (parts: seq<string>)
    ensures parts != []
  {
    if path == "" then [""]
    else
      var last := |path| - 1;
      var before := Parts(path[..last]);
      if IsSeparator(path[last]) then before + [""]
      else before[..|before| - 1] + [before[|before| - 1] + [path[last]]]
  }

  /** Where the parts of a rooted path lead, folder by folder, as `os.path.normpath` has it. */
  function Walk(parts: seq<string>): seq<string> {
    if parts == [] then []
    else
      var at, part := Walk(parts[..|parts| - 1]), parts[|parts| - 1];
      if part == "" || part == "." then at
      else if part == ".." then (if at == [] then [] else at[..|at| - 1])
      else at + [part]
  }

  function Place(path: string): seq<string> {
    Walk(Parts(path))
  }

  lemma PartsOfChar(path: string, c: char)
    requires !IsSeparator(c)
    ensures var before := Parts(path); var last := |before| - 1;
            Parts(path + [c]) == before[..last] + [before[last] + [c]]
  {
    assert (path + [c])[..|path|] == path;
  }

  lemma {:induction false} PartsOfName(folder: string, name: string)
    requires '/' !in name && '\\' !in name
    ensures var before := Parts(folder); var last := |before| - 1;
            Parts(folder + name) == before[..last] + [before[last] + name]
  {
    hide Parts;
    var before, last := Parts(folder), |Parts(folder)| - 1;
    if name == "" {
      assert folder + name == folder && before[last] + name == before[last];
    } else {
      var init, c := name[..|name| - 1], name[|name| - 1];
      PartsOfName(folder, init);
      assert c in name && folder + name == folder + init + [c];
      PartsOfChar(folder + init, c);
      assert before[last] + init + [c] == before[last] + name;
    }
  }

  lemma PartsOfJoin(folder: string, name: string) returns (before: seq<string>)
    requires '/' !in name && '\\' !in name
    ensures Parts(Join(folder, name)) == before + [name] && Walk(before) == Place(folder)
  {
    var parts := Parts(folder);
    if folder == "" || IsSeparator(folder[|folder| - 1]) {
      PartsOfName(folder, name);
      before := parts[..|parts| - 1];
      assert parts[|parts| - 1] == "" && "" + name == name;
    } else {
      var root := folder + "\\";
      assert root[..|folder|] == folder;
      assert Parts(root) == parts + [""];
      PartsOfName(root, name);
      before := parts;
      assert "" + name == name;
    }
  }

  lemma WalkMore(before: seq<string>, name: string)
    requires name != ""
    ensures var at, place := Walk(before), Walk(before + [name]);
            && (name != "." && name != ".." ==> place == at + [name])
            && (name == "." ==> place == at)
            && (name == ".." ==> place == if at == [] then [] else at[..|at| - 1])
  {
    assert (before + [name])[..|before|] == before;
  }

  /** The test on the name keeps a copy in its target's folder exactly if the name is neither "."
      nor "..": the first is the folder itself, the second the one above it. */
  lemma DestinationIsInFolder(cfg: Settings, job: Message)
    requires GoodJob(cfg, job)
    ensures var name, folder := job.file.fileName.text, Place(TargetFolder(cfg, job.targetId.text));
            var place := Place(Destination(cfg, job));
            && (place == folder + [name] <==> name != "." && name != "..")
            && (name == "." ==> place == folder)
            && (name == ".." ==> place == if folder == [] then [] else folder[..|folder| - 1])
  {
    hide Walk, Parts, Join;
    var name := job.file.fileName.text;
    var before := PartsOfJoin(TargetFolder(cfg, job.targetId.text), name);
    WalkMore(before, name);
    var at, place := Walk(before), Walk(before + [name]);
    assert place == at + [name] ==> |place| == |at| + 1;
  }

  /** Spelled out, where the folder given does not end in a separator: folder, target id, name. */
  lemma DestinationIsSpelled(cfg: Settings, job: Message)
    requires GoodJob(cfg, job) && cfg.destDir != "" && !IsSeparator(cfg.destDir[|cfg.destDir| - 1])
    requires job.targetId.text != "" && '/' !in job.targetId.text && '\\' !in job.targetId.text
    ensures Destination(cfg, job) == cfg.destDir + "\\" + job.targetId.text + "\\" + job.file.fileName.text
  {
    var id := job.targetId.text;
    var folder := TargetFolder(cfg, id);
    assert folder == cfg.destDir + "\\" + id;
    assert folder[|folder| - 1] == id[|id| - 1] && id[|id| - 1] in id;
  }

  /** In general: below the folder of the target, which is below the folder given. */
  lemma TargetFolderIsBelow(cfg: Settings, id: string)
    requires '/' !in id && '\\' !in id && id != "" && id != "." && id != ".."
    ensures Place(TargetFolder(cfg, id)) == Place(cfg.destDir) + [id]
  {
    hide Walk, Parts, Join;
    var before := PartsOfJoin(cfg.destDir, id);
    WalkMore(before, id);
  }
}
