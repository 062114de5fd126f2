/** The managed FFmpeg runtime: what verification accepts (apps/clipline-app/src/ffmpeg_runtime.rs) and
    how an installation gets there (apps/clipline-app/src/ffmpeg_install.rs). */
module FfmpegRuntime {
  import opened Chars
  import opened Wrappers

  /** The release data copied word for word from the manifest into the provenance file. */
  datatype Release = Release(
    provider: string,
    releaseTag: string,
    publishedAt: string,
    archiveName: string,
    archiveUrl: string,
    versionLine: string,
    sourceOfferUrl: string,
    ffmpegSourceUrl: string)

  datatype AllowedFile = AllowedFile(archivePath: string, stagedName: string, size: nat, sha256: string)

  datatype Manifest = Manifest(
    release: Release,
    archiveSha256: string,
    archiveSize: nat,
    archiveRoot: string,
    allowedFiles: seq<AllowedFile>)

  datatype ProvenanceFile = ProvenanceFile(name: string, size: nat, sha256: string)

  datatype Provenance = Provenance(
    schemaVersion: nat,
    release: Release,
    archiveSha256: string,
    manifestSha256: string,
    files: seq<ProvenanceFile>)

  /** What a file holds: bytes, or the text of a provenance record. */
  datatype Content = Raw(bytes: seq<bv8>) | Json(record: Provenance)

  datatype Node = File(content: Content) | Directory

  type Tree = map<string, Node>

  /** The hash and length of a file's content; hashes are written in lower case. */
  datatype Digest = Digest(sha: Content -> string, size: Content -> nat) {
    ghost predicate Valid() {
      forall c :: Lower(sha(c)) == sha(c)
    }
  }

  const PROVENANCE := "PROVENANCE.json"
  const FFMPEG_EXE := "ffmpeg.exe"
  const README := "readme.md"

  function Names(files: seq<AllowedFile>): set<string> {
    set f | f in files :: f.stagedName
  }

  // ---- Verification ----

  datatype VerifyError =
    | NotDirectory | UnexpectedFile(name: string) | MissingFile(name: string) | SizeMismatch(name: string)
    | HashMismatch(name: string) | MissingProvenance | InvalidProvenance | ProvenanceMismatch

  predicate FileMatches(tree: Tree, file: AllowedFile, d: Digest) {
    && file.stagedName in tree && tree[file.stagedName].File?
    && d.size(tree[file.stagedName].content) == file.size
    && d.sha(tree[file.stagedName].content) == Lower(file.sha256)
  }

  predicate RecordMatches(actual: ProvenanceFile, expected: AllowedFile) {
    && actual.name == expected.stagedName && actual.size == expected.size
    && Lower(actual.sha256) == Lower(expected.sha256)
  }

  predicate ProvenanceMatches(record: Provenance, manifest: Manifest, manifestSha256: string) {
    && record.schemaVersion == 1 && record.release == manifest.release
    && Lower(record.archiveSha256) == Lower(manifest.archiveSha256)
    && Lower(record.manifestSha256) == Lower(manifestSha256)
    && |record.files| == |manifest.allowedFiles|
    && forall i | 0 <= i < |record.files| :: RecordMatches(record.files[i], manifest.allowedFiles[i])
  }

  /** Exactly the allowed files, a matching provenance record, possibly a readme, and ffmpeg.exe. */
  predicate Acceptable(tree: Tree, manifest: Manifest, manifestSha256: string, d: Digest) {
    && (forall name <- tree :: Lower(name) == README || name == PROVENANCE || name in Names(manifest.allowedFiles))
    && (forall file <- manifest.allowedFiles :: FileMatches(tree, file, d))
    && PROVENANCE in tree && tree[PROVENANCE].File? && tree[PROVENANCE].content.Json?
    && ProvenanceMatches(tree[PROVENANCE].content.record, manifest, manifestSha256)
    && FFMPEG_EXE in tree && tree[FFMPEG_EXE].File?
  }

  method VerifyRegularFile(tree: Tree, file: AllowedFile, d: Digest) returns (r: Result<string, VerifyError>)
    ensures r.Ok? <==> FileMatches(tree, file, d)
    ensures r == Err(MissingFile(file.stagedName)) <==>
              file.stagedName !in tree || !tree[file.stagedName].File?
    ensures r == Err(SizeMismatch(file.stagedName)) <==>
              && file.stagedName in tree && tree[file.stagedName].File?
              && d.size(tree[file.stagedName].content) != file.size
    ensures r.Err? ==>
              r.error in {MissingFile(file.stagedName), SizeMismatch(file.stagedName), HashMismatch(file.stagedName)}
  {
    if file.stagedName !in tree || !tree[file.stagedName].File? {
      return Err(MissingFile(file.stagedName));
    }
    var content := tree[file.stagedName].content;
    if d.size(content) != file.size {
      return Err(SizeMismatch(file.stagedName));
    }
    if d.sha(content) != Lower(file.sha256) {
      return Err(HashMismatch(file.stagedName));
    }
    return Ok(d.sha(content));
  }

  method ExpectedNames(manifest: Manifest) returns (expected: set<string>)
    ensures expected == {PROVENANCE} + Names(manifest.allowedFiles)
  {
    expected := {PROVENANCE};
    for i := 0 to |manifest.allowedFiles|
      invariant expected == {PROVENANCE} + Names(manifest.allowedFiles[..i])
    {
      var file := manifest.allowedFiles[i];
      assert manifest.allowedFiles[..i + 1] == manifest.allowedFiles[..i] + [file];
      assert Names(manifest.allowedFiles[..i + 1]) == Names(manifest.allowedFiles[..i]) + {file.stagedName};
      expected := expected + {file.stagedName};
    }
    assert manifest.allowedFiles[..|manifest.allowedFiles|] == manifest.allowedFiles;
  }

  method CheckProvenance(record: Provenance, manifest: Manifest, manifestSha256: string)
    returns (r: Result<(), VerifyError>)
    ensures r.Ok? <==> ProvenanceMatches(record, manifest, manifestSha256)
  {
    if record.schemaVersion != 1 {
      return Err(InvalidProvenance);
    }
    if record.release != manifest.release || Lower(record.archiveSha256) != Lower(manifest.archiveSha256)
       || Lower(record.manifestSha256) != Lower(manifestSha256) {
      return Err(ProvenanceMismatch);
    }
    if |record.files| != |manifest.allowedFiles| {
      return Err(InvalidProvenance);
    }
    for i := 0 to |record.files|
      invariant forall j | 0 <= j < i :: RecordMatches(record.files[j], manifest.allowedFiles[j])
    {
      var actual, expected := record.files[i], manifest.allowedFiles[i];
      if actual.name != expected.stagedName {
        return Err(ProvenanceMismatch);
      }
      if actual.size != expected.size {
        return Err(SizeMismatch("provenance"));
      }
      if Lower(actual.sha256) != Lower(expected.sha256) {
        return Err(ProvenanceMismatch);
      }
    }
    return Ok(());
  }

  /** `listing` is the directory listing, in whatever order the system gives it. */
  method VerifyManagedRuntime(dir: Option<Tree>, listing: seq<string>, manifest: Manifest,
                              manifestSha256: string, d: Digest)
    returns (r: Result<(), VerifyError>)
    requires dir.Some? ==> forall name :: name in listing <==> name in dir.value
    ensures r.Ok? <==> dir.Some? && Acceptable(dir.value, manifest, manifestSha256, d)
  {
    if dir.None? {
      return Err(NotDirectory);
    }
    var tree := dir.value;
    var expected := ExpectedNames(manifest);
    for i := 0 to |listing|
      invariant forall name <- listing[..i] :: Lower(name) == README || name in expected
    {
      if Lower(listing[i]) == README {
        continue;
      }
      if listing[i] !in expected {
        assert listing[i] in listing;
        return Err(UnexpectedFile(listing[i]));
      }
    }
    assert listing[..|listing|] == listing;
    for i := 0 to |manifest.allowedFiles|
      invariant forall file <- manifest.allowedFiles[..i] :: FileMatches(tree, file, d)
    {
      var checked := VerifyRegularFile(tree, manifest.allowedFiles[i], d);
      if checked.Err? {
        assert manifest.allowedFiles[i] in manifest.allowedFiles;
        return Err(checked.error);
      }
    }
    if PROVENANCE !in tree || !tree[PROVENANCE].File? {
      return Err(MissingProvenance);
    }
    if !tree[PROVENANCE].content.Json? {
      return Err(InvalidProvenance);
    }
    var matching := CheckProvenance(tree[PROVENANCE].content.record, manifest, manifestSha256);
    if matching.Err? {
      return matching;
    }
    if FFMPEG_EXE !in tree || !tree[FFMPEG_EXE].File? {
      return Err(MissingFile(FFMPEG_EXE));
    }
    return Ok(());
  }

  /** The names in a directory, in some order. */
  method ReadDir(tree: Tree) returns (listing: seq<string>)
    ensures forall name :: name in listing <==> name in tree
  {
    listing := [];
    var rest := tree.Keys;
    while rest != {}
      invariant rest <= tree.Keys
      invariant forall name :: name in listing <==> name in tree && name !in rest
    {
      var name :| name in rest;
      listing := listing + [name];
      rest := rest - {name};
    }
  }

  // ---- Installation ----

  function TrimSlashes(s: string): string {
    if s != [] && s[|s| - 1] == '/' then TrimSlashes(s[..|s| - 1]) else s
  }

  function Slashes(s: string): string {
    seq(|s|, i requires 0 <= i < |s| => if s[i] == '\\' then '/' else s[i])
  }

  function EntryName(manifest: Manifest, file: AllowedFile): string {
    TrimSlashes(manifest.archiveRoot) + "/" + Slashes(file.archivePath)
  }

  function RepeatSlash(n: nat): string {
    if n == 0 then "" else RepeatSlash(n - 1) + "/"
  }

  lemma {:induction false} SlashesTrimmed(root: string, n: nat)
    requires root == "" || root[|root| - 1] != '/'
    ensures TrimSlashes(root + RepeatSlash(n)) == root
  {
    if n > 0 {
      var s := root + RepeatSlash(n);
      assert s == (root + RepeatSlash(n - 1)) + "/" && s[..|s| - 1] == root + RepeatSlash(n - 1);
      SlashesTrimmed(root, n - 1);
    } else {
      assert root + "" == root;
    }
  }

  /** An entry is looked up under the archive's root, however many slashes that ends with, by its path
      with forward slashes. */
  lemma EntryNameIs(manifest: Manifest, file: AllowedFile, root: string, n: nat)
    requires manifest.archiveRoot == root + RepeatSlash(n) && (root == "" || root[|root| - 1] != '/')
    ensures var name := EntryName(manifest, file);
            && |name| == |root| + 1 + |file.archivePath| && name[..|root| + 1] == root + "/"
            && forall i: nat | i < |file.archivePath| ::
                 name[|root| + 1 + i] == if file.archivePath[i] == '\\' then '/' else file.archivePath[i]
  {
    SlashesTrimmed(root, n);
  }

  function ProvenanceFor(manifest: Manifest, manifestSha256: string, files: seq<ProvenanceFile>): Provenance {
    Provenance(1, manifest.release, manifest.archiveSha256, manifestSha256, files)
  }

  predicate DistinctNames(files: seq<AllowedFile>) {
    forall i, j | 0 <= i < j < |files| :: files[i].stagedName != files[j].stagedName
  }

  /** What extraction leaves: the allowed files and nothing else, each as the manifest says, and the
      record of them. */
  predicate Extracted(tree: Tree, files: seq<AllowedFile>, records: seq<ProvenanceFile>, d: Digest) {
    && tree.Keys == Names(files) && |records| == |files|
    && (forall file <- files :: FileMatches(tree, file, d))
    && (forall i | 0 <= i < |files| :: RecordMatches(records[i], files[i]))
  }

  /** What installation writes, verification accepts: once the files are extracted and the provenance
      written, the tree is acceptable if and only if the manifest lists ffmpeg.exe. */
  lemma InstalledTreeIsAcceptable(tree: Tree, manifest: Manifest, manifestSha256: string,
                                  records: seq<ProvenanceFile>, d: Digest)
    requires Extracted(tree, manifest.allowedFiles, records, d)
    requires PROVENANCE !in Names(manifest.allowedFiles)
    ensures var written := tree[PROVENANCE := File(Json(ProvenanceFor(manifest, manifestSha256, records)))];
            Acceptable(written, manifest, manifestSha256, d) <==> FFMPEG_EXE in Names(manifest.allowedFiles)
  {
    var written := tree[PROVENANCE := File(Json(ProvenanceFor(manifest, manifestSha256, records)))];
    forall file | file in manifest.allowedFiles ensures FileMatches(written, file, d) {
      assert FileMatches(tree, file, d);
      assert file.stagedName in Names(manifest.allowedFiles);
    }
    if FFMPEG_EXE in Names(manifest.allowedFiles) {
      var file :| file in manifest.allowedFiles && file.stagedName == FFMPEG_EXE;
      assert FileMatches(written, file, d);
    }
  }

  datatype Snapshot = Snapshot(staging: Option<Tree>, dest: Option<Tree>, backups: map<nat, Tree>)

  /** The tree is safe in the backup directory. */
  predicate Survives(tree: Tree, s: Snapshot, stamp: nat) {
    stamp in s.backups && s.backups[stamp] == tree
  }

  /** A crash here loses nothing: the old tree, if there was one, is at the destination or in the
      backup, unless the new tree is at the destination. */
  predicate CrashSafe(s: Snapshot, outgoing: Option<Tree>, incoming: Option<Tree>, stamp: nat) {
    s.dest == incoming || outgoing.None? || s.dest == outgoing || Survives(outgoing.value, s, stamp)
  }

  predicate AlwaysCrashSafe(history: seq<Snapshot>, outgoing: Option<Tree>, incoming: Option<Tree>, stamp: nat) {
    forall i | 0 <= i < |history| :: CrashSafe(history[i], outgoing, incoming, stamp)
  }

  /** The program's directories.  Calls and cancellation checks are scripted; a failing call changes
      nothing.  `history` is every state a crash could have left behind. */
  class Directories {
    const fails: nat -> bool
    const cancels: nat -> bool
    const safe: AllowedFile -> bool
    const d: Digest
    var calls: nat
    var staging: Option<Tree>
    var dest: Option<Tree>
    var backups: map<nat, Tree>
    ghost var history: seq<Snapshot>

    ghost function Now(): Snapshot
      reads this
    {
      Snapshot(staging, dest, backups)
    }

    /** No call from number `from` on failed and none was answered with a cancellation. */
    ghost predicate Smooth(from: nat)
      reads this
    {
      forall i | from <= i < calls :: !fails(i) && !cancels(i)
    }

    /** The archive holds an allowed file as the manifest describes it. */
    predicate SuppliesFile(archive: map<string, Content>, manifest: Manifest, file: AllowedFile) {
      && safe(file) && EntryName(manifest, file) in archive
      && d.size(archive[EntryName(manifest, file)]) == file.size
      && d.sha(archive[EntryName(manifest, file)]) == Lower(file.sha256)
    }

    ghost predicate Supplies(archive: map<string, Content>, manifest: Manifest) {
      forall file <- manifest.allowedFiles :: SuppliesFile(archive, manifest, file)
    }

    /** Everything a successful installation needs of its manifest. */
    ghost predicate Sound(manifest: Manifest) {
      && DistinctNames(manifest.allowedFiles)
      && PROVENANCE !in Names(manifest.allowedFiles) && FFMPEG_EXE in Names(manifest.allowedFiles)
    }

    method Attempt() returns (ok: bool)
      modifies this`calls
      ensures calls == old(calls) + 1 && ok == !fails(old(calls))
    {
      ok := !fails(calls);
      calls := calls + 1;
    }

    method Cancelled() returns (yes: bool)
      modifies this`calls
      ensures calls == old(calls) + 1 && yes == cancels(old(calls))
    {
      yes := cancels(calls);
      calls := calls + 1;
    }

    /** Stages one allowed file out of the archive, and hashes what was written. */
    method ExtractOne(archive: map<string, Content>, manifest: Manifest, allowed: AllowedFile)
      returns (r: Result<string, string>)
      requires staging.Some?
      modifies this`calls, this`staging
      ensures staging.Some? && old(calls) <= calls
      ensures cancels(old(calls)) ==> r == Err("cancelled") && staging == old(staging)
      ensures r.Ok? ==>
                && SuppliesFile(archive, manifest, allowed)
                && staging.value == old(staging.value)[allowed.stagedName := File(archive[EntryName(manifest, allowed)])]
                && r.value == d.sha(archive[EntryName(manifest, allowed)])
      ensures Smooth(old(calls)) && SuppliesFile(archive, manifest, allowed) ==> r.Ok?
    {
      var stop := Cancelled();
      if stop {
        return Err("cancelled");
      }
      if !safe(allowed) {
        return Err("unsafe allowlist entry");
      }
      if EntryName(manifest, allowed) !in archive {
        return Err("missing archive entry");
      }
      var content := archive[EntryName(manifest, allowed)];
      if d.size(content) != allowed.size {
        return Err("size mismatch");
      }
      var ok := Attempt();
      if !ok {
        return Err("extract");
      }
      staging := Some(staging.value[allowed.stagedName := File(content)]);
      stop := Cancelled();
      if stop {
        return Err("cancelled");
      }
      if d.sha(content) != Lower(allowed.sha256) {
        return Err("SHA-256 mismatch");
      }
      return Ok(d.sha(content));
    }

    /** The loop over the allowed files, into an empty staging tree.  `archive` maps entry names to their
        content; a zip lists the content's size. */
    method ExtractAll(archive: map<string, Content>, manifest: Manifest)
      returns (r: Result<seq<ProvenanceFile>, string>)
      requires d.Valid() && staging == Some(map[])
      modifies this`calls, this`staging
      ensures staging.Some? && old(calls) <= calls
      ensures r.Ok? && DistinctNames(manifest.allowedFiles) ==>
                Extracted(staging.value, manifest.allowedFiles, r.value, d)
      ensures r.Ok? ==> Supplies(archive, manifest)
      ensures Smooth(old(calls)) && Supplies(archive, manifest) ==> r.Ok?
    {
      var verified := [];
      var files := manifest.allowedFiles;
      for i := 0 to |files|
        invariant staging.Some? && |verified| == i && old(calls) <= calls
        invariant forall j | 0 <= j < i :: SuppliesFile(archive, manifest, files[j])
        invariant DistinctNames(files) ==> Extracted(staging.value, files[..i], verified, d)
      {
        ghost var before := staging.value;
        var hash := ExtractOne(archive, manifest, files[i]);
        if hash.Err? {
          return Err(hash.error);
        }
        if DistinctNames(files) {
          StagedOneMore(before, files, i, verified, archive[EntryName(manifest, files[i])], d);
        }
        verified := verified + [ProvenanceFile(files[i].stagedName, files[i].size, hash.value)];
      }
      assert files[..|files|] == files;
      return Ok(verified);
    }

    /** Clears the staging tree and fills it. */
    method Extract(archive: map<string, Content>, manifest: Manifest)
      returns (r: Result<seq<ProvenanceFile>, string>)
      requires d.Valid()
      modifies this`calls, this`staging
      ensures r.Ok? && DistinctNames(manifest.allowedFiles) ==>
                staging.Some? && Extracted(staging.value, manifest.allowedFiles, r.value, d)
      ensures r.Ok? ==> staging.Some? && Supplies(archive, manifest)
      ensures old(calls) <= calls && (Smooth(old(calls)) && Supplies(archive, manifest) ==> r.Ok?)
    {
      var stop := Cancelled();
      if stop {
        return Err("cancelled");
      }
      var ok := Attempt();
      if !ok {
        return Err("clear staging tree");
      }
      staging := None;
      ok := Attempt();
      if !ok {
        return Err("create staging tree");
      }
      staging := Some(map[]);
      r := ExtractAll(archive, manifest);
    }

    /** Every change to the directories is a point a crash could freeze. */
    ghost method Record(outgoing: Option<Tree>, incoming: Option<Tree>, stamp: nat)
      requires AlwaysCrashSafe(history, outgoing, incoming, stamp) && CrashSafe(Now(), outgoing, incoming, stamp)
      modifies this`history
      ensures history == old(history) + [Now()] && AlwaysCrashSafe(history, outgoing, incoming, stamp)
    {
      history := history + [Now()];
    }

    /** Moves the staged tree to the destination, keeping the old one as a backup until it is there. */
    method Publish(stamp: nat) returns (r: Result<(), string>)
      requires staging.Some? && history == [Now()]
      modifies this`calls, this`staging, this`dest, this`backups, this`history
      ensures r.Ok? ==> dest == old(staging) && staging.None?
      ensures r.Err? ==> staging == old(staging)
      ensures backups - {stamp} == old(backups) - {stamp}
      ensures var call := old(calls);
              old(dest).Some? && stamp !in old(backups) && !fails(call) && !fails(call + 1) ==>
                && (r.Ok? <==> !fails(call + 2))
                && (r.Ok? ==> (stamp in backups <==> fails(call + 3)))
                && (r.Err? ==> (dest == old(dest) && stamp !in backups) || (fails(call + 3) && dest.None?))
      ensures r.Err? && old(dest).Some? ==> dest == old(dest) || (dest.None? && Survives(old(dest).value, Now(), stamp))
      ensures AlwaysCrashSafe(history, old(dest), old(staging), stamp)
      ensures history != [] && old(history) <= history && history[|history| - 1] == Now()
      ensures old(calls) <= calls && (Smooth(old(calls)) && stamp !in old(backups) ==> r.Ok?)
    {
      ghost var outgoing, incoming := dest, staging;
      var ok := Attempt();
      if !ok {
        return Err("create managed parent");
      }
      if dest.Some? {
        ok := Attempt();
        if !ok || stamp in backups {
          return Err("backup existing managed runtime");
        }
        dest, backups := None, backups[stamp := dest.value];
        Record(outgoing, incoming, stamp);
      }
      r := MoveIntoPlace(stamp, outgoing);
    }

    /** The second rename, with its clean-up or its way back. */
    method MoveIntoPlace(stamp: nat, ghost outgoing: Option<Tree>) returns (r: Result<(), string>)
      requires staging.Some? && dest.None? && (outgoing.Some? ==> Survives(outgoing.value, Now(), stamp))
      requires history != [] && history[|history| - 1] == Now()
      requires AlwaysCrashSafe(history, outgoing, staging, stamp)
      modifies this`calls, this`staging, this`dest, this`backups, this`history
      ensures r.Ok? ==> dest == old(staging) && staging.None?
      ensures r.Err? ==> staging == old(staging)
      ensures backups - {stamp} == old(backups) - {stamp}
      ensures r.Ok? ==> (stamp in backups <==> stamp in old(backups) && fails(old(calls) + 1))
      ensures r.Err? && stamp in old(backups) ==>
                if fails(old(calls) + 1) then dest == old(dest) && backups == old(backups)
                else dest == Some(old(backups)[stamp]) && stamp !in backups
      ensures r.Err? && outgoing.Some? ==> dest == outgoing || (dest.None? && Survives(outgoing.value, Now(), stamp))
      ensures AlwaysCrashSafe(history, outgoing, old(staging), stamp)
      ensures history != [] && old(history) <= history && history[|history| - 1] == Now()
      ensures old(calls) < calls && (r.Ok? <==> !fails(old(calls)))
    {
      ghost var incoming := staging;
      var ok := Attempt();
      if ok {
        dest, staging := staging, None;
        Record(outgoing, incoming, stamp);
        ok := Attempt();
        if ok {
          backups := backups - {stamp};
          Record(outgoing, incoming, stamp);
        }
        return Ok(());
      }
      if stamp in backups && dest.None? {
        ok := Attempt();
        if ok {
          dest, backups := Some(backups[stamp]), backups - {stamp};
          Record(outgoing, incoming, stamp);
        }
      }
      return Err("publish managed runtime");
    }

    /** Extracts, writes the provenance and verifies; the verification can refuse only a manifest that
        repeats a name, claims the provenance file's own name, or lacks ffmpeg.exe. */
    method Stage(archive: map<string, Content>, manifest: Manifest, manifestSha256: string)
      returns (r: Result<(), string>)
      requires d.Valid()
      modifies this`calls, this`staging
      ensures r.Ok? ==> Supplies(archive, manifest)
      ensures r.Ok? ==> staging.Some? && Acceptable(staging.value, manifest, manifestSha256, d)
      ensures r == Err("verify") ==> !Sound(manifest)
      ensures old(calls) <= calls
      ensures Smooth(old(calls)) && Supplies(archive, manifest) ==> r.Ok? || r == Err("verify")
    {
      var files := Extract(archive, manifest);
      if files.Err? {
        return Err("extract");
      }
      var ok := Attempt();
      if !ok {
        return Err("write PROVENANCE.json");
      }
      if DistinctNames(manifest.allowedFiles) && PROVENANCE !in Names(manifest.allowedFiles) {
        InstalledTreeIsAcceptable(staging.value, manifest, manifestSha256, files.value, d);
      }
      staging := Some(staging.value[PROVENANCE := File(Json(ProvenanceFor(manifest, manifestSha256, files.value)))]);
      var listing := ReadDir(staging.value);
      var verified := VerifyManagedRuntime(staging, listing, manifest, manifestSha256, d);
      return if verified.Ok? then Ok(()) else Err("verify");
    }

    /** The whole installation.  `archiveSize` and `archiveSha` are those of the downloaded archive,
        `mayPublish` the controller's last word before the point of no return; `publishCall` is the number
        of the first call after it, right before which nobody had cancelled.  Until then the
        destination is untouched; from then on every crash point keeps the old tree or has the new,
        verified one in place.  With a good manifest and archive, no cancellation and no failing call,
        the installation succeeds. */
    method Install(archive: map<string, Content>, archiveSize: nat, archiveSha: string, manifest: Manifest,
                   manifestSha256: string, mayPublish: bool, stamp: nat)
      returns (r: Result<(), string>, ghost publishing: bool, ghost publishCall: nat)
      requires d.Valid()
      modifies this
      ensures publishing ==> old(calls) < publishCall <= calls && !cancels(old(calls)) && !cancels(publishCall - 1)
      ensures r.Ok? ==> publishing && dest.Some? && Acceptable(dest.value, manifest, manifestSha256, d)
      ensures publishing ==>
                && mayPublish && archiveSize == manifest.archiveSize && archiveSha == Lower(manifest.archiveSha256)
                && Supplies(archive, manifest)
      ensures !publishing ==> dest == old(dest) && backups == old(backups)
      ensures (&& Sound(manifest) && Supplies(archive, manifest) && mayPublish
               && archiveSize == manifest.archiveSize && archiveSha == Lower(manifest.archiveSha256)
               && Smooth(old(calls)) && stamp !in old(backups)) ==> r.Ok?
      ensures publishing && r.Err? && old(dest).Some? ==>
                dest == old(dest) || (dest.None? && Survives(old(dest).value, Now(), stamp))
      ensures publishing ==>
                && history != [] && history[0].staging.Some?
                && Acceptable(history[0].staging.value, manifest, manifestSha256, d)
                && AlwaysCrashSafe(history, old(dest), history[0].staging, stamp)
    {
      publishing, publishCall := false, calls;
      var stop := Cancelled();
      if stop {
        return Err("cancelled"), publishing, publishCall;
      }
      if archiveSize != manifest.archiveSize {
        return Err("archive size mismatch"), publishing, publishCall;
      }
      if archiveSha != Lower(manifest.archiveSha256) {
        return Err("archive SHA-256 mismatch"), publishing, publishCall;
      }
      r := Stage(archive, manifest, manifestSha256);
      if r.Err? {
        return r, publishing, publishCall;
      }
      stop := Cancelled();
      if stop || !mayPublish {
        return Err("cancelled"), publishing, publishCall;
      }
      publishing, publishCall := true, calls;
      history := [Now()];
      r := Publish(stamp);
    }
  }

  lemma StagedOneMore(tree: Tree, files: seq<AllowedFile>, i: nat, records: seq<ProvenanceFile>,
                      content: Content, d: Digest)
    requires i < |files| && DistinctNames(files) && d.Valid()
    requires Extracted(tree, files[..i], records, d)
    requires d.size(content) == files[i].size && d.sha(content) == Lower(files[i].sha256)
    ensures Extracted(tree[files[i].stagedName := File(content)], files[..i + 1],
                      records + [ProvenanceFile(files[i].stagedName, files[i].size, d.sha(content))], d)
  {
    var file := files[i];
    var more := tree[file.stagedName := File(content)];
    assert files[..i + 1] == files[..i] + [file];
    assert Names(files[..i + 1]) == Names(files[..i]) + {file.stagedName};
    forall f | f in files[..i + 1] ensures FileMatches(more, f, d) {
      if f in files[..i] {
        var j :| 0 <= j < i && files[j] == f;
        assert FileMatches(tree, f, d);
      }
    }
    assert Lower(d.sha(content)) == Lower(file.sha256);
  }
}
