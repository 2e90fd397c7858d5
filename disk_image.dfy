/** The disk-image builder: which files end up in the image's manifest
    (the mtree written as METALOG), where they come from and with which
    mode, the makefs options, and the default image path. */
module DiskImage {
  import opened Wrappers
  import opened Strs
  import opened Paths

  /** One manifest line: a file copied from `source`, or a directory. */
  datatype Entry =
    | File(source: string, user: string, group: string, mode: Option<string>)
    | Directory(reference: string)

  /** What the build finds on the host: regular files, directories, and
      the regular files whose first four bytes are the ELF magic. */
  datatype Host = Host(files: set<string>, dirs: set<string>, elf: set<string>)

  predicate Exists(host: Host, p: string) {
    p in host.files || p in host.dirs
  }

  predicate IsElf(host: Host, p: string) {
    p in host.files && p in host.elf
  }

  /** The project's settings that the file-selection code reads. */
  datatype Settings = Settings(
    extraFilesDir: string,
    rootfsDir: string,
    tmpdir: string,
    sdkBindir: string,
    stripBinaries: bool,
    isMinimal: bool,
    bigEndian: bool,
    pretend: bool,
    force: bool)

  /** A directory path as `pathlib` prints it: not empty, no trailing "/". */
  predicate DirOk(d: string) {
    d != "" && !EndsWith(d, "/")
  }

  predicate ValidSettings(s: Settings) {
    DirOk(s.extraFilesDir) && DirOk(s.rootfsDir) && DirOk(s.tmpdir)
  }

  /** Everything the builder accumulates: the pending user-provided files,
      the manifest, the commands it ran, the files it wrote (path to
      contents and mode) and the fatal errors pretend mode went past. */
  datatype Image = Image(
    extraFiles: seq<string>,
    mtree: map<string, Entry>,
    commands: seq<seq<string>>,
    generated: map<string, (string, Option<string>)>,
    fatals: seq<string>)

  /** `os.path.relpath(file, base)` for a file below `base`, the base itself,
      or (standing for the chain of ".." the real function builds) a path
      that starts with "..". */
  function RelPath(file: string, base: string): string {
    if file == base then "."
    else if StartsWith(file, base + "/") then file[|base| + 1..]
    else "../" + file
  }

  /** `relpath` undoes joining a relative path onto a directory. */
  lemma RelPathOfJoin(base: string, rel: string)
    requires DirOk(base) && rel != "" && !IsAbsolute(rel)
    ensures PathJoin(base, rel) == base + "/" + rel
    ensures RelPath(PathJoin(base, rel), base) == rel
  {
    var f := base + "/" + rel;
    assert f[..|base + "/"|] == base + "/";
    assert f[|base| + 1..] == rel;
  }

  /** A file outside the base directory gets a path that starts with "..". */
  lemma RelPathOutside(file: string, base: string)
    requires file != base && !StartsWith(file, base + "/")
    ensures StartsWith(RelPath(file, base), "..")
  {
  }

  /** The path inside the image for `add_file_to_image`: the explicit one,
      else the path relative to the base directory; a path leading out of
      the image is a failed assertion. */
  function TargetPath(file: string, base: string, pathInTarget: Option<string>): (r: Result<string>)
    ensures r.Ok? ==> !StartsWith(r.value, "..")
  {
    var t := if pathInTarget.Some? then pathInTarget.value else RelPath(file, base);
    if StartsWith(t, "..") then Err("AssertionError: " + t) else Ok(t)
  }

  /** A relative path below the base is accepted as the path in the image. */
  lemma TargetBelowBase(base: string, rel: string)
    requires DirOk(base) && rel != "" && !IsAbsolute(rel) && !StartsWith(rel, "..")
    ensures TargetPath(PathJoin(base, rel), base, None) == Ok(rel)
  {
    RelPathOfJoin(base, rel);
  }

  /** A file outside the base is refused. */
  lemma TargetOutsideBase(file: string, base: string)
    requires file != base && !StartsWith(file, base + "/")
    ensures TargetPath(file, base, None).Err?
  {
    RelPathOutside(file, base);
  }

  /** The file the manifest takes `file` from: with stripping on, an ELF
      file is replaced by its stripped copy under the temporary directory. */
  function Installed(s: Settings, host: Host, file: string, target: string): string {
    if s.stripBinaries && IsElf(host, file) then PathJoin(s.tmpdir, target) else file
  }

  function StripCommands(s: Settings, host: Host, file: string, target: string): seq<seq<string>> {
    if s.stripBinaries && IsElf(host, file) then
      [[PathJoin(s.sdkBindir, "llvm-strip"), file, "-o", PathJoin(s.tmpdir, target)]]
    else []
  }

  /** `add_file_to_image`: record the file under its path in the image and
      take the added file off the list of pending user-provided files. */
  function AddFile(s: Settings, host: Host, im: Image, file: string, base: string,
                   pathInTarget: Option<string>, user: string, group: string,
                   mode: Option<string>): (r: Result<Image>)
    ensures r.Ok? <==> TargetPath(file, base, pathInTarget).Ok?
  {
    match TargetPath(file, base, pathInTarget)
    case Err(m) => Err(m)
    case Ok(t) =>
      Ok(im.(mtree := im.mtree[t := File(Installed(s, host, file, t), user, group, mode)],
             extraFiles := RemoveFirst(im.extraFiles, file),
             commands := im.commands + StripCommands(s, host, file, t)))
  }

  /** The manifest gains exactly the one entry; the generated files and
      fatal errors are untouched. */
  lemma AddFileRecords(s: Settings, host: Host, im: Image, file: string, base: string,
                       pathInTarget: Option<string>, user: string, group: string,
                       mode: Option<string>)
    requires AddFile(s, host, im, file, base, pathInTarget, user, group, mode).Ok?
    ensures var r := AddFile(s, host, im, file, base, pathInTarget, user, group, mode).value;
      var t := TargetPath(file, base, pathInTarget).value;
      r.mtree.Keys == im.mtree.Keys + {t}
      && r.mtree[t] == File(Installed(s, host, file, t), user, group, mode)
      && (forall k :: k in im.mtree && k != t ==> r.mtree[k] == im.mtree[k])
      && r.generated == im.generated && r.fatals == im.fatals
  {
  }

  /** An added user-provided file is no longer pending, so it is not
      installed a second time; nothing else leaves the pending list. */
  lemma AddFileUnpends(s: Settings, host: Host, im: Image, file: string, base: string,
                       pathInTarget: Option<string>, user: string, group: string,
                       mode: Option<string>)
    requires Distinct(im.extraFiles)
    requires AddFile(s, host, im, file, base, pathInTarget, user, group, mode).Ok?
    ensures var r := AddFile(s, host, im, file, base, pathInTarget, user, group, mode).value;
      file !in r.extraFiles && Distinct(r.extraFiles)
      && multiset(r.extraFiles) == multiset(im.extraFiles) - multiset{file}
  {
    RemoveFromDistinct(im.extraFiles, file);
    if file in im.extraFiles {
      RemoveFirstMultiset(im.extraFiles, file);
    }
  }

  /** The removal as written: it looks for the file actually installed,
      which is the stripped copy once stripping has replaced it. */
  function AddFileAsWritten(s: Settings, host: Host, im: Image, file: string, base: string,
                            pathInTarget: Option<string>, user: string, group: string,
                            mode: Option<string>): (r: Result<Image>)
    ensures r.Ok? <==> TargetPath(file, base, pathInTarget).Ok?
  {
    match TargetPath(file, base, pathInTarget)
    case Err(m) => Err(m)
    case Ok(t) =>
      var installed := Installed(s, host, file, t);
      Ok(im.(mtree := im.mtree[t := File(installed, user, group, mode)],
             extraFiles := RemoveFirst(im.extraFiles, installed),
             commands := im.commands + StripCommands(s, host, file, t)))
  }

  /** A pending user-provided ELF file that gets stripped stays pending as
      written, so the final pass over the pending files installs it again;
      the corrected `AddFile` takes it off the list. */
  lemma StrippedExtraFileStaysPending(s: Settings, host: Host, im: Image, file: string, base: string)
    requires s.stripBinaries && IsElf(host, file)
    requires TargetPath(file, base, None).Ok?
    requires file in im.extraFiles
    requires PathJoin(s.tmpdir, TargetPath(file, base, None).value) !in im.extraFiles
    ensures file in AddFileAsWritten(s, host, im, file, base, None, "root", "wheel", None).value.extraFiles
    ensures multiset(AddFile(s, host, im, file, base, None, "root", "wheel", None).value.extraFiles)[file]
      == multiset(im.extraFiles)[file] - 1
  {
    RemoveFirstMultiset(im.extraFiles, file);
  }

  /** A directory as `os.walk` sees it: its own files, then its
      subdirectories in listing order. */
  datatype Tree = Node(name: string, files: seq<string>, children: seq<Tree>)

  /** The directory names `add_all_files_in_dir` does not descend into. */
  predicate IsPruned(n: string) {
    n == ".svn" || n == ".git" || n == ".idea"
  }

  function Singletons(names: seq<string>): (r: seq<seq<string>>)
    ensures |r| == |names|
    ensures forall k :: 0 <= k < |r| ==> r[k] == [names[k]]
  {
    if |names| == 0 then [] else [[names[0]]] + Singletons(names[1..])
  }

  function Prefixed(n: string, paths: seq<seq<string>>): (r: seq<seq<string>>)
    ensures |r| == |paths|
    ensures forall k :: 0 <= k < |r| ==> r[k] == [n] + paths[k]
  {
    if |paths| == 0 then [] else [[n] + paths[0]] + Prefixed(n, paths[1..])
  }

  /** The files `os.walk` reports below `t`, each as the list of path
      components relative to `t`, in the order the walk visits them; with
      `prune`, the pruned directories are not entered. */
  function Walk(t: Tree, prune: bool): (r: seq<seq<string>>)
    ensures |t.files| <= |r| && forall k :: 0 <= k < |t.files| ==> r[k] == [t.files[k]]
    decreases t, |t.children| + 1
  {
    Singletons(t.files) + WalkChildren(t, 0, prune)
  }

  function WalkChildren(t: Tree, i: nat, prune: bool): seq<seq<string>>
    decreases t, |t.children| - i
  {
    if i >= |t.children| then []
    else
      var c := t.children[i];
      (if prune && IsPruned(c.name) then [] else Prefixed(c.name, Walk(c, prune)))
      + WalkChildren(t, i + 1, prune)
  }

  /** The tree holds a file at the relative path `q`. */
  predicate FileAt(t: Tree, q: seq<string>)
    decreases |q|
  {
    if |q| == 1 then q[0] in t.files
    else |q| > 1 && exists i :: 0 <= i < |t.children| && t.children[i].name == q[0] && FileAt(t.children[i], q[1..])
  }

  /** No directory on the path is a pruned one (the file name itself may be). */
  predicate Clean(q: seq<string>) {
    forall j :: 0 <= j < |q| - 1 ==> !IsPruned(q[j])
  }

  /** Everything the walk reports is a file of the tree, and below a pruned
      directory only when not pruning. */
  lemma {:induction false} WalkSound(t: Tree, prune: bool, q: seq<string>)
    requires q in Walk(t, prune)
    ensures FileAt(t, q) && (prune ==> Clean(q))
    decreases t, |t.children| + 1
  {
    var fs := Singletons(t.files);
    if q in fs {
      var k :| 0 <= k < |fs| && fs[k] == q;
      assert q[0] == t.files[k];
    } else {
      assert q in WalkChildren(t, 0, prune);
      WalkChildrenSound(t, 0, prune, q);
    }
  }

  lemma {:induction false} WalkChildrenSound(t: Tree, i: nat, prune: bool, q: seq<string>)
    requires q in WalkChildren(t, i, prune)
    ensures FileAt(t, q) && (prune ==> Clean(q))
    decreases t, |t.children| - i
  {
    var c := t.children[i];
    var here := if prune && IsPruned(c.name) then [] else Prefixed(c.name, Walk(c, prune));
    if q in here {
      var k :| 0 <= k < |here| && here[k] == q;
      var q' := Walk(c, prune)[k];
      assert q == [c.name] + q';
      WalkSound(c, prune, q');
      assert q[1..] == q';
      assert |q'| >= 1;
      assert FileAt(c, q[1..]);
      if prune {
        forall j | 0 <= j < |q| - 1 ensures !IsPruned(q[j]) {
          if j > 0 { assert q[j] == q'[j - 1]; }
        }
      }
    } else {
      WalkChildrenSound(t, i + 1, prune, q);
    }
  }

  /** Every file of the tree is reported, unless pruning hides it. */
  lemma {:induction false} WalkComplete(t: Tree, prune: bool, q: seq<string>)
    requires FileAt(t, q) && (prune ==> Clean(q))
    ensures q in Walk(t, prune)
    decreases |q|
  {
    if |q| == 1 {
      var k :| 0 <= k < |t.files| && t.files[k] == q[0];
      assert Singletons(t.files)[k] == q;
    } else {
      var i :| 0 <= i < |t.children| && t.children[i].name == q[0] && FileAt(t.children[i], q[1..]);
      var c := t.children[i];
      assert prune ==> Clean(q[1..]) by {
        if prune {
          forall j | 0 <= j < |q[1..]| - 1 ensures !IsPruned(q[1..][j]) {
            assert q[1..][j] == q[j + 1];
          }
        }
      }
      WalkComplete(c, prune, q[1..]);
      var w := Walk(c, prune);
      var k :| 0 <= k < |w| && w[k] == q[1..];
      assert prune ==> !IsPruned(c.name);
      assert q == [c.name] + q[1..];
      assert Prefixed(c.name, w)[k] == q;
      WalkChildrenHas(t, 0, i, prune, q);
    }
  }

  lemma {:induction false} WalkChildrenHas(t: Tree, i: nat, m: nat, prune: bool, q: seq<string>)
    requires i <= m < |t.children|
    requires !(prune && IsPruned(t.children[m].name))
    requires q in Prefixed(t.children[m].name, Walk(t.children[m], prune))
    ensures q in WalkChildren(t, i, prune)
    decreases m - i
  {
    var c := t.children[i];
    var here := if prune && IsPruned(c.name) then [] else Prefixed(c.name, Walk(c, prune));
    assert WalkChildren(t, i, prune) == here + WalkChildren(t, i + 1, prune);
    if i < m {
      WalkChildrenHas(t, i + 1, m, prune, q);
    } else {
      assert q in here;
    }
  }

  /** Where a run of steps got to: the state so far, and the error that
      stopped it, if any. */
  datatype Step = Step(image: Image, error: Option<string>)

  function Lift(im: Image, r: Result<Image>): (st: Step)
    ensures st.error.None? <==> r.Ok?
  {
    match r
    case Ok(im') => Step(im', None)
    case Err(m) => Step(im, Some(m))
  }

  /** `createFileForImage`'s path: one leading "/" is dropped. */
  function ImagePath(pathInImage: string): (r: string)
    ensures |r| + 1 >= |pathInImage|
  {
    if StartsWith(pathInImage, "/") then pathInImage[1..] else pathInImage
  }

  /** `writeFile` without overwriting: nothing is written in pretend mode,
      and an existing target is fatal. */
  function WriteFile(s: Settings, host: Host, im: Image, target: string, contents: string,
                     mode: Option<string>): (r: Result<Image>)
    ensures r.Ok? && !s.pretend ==> r.value.generated == im.generated[target := (contents, mode)]
    ensures r.Ok? && s.pretend ==> r.value == im
  {
    if s.pretend then Ok(im)
    else if Exists(host, target) || target in im.generated then Err("File " + target + " already exists!")
    else Ok(im.(generated := im.generated[target := (contents, mode)]))
  }

  /** `createFileForImage`: a user-provided file in the extra-files directory
      wins (and stops being pending); otherwise the contents are written
      under the temporary directory; either way the file is added at the
      same path in the image. */
  function CreateFile(s: Settings, host: Host, im: Image, pathInImage: string, contents: string,
                      mode: Option<string>): (st: Step)
    ensures st.error.None? ==> !StartsWith(ImagePath(pathInImage), "/")
  {
    var p := ImagePath(pathInImage);
    if StartsWith(p, "/") then Step(im, Some("AssertionError: " + p))
    else
      var userProvided := PathJoin(s.extraFilesDir, p);
      if userProvided in host.files then
        if userProvided !in im.extraFiles then Step(im, Some("ValueError: list.remove(x): x not in list"))
        else
          var im1 := im.(extraFiles := RemoveFirst(im.extraFiles, userProvided));
          Lift(im1, AddFile(s, host, im1, userProvided, s.extraFilesDir, None, "root", "wheel", None))
      else if userProvided in im.extraFiles then Step(im, Some("AssertionError: " + userProvided))
      else
        var target := PathJoin(s.tmpdir, p);
        match WriteFile(s, host, im, target, contents, mode)
        case Err(m) => Step(im, Some(m))
        case Ok(im1) => Lift(im1, AddFile(s, host, im1, target, s.tmpdir, None, "root", "wheel", None))
  }

  /** A path suitable for `createFileForImage` once its leading "/" is gone. */
  predicate PlainPath(p: string) {
    p != "" && !IsAbsolute(p) && !StartsWith(p, "..")
  }

  /** A user-provided file is used instead of generating one, and it is no
      longer pending afterwards. */
  lemma CreateFromUserFile(s: Settings, host: Host, im: Image, pathInImage: string, contents: string,
                           mode: Option<string>)
    requires ValidSettings(s) && Distinct(im.extraFiles)
    requires PlainPath(ImagePath(pathInImage))
    requires PathJoin(s.extraFilesDir, ImagePath(pathInImage)) in host.files
    requires PathJoin(s.extraFilesDir, ImagePath(pathInImage)) in im.extraFiles
    ensures var st := CreateFile(s, host, im, pathInImage, contents, mode);
      var p := ImagePath(pathInImage);
      var u := PathJoin(s.extraFilesDir, p);
      st.error.None? && st.image.mtree[p] == File(Installed(s, host, u, p), "root", "wheel", None)
      && u !in st.image.extraFiles && st.image.generated == im.generated
  {
    var p := ImagePath(pathInImage);
    var u := PathJoin(s.extraFilesDir, p);
    TargetBelowBase(s.extraFilesDir, p);
    RemoveFromDistinct(im.extraFiles, u);
    var im1 := im.(extraFiles := RemoveFirst(im.extraFiles, u));
    assert u !in RemoveFirst(im1.extraFiles, u);
  }

  /** Without a user-provided file the contents are written under the
      temporary directory and that file is added. */
  lemma CreateGenerated(s: Settings, host: Host, im: Image, pathInImage: string, contents: string,
                        mode: Option<string>)
    requires ValidSettings(s) && !s.pretend
    requires PlainPath(ImagePath(pathInImage))
    requires PathJoin(s.extraFilesDir, ImagePath(pathInImage)) !in host.files
    requires PathJoin(s.extraFilesDir, ImagePath(pathInImage)) !in im.extraFiles
    requires !Exists(host, PathJoin(s.tmpdir, ImagePath(pathInImage)))
    requires PathJoin(s.tmpdir, ImagePath(pathInImage)) !in im.generated
    ensures var st := CreateFile(s, host, im, pathInImage, contents, mode);
      var p := ImagePath(pathInImage);
      var target := PathJoin(s.tmpdir, p);
      st.error.None? && st.image.generated == im.generated[target := (contents, mode)]
      && st.image.mtree[p] == File(Installed(s, host, target, p), "root", "wheel", None)
  {
    TargetBelowBase(s.tmpdir, ImagePath(pathInImage));
  }

  /** A user-provided file that is no longer pending, or a pending one that
      is not a file, stops the build. */
  lemma CreateRefused(s: Settings, host: Host, im: Image, pathInImage: string, contents: string,
                      mode: Option<string>)
    requires !StartsWith(ImagePath(pathInImage), "/")
    requires PathJoin(s.extraFilesDir, ImagePath(pathInImage)) in host.files
      <==> PathJoin(s.extraFilesDir, ImagePath(pathInImage)) !in im.extraFiles
    ensures CreateFile(s, host, im, pathInImage, contents, mode) == Step(im, CreateFile(s, host, im, pathInImage, contents, mode).error)
    ensures CreateFile(s, host, im, pathInImage, contents, mode).error.Some?
  {
  }

  function MissingFromRootfs(line: string): string {
    "Required file " + line + " missing from rootfs"
  }

  /** One line of a files list: comments and blank lines are skipped, an
      absolute path is a failed assertion, a missing file is fatal, a
      directory is recorded as such and anything else is added relative to
      the rootfs. */
  function ProcessLine(s: Settings, host: Host, im: Image, raw: string): (st: Step)
    ensures st.image.extraFiles == RemoveFirst(im.extraFiles, PathJoin(s.rootfsDir, Strip(raw)))
      || st.image.extraFiles == im.extraFiles
  {
    var line := Strip(raw);
    if StartsWith(line, "#") || line == "" then Step(im, None)
    else if StartsWith(line, "/") then Step(im, Some("AssertionError: " + line))
    else
      var fp := PathJoin(s.rootfsDir, line);
      if !Exists(host, fp) && !s.pretend then Step(im, Some(MissingFromRootfs(line)))
      else
        var im1 := if Exists(host, fp) then im else im.(fatals := im.fatals + [MissingFromRootfs(line)]);
        if fp in host.dirs then Step(im1.(mtree := im1.mtree[line := Directory(fp)]), None)
        else Lift(im1, AddFile(s, host, im1, fp, s.rootfsDir, None, "root", "wheel", None))
  }

  /** Comments and blank lines change nothing. */
  lemma LineSkipped(s: Settings, host: Host, im: Image, raw: string)
    requires StartsWith(Strip(raw), "#") || Strip(raw) == ""
    ensures ProcessLine(s, host, im, raw) == Step(im, None)
  {
  }

  /** A listed file that is missing stops the build, except in pretend mode,
      where the error is recorded and the file is still listed. */
  lemma LineMissing(s: Settings, host: Host, im: Image, raw: string)
    requires ValidSettings(s)
    requires PlainPath(Strip(raw)) && !StartsWith(Strip(raw), "#")
    requires !Exists(host, PathJoin(s.rootfsDir, Strip(raw)))
    ensures var st := ProcessLine(s, host, im, raw);
      (!s.pretend ==> st == Step(im, Some(MissingFromRootfs(Strip(raw)))))
      && (s.pretend ==> st.error.None? && st.image.fatals == im.fatals + [MissingFromRootfs(Strip(raw))]
                        && Strip(raw) in st.image.mtree)
  {
    TargetBelowBase(s.rootfsDir, Strip(raw));
  }

  /** A listed file is in the manifest under the listed path, taken from the
      rootfs; a listed directory is recorded as a directory. */
  lemma LineAdded(s: Settings, host: Host, im: Image, raw: string)
    requires ValidSettings(s)
    requires PlainPath(Strip(raw)) && !StartsWith(Strip(raw), "#")
    requires Exists(host, PathJoin(s.rootfsDir, Strip(raw)))
    ensures var st := ProcessLine(s, host, im, raw);
      var line := Strip(raw);
      var fp := PathJoin(s.rootfsDir, line);
      st.error.None? && st.image.fatals == im.fatals
      && st.image.mtree[line] == (if fp in host.dirs then Directory(fp)
                                  else File(Installed(s, host, fp, line), "root", "wheel", None))
  {
    TargetBelowBase(s.rootfsDir, Strip(raw));
  }

  /** The private and public host key files `generateSshHostKeys` adds. */
  function KeyName(keyType: string): string {
    if keyType == "rsa1" then "ssh_host_key" else "ssh_host_" + keyType + "_key"
  }

  const KeyTypes: seq<string> := ["rsa", "dsa", "ecdsa", "ed25519"]

  function SshDir(s: Settings): string {
    PathJoin(s.extraFilesDir, "etc/ssh")
  }

  function KeygenCommand(keyType: string, privateKey: string): (r: seq<string>)
    ensures |r| == 7 && r[0] == "ssh-keygen" && r[1..3] == ["-t", keyType]
    ensures r[3..5] == ["-N", ""] && r[5..] == ["-f", privateKey]
  {
    ["ssh-keygen", "-t", keyType, "-N", "", "-f", privateKey]
  }

  /** One key type: generate the key pair unless the private key exists, then
      add the private key with mode 0600 and the public key with mode 0644. */
  function KeyStep(s: Settings, host: Host, im: Image, keyType: string): (st: Step)
    ensures st.image.fatals == im.fatals && st.image.generated == im.generated
  {
    var priv := PathJoin(SshDir(s), KeyName(keyType));
    var pub := PathJoin(SshDir(s), KeyName(keyType) + ".pub");
    var im0 := if priv in host.files then im else im.(commands := im.commands + [KeygenCommand(keyType, priv)]);
    match AddFile(s, host, im0, priv, s.extraFilesDir, None, "root", "wheel", Some("0600"))
    case Err(m) => Step(im0, Some(m))
    case Ok(im1) => Lift(im1, AddFile(s, host, im1, pub, s.extraFilesDir, None, "root", "wheel", Some("0644")))
  }

  lemma SshDirJoin(s: Settings, n: string)
    requires ValidSettings(s) && n != "" && !IsAbsolute(n)
    ensures PathJoin(SshDir(s), n) == PathJoin(s.extraFilesDir, "etc/ssh/" + n)
  {
    RelPathOfJoin(s.extraFilesDir, "etc/ssh");
    assert !EndsWith(s.extraFilesDir + "/" + "etc/ssh", "/");
    RelPathOfJoin(s.extraFilesDir, "etc/ssh/" + n);
    assert s.extraFilesDir + "/" + "etc/ssh" + "/" + n == s.extraFilesDir + "/" + ("etc/ssh/" + n);
  }

  /** Adding a file below the base directory records it under its relative
      path. */
  lemma AddBelow(s: Settings, host: Host, im: Image, base: string, rel: string, mode: Option<string>)
    requires DirOk(base) && PlainPath(rel)
    ensures var f := PathJoin(base, rel);
      var r := AddFile(s, host, im, f, base, None, "root", "wheel", mode);
      r.Ok? && r.value.mtree == im.mtree[rel := File(Installed(s, host, f, rel), "root", "wheel", mode)]
      && r.value.commands == im.commands + StripCommands(s, host, f, rel)
  {
    TargetBelowBase(base, rel);
  }

  lemma InSshDir(n: string)
    ensures PlainPath("etc/ssh/" + n)
  {
    var r := "etc/ssh/" + n;
    assert r[..1] == "e" && r[..2] == "et";
  }

  /** The two files a key step adds, as paths below the extra-files
      directory, and the state after the optional ssh-keygen run. */
  lemma KeyPaths(s: Settings, host: Host, im: Image, keyType: string)
    requires ValidSettings(s)
    ensures var n := KeyName(keyType);
      PathJoin(SshDir(s), n) == PathJoin(s.extraFilesDir, "etc/ssh/" + n)
      && PathJoin(SshDir(s), n + ".pub") == PathJoin(s.extraFilesDir, "etc/ssh/" + n + ".pub")
      && PlainPath("etc/ssh/" + n) && PlainPath("etc/ssh/" + n + ".pub")
      && "etc/ssh/" + n != "etc/ssh/" + n + ".pub"
  {
    var n := KeyName(keyType);
    assert "etc/ssh/" + (n + ".pub") == "etc/ssh/" + n + ".pub";
    InSshDir(n);
    InSshDir(n + ".pub");
    SshDirJoin(s, n);
    SshDirJoin(s, n + ".pub");
  }

  lemma KeyStepSucceeds(s: Settings, host: Host, im: Image, keyType: string)
    requires ValidSettings(s)
    ensures KeyStep(s, host, im, keyType).error.None?
  {
    KeyPairAdded(s, host, im, keyType);
  }

  /** Both halves of a key pair end up in etc/ssh of the image, the private
      key with mode 0600 and the public key with mode 0644. */
  lemma KeyPairAdded(s: Settings, host: Host, im: Image, keyType: string)
    requires ValidSettings(s)
    ensures var st := KeyStep(s, host, im, keyType);
      var rel := "etc/ssh/" + KeyName(keyType);
      st.error.None?
      && rel in st.image.mtree && st.image.mtree[rel].File? && st.image.mtree[rel].mode == Some("0600")
      && rel + ".pub" in st.image.mtree && st.image.mtree[rel + ".pub"].File?
      && st.image.mtree[rel + ".pub"].mode == Some("0644")
  {
    KeyPaths(s, host, im, keyType);
    var n := KeyName(keyType);
    var priv := PathJoin(SshDir(s), n);
    var im0 := if priv in host.files then im else im.(commands := im.commands + [KeygenCommand(keyType, priv)]);
    AddBelow(s, host, im0, s.extraFilesDir, "etc/ssh/" + n, Some("0600"));
    var im1 := AddFile(s, host, im0, priv, s.extraFilesDir, None, "root", "wheel", Some("0600")).value;
    AddBelow(s, host, im1, s.extraFilesDir, "etc/ssh/" + n + ".pub", Some("0644"));
  }

  /** ssh-keygen runs, before anything is stripped, when the private key is
      missing; with the key present and stripping off, nothing runs. */
  lemma KeygenWhenMissing(s: Settings, host: Host, im: Image, keyType: string)
    requires ValidSettings(s)
    ensures var st := KeyStep(s, host, im, keyType);
      var priv := PathJoin(SshDir(s), KeyName(keyType));
      |st.image.commands| >= |im.commands| && st.image.commands[..|im.commands|] == im.commands
      && (priv !in host.files ==> st.image.commands[|im.commands|] == KeygenCommand(keyType, priv))
      && (priv in host.files && !s.stripBinaries ==> st.image.commands == im.commands)
  {
    KeyPaths(s, host, im, keyType);
    var n := KeyName(keyType);
    var priv := PathJoin(SshDir(s), n);
    var pub := PathJoin(SshDir(s), n + ".pub");
    var keygen: seq<seq<string>> := if priv in host.files then [] else [KeygenCommand(keyType, priv)];
    var im0 := if priv in host.files then im else im.(commands := im.commands + keygen);
    assert im0.commands == im.commands + keygen;
    AddBelow(s, host, im0, s.extraFilesDir, "etc/ssh/" + n, Some("0600"));
    var im1 := AddFile(s, host, im0, priv, s.extraFilesDir, None, "root", "wheel", Some("0600")).value;
    AddBelow(s, host, im1, s.extraFilesDir, "etc/ssh/" + n + ".pub", Some("0644"));
    var s1 := StripCommands(s, host, priv, "etc/ssh/" + n);
    var s2 := StripCommands(s, host, pub, "etc/ssh/" + n + ".pub");
    CommandsAppended(im.commands, keygen, s1, s2);
  }

  lemma CommandsAppended(a: seq<seq<string>>, b: seq<seq<string>>, c: seq<seq<string>>, d: seq<seq<string>>)
    ensures var r := a + b + c + d;
      |r| >= |a| && r[..|a|] == a && (|b| > 0 ==> r[|a|] == b[0])
      && (b == [] && c == [] && d == [] ==> r == a)
  {
    var r := a + b + c + d;
    assert r == a + (b + c + d);
  }

  /** Rootfs paths that are added to the manifest whether listed or not. */
  predicate AlwaysAdded(t: string) {
    StartsWith(t, "usr/local/") || StartsWith(t, "opt/") || StartsWith(t, "extra/")
  }

  /** The walk over the rootfs in `add_unlisted_files_to_metalog`: files
      under usr/local/, opt/ and extra/ go straight into the manifest; other
      files missing from it, except METALOG itself, are collected as
      (file, path in image) pairs. */
  function Scan(root: string, mtree: map<string, Entry>, files: seq<string>)
    : (r: (map<string, Entry>, seq<(string, string)>))
    ensures mtree.Keys <= r.0.Keys
    decreases |files|
  {
    if |files| == 0 then (mtree, [])
    else
      var prev := Scan(root, mtree, files[..|files| - 1]);
      var f := files[|files| - 1];
      var t := RelPath(f, root);
      if AlwaysAdded(t) then (prev.0[t := File(f, "root", "wheel", None)], prev.1)
      else if t !in prev.0 && t != "METALOG" then (prev.0, prev.1 + [(f, t)])
      else prev
  }

  /** Only paths under usr/local/, opt/ and extra/ join the manifest during
      the walk. */
  lemma {:induction false} ScanAddsOnlyAlways(root: string, mtree: map<string, Entry>, files: seq<string>, k: string)
    requires k !in mtree && !AlwaysAdded(k)
    ensures k !in Scan(root, mtree, files).0
    decreases |files|
  {
    if |files| > 0 {
      ScanAddsOnlyAlways(root, mtree, files[..|files| - 1], k);
    }
  }

  /** Every file under usr/local/, opt/ or extra/ is in the manifest after the
      walk. */
  lemma {:induction false} ScanAddsAlways(root: string, mtree: map<string, Entry>, files: seq<string>, j: nat)
    requires j < |files| && AlwaysAdded(RelPath(files[j], root))
    ensures RelPath(files[j], root) in Scan(root, mtree, files).0
    decreases |files|
  {
    if j < |files| - 1 {
      assert files[..|files| - 1][j] == files[j];
      ScanAddsAlways(root, mtree, files[..|files| - 1], j);
    }
  }

  /** The collected files are exactly the walked files whose path is neither
      always added, nor already in the manifest, nor METALOG. */
  lemma {:induction false} ScanCollects(root: string, mtree: map<string, Entry>, files: seq<string>, j: nat)
    requires j < |files|
    ensures var t := RelPath(files[j], root);
      !AlwaysAdded(t) && t !in mtree && t != "METALOG" ==> (files[j], t) in Scan(root, mtree, files).1
    decreases |files|
  {
    var t := RelPath(files[j], root);
    if !AlwaysAdded(t) && t !in mtree && t != "METALOG" {
      var init := files[..|files| - 1];
      ScanKeepsPairs(root, mtree, files);
      if j < |files| - 1 {
        assert init[j] == files[j];
        ScanCollects(root, mtree, init, j);
      } else {
        ScanAddsOnlyAlways(root, mtree, init, t);
      }
    }
  }

  /** A step of the walk keeps the files collected before it. */
  lemma ScanKeepsPairs(root: string, mtree: map<string, Entry>, files: seq<string>)
    requires |files| > 0
    ensures forall p :: p in Scan(root, mtree, files[..|files| - 1]).1 ==> p in Scan(root, mtree, files).1
  {
  }

  lemma {:induction false} ScanCollectsOnly(root: string, mtree: map<string, Entry>, files: seq<string>, p: (string, string))
    requires p in Scan(root, mtree, files).1
    ensures p.0 in files && p.1 == RelPath(p.0, root)
    ensures !AlwaysAdded(p.1) && p.1 !in mtree && p.1 != "METALOG"
    decreases |files|
  {
    var init := files[..|files| - 1];
    if p in Scan(root, mtree, init).1 {
      ScanCollectsOnly(root, mtree, init, p);
      assert p.0 in init;
    }
  }

  /** Answering yes adds the collected files to the manifest. */
  function AddPairs(mtree: map<string, Entry>, pairs: seq<(string, string)>): (r: map<string, Entry>)
    ensures forall k :: 0 <= k < |pairs| ==> pairs[k].1 in r
    decreases |pairs|
  {
    if |pairs| == 0 then mtree
    else
      var prev := AddPairs(mtree, pairs[..|pairs| - 1]);
      prev[pairs[|pairs| - 1].1 := File(pairs[|pairs| - 1].0, "root", "wheel", None)]
  }

  /** `add_unlisted_files_to_metalog`: the walk, then the collected files
      when the question is answered yes. */
  function Unlisted(root: string, mtree: map<string, Entry>, files: seq<string>, addThem: bool): map<string, Entry> {
    var (m, pairs) := Scan(root, mtree, files);
    if |pairs| > 0 && addThem then AddPairs(m, pairs) else m
  }

  /** The steps whose runs stop at the first error. */
  datatype Op =
    | AddOp(file: string, base: string)
    | LineOp(raw: string)
    | KeyOp(keyType: string)

  function Apply(s: Settings, host: Host, im: Image, op: Op): Step {
    match op
    case AddOp(f, b) => Lift(im, AddFile(s, host, im, f, b, None, "root", "wheel", None))
    case LineOp(raw) => ProcessLine(s, host, im, raw)
    case KeyOp(t) => KeyStep(s, host, im, t)
  }

  /** The steps in order, stopping at the first error. */
  function Run(s: Settings, host: Host, im: Image, ops: seq<Op>): (st: Step)
    decreases |ops|
  {
    if |ops| == 0 then Step(im, None)
    else
      var prev := Run(s, host, im, ops[..|ops| - 1]);
      if prev.error.Some? then prev else Apply(s, host, prev.image, ops[|ops| - 1])
  }

  /** Once a step has failed, later steps change nothing. */
  lemma {:induction false} RunStops(s: Settings, host: Host, im: Image, ops: seq<Op>, i: nat)
    requires i <= |ops| && Run(s, host, im, ops[..i]).error.Some?
    ensures Run(s, host, im, ops) == Run(s, host, im, ops[..i])
    decreases |ops|
  {
    if i < |ops| {
      assert ops[..|ops| - 1][..i] == ops[..i];
      RunStops(s, host, im, ops[..|ops| - 1], i);
    } else {
      assert ops[..i] == ops;
    }
  }

  /** A run that succeeds has run every step successfully. */
  lemma {:induction false} RunCompletes(s: Settings, host: Host, im: Image, ops: seq<Op>, i: nat)
    requires i < |ops| && Run(s, host, im, ops).error.None?
    ensures Run(s, host, im, ops[..i]).error.None?
    ensures Apply(s, host, Run(s, host, im, ops[..i]).image, ops[i]).error.None?
  {
    if Run(s, host, im, ops[..i]).error.Some? {
      RunStops(s, host, im, ops, i);
    } else if Apply(s, host, Run(s, host, im, ops[..i]).image, ops[i]).error.Some? {
      assert ops[..i + 1][..i] == ops[..i];
      RunStops(s, host, im, ops, i + 1);
    }
  }

  function AddOps(files: seq<string>, base: string): (r: seq<Op>)
    ensures |r| == |files| && forall k :: 0 <= k < |r| ==> r[k] == AddOp(files[k], base)
  {
    seq(|files|, k requires 0 <= k < |files| => AddOp(files[k], base))
  }

  function LineOps(lines: seq<string>): (r: seq<Op>)
    ensures |r| == |lines| && forall k :: 0 <= k < |r| ==> r[k] == LineOp(lines[k])
  {
    seq(|lines|, k requires 0 <= k < |lines| => LineOp(lines[k]))
  }

  function KeyOps(types: seq<string>): (r: seq<Op>)
    ensures |r| == |types| && forall k :: 0 <= k < |r| ==> r[k] == KeyOp(types[k])
  {
    seq(|types|, k requires 0 <= k < |types| => KeyOp(types[k]))
  }

  /** The full path of a walked file. */
  function FullPaths(root: string, paths: seq<seq<string>>): (r: seq<string>)
    ensures |r| == |paths|
  {
    seq(|paths|, k requires 0 <= k < |paths| => PathJoin(root, Join("/", paths[k])))
  }

  /** `add_all_files_in_dir`: files of the extra-files directory become
      pending; files of any other directory are added right away. */
  function AddAllInDir(s: Settings, host: Host, im: Image, root: string, tree: Tree): Step {
    var files := FullPaths(root, Walk(tree, true));
    if root == s.extraFilesDir then Step(im.(extraFiles := im.extraFiles + files), None)
    else Run(s, host, im, AddOps(files, root))
  }

  /** `process_files_list` over the lines of the text. */
  function ProcessFiles(s: Settings, host: Host, im: Image, text: string): Step {
    Run(s, host, im, LineOps(Split(text, '\n')))
  }

  /** `generateSshHostKeys`. */
  function HostKeys(s: Settings, host: Host, im: Image): Step {
    Run(s, host, im, KeyOps(KeyTypes))
  }

  /** Generating the host keys always succeeds and installs every key pair. */
  lemma HostKeysInstalled(s: Settings, host: Host, im: Image)
    requires ValidSettings(s)
    ensures HostKeys(s, host, im).error.None?
  {
    var ops := KeyOps(KeyTypes);
    forall k | 0 <= k <= |ops| ensures Run(s, host, im, ops[..k]).error.None? {
      RunKeysSucceed(s, host, im, ops, k);
    }
    assert ops[..|ops|] == ops;
  }

  lemma {:induction false} RunKeysSucceed(s: Settings, host: Host, im: Image, ops: seq<Op>, k: nat)
    requires ValidSettings(s) && k <= |ops|
    requires forall j :: 0 <= j < |ops| ==> ops[j].KeyOp?
    ensures Run(s, host, im, ops[..k]).error.None?
  {
    if k > 0 {
      var init := ops[..k][..k - 1];
      assert init == ops[..k - 1];
      RunKeysSucceed(s, host, im, ops, k - 1);
      var prev := Run(s, host, im, init);
      KeyStepSucceeds(s, host, prev.image, ops[k - 1].keyType);
      assert Apply(s, host, prev.image, ops[k - 1]) == KeyStep(s, host, prev.image, ops[k - 1].keyType);
    }
  }

  /** The image classes that set their own `minimumImageSize`, and the
      others (`Base`), which keep the one `_BuildDiskImageBase` sets. */
  datatype ImageClass = Base | MinimalCheriBSD | CheriBSDImage | CheriBSDPurecapImage | FreeBSDImage

  /** The minimum image size each class passes to makefs: 1g by default,
      20m for the minimal image and 256m for the full CheriBSD, purecap
      CheriBSD and FreeBSD images. */
  function MinimumImageSize(c: ImageClass): (r: string)
    ensures r == "1g" <==> c == Base
    ensures r == "20m" <==> c == MinimalCheriBSD
    ensures r == "256m" <==> c in {CheriBSDImage, CheriBSDPurecapImage, FreeBSDImage}
  {
    match c
    case Base => "1g"
    case MinimalCheriBSD => "20m"
    case _ => "256m"
  }

  /** The makefs command line of `make_rootfs_image`: the tool, the debug
      and x86 options, then the options every image gets. */
  function MakefsCommand(makefs: string, debugOutput: bool, isX86: bool, isMinimal: bool, bigEndian: bool,
                         minimumSize: string, userGroupDbDir: string, diskImagePath: string, manifestFile: string)
    : (r: seq<string>)
    ensures |r| >= 16 && r[0] == makefs
    ensures r[|r| - 2..] == [diskImagePath, manifestFile]
  {
    [makefs]
    + (if debugOutput then ["-d", "0x90000"] else [])
    + (if isX86 then ["-t", "ffs", "-o", "version=2,bsize=32768,fsize=4096"] else [])
    + MakefsImageOptions(isMinimal, bigEndian, minimumSize, userGroupDbDir, diskImagePath, manifestFile)
  }

  function MakefsImageOptions(isMinimal: bool, bigEndian: bool, minimumSize: string, userGroupDbDir: string,
                              diskImagePath: string, manifestFile: string): (r: seq<string>)
    ensures |r| == 15 && r[7..9] == ["-M", minimumSize] && r[11..13] == ["-N", userGroupDbDir]
    ensures r[13] == diskImagePath && r[14] == manifestFile
  {
    ["-Z",
     "-b", if isMinimal then "2m" else "1g",
     "-f", if isMinimal then "1k" else "200k",
     "-R", "4m",
     "-M", minimumSize,
     "-B", if bigEndian then "be" else "le",
     "-N", userGroupDbDir,
     diskImagePath,
     manifestFile]
  }

  /** The minimal image asks for 2m of free space and 1k inodes, the others
      for 1g and 200k; the minimum size is the image class's own; the byte
      order is big-endian exactly for big-endian targets; the image path
      and then the manifest come last. */
  lemma MakefsOptions(isMinimal: bool, bigEndian: bool, c: ImageClass, userGroupDbDir: string,
                      diskImagePath: string, manifestFile: string)
    ensures var r := MakefsImageOptions(isMinimal, bigEndian, MinimumImageSize(c), userGroupDbDir, diskImagePath, manifestFile);
      |r| == 15 && r[0] == "-Z"
      && r[1] == "-b" && (r[2] == "2m" <==> isMinimal) && (r[2] == "1g" <==> !isMinimal)
      && r[3] == "-f" && (r[4] == "1k" <==> isMinimal) && (r[4] == "200k" <==> !isMinimal)
      && r[7] == "-M" && r[8] == MinimumImageSize(c) && (r[8] == "20m" <==> c == MinimalCheriBSD)
      && r[9] == "-B" && (r[10] == "be" <==> bigEndian) && (r[10] == "le" <==> !bigEndian)
      && r[13] == diskImagePath && r[14] == manifestFile
  {
    assert "2m" != "1g" && "1k" != "200k" && "be" != "le" by {
      assert "2m"[0] != "1g"[0] && "1k"[1] != "200k"[1] && "be"[0] != "le"[0];
    }
  }

  /** The command starts with the makefs tool and ends with the options every
      image gets; debug output adds two arguments and x86 four. */
  lemma MakefsCommandShape(makefs: string, debugOutput: bool, isX86: bool, isMinimal: bool, bigEndian: bool,
                           minimumSize: string, userGroupDbDir: string, diskImagePath: string, manifestFile: string)
    ensures var r := MakefsCommand(makefs, debugOutput, isX86, isMinimal, bigEndian,
                                   minimumSize, userGroupDbDir, diskImagePath, manifestFile);
      |r| == 16 + (if debugOutput then 2 else 0) + (if isX86 then 4 else 0)
      && r[0] == makefs
      && r[|r| - 15..] == MakefsImageOptions(isMinimal, bigEndian, minimumSize, userGroupDbDir, diskImagePath, manifestFile)
  {
    var head := [makefs] + (if debugOutput then ["-d", "0x90000"] else [])
      + (if isX86 then ["-t", "ffs", "-o", "version=2,bsize=32768,fsize=4096"] else []);
    var tail := MakefsImageOptions(isMinimal, bigEndian, minimumSize, userGroupDbDir, diskImagePath, manifestFile);
    assert (head + tail)[|head|..] == tail;
  }

  /** `_defaultDiskImagePath`: the prefix, "cheri", the bits-and-ABI text and
      "-disk.img", inside the given directory. */
  function DefaultDiskImagePath(pfx: string, imgPrefix: string, bitsAndAbi: string): string {
    PathJoin(pfx, imgPrefix + "cheri" + bitsAndAbi + "-disk.img")
  }

  /** The file name is exactly the composed name, in the given directory. */
  lemma DefaultDiskImageName(pfx: string, imgPrefix: string, bitsAndAbi: string)
    requires DirOk(pfx) && '/' !in imgPrefix && '/' !in bitsAndAbi
    ensures Name(DefaultDiskImagePath(pfx, imgPrefix, bitsAndAbi)) == imgPrefix + "cheri" + bitsAndAbi + "-disk.img"
    ensures Dir(DefaultDiskImagePath(pfx, imgPrefix, bitsAndAbi)) == pfx + "/"
  {
    var n := imgPrefix + "cheri" + bitsAndAbi + "-disk.img";
    assert '/' !in n by {
      forall j | 0 <= j < |n| ensures n[j] != '/' {
        if j < |imgPrefix| { assert n[j] == imgPrefix[j]; }
        else if j < |imgPrefix| + 5 { assert n[j] == "cheri"[j - |imgPrefix|]; }
        else if j < |imgPrefix| + 5 + |bitsAndAbi| { assert n[j] == bitsAndAbi[j - |imgPrefix| - 5]; }
        else { assert n[j] == "-disk.img"[j - |imgPrefix| - 5 - |bitsAndAbi|]; }
      }
    }
    assert n != "" && !IsAbsolute(n) by { assert |n| >= 1; }
    RelPathOfJoin(pfx, n);
    assert PathJoin(pfx, n) == (pfx + "/") + n;
    NameOfAppend(pfx + "/", n);
    DirOfAppend(pfx + "/", n);
  }

  /** Different bits-and-ABI texts give different images, and the minimal
      image never lands on the full image's path. */
  lemma DefaultDiskImagesApart(pfx: string, a: string, b: string)
    requires DirOk(pfx)
    ensures DefaultDiskImagePath(pfx, "", a) == DefaultDiskImagePath(pfx, "", b) <==> a == b
    ensures DefaultDiskImagePath(pfx, "minimal-", a) != DefaultDiskImagePath(pfx, "", b)
  {
    var na, nb := "" + "cheri" + a + "-disk.img", "" + "cheri" + b + "-disk.img";
    var nm := "minimal-" + "cheri" + a + "-disk.img";
    assert na[..1] == "c" && nm[..1] == "m";
    RelPathOfJoin(pfx, na);
    RelPathOfJoin(pfx, nb);
    RelPathOfJoin(pfx, nm);
    if na == nb {
      assert na[5..|na| - 9] == a && nb[5..|nb| - 9] == b;
    }
    assert (pfx + "/" + nm)[|pfx| + 1] == 'm';
    assert (pfx + "/" + nb)[|pfx| + 1] == 'c';
  }

  /** One more step of a run that has not failed yet. */
  lemma RunNext(s: Settings, host: Host, im: Image, ops: seq<Op>, i: nat)
    requires i < |ops| && Run(s, host, im, ops[..i]).error.None?
    ensures Run(s, host, im, ops[..i + 1]) == Apply(s, host, Run(s, host, im, ops[..i]).image, ops[i])
  {
    assert ops[..i + 1][..i] == ops[..i];
  }

  /** The end of a run: either all steps ran, or step `i` failed. */
  lemma RunEnds(s: Settings, host: Host, im: Image, ops: seq<Op>, i: nat)
    requires i <= |ops|
    requires i == |ops| || Run(s, host, im, ops[..i]).error.Some?
    ensures Run(s, host, im, ops) == Run(s, host, im, ops[..i])
  {
    if i == |ops| {
      assert ops[..i] == ops;
    } else {
      RunStops(s, host, im, ops, i);
    }
  }

  /** `_BuildDiskImageBase` with the state the file-selection code changes. */
  class DiskImageBuilder {
    const settings: Settings
    var extraFiles: seq<string>
    var mtree: map<string, Entry>
    var commands: seq<seq<string>>
    var generated: map<string, (string, Option<string>)>
    var fatals: seq<string>

    function State(): Image
      reads this
    {
      Image(extraFiles, mtree, commands, generated, fatals)
    }

    constructor(settings: Settings)
      ensures this.settings == settings
      ensures State() == Image([], map[], [], map[], [])
    {
      this.settings := settings;
      extraFiles := [];
      mtree := map[];
      commands := [];
      generated := map[];
      fatals := [];
    }

    /** `add_file_to_image`. */
    method AddFileToImage(host: Host, file: string, base: string, pathInTarget: Option<string>,
                          user: string, group: string, mode: Option<string>) returns (r: Result<string>)
      modifies this
      ensures r == TargetPath(file, base, pathInTarget)
      ensures r.Ok? ==> State() == AddFile(settings, host, old(State()), file, base, pathInTarget, user, group, mode).value
      ensures r.Err? ==> State() == old(State())
    {
      r := TargetPath(file, base, pathInTarget);
      if r.Err? {
        return;
      }
      var t := r.value;
      var source := file;
      if settings.stripBinaries && IsElf(host, file) {
        source := PathJoin(settings.tmpdir, t);
        commands := commands + [[PathJoin(settings.sdkBindir, "llvm-strip"), file, "-o", source]];
      }
      mtree := mtree[t := File(source, user, group, mode)];
      if file in extraFiles {
        extraFiles := RemoveFirst(extraFiles, file);
      }
    }

    /** `add_file_to_image` as one step of a run. */
    method AddStep(host: Host, file: string, base: string) returns (err: Option<string>)
      modifies this
      ensures Step(State(), err) == Apply(settings, host, old(State()), AddOp(file, base))
    {
      var r := AddFileToImage(host, file, base, None, "root", "wheel", None);
      err := if r.Ok? then None else Some(r.msg);
    }

    /** `createFileForImage`. */
    method CreateFileForImage(host: Host, pathInImage: string, contents: string, mode: Option<string>)
      returns (err: Option<string>)
      modifies this
      ensures Step(State(), err) == CreateFile(settings, host, old(State()), pathInImage, contents, mode)
    {
      var p := ImagePath(pathInImage);
      if StartsWith(p, "/") {
        return Some("AssertionError: " + p);
      }
      var userProvided := PathJoin(settings.extraFilesDir, p);
      var target: string;
      var base: string;
      if userProvided in host.files {
        if userProvided !in extraFiles {
          return Some("ValueError: list.remove(x): x not in list");
        }
        extraFiles := RemoveFirst(extraFiles, userProvided);
        target, base := userProvided, settings.extraFilesDir;
      } else {
        if userProvided in extraFiles {
          return Some("AssertionError: " + userProvided);
        }
        target, base := PathJoin(settings.tmpdir, p), settings.tmpdir;
        if !settings.pretend {
          if Exists(host, target) || target in generated {
            return Some("File " + target + " already exists!");
          }
          generated := generated[target := (contents, mode)];
        }
      }
      err := AddStep(host, target, base);
    }

    /** `add_all_files_in_dir`. */
    method AddAllFilesInDir(host: Host, root: string, tree: Tree) returns (err: Option<string>)
      modifies this
      ensures Step(State(), err) == AddAllInDir(settings, host, old(State()), root, tree)
    {
      var files := FullPaths(root, Walk(tree, true));
      if root == settings.extraFilesDir {
        DeferAll(files);
        return None;
      }
      err := AddEach(host, files, root);
    }

    /** The files of the extra-files directory are only remembered, in order. */
    method DeferAll(files: seq<string>)
      modifies this
      ensures State() == old(State()).(extraFiles := old(extraFiles) + files)
    {
      for i := 0 to |files|
        invariant State() == old(State()).(extraFiles := old(extraFiles) + files[..i])
      {
        assert files[..i + 1] == files[..i] + [files[i]];
        extraFiles := extraFiles + [files[i]];
      }
      assert files[..|files|] == files;
    }

    /** Every other file is added in turn, until one fails. */
    method AddEach(host: Host, files: seq<string>, root: string) returns (err: Option<string>)
      modifies this
      ensures Step(State(), err) == Run(settings, host, old(State()), AddOps(files, root))
    {
      ghost var ops := AddOps(files, root);
      ghost var start := State();
      for i := 0 to |files|
        invariant Step(State(), None) == Run(settings, host, start, ops[..i])
      {
        RunNext(settings, host, start, ops, i);
        err := AddStep(host, files[i], root);
        if err.Some? {
          RunEnds(settings, host, start, ops, i + 1);
          return;
        }
      }
      RunEnds(settings, host, start, ops, |ops|);
      err := None;
    }

    /** One line of `process_files_list`. */
    method ProcessFileLine(host: Host, raw: string) returns (err: Option<string>)
      modifies this
      ensures Step(State(), err) == Apply(settings, host, old(State()), LineOp(raw))
    {
      var line := Strip(raw);
      if StartsWith(line, "#") || line == "" {
        return None;
      }
      if StartsWith(line, "/") {
        return Some("AssertionError: " + line);
      }
      var filePath := PathJoin(settings.rootfsDir, line);
      if !Exists(host, filePath) {
        if !settings.pretend {
          return Some(MissingFromRootfs(line));
        }
        fatals := fatals + [MissingFromRootfs(line)];
      }
      if filePath in host.dirs {
        mtree := mtree[line := Directory(filePath)];
        err := None;
      } else {
        err := AddStep(host, filePath, settings.rootfsDir);
      }
    }

    /** `process_files_list`. */
    method ProcessFilesList(host: Host, text: string) returns (err: Option<string>)
      modifies this
      ensures Step(State(), err) == ProcessFiles(settings, host, old(State()), text)
    {
      var lines := Split(text, '\n');
      ghost var ops := LineOps(lines);
      ghost var start := State();
      for i := 0 to |lines|
        invariant Step(State(), None) == Run(settings, host, start, ops[..i])
      {
        RunNext(settings, host, start, ops, i);
        err := ProcessFileLine(host, lines[i]);
        if err.Some? {
          RunEnds(settings, host, start, ops, i + 1);
          return;
        }
      }
      RunEnds(settings, host, start, ops, |ops|);
      err := None;
    }

    /** One key type of `generateSshHostKeys`. */
    method AddKeyPair(host: Host, keyType: string) returns (err: Option<string>)
      modifies this
      ensures Step(State(), err) == Apply(settings, host, old(State()), KeyOp(keyType))
    {
      var sshDir := SshDir(settings);
      var privateKey := PathJoin(sshDir, KeyName(keyType));
      var publicKey := PathJoin(sshDir, KeyName(keyType) + ".pub");
      if privateKey !in host.files {
        commands := commands + [KeygenCommand(keyType, privateKey)];
      }
      var r := AddFileToImage(host, privateKey, settings.extraFilesDir, None, "root", "wheel", Some("0600"));
      if r.Err? {
        return Some(r.msg);
      }
      r := AddFileToImage(host, publicKey, settings.extraFilesDir, None, "root", "wheel", Some("0644"));
      err := if r.Ok? then None else Some(r.msg);
    }

    /** `generateSshHostKeys`. */
    method GenerateSshHostKeys(host: Host) returns (err: Option<string>)
      modifies this
      ensures Step(State(), err) == HostKeys(settings, host, old(State()))
    {
      ghost var ops := KeyOps(KeyTypes);
      ghost var start := State();
      var keyTypes := KeyTypes;
      for i := 0 to |keyTypes|
        invariant Step(State(), None) == Run(settings, host, start, ops[..i])
      {
        RunNext(settings, host, start, ops, i);
        err := AddKeyPair(host, keyTypes[i]);
        if err.Some? {
          RunEnds(settings, host, start, ops, i + 1);
          return;
        }
      }
      RunEnds(settings, host, start, ops, |ops|);
      err := None;
    }

    /** `add_unlisted_files_to_metalog` of the full image, given the files of
        the rootfs walk and the answer the user would type; in pretend or
        force mode the question is answered yes without asking. */
    method AddUnlistedFilesToMetalog(tree: Tree, answer: bool)
      modifies this`mtree
      ensures mtree == Unlisted(settings.rootfsDir, old(mtree), FullPaths(settings.rootfsDir, Walk(tree, false)),
                                settings.pretend || settings.force || answer)
    {
      var addThem := settings.pretend || settings.force || answer;
      var root := settings.rootfsDir;
      var files := FullPaths(root, Walk(tree, false));
      var unlisted := ScanRootfs(root, files);
      if |unlisted| > 0 && addThem {
        AddCollected(unlisted);
      }
    }

    /** The walk: files under usr/local/, opt/ and extra/ join the manifest,
        and the other files it does not list, except METALOG, are collected. */
    method ScanRootfs(root: string, files: seq<string>) returns (unlisted: seq<(string, string)>)
      modifies this`mtree
      ensures (mtree, unlisted) == Scan(root, old(mtree), files)
    {
      unlisted := [];
      for i := 0 to |files|
        invariant (mtree, unlisted) == Scan(root, old(mtree), files[..i])
      {
        assert files[..i + 1][..i] == files[..i];
        var targetPath := RelPath(files[i], root);
        if AlwaysAdded(targetPath) {
          mtree := mtree[targetPath := File(files[i], "root", "wheel", None)];
        } else if targetPath !in mtree {
          if targetPath != "METALOG" {
            unlisted := unlisted + [(files[i], targetPath)];
          }
        }
      }
      assert files[..|files|] == files;
    }

    /** The answer yes: every collected file is added to the manifest. */
    method AddCollected(pairs: seq<(string, string)>)
      modifies this`mtree
      ensures mtree == AddPairs(old(mtree), pairs)
    {
      for i := 0 to |pairs|
        invariant mtree == AddPairs(old(mtree), pairs[..i])
      {
        assert pairs[..i + 1][..i] == pairs[..i];
        mtree := mtree[pairs[i].1 := File(pairs[i].0, "root", "wheel", None)];
      }
      assert pairs[..|pairs|] == pairs;
    }
  }
}
