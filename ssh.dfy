/**
 * A user's authorized SSH keys (internal/system/ssh.go): the `.ssh`
 * directory in the user's home and the `authorized_keys` file in it, both
 * owned by the user.
 */
module Ssh {
  import opened Errors
  import opened Text
  import opened Host
  import opened Users

  const SshDirName: string := ".ssh"
  const KeysFileName: string := "authorized_keys"

  function SshDir(homeDir: string): string {
    JoinPath(homeDir, SshDirName)
  }

  function KeysPath(homeDir: string): string {
    JoinPath(SshDir(homeDir), KeysFileName)
  }

  /** The file holds one key per line, every line ended by a newline. */
  function KeysContent(keys: seq<string>): string {
    Join(keys, "\n") + "\n"
  }

  /** The keys file lies in the `.ssh` directory of the home directory. */
  lemma KeysPathLayout(homeDir: string)
    requires homeDir != "" && homeDir[|homeDir| - 1] != '/'
    ensures SshDir(homeDir) == homeDir + "/.ssh"
    ensures KeysPath(homeDir) == homeDir + "/.ssh/authorized_keys"
  {
    assert TrimTrailingSlashes(homeDir) == homeDir;
    var d := SshDir(homeDir);
    assert d[|d| - 1] == 'h';
    assert TrimTrailingSlashes(d) == d;
  }

  /** Whatever the home directory, the keys file is an entry of the `.ssh` directory. */
  lemma KeysParent(homeDir: string)
    ensures Parent(KeysPath(homeDir)) == SshDir(homeDir)
    ensures KeysPath(homeDir) != SshDir(homeDir)
  {
    var d := SshDir(homeDir);
    assert d != [] && d[|d| - 1] == 'h';
    assert TrimTrailingSlashes(d) == d;
    ParentOfChild(d, KeysFileName);
  }

  /**
   * The file read line by line gives back the keys, when no key holds a line
   * break; an empty list of keys leaves a file with one empty line.
   */
  lemma KeysContentLines(keys: seq<string>)
    requires forall i :: 0 <= i < |keys| ==> '\n' !in keys[i] && DropCR(keys[i]) == keys[i]
    ensures keys != [] ==> ScanLines(KeysContent(keys)) == keys
    ensures keys == [] ==> KeysContent(keys) == "\n" && ScanLines(KeysContent(keys)) == [""]
  {
    if keys != [] {
      JoinTerminated(keys);
      ScanTerminated(keys);
    } else {
      assert FindChar("\n", '\n') == 0;
    }
  }

  /** The file system after the keys file was written and handed to the user. */
  function KeysInstalled(files: map<string, FileData>, path: string, keys: seq<string>, uid: int, gid: int): (m: map<string, FileData>)
    ensures path in m && m[path].content == Text(KeysContent(keys))
    ensures m[path].attr == Attr(if path in files then files[path].attr.mode else Perm0600, uid, gid)
    ensures forall q :: q != path ==> (q in m <==> q in files) && (q in m ==> m[q] == files[q])
  {
    var w := Written(files, path, Text(KeysContent(keys)), Perm0600);
    w[path := w[path].(attr := w[path].attr.(uid := uid, gid := gid))]
  }

  /** Make sure the `.ssh` directory exists: it is created with mode 0700 only when it is absent; any other failure to look at it is returned. */
  method EnsureSshDir(m: Machine, dir: string) returns (r: Result<()>)
    modifies m
    ensures old(m.Stat(dir)).Ok? ==> r == Ok(()) && m.dirs == old(m.dirs)
    ensures old(m.Stat(dir)).Err? && !old(m.Stat(dir)).error.NotExist? ==>
      r == Err(old(m.Stat(dir)).error) && m.dirs == old(m.dirs)
    ensures old(m.Stat(dir)).Err? && old(m.Stat(dir)).error.NotExist? ==>
      && (r.Ok? <==> Fault(Op.Mkdir, dir) !in m.faults && Parent(dir) in old(m.dirs))
      && (r.Ok? ==> m.dirs == old(m.dirs)[dir := Attr(Perm0700, RootUid, RootUid)])
      && (r.Err? ==> m.dirs == old(m.dirs))
    ensures r.Ok? ==> dir in m.dirs || dir in m.files
    ensures m.files == old(m.files) && m.hostname == old(m.hostname)
    ensures m.replies == old(m.replies) && m.statuses == old(m.statuses) && m.executed == old(m.executed)
  {
    var st := m.Stat(dir);
    if st.Err? {
      if st.error.NotExist? {
        r := m.Mkdir(dir, Perm0700);
      } else {
        r := Err(st.error);
      }
    } else {
      r := Ok(());
    }
  }

  /** Hand the `.ssh` directory to the user, then write the keys file with mode 0600 and hand it to the user too. */
  method InstallKeys(m: Machine, user: UserEntry, keys: seq<string>) returns (r: Result<()>)
    requires SshDir(user.homeDir) in m.dirs || SshDir(user.homeDir) in m.files
    modifies m
    ensures var dir, path := SshDir(user.homeDir), KeysPath(user.homeDir);
      && (r.Ok? <==> Fault(Op.Chown, dir) !in m.faults && old(m.CanWrite(path)) && Fault(Op.Chown, path) !in m.faults)
      && (r.Ok? ==> m.files == KeysInstalled(old(m.files), path, keys, user.uid, user.gid))
      && (dir !in old(m.dirs) ==> r.Err?)
      && (r.Err? && dir in old(m.dirs) ==>
            || m.files == old(m.files)
            || (r.error == IoFailure(Op.Chown, path) && m.files == Written(old(m.files), path, Text(KeysContent(keys)), Perm0600)))
      && (dir in old(m.dirs) && Fault(Op.Chown, dir) !in m.faults ==>
            m.dirs == old(m.dirs)[dir := old(m.dirs)[dir].(uid := user.uid, gid := user.gid)])
      && (Fault(Op.Chown, dir) in m.faults ==>
            r == Err(IoFailure(Op.Chown, dir)) && m.dirs == old(m.dirs) && m.files == old(m.files))
      && (dir !in old(m.dirs) && Fault(Op.Chown, dir) !in m.faults ==>
            && m.dirs == old(m.dirs)
            && m.files == old(m.files)[dir := old(m.files)[dir].(attr := old(m.files)[dir].attr.(uid := user.uid, gid := user.gid))])
    ensures m.hostname == old(m.hostname)
    ensures m.replies == old(m.replies) && m.statuses == old(m.statuses) && m.executed == old(m.executed)
  {
    var dir := SshDir(user.homeDir);
    var owned := m.Chown(dir, user.uid, user.gid);
    if owned.Err? {
      return Err(owned.error);
    }
    var path := KeysPath(user.homeDir);
    KeysParent(user.homeDir);
    var written := m.WriteFile(path, Text(KeysContent(keys)), Perm0600);
    if written.Err? {
      return Err(written.error);
    }
    r := m.Chown(path, user.uid, user.gid);
  }

  /** Whether `EnsureSshDir` succeeds: the directory can be looked at, or is missing and can be made. */
  predicate SshDirObtainable(m: Machine, dir: string)
    reads m
  {
    || m.Stat(dir).Ok?
    || (m.Stat(dir).error.NotExist? && Fault(Op.Mkdir, dir) !in m.faults && Parent(dir) in m.dirs)
  }

  /** The directories once `EnsureSshDir` obtained `.ssh`: a missing one is made with mode 0700, owned by root. */
  function ObtainedDirs(m: Machine, dir: string): map<string, Attr>
    reads m
  {
    if m.Stat(dir).Ok? then m.dirs else m.dirs[dir := Attr(Perm0700, RootUid, RootUid)]
  }

  /**
   * The file system left by the steps from setting the mode of `.ssh` on,
   * when setting it is allowed, from the directories `dirs0` and the files
   * `files0` there once `.ssh` was obtained. A `.ssh` directory gets mode
   * 0700 and, unless handing it over is refused, the user as owner; the
   * keys file is then untouched, written but not handed over, or installed.
   * A `.ssh` that is a plain file gets the same mode and owner, and no keys
   * file is written.
   */
  predicate KeysStepsLeft(m: Machine, dirs0: map<string, Attr>, files0: map<string, FileData>,
                          dir: string, path: string, user: UserEntry, keys: seq<string>, r: Result<()>)
    reads m
  {
    var handed := Fault(Op.Chown, dir) !in m.faults;
    if dir in dirs0 then
      && m.dirs == dirs0[dir := if handed then Attr(Perm0700, user.uid, user.gid) else dirs0[dir].(mode := Perm0700)]
      && (r.Ok? ==> m.files == KeysInstalled(files0, path, keys, user.uid, user.gid))
      && (r.Err? ==>
            || m.files == files0
            || (r.error == IoFailure(Op.Chown, path) && m.files == Written(files0, path, Text(KeysContent(keys)), Perm0600)))
    else
      && r.Err? && m.dirs == dirs0 && dir in files0
      && m.files == files0[dir := files0[dir].(attr :=
           if handed then Attr(Perm0700, user.uid, user.gid) else files0[dir].attr.(mode := Perm0700))]
  }

  /**
   * Whether `InstallKeys` succeeds once `.ssh` has been obtained and its
   * mode set: `.ssh` is a directory (or is about to be made one), both
   * ownership changes are allowed, and the keys file can be written.
   */
  predicate KeysInstallable(m: Machine, dir: string, path: string)
    reads m
  {
    && (dir in m.dirs || dir !in m.files)
    && Fault(Op.Chown, dir) !in m.faults
    && Fault(Write, path) !in m.faults && path !in m.dirs
    && Fault(Op.Chown, path) !in m.faults
  }

  /**
   * The steps of `SetAuthorizedKeys` once the user is known, as written:
   * make sure `.ssh` exists, set its mode to 0700, then install the keys.
   * When setting the mode fails it reports success without writing any key.
   */
  method AuthorizeKeys(m: Machine, user: UserEntry, keys: seq<string>) returns (r: Result<()>)
    modifies m
    ensures var dir := SshDir(user.homeDir);
      && (!old(SshDirObtainable(m, dir)) ==> r.Err? && m.dirs == old(m.dirs) && m.files == old(m.files))
      && (old(m.Stat(dir)).Err? && !old(m.Stat(dir)).error.NotExist? ==> r == Err(old(m.Stat(dir)).error))
      && (old(SshDirObtainable(m, dir)) && Fault(Op.Chmod, dir) in m.faults ==>
            r == Ok(()) && m.files == old(m.files) && m.dirs == old(ObtainedDirs(m, dir)))
      && (old(SshDirObtainable(m, dir)) && Fault(Op.Chmod, dir) !in m.faults ==>
            && (r.Ok? <==> old(KeysInstallable(m, dir, KeysPath(user.homeDir))))
            && KeysStepsLeft(m, old(ObtainedDirs(m, dir)), old(m.files), dir, KeysPath(user.homeDir), user, keys, r))
      && (r.Ok? && Fault(Op.Chmod, dir) !in m.faults ==>
            && m.dirs == old(m.dirs)[dir := Attr(Perm0700, user.uid, user.gid)]
            && m.files == KeysInstalled(old(m.files), KeysPath(user.homeDir), keys, user.uid, user.gid))
    ensures m.hostname == old(m.hostname)
    ensures m.replies == old(m.replies) && m.statuses == old(m.statuses) && m.executed == old(m.executed)
  {
    var dir := SshDir(user.homeDir);
    var ready := EnsureSshDir(m, dir);
    if ready.Err? {
      return Err(ready.error);
    }
    var moded := m.Chmod(dir, Perm0700);
    if moded.Err? {
      return Ok(());
    }
    KeysParent(user.homeDir);
    r := InstallKeys(m, user, keys);
  }

  /** The steps of `SetAuthorizedKeys` once the user is known, as evidently intended: a failure to set the mode is returned. */
  method AuthorizeKeysCorrected(m: Machine, user: UserEntry, keys: seq<string>) returns (r: Result<()>)
    modifies m
    ensures var dir := SshDir(user.homeDir);
      && (!old(SshDirObtainable(m, dir)) ==> r.Err? && m.dirs == old(m.dirs) && m.files == old(m.files))
      && (old(m.Stat(dir)).Err? && !old(m.Stat(dir)).error.NotExist? ==> r == Err(old(m.Stat(dir)).error))
      && (old(SshDirObtainable(m, dir)) && Fault(Op.Chmod, dir) in m.faults ==>
            r == Err(IoFailure(Op.Chmod, dir)) && m.files == old(m.files) && m.dirs == old(ObtainedDirs(m, dir)))
      && (old(SshDirObtainable(m, dir)) && Fault(Op.Chmod, dir) !in m.faults ==>
            && (r.Ok? <==> old(KeysInstallable(m, dir, KeysPath(user.homeDir))))
            && KeysStepsLeft(m, old(ObtainedDirs(m, dir)), old(m.files), dir, KeysPath(user.homeDir), user, keys, r))
      && (r.Ok? ==>
            && m.dirs == old(m.dirs)[dir := Attr(Perm0700, user.uid, user.gid)]
            && m.files == KeysInstalled(old(m.files), KeysPath(user.homeDir), keys, user.uid, user.gid))
    ensures m.hostname == old(m.hostname)
    ensures m.replies == old(m.replies) && m.statuses == old(m.statuses) && m.executed == old(m.executed)
  {
    var dir := SshDir(user.homeDir);
    var ready := EnsureSshDir(m, dir);
    if ready.Err? {
      return Err(ready.error);
    }
    var moded := m.Chmod(dir, Perm0700);
    if moded.Err? {
      return Err(moded.error);
    }
    KeysParent(user.homeDir);
    r := InstallKeys(m, user, keys);
  }

  /**
   * `SetAuthorizedKeys` as written: look the user up, then the steps of
   * `AuthorizeKeys`; a failed lookup changes nothing.
   */
  method SetAuthorizedKeys(m: Machine, username: string, keys: seq<string>) returns (r: Result<()>)
    modifies m
    ensures var u := UserLookup(old(m.ReadText(PasswdPath)), username);
      && (u.Err? ==> r == Err(u.error) && m.dirs == old(m.dirs) && m.files == old(m.files))
      && (u.Ok? ==>
            var dir := SshDir(u.value.homeDir);
            && (old(SshDirObtainable(m, dir)) && Fault(Op.Chmod, dir) in m.faults ==>
                  r == Ok(()) && m.files == old(m.files) && m.dirs == old(ObtainedDirs(m, dir)))
            && (old(SshDirObtainable(m, dir)) && Fault(Op.Chmod, dir) !in m.faults ==>
                  && (r.Ok? <==> old(KeysInstallable(m, dir, KeysPath(u.value.homeDir))))
                  && KeysStepsLeft(m, old(ObtainedDirs(m, dir)), old(m.files), dir, KeysPath(u.value.homeDir), u.value, keys, r))
            && (r.Ok? && Fault(Op.Chmod, dir) !in m.faults ==>
                  && m.dirs == old(m.dirs)[dir := Attr(Perm0700, u.value.uid, u.value.gid)]
                  && m.files == KeysInstalled(old(m.files), KeysPath(u.value.homeDir), keys, u.value.uid, u.value.gid)))
    ensures m.hostname == old(m.hostname)
    ensures m.replies == old(m.replies) && m.statuses == old(m.statuses) && m.executed == old(m.executed)
  {
    var user :- GetUser(m, username);
    r := AuthorizeKeys(m, user, keys);
  }

  /** `SetAuthorizedKeys` as evidently intended: success means the keys file holds exactly the keys, owned by the user. */
  method SetAuthorizedKeysCorrected(m: Machine, username: string, keys: seq<string>) returns (r: Result<()>)
    modifies m
    ensures var u := UserLookup(old(m.ReadText(PasswdPath)), username);
      && (u.Err? ==> r == Err(u.error) && m.dirs == old(m.dirs) && m.files == old(m.files))
      && (u.Ok? ==>
            var dir := SshDir(u.value.homeDir);
            && (old(SshDirObtainable(m, dir)) && Fault(Op.Chmod, dir) in m.faults ==>
                  r == Err(IoFailure(Op.Chmod, dir)) && m.files == old(m.files) && m.dirs == old(ObtainedDirs(m, dir)))
            && (old(SshDirObtainable(m, dir)) && Fault(Op.Chmod, dir) !in m.faults ==>
                  && (r.Ok? <==> old(KeysInstallable(m, dir, KeysPath(u.value.homeDir))))
                  && KeysStepsLeft(m, old(ObtainedDirs(m, dir)), old(m.files), dir, KeysPath(u.value.homeDir), u.value, keys, r))
            && (r.Ok? ==>
                  && m.dirs == old(m.dirs)[dir := Attr(Perm0700, u.value.uid, u.value.gid)]
                  && m.files == KeysInstalled(old(m.files), KeysPath(u.value.homeDir), keys, u.value.uid, u.value.gid)))
    ensures m.hostname == old(m.hostname)
    ensures m.replies == old(m.replies) && m.statuses == old(m.statuses) && m.executed == old(m.executed)
  {
    var user :- GetUser(m, username);
    r := AuthorizeKeysCorrected(m, user, keys);
  }

  const DemoHome: string := "/home/pi"

  /**
   * A node whose `/etc/passwd` holds `passwd`, with a home directory
   * `/home/pi` that has no `.ssh` yet, and whose system refuses to change the
   * mode of `/home/pi/.ssh`.
   */
  method ChmodRefusingMachine(passwd: string) returns (m: Machine)
    ensures fresh(m)
    ensures m.ReadText(PasswdPath) == Ok(passwd)
    ensures SshDir(DemoHome) == DemoHome + "/.ssh"
    ensures SshDirObtainable(m, SshDir(DemoHome)) && Fault(Op.Chmod, SshDir(DemoHome)) in m.faults
    ensures KeysPath(DemoHome) !in m.files
  {
    KeysPathLayout(DemoHome);
    ParentOfChild(DemoHome, SshDirName);
    var root := Attr(Perm0755, RootUid, RootUid);
    var dirs := map["/" := root, "/etc" := root, "/home" := root, DemoHome := Attr(Perm0755, 1000, 1000)];
    var files := map[PasswdPath := FileData(Text(passwd), Attr(Perm0644, RootUid, RootUid))];
    m := new Machine({Fault(Op.Chmod, DemoHome + "/.ssh")}, false, "raspberrypi", dirs, files, [], []);
    assert m.Stat(DemoHome + "/.ssh") == Err(NotExist(DemoHome + "/.ssh"));
  }

  /** The passwd file of that node: one line, for `pi`. */
  function DemoPasswd(): string {
    PasswdLine("pi", "x", 1000, 1000, "", DemoHome, "/bin/sh") + "\n"
  }

  lemma DemoUser()
    ensures UserLookup(Ok(DemoPasswd()), "pi") == Ok(UserEntry("pi", 1000, 1000, DemoHome))
  {
    SingleUserPasswd("pi", "x", 1000, 1000, "", DemoHome, "/bin/sh");
  }

  /**
   * On that node, installing a key for `pi` as written reports success and
   * installs nothing.
   */
  method ChmodRefusedScenario() returns (asWritten: Result<()>, keysWritten: bool)
    ensures asWritten == Ok(()) && !keysWritten
  {
    DemoUser();
    var m := ChmodRefusingMachine(DemoPasswd());
    asWritten := SetAuthorizedKeys(m, "pi", ["ssh-ed25519 AAAAC3NzaC1lZDI1NTE5 pi@laptop"]);
    keysWritten := KeysPath(DemoHome) in m.files;
  }

  /** On the same node, the corrected operation reports the refused mode change. */
  method ChmodRefusedCorrected() returns (corrected: Result<()>)
    ensures corrected == Err(IoFailure(Op.Chmod, DemoHome + "/.ssh"))
  {
    DemoUser();
    var m := ChmodRefusingMachine(DemoPasswd());
    corrected := SetAuthorizedKeysCorrected(m, "pi", ["ssh-ed25519 AAAAC3NzaC1lZDI1NTE5 pi@laptop"]);
  }
}
