/**
 * System users (internal/system/user.go): finding a user's entry in
 * `/etc/passwd`, and setting a password through `chpasswd`.
 */
module Users {
  import opened Errors
  import opened Text
  import opened Host

  const PasswdPath: string := "/etc/passwd"
  const ChpasswdProgram: string := "chpasswd"
  /** Tells `chpasswd` that the password is already encrypted. */
  const EncryptedFlag: string := "-e"

  datatype UserEntry = UserEntry(username: string, uid: int, gid: int, homeDir: string)

  /** The colon-separated fields of a scanned line, once trimmed. */
  function EntryFields(line: string): seq<string> {
    Split(TrimSpace(line), ':')
  }

  /** A line `GetUser` looks at for `username`: exactly seven fields, the first being the name. */
  predicate IsEntryOf(line: string, username: string) {
    var f := EntryFields(line);
    |f| == 7 && f[0] == username
  }

  function EntryOf(username: string): string -> bool {
    line => IsEntryOf(line, username)
  }

  /** The user a considered line describes: the UID is field 2, the GID field 3, the home field 5. */
  function ParseEntry(line: string, username: string): (r: Result<UserEntry>)
    requires IsEntryOf(line, username)
    ensures r.Ok? ==> r.value.username == username && r.value.homeDir == EntryFields(line)[5]
    ensures r.Ok? <==> Atoi(EntryFields(line)[2]).Some? && Atoi(EntryFields(line)[3]).Some?
    ensures r.Ok? ==> Atoi(EntryFields(line)[2]) == Some(r.value.uid) && Atoi(EntryFields(line)[3]) == Some(r.value.gid)
    ensures Atoi(EntryFields(line)[2]).None? ==> r == Err(InvalidUid(username))
    ensures Atoi(EntryFields(line)[2]).Some? && Atoi(EntryFields(line)[3]).None? ==> r == Err(InvalidGid(username))
  {
    var f := EntryFields(line);
    match Atoi(f[2])
    case None => Err(InvalidUid(username))
    case Some(uid) =>
      match Atoi(f[3])
      case None => Err(InvalidGid(username))
      case Some(gid) => Ok(UserEntry(f[0], uid, gid, f[5]))
  }

  /** What `GetUser` makes of the lines of the passwd file: the first line for the user decides. */
  function Lookup(lines: seq<string>, username: string): Result<UserEntry> {
    var k := FirstWhere(lines, EntryOf(username));
    if k == |lines| then Err(UserNotFound(username)) else ParseEntry(lines[k], username)
  }

  /** What `GetUser` returns for the passwd file as read: a read failure, or what the lines give. */
  function UserLookup(passwd: Result<string>, username: string): Result<UserEntry> {
    match passwd
    case Err(e) => Err(e)
    case Ok(content) => Lookup(ScanLines(content), username)
  }

  /** Lines for other users, or corrupted ones, are passed over; the first line for the user wins, even when it is invalid. */
  lemma LookupFirstWins(before: seq<string>, line: string, after: seq<string>, username: string)
    requires forall j :: 0 <= j < |before| ==> !IsEntryOf(before[j], username)
    requires IsEntryOf(line, username)
    ensures Lookup(before + [line] + after, username) == ParseEntry(line, username)
  {
    var lines := before + [line] + after;
    var f := EntryOf(username);
    assert lines[|before|] == line && f(line);
    forall j | 0 <= j < |before| ensures !f(lines[j]) {
      assert lines[j] == before[j];
    }
    assert FirstWhere(lines, f) == |before|;
  }

  /** The user is reported missing exactly when no line is an entry for them. */
  lemma LookupNotFound(lines: seq<string>, username: string)
    ensures Lookup(lines, username) == Err(UserNotFound(username)) <==>
      forall j :: 0 <= j < |lines| ==> !IsEntryOf(lines[j], username)
  {
    var k := FirstWhere(lines, EntryOf(username));
    if k < |lines| {
      assert EntryOf(username)(lines[k]);
    } else {
      forall j | 0 <= j < |lines| ensures !IsEntryOf(lines[j], username) {
        assert !EntryOf(username)(lines[j]);
      }
    }
  }

  /** A passwd line: name, password, UID, GID, comment, home, shell, separated by colons. */
  function PasswdLine(username: string, password: string, uid: nat, gid: nat,
                      comment: string, homeDir: string, shell: string): string {
    Join([username, password, Itoa(uid), Itoa(gid), comment, homeDir, shell], ":")
  }

  /** Text that starts and ends with a character other than white space is left alone by trimming. */
  lemma TrimmedAlready(s: string)
    requires s != [] && !IsSpace(s[0]) && !IsSpace(s[|s| - 1])
    ensures TrimSpace(s) == s
  {
    assert TrimLeft(s) == s;
  }

  /** A well-formed passwd line for a user is found, and gives back its UID, GID and home. */
  lemma ParsePasswdLine(username: string, password: string, uid: nat, gid: nat,
                        comment: string, homeDir: string, shell: string)
    requires username != [] && !IsSpace(username[0])
    requires shell != [] && !IsSpace(shell[|shell| - 1])
    requires ':' !in username && ':' !in password && ':' !in comment && ':' !in homeDir && ':' !in shell
    requires uid <= MaxInt64 && gid <= MaxInt64
    ensures IsEntryOf(PasswdLine(username, password, uid, gid, comment, homeDir, shell), username)
    ensures ParseEntry(PasswdLine(username, password, uid, gid, comment, homeDir, shell), username)
      == Ok(UserEntry(username, uid, gid, homeDir))
  {
    var parts := [username, password, Itoa(uid), Itoa(gid), comment, homeDir, shell];
    var line := Join(parts, ":");
    forall i | 0 <= i < 7 ensures ':' !in parts[i] {
      if i == 2 || i == 3 {
        assert IsDigit(':') == false;
      }
    }
    JoinLast(parts, ":");
    TrimmedAlready(line);
    SplitJoin(parts, ':');
    AtoiItoa(uid);
    AtoiItoa(gid);
  }

  /** A passwd file that holds one well-formed line for the user gives that user's entry. */
  lemma SingleUserPasswd(username: string, password: string, uid: nat, gid: nat,
                         comment: string, homeDir: string, shell: string)
    requires username != [] && !IsSpace(username[0])
    requires shell != [] && !IsSpace(shell[|shell| - 1])
    requires ':' !in username && ':' !in password && ':' !in comment && ':' !in homeDir && ':' !in shell
    requires '\n' !in username && '\n' !in password && '\n' !in comment && '\n' !in homeDir && '\n' !in shell
    requires uid <= MaxInt64 && gid <= MaxInt64
    ensures UserLookup(Ok(PasswdLine(username, password, uid, gid, comment, homeDir, shell) + "\n"), username)
      == Ok(UserEntry(username, uid, gid, homeDir))
  {
    var line := PasswdLine(username, password, uid, gid, comment, homeDir, shell);
    ParsePasswdLine(username, password, uid, gid, comment, homeDir, shell);
    PasswdLineIsOneLine(username, password, uid, gid, comment, homeDir, shell);
    ScanTerminated([line]);
    assert Terminated([line]) == line + "\n";
    LookupFirstWins([], line, [], username);
    assert [] + [line] + [] == [line];
  }

  /** A passwd line built from pieces without line breaks is scanned as one line. */
  lemma PasswdLineIsOneLine(username: string, password: string, uid: nat, gid: nat,
                            comment: string, homeDir: string, shell: string)
    requires shell != [] && !IsSpace(shell[|shell| - 1])
    requires '\n' !in username && '\n' !in password && '\n' !in comment && '\n' !in homeDir && '\n' !in shell
    ensures '\n' !in PasswdLine(username, password, uid, gid, comment, homeDir, shell)
    ensures DropCR(PasswdLine(username, password, uid, gid, comment, homeDir, shell))
      == PasswdLine(username, password, uid, gid, comment, homeDir, shell)
  {
    var parts := [username, password, Itoa(uid), Itoa(gid), comment, homeDir, shell];
    assert !IsDigit('\n');
    JoinWithout(parts, ":", '\n');
    JoinLast(parts, ":");
  }

  /** Joining pieces without a character, by a separator without it, gives text without it. */
  lemma {:induction false} JoinWithout(parts: seq<string>, sep: string, c: char)
    requires c !in sep
    requires forall i :: 0 <= i < |parts| ==> c !in parts[i]
    ensures c !in Join(parts, sep)
    decreases |parts|
  {
    if |parts| > 1 {
      JoinWithout(parts[1..], sep, c);
    }
  }

  /** A join of pieces ending with a non-empty piece ends with that piece's last character. */
  lemma {:induction false} JoinLast(parts: seq<string>, sep: string)
    requires |parts| >= 1 && parts[|parts| - 1] != []
    ensures var s, last := Join(parts, sep), parts[|parts| - 1]; s != [] && s[|s| - 1] == last[|last| - 1]
    decreases |parts|
  {
    if |parts| > 1 {
      JoinLast(parts[1..], sep);
    }
  }

  /**
   * `GetUser`: scan `/etc/passwd` for the first entry of the user and read
   * its UID, GID and home directory.
   */
  method GetUser(m: Machine, username: string) returns (r: Result<UserEntry>)
    ensures r == UserLookup(m.ReadText(PasswdPath), username)
  {
    var passwd := m.ReadText(PasswdPath);
    if passwd.Err? {
      return Err(passwd.error);
    }
    var lines := ScanLines(passwd.value);
    assert UserLookup(passwd, username) == Lookup(lines, username);
    for i := 0 to |lines|
      invariant forall j :: 0 <= j < i ==> !EntryOf(username)(lines[j])
    {
      var line := TrimSpace(lines[i]);
      var fields := Split(line, ':');
      assert fields == EntryFields(lines[i]);
      if |fields| != 7 || fields[0] != username {
        assert !EntryOf(username)(lines[i]);
        continue;
      }
      assert EntryOf(username)(lines[i]);
      assert FirstWhere(lines, EntryOf(username)) == i;
      ghost var found := ParseEntry(lines[i], username);
      var uid := Atoi(fields[2]);
      if uid.None? {
        assert found == Err(InvalidUid(username));
        return Err(InvalidUid(username));
      }
      var gid := Atoi(fields[3]);
      if gid.None? {
        assert found == Err(InvalidGid(username));
        return Err(InvalidGid(username));
      }
      assert found == Ok(UserEntry(fields[0], uid.value, gid.value, fields[5]));
      return Ok(UserEntry(fields[0], uid.value, gid.value, fields[5]));
    }
    assert FirstWhere(lines, EntryOf(username)) == |lines|;
    r := Err(UserNotFound(username));
  }

  /** The arguments of `chpasswd`: `-e` is added exactly when the password is already encrypted (starts with `$`). */
  function ChpasswdArgs(password: string): (argv: seq<string>)
    ensures |argv| >= 1 && argv[0] == ChpasswdProgram
    ensures EncryptedFlag in argv <==> HasPrefix(password, "$")
    ensures argv == [ChpasswdProgram] || argv == [ChpasswdProgram, EncryptedFlag]
  {
    [ChpasswdProgram] + (if HasPrefix(password, "$") then [EncryptedFlag] else [])
  }

  /** What `chpasswd` reads: the user name, a colon, the password. */
  function ChpasswdInput(username: string, password: string): string {
    username + ":" + password
  }

  /** `chpasswd` splits its input at the first colon, which gives back the name and the password whenever the name has no colon. */
  lemma ChpasswdInputSplits(username: string, password: string)
    requires ':' !in username
    ensures var input := ChpasswdInput(username, password);
      var i := FindChar(input, ':');
      i == |username| && input[..i] == username && input[i + 1..] == password
  {
    var input := ChpasswdInput(username, password);
    assert input[|username|] == ':';
    assert forall j :: 0 <= j < |username| ==> input[j] == username[j];
    assert input[..|username|] == username;
    assert input[|username| + 1..] == password;
  }

  /** `SetPassword`: run `chpasswd` on the name and password; a failure carries the command's output. */
  method SetPassword(m: Machine, username: string, password: string) returns (r: Result<()>)
    modifies m
    ensures old(m.replies) == [] ==> r == Err(Waiting("command")) && m.replies == [] && m.executed == old(m.executed)
    ensures old(m.replies) != [] ==>
      && m.replies == old(m.replies)[1..]
      && m.executed == old(m.executed) + [Command(ChpasswdArgs(password), ChpasswdInput(username, password))]
      && (r.Ok? <==> Succeeded(old(m.replies)[0]))
      && (r.Err? ==> r.error == PasswordNotSet(username, OutputOf(old(m.replies)[0])))
    ensures m.dirs == old(m.dirs) && m.files == old(m.files) && m.hostname == old(m.hostname)
    ensures m.statuses == old(m.statuses)
  {
    var argv := [ChpasswdProgram];
    if HasPrefix(password, "$") {
      argv := argv + [EncryptedFlag];
    }
    var reply :- m.Exec(argv, ChpasswdInput(username, password));
    if !Succeeded(reply) {
      return Err(PasswordNotSet(username, OutputOf(reply)));
    }
    r := Ok(());
  }
}
