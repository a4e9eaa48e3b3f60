/** The account record (users/models.py): the avatar upload path, the
    field defaults and `User.save`, which fills an empty display name from
    the username before writing the row. */
module UserModels {
  import opened Base

  /** `os.path.join(a, b)` for two parts on POSIX. */
  function JoinPath(a: string, b: string): string {
    if b != [] && b[0] == '/' then b
    else if a == [] || a[|a| - 1] == '/' then a + b
    else a + "/" + b
  }

  /** The extension the upload path keeps: the text after the last `.` of
      the file name, lower-cased; the whole name when it has no `.`. */
  function Extension(filename: string): (ext: string)
    ensures '.' !in ext
    ensures forall i :: 0 <= i < |ext| ==> ext[i] == LowerChar(ext[i])
    ensures '.' !in filename ==> ext == LowerAscii(filename)
  {
    var raw := AfterLast(filename, '.');
    assert '.' !in filename ==> |raw| == |filename| && raw == filename[0..];
    var ext := LowerAscii(raw);
    assert forall i :: 0 <= i < |ext| ==> ext[i] == LowerChar(raw[i]) && raw[i] != '.';
    ext
  }

  /** The directory avatars are uploaded to. */
  const UploadDir := "avatar"

  /** `user_avatar_upload_path`: `uuid` is the text of the fresh uuid4. */
  function UploadPath(filename: string, uuid: string): string {
    JoinPath(UploadDir, uuid + "." + Extension(filename))
  }

  /** The text after the last `.` of `prefix + "." + ext` is `ext` when
      `ext` holds no `.`. */
  lemma {:induction false} AfterLastDotted(prefix: string, ext: string)
    requires '.' !in ext
    ensures AfterLast(prefix + "." + ext, '.') == ext
  {
    if ext != [] {
      var s := prefix + "." + ext;
      var init := ext[..|ext| - 1];
      AfterLastDotted(prefix, init);
      assert s[..|s| - 1] == prefix + "." + init;
    }
  }

  /** Joining a directory that does not end in `/` with a relative name
      puts one `/` between them. */
  lemma JoinRelative(dir: string, name: string)
    requires dir != [] && dir[|dir| - 1] != '/'
    requires name != [] && name[0] != '/'
    ensures JoinPath(dir, name) == dir + "/" + name
  {
  }

  /** A uuid's text starts with a hex digit, so the path is
      `avatar/<uuid>.<ext>`, and reading the extension back from the path
      gives the one taken from the uploaded name. */
  lemma UploadPathShape(filename: string, uuid: string)
    requires uuid != [] && uuid[0] != '/'
    ensures UploadPath(filename, uuid) == UploadDir + "/" + uuid + "." + Extension(filename)
    ensures AfterLast(UploadPath(filename, uuid), '.') == Extension(filename)
  {
    var ext := Extension(filename);
    var name := uuid + "." + ext;
    assert name[0] == uuid[0];
    JoinRelative(UploadDir, name);
    Regroup(UploadDir + "/", uuid, ".", ext);
    AfterLastDotted(UploadDir + "/" + uuid, ext);
  }

  lemma Regroup(a: string, b: string, c: string, d: string)
    ensures a + (b + c + d) == a + b + c + d
  {
  }

  const DefaultAvatar := "avatar/default.png"

  /** Gender choices: 0 undisclosed, 1 male, 2 female. */
  predicate ValidGender(g: int) { 0 <= g <= 2 }

  /** What `save` writes: an empty name becomes the username. */
  function SavedName(name: string, username: string): (r: string)
    ensures name != [] ==> r == name
    ensures name == [] ==> r == username
  {
    if name == [] then username else name
  }

  /** Saving twice writes the same name as saving once, and after a save
      the name is empty only when the username is. */
  lemma SavedNameStable(name: string, username: string)
    ensures SavedName(SavedName(name, username), username) == SavedName(name, username)
    ensures SavedName(name, username) == [] <==> name == [] && username == []
  {
  }

  /** `check_password` against a stored hash, for a given hasher. */
  function PasswordChecker(hash: string -> string, stored: string): string -> bool {
    raw => hash(raw) == stored
  }

  /** A row of the user table. `password` is the stored hash. */
  datatype UserRow = UserRow(
    username: string,
    name: string,
    email: string,
    gender: int,
    isActive: bool,
    avatar: string,
    password: string,
    lastLogin: Option<int>)

  /** A loaded user: the fields the views assign, and the row last written
      by `save` (None before the first save). */
  class User {
    var username: string
    var name: string
    var email: string
    var gender: int
    var isActive: bool
    var avatar: string
    var password: string
    var lastLogin: Option<int>
    var row: Option<UserRow>

    function Fields(): UserRow
      reads this
    {
      UserRow(username, name, email, gender, isActive, avatar, password, lastLogin)
    }

    /** `User(**fields)`: a new, unsaved user; the caller supplies the
        model's defaults (`name` "", `gender` 0, `is_active` true, `avatar`
        "avatar/default.png") for the fields it was not given. */
    constructor(username: string, name: string, email: string, gender: int, isActive: bool,
                avatar: string, password: string)
      ensures Fields() == UserRow(username, name, email, gender, isActive, avatar, password, None)
      ensures row.None?
    {
      this.username := username;
      this.name := name;
      this.email := email;
      this.gender := gender;
      this.isActive := isActive;
      this.avatar := avatar;
      this.password := password;
      lastLogin := None;
      row := None;
    }

    /** `save`: fills an empty name from the username, then writes the row. */
    method Save()
      modifies this
      ensures Fields() == old(Fields()).(name := SavedName(old(name), old(username)))
      ensures row == Some(Fields())
    {
      if name == [] {
        name := username;
      }
      row := Some(Fields());
    }
  }
}
