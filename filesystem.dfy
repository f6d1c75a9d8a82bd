/** The part of Node's `fs` module the backend uses, as a map from path to
    text contents. Directories are not modelled. Which operations fail is an
    oracle: every path in `faults` makes any operation on it throw, with the
    message stored for it. */
module FileStore {
  import opened Wrappers

  /** The bytes one character takes in UTF-8. */
  function CharBytes(c: char): (n: nat)
    ensures 1 <= n <= 4
    ensures c as int < 0x80 <==> n == 1
  {
    if c as int < 0x80 then 1
    else if c as int < 0x800 then 2
    else if c as int < 0x10000 then 3
    else 4
  }

  /** The size `statSync` reports for a file written as UTF-8 text. */
  function Utf8Length(s: string): (n: nat)
    ensures |s| <= n <= 4 * |s|
  {
    if |s| == 0 then 0 else Utf8Length(s[..|s| - 1]) + CharBytes(s[|s| - 1])
  }

  lemma {:induction false} Utf8LengthAppend(a: string, b: string)
    ensures Utf8Length(a + b) == Utf8Length(a) + Utf8Length(b)
    decreases |b|
  {
    if |b| == 0 {
      assert a + b == a;
    } else {
      assert (a + b)[..|a + b| - 1] == a + b[..|b| - 1];
      Utf8LengthAppend(a, b[..|b| - 1]);
    }
  }

  /** `path.join(a, b)` for a relative `b` without `.` or `..` segments. */
  function PathJoin(a: string, b: string): string {
    if a == "" then b else a + "/" + b
  }

  /** The message Node gives when the file to unlink or rename is missing. */
  function Missing(syscall: string, path: string): string {
    "ENOENT: no such file or directory, " + syscall + " '" + path + "'"
  }

  /** The contents of `path`, the empty text when it is absent (what
      appending to a missing file starts from). */
  function Contents(files: map<string, string>, path: string): string {
    if path in files then files[path] else ""
  }

  /** The files after `appendFileSync(path, text)`. */
  function Appended(files: map<string, string>, faults: map<string, string>, path: string, text: string)
    : (r: map<string, string>)
    ensures path !in faults ==> path in r && r[path] == Contents(files, path) + text
    ensures forall p :: p != path ==> (p in r <==> p in files)
    ensures forall p :: p != path && p in files ==> r[p] == files[p]
  {
    if path in faults then files else files[path := Contents(files, path) + text]
  }

  class FileSystem {
    var files: map<string, string>
    const faults: map<string, string>

    constructor (files: map<string, string>, faults: map<string, string>)
      ensures this.files == files && this.faults == faults
    {
      this.files := files;
      this.faults := faults;
    }

    /** `existsSync` */
    predicate Exists(path: string)
      reads this
    {
      path in files
    }

    /** `statSync(path).size`, or nothing when the call throws. */
    function Size(path: string): Option<nat>
      reads this
    {
      if path in faults || path !in files then None else Some(Utf8Length(files[path]))
    }

    /** `readFileSync(path, 'utf-8')`, or nothing when the call throws. */
    function Read(path: string): Option<string>
      reads this
    {
      if path in faults || path !in files then None else Some(files[path])
    }

    /** `writeFileSync`: replaces the contents, or throws. */
    method Write(path: string, content: string) returns (err: Option<string>)
      modifies this
      ensures path in faults ==> err == Some(faults[path]) && files == old(files)
      ensures path !in faults ==> err == None && files == old(files)[path := content]
    {
      if path in faults {
        return Some(faults[path]);
      }
      files := files[path := content];
      err := None;
    }

    /** `appendFileSync`: creates the file when missing, or throws. */
    method Append(path: string, text: string) returns (err: Option<string>)
      modifies this
      ensures files == Appended(old(files), faults, path, text)
      ensures err.Some? <==> path in faults
    {
      if path in faults {
        return Some(faults[path]);
      }
      var current := if path in files then files[path] else "";
      files := files[path := current + text];
      err := None;
    }

    /** `unlinkSync`: throws when the file is missing. */
    method Unlink(path: string) returns (err: Option<string>)
      modifies this
      ensures path in faults ==> err == Some(faults[path]) && files == old(files)
      ensures path !in faults && path !in old(files) ==> err == Some(Missing("unlink", path)) && files == old(files)
      ensures path !in faults && path in old(files) ==> err == None && files == old(files) - {path}
    {
      if path in faults {
        return Some(faults[path]);
      }
      if path !in files {
        return Some(Missing("unlink", path));
      }
      files := files - {path};
      err := None;
    }

    /** `renameSync`: moves the contents, replacing any file at `to`. */
    method Rename(from: string, to: string) returns (err: Option<string>)
      modifies this
      ensures from in faults ==> err == Some(faults[from]) && files == old(files)
      ensures from !in faults && to in faults ==> err == Some(faults[to]) && files == old(files)
      ensures from !in faults && to !in faults && from !in old(files) ==>
                err == Some(Missing("rename", from)) && files == old(files)
      ensures from !in faults && to !in faults && from in old(files) ==>
                err == None && files == (old(files) - {from})[to := old(files)[from]]
    {
      if from in faults {
        return Some(faults[from]);
      }
      if to in faults {
        return Some(faults[to]);
      }
      if from !in files {
        return Some(Missing("rename", from));
      }
      files := (files - {from})[to := files[from]];
      err := None;
    }
  }
}
