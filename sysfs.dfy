/** The files gpio.c touches under /sys/class/gpio, and its standard output,
    reduced to what its fopen/fread/fprintf/printf/puts calls observe. */
module Sysfs {

  datatype Mode = ReadMode | WriteMode

  /** A file system as gpio.c sees it: the contents of each existing file,
      which of them may be opened for reading and which for writing, and
      whether opening for writing empties the file first (a plain file under
      fopen(path, "w")) or leaves it alone until something is written (a
      sysfs attribute, whose contents are replaced by each write). */
  datatype Fs = Fs(
    files: map<string, string>,
    readable: set<string>,
    writable: set<string>,
    truncating: bool)

  /** fopen(path, mode) returns a non-NULL handle: the file exists (nothing
      here creates files) and the mode is permitted on it. */
  predicate CanOpen(fs: Fs, path: string, mode: Mode) {
    path in fs.files && (if mode == ReadMode then path in fs.readable else path in fs.writable)
  }

  /** The file system after fopen(path, mode). */
  function Opened(fs: Fs, path: string, mode: Mode): (r: Fs)
    ensures r.readable == fs.readable && r.writable == fs.writable && r.truncating == fs.truncating
    ensures r.files.Keys == fs.files.Keys
    ensures forall q :: q in fs.files && q != path ==> r.files[q] == fs.files[q]
    ensures mode == ReadMode || !fs.truncating || !CanOpen(fs, path, mode) ==> r == fs
    ensures mode == WriteMode && fs.truncating && CanOpen(fs, path, mode) ==> r.files[path] == ""
  {
    if mode == WriteMode && fs.truncating && CanOpen(fs, path, mode)
    then fs.(files := fs.files[path := ""])
    else fs
  }

  /** The file system after fprintf(fp, "%s", text) and fclose(fp) on a
      handle opened for writing: a plain file grows by `text` (after the
      truncation done at open), a sysfs attribute holds exactly `text`. */
  function Written(fs: Fs, path: string, text: string): (r: Fs)
    requires path in fs.files
    ensures r.readable == fs.readable && r.writable == fs.writable && r.truncating == fs.truncating
    ensures r.files.Keys == fs.files.Keys
    ensures forall q :: q in fs.files && q != path ==> r.files[q] == fs.files[q]
    ensures fs.truncating ==> r.files[path] == fs.files[path] + text
    ensures !fs.truncating ==> r.files[path] == text
  {
    fs.(files := fs.files[path := if fs.truncating then fs.files[path] + text else text])
  }

  /** The characters fread(buf, n, 1, fp) delivers from the start of the
      file: all of them when the file is shorter than n. */
  function Prefix(fs: Fs, path: string, n: nat): (s: string)
    requires path in fs.files
    ensures |s| <= n && s <= fs.files[path]
    ensures |s| < n ==> s == fs.files[path]
  {
    var c := fs.files[path];
    if |c| <= n then c else c[..n]
  }

  /** The machine gpio.c runs on: its file system and what it has printed. */
  class Host {
    var fs: Fs
    var stdout: string

    constructor (fs0: Fs)
      ensures fs == fs0 && stdout == ""
    {
      fs := fs0;
      stdout := "";
    }

    /** fopen(path, mode), reporting whether the handle is non-NULL. */
    method Open(path: string, mode: Mode) returns (ok: bool)
      modifies this
      ensures ok == CanOpen(old(fs), path, mode)
      ensures fs == Opened(old(fs), path, mode) && stdout == old(stdout)
    {
      ok := CanOpen(fs, path, mode);
      fs := Opened(fs, path, mode);
    }

    /** fread(buf, n, 1, fp) on a handle opened for reading. */
    method ReadChars(path: string, n: nat) returns (s: string)
      requires CanOpen(fs, path, ReadMode)
      ensures |s| <= n && s <= fs.files[path]
      ensures |s| < n ==> s == fs.files[path]
    {
      s := Prefix(fs, path, n);
    }

    /** fprintf(fp, ...) on a handle opened for writing, flushed by fclose. */
    method Put(path: string, text: string)
      requires CanOpen(fs, path, WriteMode)
      modifies this
      ensures fs == Written(old(fs), path, text) && stdout == old(stdout)
    {
      fs := Written(fs, path, text);
    }

    /** printf or puts: `text` goes to standard output. */
    method Print(text: string)
      modifies this
      ensures stdout == old(stdout) + text && fs == old(fs)
    {
      stdout := stdout + text;
    }
  }
}
