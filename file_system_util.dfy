/** Destination paths for transcoder output and the app's public folder.
    The platform directories (the public Movies directory, the app's cache
    directory) and the random UUID token are parameters. */
module FileSystemUtil {

  const MAIN_FOLDER_NAME: string := "Rome4VideoEditor"
  const EXTENSION: string := ".mp4"

  /** The app's folder under the public Movies directory. */
  function DefaultFolder(moviesDir: string): (dir: string)
    ensures DirectlyUnder(dir, moviesDir)
  {
    moviesDir + "/" + MAIN_FOLDER_NAME
  }

  /** Path of a permanent copy: `<movies>/Rome4VideoEditor/VID<token>.mp4`. */
  function SavingFileNameAndDir(moviesDir: string, token: string): (path: string)
    ensures IsPrefix(DefaultFolder(moviesDir) + "/VID", path)
    ensures IsSuffix(EXTENSION, path)
    ensures |path| == |moviesDir| + |token| + 25
  {
    DefaultFolder(moviesDir) + "/VID" + token + EXTENSION
  }

  /** Path of a scratch file: `<cache>/<token>.mp4`. */
  function NewTempFileNameAndDir(cacheDir: string, token: string): (path: string)
    ensures IsPrefix(cacheDir + "/", path)
    ensures IsSuffix(EXTENSION, path)
    ensures |path| == |cacheDir| + |token| + 5
  {
    cacheDir + "/" + token + EXTENSION
  }

  predicate IsPrefix(p: string, s: string) {
    |p| <= |s| && s[..|p|] == p
  }

  predicate IsSuffix(p: string, s: string) {
    |p| <= |s| && s[|s| - |p|..] == p
  }

  /** `path` names an entry directly inside `dir`: one more path component. */
  predicate DirectlyUnder(path: string, dir: string) {
    IsPrefix(dir + "/", path) && forall i :: |dir| + 1 <= i < |path| ==> path[i] != '/'
  }

  /** Cutting a known prefix and suffix off a concatenation gives back the middle. */
  lemma MiddleOf(pre: string, mid: string, post: string)
    ensures (pre + mid + post)[|pre|..|pre| + |mid|] == mid
  {
  }

  /** For a fixed Movies directory, distinct tokens give distinct saving paths. */
  lemma SavingPathInjective(moviesDir: string, t1: string, t2: string)
    requires SavingFileNameAndDir(moviesDir, t1) == SavingFileNameAndDir(moviesDir, t2)
    ensures t1 == t2
  {
    var pre := DefaultFolder(moviesDir) + "/VID";
    assert |t1| == |t2|;
    assert SavingFileNameAndDir(moviesDir, t1) == pre + t1 + EXTENSION;
    assert SavingFileNameAndDir(moviesDir, t2) == pre + t2 + EXTENSION;
    MiddleOf(pre, t1, EXTENSION);
    MiddleOf(pre, t2, EXTENSION);
  }

  /** For a fixed cache directory, distinct tokens give distinct scratch paths. */
  lemma TempPathInjective(cacheDir: string, t1: string, t2: string)
    requires NewTempFileNameAndDir(cacheDir, t1) == NewTempFileNameAndDir(cacheDir, t2)
    ensures t1 == t2
  {
    var pre := cacheDir + "/";
    assert |t1| == |t2|;
    assert NewTempFileNameAndDir(cacheDir, t1) == pre + t1 + EXTENSION;
    assert NewTempFileNameAndDir(cacheDir, t2) == pre + t2 + EXTENSION;
    MiddleOf(pre, t1, EXTENSION);
    MiddleOf(pre, t2, EXTENSION);
  }

  /** A scratch file whose token has no '/' (a UUID has none) lies directly in
      the cache directory, and a saving path directly in the app's folder. */
  lemma PathsAreDirectlyUnder(moviesDir: string, cacheDir: string, token: string)
    requires forall i :: 0 <= i < |token| ==> token[i] != '/'
    ensures DirectlyUnder(NewTempFileNameAndDir(cacheDir, token), cacheDir)
    ensures DirectlyUnder(SavingFileNameAndDir(moviesDir, token), DefaultFolder(moviesDir))
  {
  }

  /** `d` is `path` itself or a directory on the way to it: a prefix that
      ends just before one of the path's '/' separators. */
  predicate IsSelfOrAncestor(d: string, path: string) {
    d == path || IsPrefix(d + "/", path)
  }

  /** The directories `mkdirs` creates for `path`: the path itself and every
      proper ancestor given by a non-leading '/'. */
  function WithAncestors(path: string): (dirs: set<string>)
    ensures path in dirs
    ensures forall d :: d in dirs ==> IsSelfOrAncestor(d, path)
    ensures forall i :: 0 < i < |path| && path[i] == '/' ==> path[..i] in dirs
  {
    var dirs := {path} + set i | 0 < i < |path| && path[i] == '/' :: path[..i];
    assert forall d :: d in dirs ==> IsSelfOrAncestor(d, path) by {
      forall d | d in dirs ensures IsSelfOrAncestor(d, path) {
        if d != path {
          var i :| 0 < i < |path| && path[i] == '/' && d == path[..i];
          assert d + "/" == path[..i + 1];
        }
      }
    }
    dirs
  }

  /** The set of existing directories after `createDefaultFolderIfNeed`. */
  function AfterCreateDefaultFolder(dirs: set<string>, moviesDir: string): (r: set<string>)
    ensures DefaultFolder(moviesDir) in r
    ensures dirs <= r
    ensures DefaultFolder(moviesDir) in dirs ==> r == dirs
    ensures forall d :: d in r - dirs ==> IsSelfOrAncestor(d, DefaultFolder(moviesDir))
  {
    var folder := DefaultFolder(moviesDir);
    if folder in dirs then dirs else dirs + WithAncestors(folder)
  }

  /** Creating the folder twice is the same as creating it once. */
  lemma CreateDefaultFolderIdempotent(dirs: set<string>, moviesDir: string)
    ensures AfterCreateDefaultFolder(AfterCreateDefaultFolder(dirs, moviesDir), moviesDir)
         == AfterCreateDefaultFolder(dirs, moviesDir)
  {
  }

  /** The device's directory tree, as the set of directories that exist. */
  class Storage {
    var dirs: set<string>

    constructor (existing: set<string>)
      ensures dirs == existing
    {
      dirs := existing;
    }

    /** Make sure `<movies>/Rome4VideoEditor` exists; nothing changes when it
        already does. */
    method CreateDefaultFolderIfNeed(moviesDir: string)
      modifies this
      ensures dirs == AfterCreateDefaultFolder(old(dirs), moviesDir)
      ensures DefaultFolder(moviesDir) in dirs
      ensures DefaultFolder(moviesDir) in old(dirs) ==> dirs == old(dirs)
    {
      var folder := DefaultFolder(moviesDir);
      if folder !in dirs {
        dirs := dirs + WithAncestors(folder);
      }
    }
  }
}
