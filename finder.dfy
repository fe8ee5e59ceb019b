/**
 * Finder::findInParent: the project-root locator. Starting from a
 * directory it checks `"<dir>/<filename>"` and then each successive
 * dirname, up to and including "/", and returns the first directory that
 * holds the file.
 *
 * The filesystem is the set of path strings that file_exists() reports as
 * existing, tested exactly as the code spells them.
 */
module Finder {
  import opened Wrappers
  import opened Exceptions
  import opened Php

  /** The paths for which file_exists() holds. */
  type FileSystem = set<string>

  /** file_exists("{$dir}/{$filename}") */
  predicate Contains(fs: FileSystem, dir: string, filename: string) {
    dir + "/" + filename in fs
  }

  /**
   * `dir` followed by its successive dirnames, ending at "/": the
   * directories findInParent visits, in the order it visits them.
   */
  function Ancestors(dir: string): (a: seq<string>)
    requires IsAbsolute(dir)
    ensures |a| >= 1 && a[0] == dir
    decreases |dir|
  {
    if dir == "/" then [dir] else [dir] + Ancestors(Dirname(dir))
  }

  /**
   * The ancestors are absolute prefixes of `dir`, each one the dirname of
   * the one before, and the last one, and only the last one, is "/".
   */
  lemma {:induction false} AncestorsChain(dir: string)
    requires IsAbsolute(dir)
    ensures var a := Ancestors(dir);
      && a[|a| - 1] == "/"
      && (forall i :: 0 <= i < |a| ==> IsAbsolute(a[i]) && a[i] <= dir)
      && (forall i :: 0 <= i < |a| - 1 ==> a[i] != "/" && a[i + 1] == Dirname(a[i]))
    decreases |dir|
  {
    if dir != "/" {
      var parent := Dirname(dir);
      AncestorsChain(parent);
      var a, b := Ancestors(dir), Ancestors(parent);
      assert a == [dir] + b;
      forall i | 0 < i < |a|
        ensures IsAbsolute(a[i]) && a[i] <= dir
      {
        assert a[i] == b[i - 1];
      }
      forall i | 0 < i < |a| - 1
        ensures a[i] != "/" && a[i + 1] == Dirname(a[i])
      {
        assert a[i] == b[i - 1] && a[i + 1] == b[i];
      }
    }
  }

  /** The exception findInParent throws once "/" has been checked. */
  function NotFound(filename: string): Exception {
    FileNotFoundException("File " + filename + " not found in any parent directory")
  }

  /** findInParent($filename, $dir) */
  function FindInParent(fs: FileSystem, filename: string, dir: string): (r: Result<string, Exception>)
    requires IsAbsolute(dir)
    ensures r.Success? ==> Contains(fs, r.value, filename) && r.value in Ancestors(dir)
    ensures r.Failure? ==> r.error == NotFound(filename) && !Contains(fs, "/", filename)
    decreases |dir|
  {
    if Contains(fs, dir, filename) then Success(dir)
    else if dir == "/" then Failure(NotFound(filename))
    else FindInParent(fs, filename, Dirname(dir))
  }

  /** When the start directory itself holds the file, it is the answer. */
  lemma FindInParentHere(fs: FileSystem, filename: string, dir: string)
    requires IsAbsolute(dir)
    requires Contains(fs, dir, filename)
    ensures FindInParent(fs, filename, dir) == Success(dir)
  {
  }

  /** No directory of `dirs` holds the file. */
  predicate NoneContains(fs: FileSystem, filename: string, dirs: seq<string>) {
    forall i :: 0 <= i < |dirs| ==> !Contains(fs, dirs[i], filename)
  }

  /** `dirs[k]` holds the file and no earlier directory of `dirs` does. */
  predicate FirstContaining(fs: FileSystem, filename: string, dirs: seq<string>, k: int) {
    && 0 <= k < |dirs|
    && Contains(fs, dirs[k], filename)
    && NoneContains(fs, filename, dirs[..k])
  }

  /**
   * findInParent fails exactly when no ancestor of the start directory, the
   * start directory and "/" included, holds the file: "/" is checked before
   * giving up.
   */
  lemma {:induction false} FindInParentFailsIff(fs: FileSystem, filename: string, dir: string)
    requires IsAbsolute(dir)
    ensures FindInParent(fs, filename, dir).Failure? <==> NoneContains(fs, filename, Ancestors(dir))
    decreases |dir|
  {
    var a := Ancestors(dir);
    if Contains(fs, dir, filename) {
      assert Contains(fs, a[0], filename);
    } else if dir != "/" {
      var parent := Dirname(dir);
      FindInParentFailsIff(fs, filename, parent);
      NoneContainsCons(fs, filename, dir, Ancestors(parent));
    }
  }

  /** No directory of `[d] + dirs` holds the file exactly when `d` does not and no directory of `dirs` does. */
  lemma NoneContainsCons(fs: FileSystem, filename: string, d: string, dirs: seq<string>)
    ensures NoneContains(fs, filename, [d] + dirs) <==> !Contains(fs, d, filename) && NoneContains(fs, filename, dirs)
  {
    var a := [d] + dirs;
    assert a[0] == d;
    if NoneContains(fs, filename, a) {
      forall i | 0 <= i < |dirs|
        ensures !Contains(fs, dirs[i], filename)
      {
        assert a[i + 1] == dirs[i];
      }
    }
    if !Contains(fs, d, filename) && NoneContains(fs, filename, dirs) {
      forall i | 0 <= i < |a|
        ensures !Contains(fs, a[i], filename)
      {
        if i > 0 {
          assert a[i] == dirs[i - 1];
        }
      }
    }
  }

  /**
   * When findInParent succeeds, its answer is the nearest ancestor that
   * holds the file: no directory visited before it holds the file.
   */
  lemma {:induction false} FindInParentIsNearest(fs: FileSystem, filename: string, dir: string)
    requires IsAbsolute(dir)
    requires FindInParent(fs, filename, dir).Success?
    ensures exists k :: FirstContaining(fs, filename, Ancestors(dir), k)
                        && Ancestors(dir)[k] == FindInParent(fs, filename, dir).value
    decreases |dir|
  {
    var a := Ancestors(dir);
    var r := FindInParent(fs, filename, dir);
    if Contains(fs, dir, filename) {
      assert a[..0] == [];
      assert FirstContaining(fs, filename, a, 0);
    } else {
      var parent := Dirname(dir);
      FindInParentIsNearest(fs, filename, parent);
      var b := Ancestors(parent);
      assert a == [dir] + b;
      var k :| FirstContaining(fs, filename, b, k) && b[k] == r.value;
      FirstContainingCons(fs, filename, dir, b, k);
    }
  }

  /** Putting a directory without the file in front moves the first one holding it back by one. */
  lemma FirstContainingCons(fs: FileSystem, filename: string, d: string, dirs: seq<string>, k: int)
    requires !Contains(fs, d, filename) && FirstContaining(fs, filename, dirs, k)
    ensures FirstContaining(fs, filename, [d] + dirs, k + 1) && ([d] + dirs)[k + 1] == dirs[k]
  {
    var a := [d] + dirs;
    assert a[..k + 1] == [d] + dirs[..k];
    NoneContainsCons(fs, filename, d, dirs[..k]);
  }
}
