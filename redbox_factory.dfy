/**
 * The legacy Redbox Docker project factory: its own copy of findInParent,
 * and findFromWorkingDirectory, which looks for a `.rd` directory above the
 * working directory and builds a Redbox project there.
 */
module RedboxFactory {
  import opened Wrappers
  import opened Exceptions
  import opened Php
  import Finder

  /** The marker directory of a Redbox Docker project. */
  const MARKER := ".rd"

  /** A Redbox Docker project, known by its installation directory. */
  datatype Project = Project(installationDirectory: string)

  /** ProjectFactory::findInParent, written out again in the legacy code. */
  function FindInParent(fs: Finder.FileSystem, filename: string, dir: string): (r: Result<string, Exception>)
    requires IsAbsolute(dir)
    decreases |dir|
  {
    if dir + "/" + filename in fs then Success(dir)
    else if dir == "/" then
      Failure(FileNotFoundException("File " + filename + " not found in any parent directory"))
    else FindInParent(fs, filename, Dirname(dir))
  }

  /**
   * The legacy copy behaves exactly like Finder::findInParent, so every
   * property proved there (the answer holds the file, is the nearest
   * ancestor that does, failure only after "/") holds of it too.
   */
  lemma {:induction false} FindInParentAgrees(fs: Finder.FileSystem, filename: string, dir: string)
    requires IsAbsolute(dir)
    ensures FindInParent(fs, filename, dir) == Finder.FindInParent(fs, filename, dir)
    decreases |dir|
  {
    if dir + "/" + filename !in fs && dir != "/" {
      FindInParentAgrees(fs, filename, Dirname(dir));
    }
  }

  /** new Project($dir): the constructor throws unless `"<dir>/.rd"` exists. */
  function NewProject(fs: Finder.FileSystem, installationDirectory: string): (r: Result<Project, Exception>)
    ensures r.Success? <==> installationDirectory + "/.rd" in fs
    ensures r.Success? ==> r.value.installationDirectory == installationDirectory
  {
    if installationDirectory + "/.rd" in fs then Success(Project(installationDirectory))
    else Failure(FileNotFoundException("Could not find `.rd/` directory inside " + installationDirectory))
  }

  /**
   * findFromWorkingDirectory(): search upwards from the working directory
   * for `.rd`. It succeeds exactly when some ancestor holds `.rd`, and then
   * the project sits in the nearest such ancestor.
   */
  function FindFromWorkingDirectory(fs: Finder.FileSystem, workingDirectory: string): (r: Result<Project, Exception>)
    requires IsAbsolute(workingDirectory)
    ensures r.Success? <==> !Finder.NoneContains(fs, MARKER, Finder.Ancestors(workingDirectory))
    ensures r.Success? ==> r.value.installationDirectory + "/.rd" in fs
    ensures r.Success? ==> exists k :: Finder.FirstContaining(fs, MARKER, Finder.Ancestors(workingDirectory), k)
                                       && Finder.Ancestors(workingDirectory)[k] == r.value.installationDirectory
  {
    FindInParentAgrees(fs, MARKER, workingDirectory);
    Finder.FindInParentFailsIff(fs, MARKER, workingDirectory);
    var dir :- FindInParent(fs, MARKER, workingDirectory);
    Finder.FindInParentIsNearest(fs, MARKER, workingDirectory);
    assert dir + "/" + MARKER == dir + "/.rd";
    NewProject(fs, dir)
  }
}
