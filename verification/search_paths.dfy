/** Where the demo looks for files: the shared search list, and the two
    directories searched for the shader of a named pipeline alternative.
    The install and repository-root directories are computed from the
    executable's location at start-up; here they are parameters. */
module SearchPaths {

  const FastPipelinesDir: string := "extras/fast_pipelines/"
  const GeneralPipelinesDir: string := "extras/general_pipelines/"

  /** `searchPaths`: the compiled shaders, the test images and the roots,
      each first under the install directory and then under the
      repository root. */
  function SearchPathList(installPath: string, repoRootPath: string): (r: seq<string>)
    ensures |r| == 6
    ensures forall k :: 0 <= k < 3 ==> installPath <= r[2 * k] && repoRootPath <= r[2 * k + 1]
    ensures forall k :: 0 <= k < 3 ==> r[2 * k][|installPath|..] == r[2 * k + 1][|repoRootPath|..]
    ensures installPath <= r[0] && installPath <= r[2]
    ensures r[0][|installPath|..] == "spv/" && r[2][|installPath|..] == "test_images/" && r[4] == installPath
  {
    [ installPath + "spv/", repoRootPath + "spv/",
      installPath + "test_images/", repoRootPath + "test_images/",
      installPath, repoRootPath ]
  }

  /** The two directories of an alternative's shader under `kindDir`:
      install first, repository root second. */
  function AlternativeDirectories(installPath: string, repoRootPath: string, kindDir: string, name: string): (r: seq<string>)
    ensures |r| == 2
    ensures installPath <= r[0] && repoRootPath <= r[1]
    ensures r[0][|installPath|..] == r[1][|repoRootPath|..] == kindDir + name + "/"
  {
    var relPath := kindDir + name + "/";
    [installPath + relPath, repoRootPath + relPath]
  }

  /** `getFastPipelineAlternativeDirectories`. */
  function FastDirectories(installPath: string, repoRootPath: string, name: string): (r: seq<string>)
    ensures |r| == 2 && installPath <= r[0] && repoRootPath <= r[1]
    ensures r[0][|installPath|..] == r[1][|repoRootPath|..] == FastPipelinesDir + name + "/"
  {
    AlternativeDirectories(installPath, repoRootPath, FastPipelinesDir, name)
  }

  /** `getGeneralPipelineAlternativeDirectories`. */
  function GeneralDirectories(installPath: string, repoRootPath: string, name: string): (r: seq<string>)
    ensures |r| == 2 && installPath <= r[0] && repoRootPath <= r[1]
    ensures r[0][|installPath|..] == r[1][|repoRootPath|..] == GeneralPipelinesDir + name + "/"
  {
    AlternativeDirectories(installPath, repoRootPath, GeneralPipelinesDir, name)
  }

  /** The text between the kind directory and the final "/" of either
      directory. */
  function NameOf(dir: string, root: string, kindDir: string): string
    requires |root| + |kindDir| <= |dir| - 1
  {
    dir[|root| + |kindDir| .. |dir| - 1]
  }

  /** Both directories are directories (they end in "/"), and the
      alternative's name can be read back from each: distinct names give
      distinct directories. */
  lemma DirectoriesNameRecoverable(installPath: string, repoRootPath: string, kindDir: string, name: string)
    ensures var r := AlternativeDirectories(installPath, repoRootPath, kindDir, name);
            && r[0][|r[0]| - 1] == '/' && r[1][|r[1]| - 1] == '/'
            && |installPath| + |kindDir| <= |r[0]| - 1 && NameOf(r[0], installPath, kindDir) == name
            && |repoRootPath| + |kindDir| <= |r[1]| - 1 && NameOf(r[1], repoRootPath, kindDir) == name
  {
    var r := AlternativeDirectories(installPath, repoRootPath, kindDir, name);
    assert r[0] == installPath + kindDir + name + "/";
    assert r[1] == repoRootPath + kindDir + name + "/";
  }

  /** A fast and a general directory under the same root are never the
      same, whatever the two names: they part at the kind directory. */
  lemma FastGeneralDisjoint(installPath: string, repoRootPath: string, fastName: string, generalName: string)
    ensures forall i :: 0 <= i < 2 ==>
              FastDirectories(installPath, repoRootPath, fastName)[i]
              != GeneralDirectories(installPath, repoRootPath, generalName)[i]
  {
    var f := FastDirectories(installPath, repoRootPath, fastName);
    var g := GeneralDirectories(installPath, repoRootPath, generalName);
    assert f[0] == installPath + FastPipelinesDir + fastName + "/";
    assert g[0] == installPath + GeneralPipelinesDir + generalName + "/";
    assert f[1] == repoRootPath + FastPipelinesDir + fastName + "/";
    assert g[1] == repoRootPath + GeneralPipelinesDir + generalName + "/";
    assert f[0][|installPath| + 7] == 'f' != g[0][|installPath| + 7];
    assert f[1][|repoRootPath| + 7] == 'f' != g[1][|repoRootPath| + 7];
  }
}
