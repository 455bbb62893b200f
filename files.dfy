/** The file system the agents read and write, and the path arithmetic of
    `os.path.join` / `os.path.basename` that names the files the remediation
    loop touches next to its target. */
module Files {

  /** The contents of every existing file, keyed by path. A write replaces the
      whole content of one path; a missing key is a file that does not exist. */
  class FileStore {
    var files: map<string, string>

    constructor (initial: map<string, string>)
      ensures files == initial
    {
      files := initial;
    }

    /** `open(path, 'w').write(content)`. */
    method Write(path: string, content: string)
      modifies this
      ensures files == old(files)[path := content]
    {
      files := files[path := content];
    }
  }

  /** A plain file name, as `os.walk` lists it: no directory separator. */
  predicate IsBaseName(name: string)
  {
    name != [] && forall i :: 0 <= i < |name| ==> name[i] != '/'
  }

  /** `os.path.join(dir, name)` for a name that does not start with '/'. */
  function Join(dir: string, name: string): string
  {
    if dir == [] || dir[|dir| - 1] == '/' then dir + name else dir + "/" + name
  }

  /** `os.path.basename(p)`: what follows the last '/'. */
  function Basename(p: string): (r: string)
    ensures forall i :: 0 <= i < |r| ==> r[i] != '/'
  {
    if p == [] || p[|p| - 1] == '/' then [] else Basename(p[..|p| - 1]) + [p[|p| - 1]]
  }

  /** The basename of a directory part followed by a name is that name. */
  lemma {:induction false} BasenameAfterSeparator(prefix: string, name: string)
    requires prefix == [] || prefix[|prefix| - 1] == '/'
    requires forall i :: 0 <= i < |name| ==> name[i] != '/'
    ensures Basename(prefix + name) == name
    decreases |name|
  {
    if name == [] {
      assert prefix + name == prefix;
    } else {
      var p, init := prefix + name, name[..|name| - 1];
      assert p[|p| - 1] == name[|name| - 1] != '/';
      assert p[..|p| - 1] == prefix + init;
      BasenameAfterSeparator(prefix, init);
      calc {
        Basename(p);
        Basename(prefix + init) + [name[|name| - 1]];
        init + [name[|name| - 1]];
        name;
      }
    }
  }

  /** `os.path.basename(os.path.join(dir, name)) == name`. */
  lemma BasenameOfJoin(dir: string, name: string)
    requires IsBaseName(name)
    ensures Basename(Join(dir, name)) == name
  {
    if dir == [] || dir[|dir| - 1] == '/' {
      BasenameAfterSeparator(dir, name);
    } else {
      assert dir + "/" + name == (dir + "/") + name;
      BasenameAfterSeparator(dir + "/", name);
    }
  }

  const BackupSuffix := ".bak"
  const TestPrefix := "test_"
  const ExploitPrefix := "exploit_"

  /** The files the remediation loop writes beside its target `Join(dir, name)`. */
  function BackupPath(dir: string, name: string): string { Join(dir, name) + BackupSuffix }
  function TestPath(dir: string, name: string): string { Join(dir, TestPrefix + name) }
  function ExploitPath(dir: string, name: string): string { Join(dir, ExploitPrefix + name) }

  /** The target and its three sibling artifacts are four different files, so
      writing one of them never overwrites another. */
  lemma SiblingPathsDistinct(dir: string, name: string)
    ensures var target := Join(dir, name);
      |{target, BackupPath(dir, name), TestPath(dir, name), ExploitPath(dir, name)}| == 4
  {
    var k := |Join(dir, [])|;
    assert |Join(dir, name)| == k + |name|;
    assert |BackupPath(dir, name)| == k + |name| + 4;
    assert |TestPath(dir, name)| == k + |name| + 5;
    assert |ExploitPath(dir, name)| == k + |name| + 8;
  }
}
