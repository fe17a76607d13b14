/** The two pieces of `pathlib.Path` the reviewer uses: the final path
    component and its suffix. Paths are the resolved, '/'-separated text. */
module Paths {
  import opened Text

  /** `path.name`: everything after the last '/'. */
  function Name(path: string): (name: string)
    ensures '/' !in name
    ensures |name| <= |path| && path[|path| - |name|..] == name
    ensures |name| < |path| ==> path[|path| - |name| - 1] == '/'
    ensures '/' !in path ==> name == path
  {
    path[RFind(path, '/') + 1..]
  }

  /** `path.suffix`: the final component's text from its last '.', when
      that dot is neither the first nor the last character of the
      component; otherwise the empty string. */
  function Suffix(path: string): (ext: string)
    ensures ext != [] ==> |ext| >= 2 && ext[0] == '.' && '.' !in ext[1..] && '/' !in ext
    ensures ext != [] ==> |ext| < |Name(path)| && Name(path)[|Name(path)| - |ext|..] == ext
    ensures ext == [] <==> var i := RFind(Name(path), '.'); i <= 0 || i == |Name(path)| - 1
  {
    var name := Name(path);
    var i := RFind(name, '.');
    if 0 < i < |name| - 1 then name[i..] else ""
  }

  /** A component "stem.ext" whose stem is not empty and whose extension has
      no dot has suffix ".ext", whatever directories precede it. */
  lemma SuffixOfStemAndExtension(dir: string, stem: string, ext: string)
    requires stem != [] && '/' !in stem
    requires ext != [] && '.' !in ext && '/' !in ext
    ensures Suffix(dir + "/" + stem + "." + ext) == "." + ext
  {
    var path := dir + "/" + stem + "." + ext;
    var name := stem + "." + ext;
    var i := RFind(path, '/');
    assert path[|dir|] == '/';
    assert i == |dir|;
    assert Name(path) == name by {
      assert path[|dir| + 1..] == name;
    }
    var d := RFind(name, '.');
    assert name[|stem|] == '.';
    assert d == |stem|;
    assert name[d..] == "." + ext;
  }
}
