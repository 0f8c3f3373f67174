/** Node's `path.extname` for POSIX paths, which the prediction handler uses
    to keep the extension of the client's file name. */
module NodePath {
  import opened Store

  /** `s` without the run of '/' characters at its end. */
  function TrimTrailingSlashes(s: string): (r: string)
    ensures |r| <= |s| && r == s[..|r|]
    ensures r == "" || r[|r| - 1] != '/'
    ensures forall k :: |r| <= k < |s| ==> s[k] == '/'
  {
    if |s| > 0 && s[|s| - 1] == '/' then TrimTrailingSlashes(s[..|s| - 1]) else s
  }

  /** The index of the last `c` in `s`. */
  function LastIndexOf(s: string, c: char): (r: Option<nat>)
    ensures r.Some? ==> r.value < |s| && s[r.value] == c && forall k :: r.value < k < |s| ==> s[k] != c
    ensures r.None? ==> c !in s
  {
    if |s| == 0 then None
    else if s[|s| - 1] == c then Some(|s| - 1)
    else LastIndexOf(s[..|s| - 1], c)
  }

  /** The last path component, ignoring trailing separators. */
  function LastComponent(path: string): (seg: string)
    ensures '/' !in seg
  {
    var trimmed := TrimTrailingSlashes(path);
    match LastIndexOf(trimmed, '/')
    case None => trimmed
    case Some(i) => trimmed[i + 1..]
  }

  /** `path.extname(path)`: the last component from its last '.' on; empty
      when the component has no '.', starts with its only '.', or is "..". */
  function Extname(path: string): (ext: string)
    ensures '/' !in ext
    ensures ext == "" || (ext[0] == '.' && '.' !in ext[1..])
    ensures ext != "" ==> exists k :: 0 < k && k + |ext| == |LastComponent(path)| && LastComponent(path)[k..] == ext
  {
    var seg := LastComponent(path);
    match LastIndexOf(seg, '.')
    case None => ""
    case Some(d) =>
      if d == 0 || seg == ".." then ""
      else
        assert forall c :: c in seg[d..] ==> c in seg;
        seg[d..]
  }

  /** Only the last component of a path matters. */
  lemma ExtnameOfLastComponent(path: string)
    ensures Extname(path) == Extname(LastComponent(path))
  {
    var seg := LastComponent(path);
    assert TrimTrailingSlashes(seg) == seg;
    assert LastIndexOf(seg, '/') == None;
  }

  /** A file name with a '.' after its first character keeps the suffix
      from its last '.' on. */
  lemma {:induction false} ExtnameOfName(name: string, d: nat)
    requires '/' !in name && name != ".."
    requires 0 < d < |name| && name[d] == '.' && '.' !in name[d + 1..]
    ensures Extname(name) == name[d..]
  {
    assert TrimTrailingSlashes(name) == name;
    assert LastIndexOf(name, '/') == None;
    assert name[d] in name;
    assert LastIndexOf(name, '.') == Some(d);
  }

  /** A file name with no '.' past its first character, or "..", has no
      extension. */
  lemma {:induction false} ExtnameEmpty(name: string)
    requires '/' !in name
    requires name == ".." || forall k :: 0 < k < |name| ==> name[k] != '.'
    ensures Extname(name) == ""
  {
    assert TrimTrailingSlashes(name) == name;
    assert LastIndexOf(name, '/') == None;
  }

  lemma ExtnameOfPlainName()
    ensures Extname("bottle.jpg") == ".jpg"
  {
    assert TrimTrailingSlashes("bottle.jpg") == "bottle.jpg";
    assert LastIndexOf("bottle.jpg", '/') == None;
    assert LastIndexOf("bottle.jpg", '.') == Some(6);
  }

  lemma ExtnameKeepsLastSuffixOnly()
    ensures Extname("archive.tar.gz") == ".gz"
  {
    assert TrimTrailingSlashes("archive.tar.gz") == "archive.tar.gz";
    assert LastIndexOf("archive.tar.gz", '/') == None;
    assert LastIndexOf("archive.tar.gz", '.') == Some(11);
  }

  lemma ExtnameOfDotFile()
    ensures Extname(".profile") == ""
  {
    assert TrimTrailingSlashes(".profile") == ".profile";
    assert LastIndexOf(".profile", '/') == None;
    assert LastIndexOf(".profile", '.') == Some(0);
  }

  lemma ExtnameIgnoresTrailingSlash()
    ensures Extname("shot.png/") == ".png"
  {
    assert TrimTrailingSlashes("shot.png/") == "shot.png";
    assert LastIndexOf("shot.png", '/') == None;
    assert LastIndexOf("shot.png", '.') == Some(4);
  }
}
