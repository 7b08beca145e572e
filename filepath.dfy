/** The functions of Go's `path/filepath` package that the update manager
    relies on, for '/'-separated (Unix) paths. */
module FilePath {
  import opened GoStrings

  /** The elements of a path as filepath.Clean keeps them: empty and "."
      elements are dropped, ".." removes the element before it, and a rooted
      path drops a ".." that would climb above the root. */
  function Resolve(elems: seq<string>, rooted: bool): (r: seq<string>)
    ensures forall i :: 0 <= i < |r| ==> r[i] != "" && r[i] != "."
    ensures rooted ==> forall i :: 0 <= i < |r| ==> r[i] != ".."
    decreases |elems|
  {
    if |elems| == 0 then []
    else
      var acc := Resolve(elems[..|elems| - 1], rooted);
      var e := elems[|elems| - 1];
      if e == "" || e == "." then acc
      else if e == ".." then
        if |acc| > 0 && acc[|acc| - 1] != ".." then acc[..|acc| - 1]
        else if rooted then acc
        else acc + [e]
      else acc + [e]
  }

  /** filepath.Clean: the shortest lexically equivalent path; "." for the
      empty path and "/" for the root. */
  function Clean(path: string): (c: string)
    ensures c != ""
    ensures |path| > 0 && path[0] == '/' ==> c[0] == '/'
  {
    if path == "" then "."
    else
      var rooted := path[0] == '/';
      var body := Join(Resolve(Split(path, '/'), rooted), '/');
      if rooted then "/" + body
      else if body == "" then "."
      else body
  }

  /** A trailing '/' adds one empty element. */
  lemma SplitTrailingSlash(s: string)
    ensures Split(s + "/", '/') == Split(s, '/') + [""]
  {
    assert s + "/" == s + ['/'] + "";
    SplitConcat(s, '/', "");
    SplitWithoutSep("", '/');
  }

  /** An empty last element is dropped. */
  lemma ResolveIgnoresEmpty(elems: seq<string>, rooted: bool)
    ensures Resolve(elems + [""], rooted) == Resolve(elems, rooted)
  {
    assert (elems + [""])[..|elems|] == elems;
  }

  /** Paths that start alike and resolve to the same elements clean alike. */
  lemma CleanSameElements(p: string, q: string)
    requires p != "" && q != "" && p[0] == q[0]
    requires Resolve(Split(p, '/'), p[0] == '/') == Resolve(Split(q, '/'), q[0] == '/')
    ensures Clean(p) == Clean(q)
  {
  }

  /** Empty elements at the end of a path do not change its cleaned form:
      `repo + "/" + "" + "/" + ""` names the directory `repo` itself. */
  lemma CleanIgnoresEmptyTail(repo: string)
    requires repo != ""
    ensures Clean(repo + "/" + "" + "/" + "") == Clean(repo)
  {
    var once := repo + "/";
    var twice := once + "/";
    assert repo + "/" + "" + "/" + "" == twice;
    SplitTrailingSlash(repo);
    SplitTrailingSlash(once);
    var rooted := repo[0] == '/';
    var p := Split(repo, '/');
    ResolveIgnoresEmpty(p, rooted);
    ResolveIgnoresEmpty(p + [""], rooted);
    assert Split(twice, '/') == p + [""] + [""];
    assert twice[0] == repo[0];
    CleanSameElements(twice, repo);
  }

  /** Length of `s` without its trailing '/' characters. */
  function WithoutTrailingSlashes(s: string): (n: nat)
    ensures n <= |s|
    ensures forall k :: n <= k < |s| ==> s[k] == '/'
    ensures n > 0 ==> s[n - 1] != '/'
    decreases |s|
  {
    if |s| == 0 || s[|s| - 1] != '/' then |s|
    else WithoutTrailingSlashes(s[..|s| - 1])
  }

  /** Index just after the last '/' of `s`, or 0 when there is none. */
  function AfterLastSlash(s: string): (i: nat)
    ensures i <= |s|
    ensures forall k :: i <= k < |s| ==> s[k] != '/'
    ensures i > 0 ==> s[i - 1] == '/'
    decreases |s|
  {
    if |s| == 0 then 0
    else if s[|s| - 1] == '/' then |s|
    else AfterLastSlash(s[..|s| - 1])
  }

  /** filepath.Base: the last element of the path, trailing slashes ignored;
      "." for the empty path and "/" for a path of slashes only. */
  function Base(path: string): (b: string)
    ensures b != ""
    ensures b == "/" || '/' !in b
  {
    if path == "" then "."
    else
      var n := WithoutTrailingSlashes(path);
      if n == 0 then "/"
      else path[AfterLastSlash(path[..n])..n]
  }

  /** The base name of a file inside a directory is the file's own name. */
  lemma BaseOfChild(dir: string, name: string)
    requires name != "" && '/' !in name
    ensures Base(dir + "/" + name) == name
  {
    var s := dir + "/" + name;
    assert s[|s| - 1] == name[|name| - 1];
    assert WithoutTrailingSlashes(s) == |s|;
    assert s[..|s|] == s;
    var i := AfterLastSlash(s);
    assert s[|dir|] == '/';
    assert forall k :: |dir| < k < |s| ==> s[k] == name[k - |dir| - 1];
    assert i == |dir| + 1;
    assert s[i..] == name;
  }
}
