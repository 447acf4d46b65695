// The file system as the blog engine sees it: paths with text contents, in
// the order the directory lists them.
module Files {
  import opened Text

  /** No path listed twice. */
  ghost predicate Distinct(s: seq<string>)
  {
    forall i, j :: 0 <= i < j < |s| ==> s[i] != s[j]
  }

  /** `s` without the element `x`, the rest in order. */
  function Without(s: seq<string>, x: string): (r: seq<string>)
    ensures x !in r && |r| <= |s|
    ensures forall y :: y in r <==> y in s && y != x
  {
    if s == [] then [] else (if s[0] == x then [] else [s[0]]) + Without(s[1..], x)
  }

  lemma {:induction false} WithoutKeepsDistinct(s: seq<string>, x: string)
    requires Distinct(s)
    ensures Distinct(Without(s, x))
  {
    if s != [] {
      WithoutKeepsDistinct(s[1..], x);
      var rest := Without(s[1..], x);
      assert s[0] !in s[1..];
      assert s[0] !in rest;
      var r := (if s[0] == x then [] else [s[0]]) + rest;
      assert Without(s, x) == r;
      forall i, j | 0 <= i < j < |r| ensures r[i] != r[j] {
        if s[0] != x && i == 0 {
          assert r[j] in rest;
        }
      }
    }
  }

  /** Removing a listed path from a list without repeats shortens it by one. */
  lemma {:induction false} WithoutMember(s: seq<string>, x: string)
    requires Distinct(s) && x in s
    ensures |Without(s, x)| == |s| - 1
  {
    if s[0] == x {
      assert x !in s[1..];
      WithoutAbsent(s[1..], x);
    } else {
      WithoutMember(s[1..], x);
    }
  }

  /** Removing a path that is not listed changes nothing. */
  lemma {:induction false} WithoutAbsent(s: seq<string>, x: string)
    requires x !in s
    ensures Without(s, x) == s
  {
    if s != [] {
      WithoutAbsent(s[1..], x);
      assert [s[0]] + s[1..] == s;
    }
  }

  /** A path `dir/name` whose name matches the glob `*.md`. */
  predicate IsMarkdownIn(dir: string, path: string)
  {
    StartsWith(path, dir + "/") && '/' !in path[|dir| + 1..] && EndsWith(path, ".md")
  }

  class Disk {
    /** The paths of the files, in listing order. */
    var paths: seq<string>
    var contents: map<string, string>

    ghost predicate Valid()
      reads this
    {
      Distinct(paths) && (forall p :: p in contents <==> p in paths)
    }

    constructor (files: map<string, string>, order: seq<string>)
      requires Distinct(order) && forall p :: p in files <==> p in order
      ensures Valid() && contents == files && paths == order
    {
      contents := files;
      paths := order;
    }

    /** `Path.exists()`. */
    predicate Exists(path: string)
      reads this
    {
      path in contents
    }

    /** `open(path, 'w').write(text)`: a new file is listed last. */
    method Write(path: string, text: string)
      requires Valid()
      modifies this
      ensures Valid() && contents == old(contents)[path := text]
      ensures paths == if path in old(paths) then old(paths) else old(paths) + [path]
    {
      if path !in paths {
        paths := paths + [path];
      }
      contents := contents[path := text];
    }

    /** `Path.unlink()` on a file that exists. */
    method Unlink(path: string)
      requires Valid()
      modifies this
      ensures Valid() && contents == old(contents) - {path} && paths == Without(old(paths), path)
    {
      WithoutKeepsDistinct(paths, path);
      paths := Without(paths, path);
      contents := contents - {path};
    }

    /** `dir.glob("*.md")`: the markdown files directly inside `dir`, in listing order. */
    function MarkdownFiles(dir: string): (r: seq<string>)
      reads this
      ensures forall p :: p in r <==> p in paths && IsMarkdownIn(dir, p)
    {
      MarkdownAmong(paths, dir)
    }
  }

  function MarkdownAmong(paths: seq<string>, dir: string): (r: seq<string>)
    ensures forall p :: p in r <==> p in paths && IsMarkdownIn(dir, p)
  {
    if paths == [] then []
    else (if IsMarkdownIn(dir, paths[0]) then [paths[0]] else []) + MarkdownAmong(paths[1..], dir)
  }
}
