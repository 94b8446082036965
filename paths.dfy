/** The two parts of `pathlib` that decide which knowledge files are kept:
    the final component of a path (`Path.name`) and its extension
    (`Path.suffix`). Paths are strings with '/' as separator, already
    normalised (no trailing or doubled separators), as `rglob` yields them. */
module Paths {

  /** The path `project_root / p` denotes, relative to the project root:
      `pathlib` drops trailing separators ("src/examples/" is
      "src/examples"). */
  function Resolve(p: string): (r: string)
    ensures |r| <= |p| && r == p[..|r|]
    ensures forall k :: |r| <= k < |p| ==> p[k] == '/'
    ensures |r| <= 1 || r[|r| - 1] != '/'
  {
    if |p| > 1 && p[|p| - 1] == '/' then Resolve(p[..|p| - 1]) else p
  }

  /** `Path.name`: the part of `p` after its last '/'. */
  function Name(p: string): (r: string)
    ensures |r| <= |p| && r == p[|p| - |r|..]
    ensures '/' !in r
    ensures |r| < |p| ==> p[|p| - |r| - 1] == '/'
  {
    if p == [] || p[|p| - 1] == '/' then []
    else
      var r := Name(p[..|p| - 1]) + [p[|p| - 1]];
      assert p[..|p| - 1][|p| - |r|..] + [p[|p| - 1]] == p[|p| - |r|..];
      r
  }

  /** The index of the last `c` in `s`, or -1 when there is none
      (`str.rfind`). */
  function LastIndexOf(s: string, c: char): (i: int)
    ensures -1 <= i < |s|
    ensures i >= 0 ==> s[i] == c
    ensures forall k :: i < k < |s| ==> s[k] != c
  {
    if s == [] then -1
    else if s[|s| - 1] == c then |s| - 1
    else LastIndexOf(s[..|s| - 1], c)
  }

  /** `Path.suffix`: the final component's text from its last '.', provided
      that dot is neither the first nor the last character of the name;
      otherwise the empty string. So "notes.md" has suffix ".md", while
      ".md" (a hidden file) and "archive." have none. */
  function Suffix(p: string): string
  {
    var n := Name(p);
    var i := LastIndexOf(n, '.');
    if 0 < i < |n| - 1 then n[i..] else []
  }

  /** A suffix is empty or a dot followed by at least one character, with no
      further dot and no separator. */
  lemma SuffixShape(p: string)
    ensures Suffix(p) == [] || IsExtension(Suffix(p))
  {
    var n := Name(p);
    var i := LastIndexOf(n, '.');
    if 0 < i < |n| - 1 {
      ExtensionFrom(n, i);
    }
  }

  /** The text from the last dot of a separator-free name, when at least
      one character follows that dot, is an extension. */
  lemma ExtensionFrom(n: string, i: nat)
    requires i < |n| - 1 && n[i] == '.' && '/' !in n
    requires forall k :: i < k < |n| ==> n[k] != '.'
    ensures IsExtension(n[i..])
  {
    var r := n[i..];
    forall k | 0 <= k < |r| - 1 ensures r[1..][k] != '.' {
      assert r[1..][k] == n[i + 1 + k];
    }
    forall k | 0 <= k < |r| ensures r[k] != '/' {
      assert r[k] == n[i + k];
    }
  }

  /** Appending text without separators extends the final component. */
  lemma {:induction false} NameAppend(p: string, tail: string)
    requires '/' !in tail
    ensures Name(p + tail) == Name(p) + tail
  {
    if tail != [] {
      var init, last := tail[..|tail| - 1], tail[|tail| - 1];
      assert tail == init + [last];
      var q := p + tail;
      assert q[|q| - 1] == last && last != '/';
      assert q[..|q| - 1] == p + init;
      NameStep(q);
      NameAppend(p, init);
      assert Name(p) + tail == (Name(p) + init) + [last];
    } else {
      assert p + tail == p;
    }
  }

  /** A path not ending in a separator: its name is the name of the path
      without its last character, extended by that character. */
  lemma NameStep(q: string)
    requires q != [] && q[|q| - 1] != '/'
    ensures Name(q) == Name(q[..|q| - 1]) + [q[|q| - 1]]
  {
  }

  /** In `base + ext`, where `ext` is a dot followed by dot-free text, the
      last dot is the first character of `ext`. */
  lemma LastDotBeforeExtension(base: string, ext: string)
    requires ext != [] && ext[0] == '.' && '.' !in ext[1..]
    ensures LastIndexOf(base + ext, '.') == |base|
  {
    var n := base + ext;
    assert n[|base|] == '.';
    forall k | |base| < k < |n| ensures n[k] != '.' {
      assert n[k] == ext[1..][k - |base| - 1];
    }
  }

  /** An extension as `Path.suffix` reports it: a dot followed by at least
      one character, with no further dot and no separator. */
  predicate IsExtension(ext: string)
  {
    |ext| >= 2 && ext[0] == '.' && '.' !in ext[1..] && '/' !in ext
  }

  /** A file named `stem` + `ext`, where `ext` is an extension, has suffix
      `ext`, provided the stem's own name is not empty. */
  lemma SuffixOfExtension(stem: string, ext: string)
    requires stem != [] && stem[|stem| - 1] != '/'
    requires IsExtension(ext)
    ensures Suffix(stem + ext) == ext
  {
    NameAppend(stem, ext);
    var base := Name(stem);
    assert base != [];
    LastDotBeforeExtension(base, ext);
    assert (base + ext)[|base|..] == ext;
  }

  /** Conversely, a non-empty suffix ends the path, after a stem whose final
      component is not empty. */
  lemma SuffixEndsPath(p: string)
    ensures var r := Suffix(p);
      r != [] ==> |r| < |p| && p[|p| - |r|..] == r && p[|p| - |r| - 1] != '/'
  {
    var n := Name(p);
    var i := LastIndexOf(n, '.');
    if 0 < i < |n| - 1 {
      TailOfTail(p, n, i);
    }
  }

  /** A tail of a tail of `p` is a tail of `p`, with the same character
      before it. */
  lemma TailOfTail(p: string, n: string, i: nat)
    requires |n| <= |p| && n == p[|p| - |n|..] && 0 < i < |n|
    ensures p[|p| - (|n| - i)..] == n[i..]
    ensures p[|p| - (|n| - i) - 1] == n[i - 1]
  {
    assert p[|p| - |n|..][i..] == n[i..];
  }

  /** A final component made of a leading dot followed by dot-free text
      (a hidden file such as ".md") has no suffix. */
  lemma HiddenFileHasNoSuffix(dir: string, name: string)
    requires name != [] && name[0] == '.' && '.' !in name[1..] && '/' !in name
    ensures Suffix(dir + "/" + name) == ""
  {
    var p := dir + "/" + name;
    assert Name(p) == name by {
      NameAppend(dir + "/", name);
      assert Name(dir + "/") == [];
    }
    assert LastIndexOf(name, '.') == 0 by {
      LastDotBeforeExtension([], name);
      assert [] + name == name;
    }
  }
}
