/** The project tree as the builder sees it. A map from path to node stands
    for `Path.exists()`, `Path.is_file()` and reading a file; the sequences
    that `Path.glob("*.md")` and `Path.rglob("*")` enumerate from a
    directory are given as they are, in whatever order the platform
    produces them. */
module FileSystem {
  import opened Results
  import opened Seqs
  import opened Text
  import opened Paths

  /** A file either has readable text (`Some`) or raises when read as UTF-8
      text (`None`); a directory cannot be opened for reading at all. */
  datatype Node = File(content: Option<string>) | Dir

  datatype Tree = Tree(
    nodes: map<string, Node>,
    markdownGlob: map<string, seq<string>>,   // dir -> what dir.glob("*.md") yields
    recursiveGlob: map<string, seq<string>>)  // dir -> what dir.rglob("*") yields

  predicate Exists(t: Tree, p: string)
  {
    p in t.nodes
  }

  predicate IsFile(t: Tree, p: string)
  {
    p in t.nodes && t.nodes[p].File?
  }

  /** The file at `p` can be opened and decoded. */
  predicate IsReadable(t: Tree, p: string)
  {
    IsFile(t, p) && t.nodes[p].content.Some?
  }

  function Contents(t: Tree, p: string): string
    requires IsReadable(t, p)
  {
    t.nodes[p].content.value
  }

  function MarkdownGlob(t: Tree, dir: string): seq<string>
  {
    if dir in t.markdownGlob then t.markdownGlob[dir] else []
  }

  function RecursiveGlob(t: Tree, dir: string): seq<string>
  {
    if dir in t.recursiveGlob then t.recursiveGlob[dir] else []
  }

  /** `load_component`: the text of the file at `p` with surrounding
      whitespace removed; "" when nothing readable is there. */
  function LoadComponent(t: Tree, p: string): string
  {
    if !Exists(t, p) then ""
    else match t.nodes[p]
      case Dir => ""
      case File(None) => ""
      case File(Some(text)) => Strip(text)
  }

  /** A readable file loads as its stripped text; a missing path, a
      directory, a file that fails to read and a file holding only
      whitespace all load as "", and nothing else does. */
  lemma LoadComponentSpec(t: Tree, p: string)
    ensures IsReadable(t, p) ==> LoadComponent(t, p) == Strip(Contents(t, p))
    ensures LoadComponent(t, p) == "" <==> !IsReadable(t, p) || AllSpace(Contents(t, p))
    ensures var r := LoadComponent(t, p); r == [] || (!IsSpace(r[0]) && !IsSpace(r[|r| - 1]))
  {
    if IsReadable(t, p) {
      StripEmptyIffAllSpace(Contents(t, p));
    }
  }

  predicate NonEmpty(s: string)
  {
    s != ""
  }

  /** What `load_component` gives for each path, in order. */
  function LoadAll(t: Tree, paths: seq<string>): seq<string>
  {
    if paths == [] then []
    else LoadAll(t, paths[..|paths| - 1]) + [LoadComponent(t, paths[|paths| - 1])]
  }

  /** Loading one path more appends its text. */
  lemma LoadAllStep(t: Tree, paths: seq<string>, i: nat)
    requires i < |paths|
    ensures LoadAll(t, paths[..i + 1]) == LoadAll(t, paths[..i]) + [LoadComponent(t, paths[i])]
  {
    assert paths[..i + 1][..i] == paths[..i];
  }

  /** `load_directory_components`, specified: the non-empty fragments of the
      directory's markdown files in enumeration order, or [] when the
      directory does not exist. */
  function Fragments(t: Tree, dir: string): seq<string>
  {
    if !Exists(t, dir) then [] else Filter(LoadAll(t, MarkdownGlob(t, dir)), NonEmpty)
  }

  /** The extensions a knowledge file may have. */
  const KnowledgeSuffixes: seq<string> := [".pdf", ".txt", ".md", ".docx"]

  predicate IsKnowledgeFile(t: Tree, p: string)
  {
    IsFile(t, p) && Suffix(p) in KnowledgeSuffixes
  }

  function KnowledgeFilter(t: Tree): string -> bool
  {
    p => IsKnowledgeFile(t, p)
  }

  /** `collect_knowledge_files`, specified: the enumerated entries under the
      directory that are regular files with a knowledge extension, in
      enumeration order, or [] when the directory does not exist. */
  function KnowledgeFiles(t: Tree, dir: string): seq<string>
  {
    if !Exists(t, dir) then [] else Filter(RecursiveGlob(t, dir), KnowledgeFilter(t))
  }

  /** Considering one entry more adds it when it is a knowledge file. */
  lemma KnowledgeStep(t: Tree, entries: seq<string>, i: nat)
    requires i < |entries|
    ensures Filter(entries[..i + 1], KnowledgeFilter(t)) ==
      Filter(entries[..i], KnowledgeFilter(t)) + (if IsKnowledgeFile(t, entries[i]) then [entries[i]] else [])
  {
    assert entries[..i + 1] == entries[..i] + [entries[i]];
    FilterSnoc(entries[..i], entries[i], KnowledgeFilter(t));
  }

  /** The fragments are exactly the order-preserving subsequence of the
      loaded files' texts that are not empty. */
  lemma FragmentsCharacterised(t: Tree, dir: string)
    requires Exists(t, dir)
    ensures var loaded := LoadAll(t, MarkdownGlob(t, dir));
      var r := Fragments(t, dir);
      && IsSubsequence(r, loaded)
      && (forall k :: 0 <= k < |r| ==> r[k] != "")
      && |r| == Count(loaded, NonEmpty)
      && (forall x :: x in r <==> x in loaded && x != "")
  {
    var loaded := LoadAll(t, MarkdownGlob(t, dir));
    FilterIsSubsequence(loaded, NonEmpty);
    FilterLength(loaded, NonEmpty);
    forall x ensures x in Fragments(t, dir) <==> x in loaded && x != "" {
      FilterMembership(loaded, NonEmpty, x);
    }
  }

  /** The knowledge list is exactly the order-preserving subsequence of the
      enumerated entries that are files with a knowledge extension. */
  lemma KnowledgeFilesCharacterised(t: Tree, dir: string)
    requires Exists(t, dir)
    ensures var entries := RecursiveGlob(t, dir);
      var r := KnowledgeFiles(t, dir);
      && IsSubsequence(r, entries)
      && (forall k :: 0 <= k < |r| ==> IsFile(t, r[k]) && Suffix(r[k]) in KnowledgeSuffixes)
      && |r| == Count(entries, KnowledgeFilter(t))
      && (forall p :: p in r <==> p in entries && IsFile(t, p) && Suffix(p) in KnowledgeSuffixes)
  {
    var entries := RecursiveGlob(t, dir);
    var r := KnowledgeFiles(t, dir);
    FilterIsSubsequence(entries, KnowledgeFilter(t));
    FilterLength(entries, KnowledgeFilter(t));
    forall k | 0 <= k < |r| ensures IsFile(t, r[k]) && Suffix(r[k]) in KnowledgeSuffixes {
      assert KnowledgeFilter(t)(r[k]);
    }
    forall p ensures p in r <==> p in entries && IsFile(t, p) && Suffix(p) in KnowledgeSuffixes {
      FilterMembership(entries, KnowledgeFilter(t), p);
    }
  }

  /** `p` ends with `x`. */
  predicate EndsWith(p: string, x: string)
  {
    |x| <= |p| && p[|p| - |x|..] == x
  }

  /** A regular file named `stem` + `ext`, where `ext` is an extension, is knowledge exactly when `ext` is one of the
      listed extensions; the rest of the name plays no part. */
  lemma KnowledgeByExtension(t: Tree, stem: string, ext: string)
    requires IsFile(t, stem + ext)
    requires stem != [] && stem[|stem| - 1] != '/'
    requires IsExtension(ext)
    ensures IsKnowledgeFile(t, stem + ext) <==> ext in KnowledgeSuffixes
  {
    SuffixOfExtension(stem, ext);
  }

  /** Every knowledge file's name ends in one of the listed extensions,
      after a non-empty stem. */
  lemma KnowledgeFileEndsInExtension(t: Tree, p: string)
    requires IsKnowledgeFile(t, p)
    ensures IsFile(t, p)
    ensures EndsWith(p, ".pdf") || EndsWith(p, ".txt") || EndsWith(p, ".md") || EndsWith(p, ".docx")
    ensures |Suffix(p)| < |p| && p[|p| - |Suffix(p)| - 1] != '/'
  {
    var x := Suffix(p);
    SuffixEndsPath(p);
    assert EndsWith(p, x);
    EndsWithListed(p, x);
  }

  lemma EndsWithListed(p: string, x: string)
    requires x in KnowledgeSuffixes && EndsWith(p, x)
    ensures EndsWith(p, ".pdf") || EndsWith(p, ".txt") || EndsWith(p, ".md") || EndsWith(p, ".docx")
  {
  }
}
