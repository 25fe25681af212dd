/** The post-export asset fix-up of the mobile app
    (front-native/scripts/fix-exported-assets.js): every exported text file
    that refers to `/assets/node_modules/` is rewritten to refer to
    `/assets/vendor/` instead. The directory walk and the directory rename
    are filesystem I/O; the walk's result is a parameter here and the export
    tree is a map from path (relative to the export directory) to content. */
module AssetRewriter {
  import opened Common

  /** `SEARCH_SNIPPET`. */
  const SearchSnippet: string := "/assets/node_modules/"
  /** `REPLACE_SNIPPET`. */
  const ReplaceSnippet: string := "/assets/vendor/"

  /** The extensions whose files are rewritten. */
  const RewrittenExtensions: seq<string> := [".js", ".json", ".html", ".css", ".map"]

  // ------------------------------------------------------------ searching

  predicate OccursAt(s: string, pattern: string, i: nat) {
    i + |pattern| <= |s| && s[i..i + |pattern|] == pattern
  }

  /** `content.includes(pattern)`. */
  predicate Contains(s: string, pattern: string) {
    exists i :: 0 <= i <= |s| && OccursAt(s, pattern, i)
  }

  /** The left-most occurrence of `pattern` in `s`. */
  function IndexOf(s: string, pattern: string): (r: Option<nat>)
    ensures r.Some? ==> OccursAt(s, pattern, r.value)
    ensures r.Some? ==> forall j: nat :: j < r.value ==> !OccursAt(s, pattern, j)
    ensures r.None? ==> forall j: nat :: !OccursAt(s, pattern, j)
    decreases |s|
  {
    if |s| < |pattern| then None
    else if s[..|pattern|] == pattern then Some(0)
    else match IndexOf(s[1..], pattern)
      case None =>
        forall j: nat | j > 0
          ensures !OccursAt(s, pattern, j)
        {
          OccursShift(s, pattern, j);
        }
        None
      case Some(i) =>
        OccursShift(s, pattern, i + 1);
        forall j: nat | 0 < j < i + 1
          ensures !OccursAt(s, pattern, j)
        {
          OccursShift(s, pattern, j);
        }
        Some(i + 1)
  }

  /** An occurrence at `j > 0` is an occurrence at `j - 1` of the text
      without its first character. */
  lemma OccursShift(s: string, pattern: string, j: nat)
    requires |s| > 0 && j > 0
    ensures OccursAt(s, pattern, j) <==> OccursAt(s[1..], pattern, j - 1)
  {
    if j + |pattern| <= |s| {
      assert s[1..][j - 1..j - 1 + |pattern|] == s[j..j + |pattern|];
    }
  }

  lemma ContainsIffIndexOf(s: string, pattern: string)
    ensures Contains(s, pattern) <==> IndexOf(s, pattern).Some?
  {
    var r := IndexOf(s, pattern);
    if r.Some? {
      assert OccursAt(s, pattern, r.value);
    }
  }

  // ------------------------------------------------------ split and join

  /** `s.split(separator)` for a non-empty separator: the pieces between
      the non-overlapping occurrences found from left to right. */
  function Split(s: string, separator: string): seq<string>
    requires separator != []
    decreases |s|
  {
    match IndexOf(s, separator)
    case None => [s]
    case Some(i) => [s[..i]] + Split(s[i + |separator|..], separator)
  }

  /** `parts.join(separator)`. */
  function Join(parts: seq<string>, separator: string): string {
    if |parts| == 0 then ""
    else if |parts| == 1 then parts[0]
    else parts[0] + separator + Join(parts[1..], separator)
  }

  /** The total length of the pieces. */
  function TotalLength(parts: seq<string>): nat {
    if parts == [] then 0 else |parts[0]| + TotalLength(parts[1..])
  }

  /** Joining the pieces with the separator they were split at gives the
      text back: the text between occurrences is kept, in order. */
  lemma {:induction false} SplitJoinRoundTrip(s: string, separator: string)
    requires separator != []
    ensures Join(Split(s, separator), separator) == s
    decreases |s|
  {
    var found := IndexOf(s, separator);
    if found.Some? {
      var i := found.value;
      var rest := s[i + |separator|..];
      SplitJoinRoundTrip(rest, separator);
      SplitNonEmpty(rest, separator);
      JoinCons(s[..i], Split(rest, separator), separator);
      assert Split(s, separator) == [s[..i]] + Split(rest, separator);
      assert OccursAt(s, separator, i);
      Reassemble(s, i, |separator|);
    }
  }

  lemma JoinCons(first: string, rest: seq<string>, separator: string)
    requires rest != []
    ensures Join([first] + rest, separator) == first + separator + Join(rest, separator)
  {
    assert ([first] + rest)[1..] == rest;
  }

  lemma Reassemble(s: string, i: nat, k: nat)
    requires i + k <= |s|
    ensures s == s[..i] + s[i..i + k] + s[i + k..]
  {
  }

  lemma {:induction false} SplitNonEmpty(s: string, separator: string)
    requires separator != []
    ensures |Split(s, separator)| >= 1
    decreases |s|
  {
    match IndexOf(s, separator)
    case None =>
    case Some(i) => SplitNonEmpty(s[i + |separator|..], separator);
  }

  /** No piece contains the separator: every occurrence was cut out. */
  lemma {:induction false} SplitPiecesFree(s: string, separator: string)
    requires separator != []
    ensures forall k :: 0 <= k < |Split(s, separator)| ==> !Contains(Split(s, separator)[k], separator)
    decreases |s|
  {
    match IndexOf(s, separator)
    case None =>
    case Some(i) =>
      var rest := s[i + |separator|..];
      SplitPiecesFree(rest, separator);
      var parts := Split(s, separator);
      var tail := Split(rest, separator);
      assert parts == [s[..i]] + tail;
      forall j: nat | OccursAt(s[..i], separator, j)
        ensures false
      {
        assert s[..i][j..j + |separator|] == s[j..j + |separator|];
        assert OccursAt(s, separator, j);
      }
      forall k | 0 <= k < |parts|
        ensures !Contains(parts[k], separator)
      {
        if k > 0 {
          assert parts[k] == tail[k - 1];
        }
      }
  }

  /** A text splits into more than one piece exactly when it contains the
      separator; without it the one piece is the text itself. */
  lemma SplitOfAbsent(s: string, separator: string)
    requires separator != []
    ensures Contains(s, separator) <==> |Split(s, separator)| > 1
    ensures !Contains(s, separator) ==> Split(s, separator) == [s]
  {
    ContainsIffIndexOf(s, separator);
    match IndexOf(s, separator)
    case None =>
    case Some(i) => SplitNonEmpty(s[i + |separator|..], separator);
  }

  /** The length of a join: the pieces plus one separator between each
      neighbouring pair. */
  lemma {:induction false} JoinLength(parts: seq<string>, separator: string)
    requires |parts| >= 1
    ensures |Join(parts, separator)| == TotalLength(parts) + (|parts| - 1) * |separator|
  {
    if |parts| > 1 {
      JoinLength(parts[1..], separator);
    }
  }

  // ----------------------------------------------------------- one file

  /** The rewritten content: `content.split(SEARCH).join(REPLACE)`. */
  function Rewrite(content: string): string {
    Join(Split(content, SearchSnippet), ReplaceSnippet)
  }

  /** The number of snippets replaced in `content`: one fewer than the pieces. */
  function Replacements(content: string): nat {
    SplitNonEmpty(content, SearchSnippet);
    |Split(content, SearchSnippet)| - 1
  }

  /** Content without the snippet is left as it is; otherwise the rewrite
      replaces each of the `Replacements` occurrences by the shorter
      snippet, so the text shrinks by six characters per occurrence, and at
      least one occurrence exists. */
  lemma RewriteEffect(content: string)
    ensures !Contains(content, SearchSnippet) ==> Rewrite(content) == content && Replacements(content) == 0
    ensures Contains(content, SearchSnippet) ==> Replacements(content) >= 1
    ensures |Rewrite(content)| + 6 * Replacements(content) == |content|
  {
    SplitOfAbsent(content, SearchSnippet);
    SplitNonEmpty(content, SearchSnippet);
    var parts := Split(content, SearchSnippet);
    var n := |parts| - 1;
    assert |SearchSnippet| == 21 && |ReplaceSnippet| == 15;
    JoinLength(parts, SearchSnippet);
    JoinLength(parts, ReplaceSnippet);
    SplitJoinRoundTrip(content, SearchSnippet);
    assert |content| == TotalLength(parts) + n * 21;
    assert |Rewrite(content)| == TotalLength(parts) + n * 15;
  }

  // ------------------------------------------------------ the extension

  /** The position of the last `c` in `s`. */
  function LastIndex(s: string, c: char): (r: Option<nat>)
    ensures r.None? <==> c !in s
    ensures r.Some? ==> r.value < |s| && s[r.value] == c && c !in s[r.value + 1..]
  {
    if |s| == 0 then None
    else if s[|s| - 1] == c then Some(|s| - 1)
    else match LastIndex(s[..|s| - 1], c)
      case None => None
      case Some(i) =>
        assert s[i + 1..] == s[..|s| - 1][i + 1..] + [s[|s| - 1]];
        Some(i)
  }

  /** The last path component. */
  function BaseName(path: string): (r: string)
    ensures '/' !in r
  {
    match LastIndex(path, '/')
    case None => path
    case Some(i) => path[i + 1..]
  }

  /** `path.extname` for a path without a trailing slash: from the last dot
      of the last component, unless that dot starts the component or the
      component is `..`. */
  function ExtName(path: string): (r: string)
    ensures r == "" || (r[0] == '.' && '.' !in r[1..])
  {
    var base := BaseName(path);
    match LastIndex(base, '.')
    case None => ""
    case Some(i) => if i == 0 || base == ".." then "" else base[i..]
  }

  /** The extension filter of the rewrite loop. */
  predicate IsRewritten(path: string) {
    ExtName(path) in RewrittenExtensions
  }

  lemma LastIndexAt(s: string, c: char, k: nat)
    requires k < |s| && s[k] == c && c !in s[k + 1..]
    ensures LastIndex(s, c) == Some(k)
  {
    assert s[k] in s;
  }

  /** A file `name + ext` in any directory, where `ext` is a dot followed
      by at least one character and no further dot or slash, and `name` is a non-empty name without a
      slash, has extension `ext`; so it is rewritten exactly when `ext` is
      one of the five listed extensions. */
  lemma ExtNameOfFile(directory: string, name: string, ext: string)
    requires directory == [] || directory[|directory| - 1] == '/'
    requires name != [] && '/' !in name
    requires |ext| >= 2 && ext[0] == '.' && '.' !in ext[1..] && '/' !in ext
    ensures ExtName(directory + name + ext) == ext
    ensures IsRewritten(directory + name + ext) <==> ext in RewrittenExtensions
  {
    var path := directory + name + ext;
    var base := name + ext;
    if directory == [] {
      assert path == base;
      assert '/' !in path;
    } else {
      assert path[|directory| - 1] == '/';
      assert path[|directory|..] == base;
      LastIndexAt(path, '/', |directory| - 1);
    }
    assert BaseName(path) == base;
    assert base[|name|] == '.';
    assert base[|name| + 1..] == ext[1..];
    LastIndexAt(base, '.', |name|);
    assert base[|name|..] == ext;
  }

  /** A hidden file with no other dot (`.js`) and a file without a dot in
      its name have no extension and are left alone. */
  lemma NoExtension(directory: string, name: string)
    requires directory == [] || directory[|directory| - 1] == '/'
    requires '/' !in name
    requires '.' !in name || (name != [] && name[0] == '.' && '.' !in name[1..])
    ensures ExtName(directory + name) == ""
    ensures !IsRewritten(directory + name)
  {
    var path := directory + name;
    if directory == [] {
      assert path == name;
    } else {
      assert path[|directory| - 1] == '/';
      assert path[|directory|..] == name;
      LastIndexAt(path, '/', |directory| - 1);
    }
    assert BaseName(path) == name;
    if '.' in name {
      LastIndexAt(name, '.', 0);
    }
  }

  // ------------------------------------------------------ the whole tree

  /** The files `main` reports as updated: the walked files with a
      rewritten extension whose content holds the snippet, in walk order. */
  function UpdatedFiles(walked: seq<string>, files: map<string, string>): (r: seq<string>)
    requires forall k :: 0 <= k < |walked| ==> walked[k] in files
    ensures forall p :: p in r <==> p in walked && IsRewritten(p) && Contains(files[p], SearchSnippet)
    ensures |r| <= |walked|
  {
    if walked == [] then []
    else
      var last := walked[|walked| - 1];
      var init := UpdatedFiles(walked[..|walked| - 1], files);
      if IsRewritten(last) && Contains(files[last], SearchSnippet) then init + [last] else init
  }

  /** The content of each file after the loop. */
  function AfterRewrite(walked: seq<string>, files: map<string, string>, p: string): string
    requires p in files
  {
    if p in walked && IsRewritten(p) then Rewrite(files[p]) else files[p]
  }

  lemma UpdatedFilesStep(walked: seq<string>, i: nat, files: map<string, string>)
    requires i < |walked|
    requires forall k :: 0 <= k < |walked| ==> walked[k] in files
    ensures IsRewritten(walked[i]) && Contains(files[walked[i]], SearchSnippet) ==>
      UpdatedFiles(walked[..i + 1], files) == UpdatedFiles(walked[..i], files) + [walked[i]]
    ensures !(IsRewritten(walked[i]) && Contains(files[walked[i]], SearchSnippet)) ==>
      UpdatedFiles(walked[..i + 1], files) == UpdatedFiles(walked[..i], files)
  {
    assert walked[..i + 1][..i] == walked[..i];
  }

  lemma AfterRewriteStep(walked: seq<string>, i: nat, files: map<string, string>, p: string)
    requires i < |walked| && p in files
    ensures AfterRewrite(walked[..i + 1], files, p) ==
      if p == walked[i] && IsRewritten(p) then Rewrite(files[p]) else AfterRewrite(walked[..i], files, p)
  {
    assert walked[..i + 1] == walked[..i] + [walked[i]];
  }

  /** One turn of the rewrite loop: rewriting the next walked file (when its
      extension is listed) takes the tree from the contents after the first
      `i` files to the contents after the first `i + 1`. */
  lemma RewriteLoopStep(walked: seq<string>, i: nat, original: map<string, string>, before: map<string, string>)
    requires i < |walked| && before.Keys == original.Keys && walked[i] in original
    requires forall k :: 0 <= k < i ==> walked[k] != walked[i]
    requires forall p :: p in before ==> before[p] == AfterRewrite(walked[..i], original, p)
    ensures before[walked[i]] == original[walked[i]]
    ensures var after := if IsRewritten(walked[i]) then before[walked[i] := Rewrite(before[walked[i]])] else before;
      after.Keys == original.Keys &&
      forall p :: p in after ==> after[p] == AfterRewrite(walked[..i + 1], original, p)
  {
    var file := walked[i];
    assert file !in walked[..i];
    assert before[file] == AfterRewrite(walked[..i], original, file);
    var after := if IsRewritten(file) then before[file := Rewrite(before[file])] else before;
    forall p | p in after
      ensures after[p] == AfterRewrite(walked[..i + 1], original, p)
    {
      AfterRewriteStep(walked, i, original, p);
    }
  }

  /** The exported tree: path relative to the export directory, to content. */
  class ExportTree {
    var files: map<string, string>

    constructor(initial: map<string, string>)
      ensures files == initial
    {
      files := initial;
    }

    /** `replaceInFile`: rewrite one file when it holds the snippet. */
    method ReplaceInFile(path: string) returns (changed: bool)
      requires path in files
      modifies this
      ensures changed <==> Contains(old(files)[path], SearchSnippet)
      ensures files == old(files)[path := Rewrite(old(files)[path])]
      ensures !changed ==> files == old(files)
    {
      var content := files[path];
      ContainsIffIndexOf(content, SearchSnippet);
      if IndexOf(content, SearchSnippet).None? {
        RewriteEffect(content);
        assert files == files[path := content];
        return false;
      }
      files := files[path := Rewrite(content)];
      return true;
    }

    /** The rewrite loop of `main`, over the files the walk found (every
        one of them exists and none is listed twice). Without the source
        directory `main` returns before touching anything. */
    method FixReferences(sourceExists: bool, walked: seq<string>) returns (updatedFiles: seq<string>)
      requires forall k :: 0 <= k < |walked| ==> walked[k] in files
      requires forall i, j :: 0 <= i < j < |walked| ==> walked[i] != walked[j]
      modifies this
      ensures !sourceExists ==> files == old(files) && updatedFiles == []
      ensures sourceExists ==> updatedFiles == UpdatedFiles(walked, old(files))
      ensures sourceExists ==> files.Keys == old(files).Keys
      ensures sourceExists ==> forall p :: p in files ==> files[p] == AfterRewrite(walked, old(files), p)
    {
      updatedFiles := [];
      if !sourceExists {
        return;
      }
      ghost var original := files;
      assert walked[..0] == [];
      for i := 0 to |walked|
        invariant files.Keys == original.Keys
        invariant forall p :: p in files ==> files[p] == AfterRewrite(walked[..i], original, p)
        invariant updatedFiles == UpdatedFiles(walked[..i], original)
      {
        var file := walked[i];
        ghost var before := files;
        RewriteLoopStep(walked, i, original, before);
        UpdatedFilesStep(walked, i, original);
        if IsRewritten(file) {
          var changed := ReplaceInFile(file);
          if changed {
            updatedFiles := updatedFiles + [file];
          }
          assert files == before[file := Rewrite(before[file])];
        }
      }
      assert walked[..|walked|] == walked;
    }
  }
}
