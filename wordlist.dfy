/**
 * The wordlist handler: a tolerant line parser that turns wordlist lines into
 * method candidates, the loaders for a single file, a folder of files and the
 * two built-in wordlists, the rule that chooses among them, and the rewrite of
 * a wordlist file into the advanced format.
 *
 * A method candidate is kept abstract: its type is the parameter C, and a
 * Codec supplies its two constructors (either of which may fail, as
 * signature compilation can) and its convertToString.
 */
module Wordlist {
  import opened JavaStrings

  /**
   * MethodCandidate as the handler sees it: `simple` is the one-argument
   * constructor, `advanced` the four-argument one, `line` is convertToString.
   * A constructor returning None stands for CannotCompileException or
   * NotFoundException.
   */
  datatype Codec<!C> = Codec(
    simple: string -> Option<C>,
    advanced: (string, string, string, string) -> Option<C>,
    line: C -> string)

  /** Why a load fails: the IOExceptions of the loaders, or a built-in list that is not on the class path. */
  datatype LoadError = NotADirectory(folder: string) | FileNotFound(file: string) | ResourceMissing(name: string)

  datatype Result<T> = Success(value: T) | Failure(error: LoadError)

  // ---------------------------------------------------------------------------
  // Parsing one line
  // ---------------------------------------------------------------------------

  /** A line that is skipped before any parsing: a comment or a blank line. */
  predicate IsComment(line: string) {
    StartsWith(Trim(line), "#") || Trim(line) == ""
  }

  lemma TrimKeeps(s: string)
    ensures forall c :: c in Trim(s) ==> c in s
  {
  }

  lemma {:induction false} RemoveSpacesKeeps(s: string, c: char)
    requires c != ' '
    ensures c in s <==> c in RemoveSpaces(s)
  {
    if s != [] {
      RemoveSpacesKeeps(s[1..], c);
      assert s == [s[0]] + s[1..];
    }
  }

  /**
   * The rewriting a line goes through before it is split: trim, one space for
   * every run of spaces, ", " for every comma with the spaces around it, and
   * every '<'…'>' group removed. Without generics only spacing changes.
   */
  function Normalise(line: string): (r: string)
    ensures '<' !in line ==> RemoveSpaces(r) == RemoveSpaces(Trim(line)) && CommasSpaced(r)
  {
    var t := Trim(line);
    var collapsed := CollapseSpaces(t);
    var commas := NormaliseCommas(collapsed);
    assert '<' !in line ==> '<' !in commas by {
      if '<' !in line {
        TrimKeeps(line);
        RemoveSpacesKeeps(t, '<');
        RemoveSpacesKeeps(collapsed, '<');
        RemoveSpacesKeeps(commas, '<');
      }
    }
    StripGenerics(commas)
  }

  /**
   * parseMethods for one line: comments and blank lines give nothing; the
   * normalised line split on ';' gives a simple candidate from one field and
   * an advanced one from four trimmed fields; any other field count, and a
   * candidate that fails to build, give nothing.
   */
  function ParseLine<C>(codec: Codec<C>, line: string): (r: Option<C>)
    ensures IsComment(line) ==> r.None?
    ensures !IsComment(line) && ';' !in Normalise(line) ==> r == codec.simple(Trim(Normalise(line)))
  {
    if IsComment(line) then None
    else
      var split := Split(Normalise(line), ';');
      if |split| == 1 then codec.simple(Trim(split[0]))
      else if |split| == 4 then codec.advanced(Trim(split[0]), Trim(split[1]), Trim(split[2]), Trim(split[3]))
      else None
  }

  /**
   * A line whose normalised form is ';'-separated fields, four of them once
   * trailing empty ones are dropped, builds the advanced candidate from the
   * first four.
   */
  lemma AdvancedLine<C>(codec: Codec<C>, line: string, fields: seq<string>)
    requires !IsComment(line)
    requires |fields| >= 4 && |DropTrailingEmpty(fields)| == 4
    requires forall i :: 0 <= i < |fields| ==> ';' !in fields[i]
    requires Normalise(line) == Join(fields, ';')
    ensures ParseLine(codec, line) == codec.advanced(Trim(fields[0]), Trim(fields[1]), Trim(fields[2]), Trim(fields[3]))
  {
    SplitJoinDropped(fields, ';');
  }

  /**
   * A line with a separator that splits to one field once trailing empty
   * fields are dropped ("void m(int a);") builds the simple candidate of
   * that field.
   */
  lemma OneFieldLine<C>(codec: Codec<C>, line: string, fields: seq<string>)
    requires !IsComment(line)
    requires |fields| >= 2 && |DropTrailingEmpty(fields)| == 1
    requires forall i :: 0 <= i < |fields| ==> ';' !in fields[i]
    requires Normalise(line) == Join(fields, ';')
    ensures ParseLine(codec, line) == codec.simple(Trim(fields[0]))
  {
    SplitJoinDropped(fields, ';');
  }

  /**
   * A line with a separator whose field count, trailing empty fields dropped,
   * is other than one or four ("foo;bar;baz", "a;b;", or ";" with no field
   * at all) is skipped.
   */
  lemma UnknownFormatSkipped<C>(codec: Codec<C>, line: string, fields: seq<string>)
    requires |fields| >= 2
    requires |DropTrailingEmpty(fields)| != 1 && |DropTrailingEmpty(fields)| != 4
    requires forall i :: 0 <= i < |fields| ==> ';' !in fields[i]
    requires Normalise(line) == Join(fields, ';')
    ensures ParseLine(codec, line) == None
  {
    SplitJoinDropped(fields, ';');
  }

  /** The candidate set of a line: empty when the line is skipped. */
  function Accepted<C>(c: Option<C>): set<C> {
    if c.Some? then {c.value} else {}
  }

  /** The union over the lines of what parse gives for each, in line order. */
  function Gather<C>(parse: string -> Option<C>, lines: seq<string>): set<C> {
    if lines == [] then {}
    else Gather(parse, lines[..|lines| - 1]) + Accepted(parse(lines[|lines| - 1]))
  }

  /** Line i of lines parses to the candidate c. */
  ghost predicate YieldsAt<C>(parse: string -> Option<C>, lines: seq<string>, i: int, c: C) {
    0 <= i < |lines| && parse(lines[i]) == Some(c)
  }

  lemma {:induction false} GatherMember<C>(parse: string -> Option<C>, lines: seq<string>, c: C)
    ensures c in Gather(parse, lines) <==> exists i :: YieldsAt(parse, lines, i, c)
  {
    if lines != [] {
      var n := |lines| - 1;
      var init := lines[..n];
      GatherMember(parse, init, c);
      if c in Gather(parse, init) {
        var i :| YieldsAt(parse, init, i, c);
        assert YieldsAt(parse, lines, i, c);
      } else if parse(lines[n]) == Some(c) {
        assert YieldsAt(parse, lines, n, c);
      }
      if exists i :: YieldsAt(parse, lines, i, c) {
        var i :| YieldsAt(parse, lines, i, c);
        if i < n {
          assert YieldsAt(parse, init, i, c);
        }
      }
    }
  }

  lemma {:induction false} GatherAppend<C>(parse: string -> Option<C>, a: seq<string>, b: seq<string>)
    ensures Gather(parse, a + b) == Gather(parse, a) + Gather(parse, b)
  {
    if b != [] {
      var init := b[..|b| - 1];
      assert (a + b)[..|a + b| - 1] == a + init;
      assert (a + b)[|a + b| - 1] == b[|b| - 1];
      GatherAppend(parse, a, init);
    } else {
      assert a + b == a;
    }
  }

  /** parseMethods' line parser as a value. */
  function Parser<C>(codec: Codec<C>): string -> Option<C> {
    line => ParseLine(codec, line)
  }

  /** The set parseMethods builds: the union of the candidates of the accepted lines. */
  function Candidates<C>(codec: Codec<C>, lines: seq<string>): set<C> {
    Gather(Parser(codec), lines)
  }

  /** A candidate is in the set exactly when some line parses to it. */
  lemma CandidatesMember<C>(codec: Codec<C>, lines: seq<string>, c: C)
    ensures c in Candidates(codec, lines) <==>
            exists i :: 0 <= i < |lines| && ParseLine(codec, lines[i]) == Some(c)
  {
    GatherMember(Parser(codec), lines, c);
    if exists i :: 0 <= i < |lines| && ParseLine(codec, lines[i]) == Some(c) {
      var i :| 0 <= i < |lines| && ParseLine(codec, lines[i]) == Some(c);
      assert YieldsAt(Parser(codec), lines, i, c);
    }
  }

  /** The result does not depend on how the lines are grouped: parsing distributes over concatenation. */
  lemma CandidatesAppend<C>(codec: Codec<C>, a: seq<string>, b: seq<string>)
    ensures Candidates(codec, a + b) == Candidates(codec, a) + Candidates(codec, b)
  {
    GatherAppend(Parser(codec), a, b);
  }

  /** A line that yields nothing (comment, unknown format, or a failing constructor) changes nothing around it. */
  lemma LineSkipped<C>(codec: Codec<C>, before: seq<string>, line: string, after: seq<string>)
    requires ParseLine(codec, line).None?
    ensures Candidates(codec, before + [line] + after) == Candidates(codec, before + after)
  {
    CandidatesAppend(codec, before + [line], after);
    CandidatesAppend(codec, before, after);
  }

  /** One more line adds what it parses to. */
  lemma CandidatesStep<C>(codec: Codec<C>, lines: seq<string>, i: int)
    requires 0 <= i < |lines|
    ensures Candidates(codec, lines[..i + 1]) == Candidates(codec, lines[..i]) + Accepted(ParseLine(codec, lines[i]))
  {
    assert lines[..i + 1][..i] == lines[..i];
  }

  /** parseMethods: one pass over the lines, adding each accepted line's candidate to a set. */
  method ParseMethods<C>(codec: Codec<C>, lines: seq<string>) returns (methods: set<C>)
    ensures methods == Candidates(codec, lines)
  {
    methods := {};
    for i := 0 to |lines|
      invariant methods == Candidates(codec, lines[..i])
    {
      CandidatesStep(codec, lines, i);
      var line := lines[i];
      if StartsWith(Trim(line), "#") || Trim(line) == "" {
        continue;
      }
      line := StripGenerics(NormaliseCommas(CollapseSpaces(Trim(line))));
      assert line == Normalise(lines[i]);
      var split := Split(line, ';');
      if |split| == 1 {
        var candidate := codec.simple(Trim(split[0]));
        if candidate.Some? {
          methods := methods + {candidate.value};
        }
      } else if |split| == 4 {
        var candidate := codec.advanced(Trim(split[0]), Trim(split[1]), Trim(split[2]), Trim(split[3]));
        if candidate.Some? {
          methods := methods + {candidate.value};
        }
      }
    }
    assert lines[..|lines|] == lines;
  }

  // ---------------------------------------------------------------------------
  // Writing the advanced format back
  // ---------------------------------------------------------------------------

  /** Line i of lines is the convertToString of cs[i], and cs lists each candidate of methods once. */
  ghost predicate ListedBy<C(!new)>(codec: Codec<C>, lines: seq<string>, cs: seq<C>, methods: set<C>) {
    && |cs| == |lines|
    && (forall i, j :: 0 <= i < j < |cs| ==> cs[i] != cs[j])
    && (forall c :: c in methods <==> c in cs)
    && (forall i :: 0 <= i < |lines| ==> lines[i] == codec.line(cs[i]))
  }

  /** lines holds the convertToString of every candidate, one line per candidate in some order, and no other line. */
  ghost predicate IsListing<C(!new)>(codec: Codec<C>, lines: seq<string>, methods: set<C>) {
    exists cs: seq<C> :: ListedBy(codec, lines, cs, methods)
  }

  /** A listing has exactly one line per candidate. */
  lemma ListingLength<C(!new)>(codec: Codec<C>, lines: seq<string>, methods: set<C>)
    requires IsListing(codec, lines, methods)
    ensures |lines| == |methods|
  {
    var cs :| ListedBy(codec, lines, cs, methods);
    DistinctCount(cs, methods);
  }

  /** A sequence without repetitions is as long as the set of its elements. */
  lemma {:induction false} DistinctCount<C(!new)>(cs: seq<C>, elems: set<C>)
    requires forall i, j :: 0 <= i < j < |cs| ==> cs[i] != cs[j]
    requires forall c :: c in elems <==> c in cs
    ensures |cs| == |elems|
  {
    if cs != [] {
      var last := cs[|cs| - 1];
      var init := cs[..|cs| - 1];
      assert last !in init by {
        forall i | 0 <= i < |init| ensures init[i] != last { assert init[i] == cs[i]; }
      }
      forall c ensures c in elems - {last} <==> c in init {
        if c in init { var i :| 0 <= i < |init| && init[i] == c; assert cs[i] == c; }
        if c in cs && c != last { var i :| 0 <= i < |cs| && cs[i] == c; assert init[i] == c; }
      }
      DistinctCount(init, elems - {last});
    }
  }

  /** Writing the line of one more candidate extends the listing. */
  lemma ListingAdd<C(!new)>(codec: Codec<C>, lines: seq<string>, methods: set<C>, c: C)
    requires IsListing(codec, lines, methods) && c !in methods
    ensures IsListing(codec, lines + [codec.line(c)], methods + {c})
  {
    var cs :| ListedBy(codec, lines, cs, methods);
    var next := cs + [c];
    forall i, j | 0 <= i < j < |next|
      ensures next[i] != next[j]
    {
      if j == |cs| {
        assert next[i] == cs[i] && cs[i] in methods;
      }
    }
    assert ListedBy(codec, lines + [codec.line(c)], next, methods + {c});
  }

  /**
   * When every candidate's convertToString parses back to it, reading a
   * rewritten wordlist gives exactly the candidates that were written.
   */
  lemma ListingRoundTrip<C(!new)>(codec: Codec<C>, lines: seq<string>, methods: set<C>)
    requires IsListing(codec, lines, methods)
    requires forall c :: c in methods ==> ParseLine(codec, codec.line(c)) == Some(c)
    ensures Candidates(codec, lines) == methods
  {
    var cs :| ListedBy(codec, lines, cs, methods);
    forall c | c in methods
      ensures c in Candidates(codec, lines)
    {
      var i :| 0 <= i < |cs| && cs[i] == c;
      assert ParseLine(codec, lines[i]) == Some(c);
      CandidatesMember(codec, lines, c);
    }
    forall c | c in Candidates(codec, lines)
      ensures c in methods
    {
      CandidatesMember(codec, lines, c);
      var i :| 0 <= i < |lines| && ParseLine(codec, lines[i]) == Some(c);
      assert cs[i] in methods;
    }
  }

  /** The file system as the loaders see it: file contents as lines, and the wordlist files of each folder. */
  class FileStore {
    var files: map<string, seq<string>>
    /** The *.txt and *.TXT files directly inside each existing folder. */
    const folders: map<string, seq<string>>
    /** The built-in wordlists on the class path, by resource path. */
    const resources: map<string, string>

    /**
     * A folder listing names each file once. A listed name need not be a
     * readable file (a dangling link, a file without read permission).
     */
    predicate Valid()
      reads this
    {
      forall d :: d in folders ==>
        forall i, j :: 0 <= i < j < |folders[d]| ==> folders[d][i] != folders[d][j]
    }

    constructor (files: map<string, seq<string>>, folders: map<string, seq<string>>, resources: map<string, string>)
      requires forall d :: d in folders ==>
        forall i, j :: 0 <= i < j < |folders[d]| ==> folders[d][i] != folders[d][j]
      ensures this.files == files && this.folders == folders && this.resources == resources
      ensures Valid()
    {
      this.files := files;
      this.folders := folders;
      this.resources := resources;
    }
  }

  /** updateWordlist: replace the file with the convertToString of every candidate, one per line. */
  method UpdateWordlist<C(==,!new)>(codec: Codec<C>, fs: FileStore, file: string, methods: set<C>)
    modifies fs
    ensures file in fs.files && fs.files == old(fs.files)[file := fs.files[file]]
    ensures IsListing(codec, fs.files[file], methods)
  {
    var signatures: seq<string> := [];
    var rest := methods;
    ghost var written: set<C> := {};
    assert ListedBy(codec, signatures, [], written);
    while rest != {}
      invariant rest !! written && rest + written == methods
      invariant IsListing(codec, signatures, written)
      invariant fs.files == old(fs.files)
      decreases |rest|
    {
      var candidate :| candidate in rest;
      ListingAdd(codec, signatures, written, candidate);
      signatures := signatures + [codec.line(candidate)];
      rest := rest - {candidate};
      written := written + {candidate};
    }
    assert written == methods;
    fs.files := fs.files[file := signatures];
  }

  // ---------------------------------------------------------------------------
  // Loading
  // ---------------------------------------------------------------------------

  /** What reading one file gives, against a snapshot of the files. */
  function FileResult<C>(codec: Codec<C>, files: map<string, seq<string>>, file: string): (r: Result<set<C>>)
    ensures r.Failure? <==> file !in files
  {
    if file in files then Success(Candidates(codec, files[file])) else Failure(FileNotFound(file))
  }

  /** The union of of(p) over the paths p, taken in order. */
  function UnionOf<C>(of: string -> set<C>, paths: seq<string>): set<C> {
    if paths == [] then {}
    else UnionOf(of, paths[..|paths| - 1]) + of(paths[|paths| - 1])
  }

  /** A union holds c exactly when one of its parts does. */
  lemma {:induction false} UnionOfMember<C>(of: string -> set<C>, paths: seq<string>, c: C)
    ensures c in UnionOf(of, paths) <==> exists i :: 0 <= i < |paths| && c in of(paths[i])
  {
    if paths != [] {
      var init := paths[..|paths| - 1];
      UnionOfMember(of, init, c);
      if c in UnionOf(of, init) {
        var i :| 0 <= i < |init| && c in of(init[i]);
        assert paths[i] == init[i];
      }
      forall i | 0 <= i < |init|
        ensures of(paths[i]) == of(init[i])
      {
        assert paths[i] == init[i];
      }
    }
  }

  /** The candidates of each file; a path that is not a file has none. */
  function FileCandidates<C>(codec: Codec<C>, files: map<string, seq<string>>): string -> set<C> {
    p => if p in files then Candidates(codec, files[p]) else {}
  }

  /** The union of the candidates of the given files. */
  function UnionOver<C>(codec: Codec<C>, files: map<string, seq<string>>, paths: seq<string>): set<C> {
    UnionOf(FileCandidates(codec, files), paths)
  }

  /** One more part adds its set to the union. */
  lemma UnionOfStep<C>(of: string -> set<C>, paths: seq<string>, i: int)
    requires 0 <= i < |paths|
    ensures UnionOf(of, paths[..i + 1]) == UnionOf(of, paths[..i]) + of(paths[i])
  {
    assert paths[..i + 1][..i] == paths[..i];
  }

  /** A folder's result holds a candidate exactly when a line of one of its files parses to it. */
  lemma UnionOverMember<C>(codec: Codec<C>, files: map<string, seq<string>>, paths: seq<string>, c: C)
    requires forall i :: 0 <= i < |paths| ==> paths[i] in files
    ensures c in UnionOver(codec, files, paths) <==>
            exists i, j :: 0 <= i < |paths| && 0 <= j < |files[paths[i]]| && ParseLine(codec, files[paths[i]][j]) == Some(c)
  {
    UnionOfMember(FileCandidates(codec, files), paths, c);
    forall i | 0 <= i < |paths|
      ensures c in FileCandidates(codec, files)(paths[i]) <==>
              exists j :: 0 <= j < |files[paths[i]]| && ParseLine(codec, files[paths[i]][j]) == Some(c)
    {
      CandidatesMember(codec, files[paths[i]], c);
    }
  }

  /** getWordlistMethodsFromFile: parse the file, then rewrite it in the advanced format if asked to. */
  method GetWordlistMethodsFromFile<C(==,!new)>(codec: Codec<C>, fs: FileStore, file: string, updateWordlists: bool)
    returns (r: Result<set<C>>)
    modifies fs
    ensures r == FileResult(codec, old(fs.files), file)
    ensures r.Failure? || !updateWordlists ==> fs.files == old(fs.files)
    ensures r.Success? && updateWordlists ==>
              file in fs.files && fs.files == old(fs.files)[file := fs.files[file]] && IsListing(codec, fs.files[file], r.value)
  {
    if file !in fs.files {
      return Failure(FileNotFound(file));
    }
    var content := fs.files[file];
    var methods := ParseMethods(codec, content);
    if updateWordlists {
      UpdateWordlist(codec, fs, file, methods);
    }
    r := Success(methods);
  }

  /** The index of the first path that is not a readable file, or |paths| when every one is. */
  function FirstMissing(files: map<string, seq<string>>, paths: seq<string>): (k: nat)
    ensures k <= |paths|
    ensures forall i :: 0 <= i < k ==> paths[i] in files
    ensures k < |paths| ==> paths[k] !in files
  {
    if paths == [] then 0
    else if paths[0] !in files then 0
    else 1 + FirstMissing(files, paths[1..])
  }

  /**
   * What getWordlistMethodsFromFolder returns: not a directory, the IOException
   * of the first listed file that cannot be read, or the union over the files.
   */
  function FolderResult<C>(codec: Codec<C>, files: map<string, seq<string>>, folders: map<string, seq<string>>,
                           folder: string): (r: Result<set<C>>)
    ensures r.Success? <==> folder in folders && forall i :: 0 <= i < |folders[folder]| ==> folders[folder][i] in files
    ensures r.Failure? && r.error.FileNotFound? ==> folder in folders && r.error.file in folders[folder] && r.error.file !in files
  {
    if folder !in folders then Failure(NotADirectory(folder))
    else
      var k := FirstMissing(files, folders[folder]);
      if k < |folders[folder]| then Failure(FileNotFound(folders[folder][k]))
      else Success(UnionOver(codec, files, folders[folder]))
  }

  /**
   * getWordlistMethodsFromFolder: a path that is not a folder fails before
   * anything is read; otherwise the files are read in listing order, and the
   * first one that cannot be read ends the loop with its failure after the
   * earlier ones were read (and, when asked to, rewritten).
   */
  method GetWordlistMethodsFromFolder<C(==,!new)>(codec: Codec<C>, fs: FileStore, folder: string, updateWordlists: bool)
    returns (r: Result<set<C>>)
    requires fs.Valid()
    modifies fs
    ensures r == FolderResult(codec, old(fs.files), fs.folders, folder)
    ensures folder !in fs.folders ==> fs.files == old(fs.files)
    ensures folder in fs.folders ==>
              FolderProgress(ListingOf(codec), old(fs.files), fs.files,
                             fs.folders[folder][..FirstMissing(old(fs.files), fs.folders[folder])], updateWordlists)
    ensures !updateWordlists ==> fs.files == old(fs.files)
    ensures fs.files.Keys == old(fs.files).Keys
    ensures forall p :: p in fs.files && (folder !in fs.folders || p !in fs.folders[folder]) ==>
              fs.files[p] == old(fs.files)[p]
    ensures updateWordlists && r.Success? ==>
              forall p :: p in fs.folders[folder] ==> IsListing(codec, fs.files[p], Candidates(codec, old(fs.files)[p]))
  {
    if folder !in fs.folders {
      return Failure(NotADirectory(folder));
    }
    var paths := fs.folders[folder];
    ghost var k := FirstMissing(old(fs.files), paths);
    var methods: set<C> := {};
    for i := 0 to |paths|
      invariant i <= k
      invariant methods == UnionOver(codec, old(fs.files), paths[..i])
      invariant FolderProgress(ListingOf(codec), old(fs.files), fs.files, paths[..i], updateWordlists)
    {
      ghost var before := fs.files;
      var fileResult := GetWordlistMethodsFromFile(codec, fs, paths[i], updateWordlists);
      if fileResult.Failure? {
        assert i == k;
        return fileResult;
      }
      UnionOfStep(FileCandidates(codec, old(fs.files)), paths, i);
      FolderStep(ListingOf(codec), old(fs.files), before, fs.files, paths, i, updateWordlists);
      methods := methods + fileResult.value;
    }
    assert paths[..|paths|] == paths;
    r := Success(methods);
  }

  /** A rewritten file holds the listing of what its original content parses to. */
  ghost function ListingOf<C(!new)>(codec: Codec<C>): (seq<string>, seq<string>) -> bool {
    (lines, original) => IsListing(codec, lines, Candidates(codec, original))
  }

  /**
   * What reading the files done of a folder leaves behind: the same file
   * names, nothing changed unless asked to, nothing changed outside done,
   * and every file of done rewritten so that listed(new, original) holds.
   */
  predicate FolderProgress(listed: (seq<string>, seq<string>) -> bool, orig: map<string, seq<string>>,
                           files: map<string, seq<string>>, done: seq<string>, update: bool) {
    && files.Keys == orig.Keys
    && (!update ==> files == orig)
    && (forall p :: p in files && p !in done ==> files[p] == orig[p])
    && (update ==> forall p :: p in done ==> p in files && p in orig && listed(files[p], orig[p]))
  }

  /** Reading the next file of a folder, which it lists once, keeps the folder loop's progress. */
  lemma FolderStep(listed: (seq<string>, seq<string>) -> bool, orig: map<string, seq<string>>,
                   before: map<string, seq<string>>, after: map<string, seq<string>>,
                   paths: seq<string>, i: int, update: bool)
    requires 0 <= i < |paths| && paths[i] in orig
    requires forall a, b :: 0 <= a < b < |paths| ==> paths[a] != paths[b]
    requires FolderProgress(listed, orig, before, paths[..i], update)
    requires !update ==> after == before
    requires update ==> paths[i] in after && after == before[paths[i] := after[paths[i]]]
                        && listed(after[paths[i]], before[paths[i]])
    ensures FolderProgress(listed, orig, after, paths[..i + 1], update)
  {
    var done := paths[..i];
    var file := paths[i];
    assert paths[..i + 1] == done + [file];
    assert file !in done by {
      forall a | 0 <= a < i
        ensures done[a] != file
      {
        assert done[a] == paths[a];
      }
    }
  }

  /** The built-in wordlists, read in this order. */
  const DefaultWordlists: seq<string> := ["rmg.txt", "rmiscout.txt"]

  function ResourcePath(name: string): string {
    "/wordlists/" + name
  }

  /** The candidates of a built-in wordlist: its content split on newlines; a missing one has none. */
  function ResourceCandidates<C>(codec: Codec<C>, resources: map<string, string>): string -> set<C> {
    name => if ResourcePath(name) in resources then Candidates(codec, Split(resources[ResourcePath(name)], '\n')) else {}
  }

  /** The candidates of the built-in wordlists; the first one that is missing fails the load. */
  function BuiltInResult<C>(codec: Codec<C>, resources: map<string, string>): (r: Result<set<C>>)
    ensures r.Failure? <==> exists i :: 0 <= i < |DefaultWordlists| && ResourcePath(DefaultWordlists[i]) !in resources
    ensures r.Failure? ==> r.error.ResourceMissing? && r.error.name in DefaultWordlists
  {
    if ResourcePath(DefaultWordlists[0]) !in resources then Failure(ResourceMissing(DefaultWordlists[0]))
    else if ResourcePath(DefaultWordlists[1]) !in resources then Failure(ResourceMissing(DefaultWordlists[1]))
    else Success(UnionOf(ResourceCandidates(codec, resources), DefaultWordlists))
  }

  /** The built-in candidates are exactly what some line of rmg.txt or rmiscout.txt parses to. */
  lemma BuiltInMember<C>(codec: Codec<C>, resources: map<string, string>, c: C)
    requires BuiltInResult(codec, resources).Success?
    ensures c in BuiltInResult(codec, resources).value <==>
            exists i, j :: 0 <= i < |DefaultWordlists| && ResourcePath(DefaultWordlists[i]) in resources
                           && 0 <= j < |Split(resources[ResourcePath(DefaultWordlists[i])], '\n')|
                           && ParseLine(codec, Split(resources[ResourcePath(DefaultWordlists[i])], '\n')[j]) == Some(c)
  {
    UnionOfMember(ResourceCandidates(codec, resources), DefaultWordlists, c);
    forall i | 0 <= i < |DefaultWordlists|
      ensures c in ResourceCandidates(codec, resources)(DefaultWordlists[i]) <==>
              ResourcePath(DefaultWordlists[i]) in resources
              && exists j :: 0 <= j < |Split(resources[ResourcePath(DefaultWordlists[i])], '\n')|
                             && ParseLine(codec, Split(resources[ResourcePath(DefaultWordlists[i])], '\n')[j]) == Some(c)
    {
      if ResourcePath(DefaultWordlists[i]) in resources {
        CandidatesMember(codec, Split(resources[ResourcePath(DefaultWordlists[i])], '\n'), c);
      }
    }
  }

  /** getWordlistMethodsFromStream: the built-in wordlists in order, each split into lines and parsed. */
  method GetWordlistMethodsFromStream<C(==)>(codec: Codec<C>, fs: FileStore) returns (r: Result<set<C>>)
    ensures r == BuiltInResult(codec, fs.resources)
  {
    var methods: set<C> := {};
    for i := 0 to |DefaultWordlists|
      invariant forall j :: 0 <= j < i ==> ResourcePath(DefaultWordlists[j]) in fs.resources
      invariant methods == UnionOf(ResourceCandidates(codec, fs.resources), DefaultWordlists[..i])
    {
      var wordlist := DefaultWordlists[i];
      var path := ResourcePath(wordlist);
      if path !in fs.resources {
        return Failure(ResourceMissing(wordlist));
      }
      UnionOfStep(ResourceCandidates(codec, fs.resources), DefaultWordlists, i);
      var content := fs.resources[path];
      var parsed := ParseMethods(codec, Split(content, '\n'));
      methods := methods + parsed;
    }
    assert DefaultWordlists[..|DefaultWordlists|] == DefaultWordlists;
    r := Success(methods);
  }

  /** Where getWordlistMethods reads from. */
  datatype Source = FromFile(file: string) | FromFolder(folder: string) | BuiltIn

  /** A wordlist file that is given and not empty wins; then such a folder; then the built-in lists. */
  function SelectSource(file: Option<string>, folder: Option<string>): (r: Source)
    ensures r.FromFile? <==> file.Some? && file.value != ""
    ensures r.FromFolder? <==> (file.None? || file.value == "") && folder.Some? && folder.value != ""
    ensures r.FromFile? ==> r.file == file.value
    ensures r.FromFolder? ==> r.folder == folder.value
  {
    if file.Some? && file.value != "" then FromFile(file.value)
    else if folder.Some? && folder.value != "" then FromFolder(folder.value)
    else BuiltIn
  }

  /** What getWordlistMethods returns, against a snapshot of the file system. */
  function Loaded<C>(codec: Codec<C>, files: map<string, seq<string>>, folders: map<string, seq<string>>,
                     resources: map<string, string>, source: Source): Result<set<C>>
  {
    match source
    case FromFile(file) => FileResult(codec, files, file)
    case FromFolder(folder) =>
      FolderResult(codec, files, folders, folder)
    case BuiltIn => BuiltInResult(codec, resources)
  }

  class WordlistHandler {
    /** None stands for a null reference. */
    const wordlistFile: Option<string>
    const wordlistFolder: Option<string>
    const updateWordlists: bool

    constructor (wordlistFile: Option<string>, wordlistFolder: Option<string>, updateWordlists: bool)
      ensures this.wordlistFile == wordlistFile && this.wordlistFolder == wordlistFolder
      ensures this.updateWordlists == updateWordlists
    {
      this.wordlistFile := wordlistFile;
      this.wordlistFolder := wordlistFolder;
      this.updateWordlists := updateWordlists;
    }

    /** getWordlistMethods: read from the source SelectSource picks. */
    method GetWordlistMethods<C(==,!new)>(codec: Codec<C>, fs: FileStore) returns (r: Result<set<C>>)
      requires fs.Valid()
      modifies fs
      ensures r == Loaded(codec, old(fs.files), fs.folders, fs.resources, SelectSource(wordlistFile, wordlistFolder))
      ensures !updateWordlists || SelectSource(wordlistFile, wordlistFolder).BuiltIn? ==> fs.files == old(fs.files)
      ensures var src := SelectSource(wordlistFile, wordlistFolder);
              src.FromFile? && r.Failure? ==> fs.files == old(fs.files)
      ensures var src := SelectSource(wordlistFile, wordlistFolder);
              src.FromFile? && r.Success? && updateWordlists ==>
                src.file in fs.files && fs.files == old(fs.files)[src.file := fs.files[src.file]]
                && IsListing(codec, fs.files[src.file], r.value)
      ensures var src := SelectSource(wordlistFile, wordlistFolder);
              src.FromFolder? ==>
                && fs.files.Keys == old(fs.files).Keys
                && (forall p :: p in fs.files && (src.folder !in fs.folders || p !in fs.folders[src.folder]) ==>
                      fs.files[p] == old(fs.files)[p])
                && (src.folder in fs.folders ==>
                      FolderProgress(ListingOf(codec), old(fs.files), fs.files,
                        fs.folders[src.folder][..FirstMissing(old(fs.files), fs.folders[src.folder])], updateWordlists))
                && (updateWordlists && r.Success? ==>
                      forall p :: p in fs.folders[src.folder] ==>
                        IsListing(codec, fs.files[p], Candidates(codec, old(fs.files)[p])))
    {
      if wordlistFile.Some? && wordlistFile.value != "" {
        r := GetWordlistMethodsFromFile(codec, fs, wordlistFile.value, updateWordlists);
      } else if wordlistFolder.Some? && wordlistFolder.value != "" {
        r := GetWordlistMethodsFromFolder(codec, fs, wordlistFolder.value, updateWordlists);
      } else {
        r := GetWordlistMethodsFromStream(codec, fs);
      }
    }
  }
}
