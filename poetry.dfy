/**
 * The poetry files of the banner: which file holds which kind of poem in
 * which language, the cleaning of the lines read from it, the fallback to
 * the Chinese file, and the display object whose language can be switched.
 * File contents are given as a map from path to lines; a path missing from
 * the map is a file that cannot be opened.
 */
module Poetry {
  import opened Wrappers
  import opened Ascii

  datatype PoetryType = AI | Zen | Love {
    /** The enum member's value. */
    function Value(): string {
      match this
      case AI => "ai"
      case Zen => "zen"
      case Love => "love"
    }
  }

  datatype Language = Chinese | English {
    /** The enum member's value. */
    function Value(): string {
      match this
      case Chinese => "cn"
      case English => "en"
    }
  }

  /** The path `dir / name`. */
  datatype FilePath = FilePath(dir: string, name: string)

  /** What can be read: each path that opens, with the lines `readlines()` returns. */
  type Files = map<FilePath, seq<string>>

  /** What `print_markdown` is asked to show. */
  datatype Panel = Panel(content: string, title: string, style: string)

  /** The file name `_update_poetry_files` gives a kind in a language. */
  function FileName(kind: PoetryType, language: Language): (name: string)
    ensures language == English ==> name == kind.Value() + "_en.txt"
    ensures language == Chinese ==> name == kind.Value() + ".txt"
  {
    var suffix := if language == English then "_" + language.Value() else "";
    kind.Value() + suffix + ".txt"
  }

  /** Different kinds, or different languages, never share a file. */
  lemma FileNamesDistinct(k1: PoetryType, l1: Language, k2: PoetryType, l2: Language)
    requires (k1, l1) != (k2, l2)
    ensures FileName(k1, l1) != FileName(k2, l2)
  {
  }

  /** The three files for a language, all under `base`. */
  function PoetryFiles(base: string, language: Language): (files: map<PoetryType, FilePath>)
    ensures files.Keys == {AI, Zen, Love}
    ensures forall k :: k in files ==> files[k] == FilePath(base, FileName(k, language))
  {
    map[AI := FilePath(base, FileName(AI, language)),
        Zen := FilePath(base, FileName(Zen, language)),
        Love := FilePath(base, FileName(Love, language))]
  }

  /** The panel style of a kind. */
  function Color(kind: PoetryType): string {
    match kind
    case AI => "blue"
    case Zen => "green"
    case Love => "red"
  }

  /** The panel styles, as the display keeps them. */
  function Colors(): (m: map<PoetryType, string>)
    ensures m.Keys == {AI, Zen, Love}
    ensures forall k :: k in m ==> m[k] == Color(k)
  {
    map[AI := "blue", Zen := "green", Love := "red"]
  }

  // ---------------------------------------------------------------------
  // Cleaning the lines of a poetry file

  /** A line survives when, stripped, it is non-empty and not a `#` comment. */
  predicate Kept(line: string) {
    var t := Strip(line);
    t != [] && !StartsWith(t, "#")
  }

  /** A kept line loses its sequence number: the text after the first `". "`, if any. */
  function Cleaned(line: string): (r: string)
    requires Kept(line)
    ensures r != []
  {
    var t := Strip(line);
    match IndexOf(t, ". ")
    case Some(k) =>
      assert t[k..k + 2][1] == ' ';
      t[k + 2..]
    case None => t
  }

  /** The lines `_load_poetry` returns for the lines of a file. */
  function CleanLines(lines: seq<string>): (r: seq<string>)
    ensures |r| <= |lines|
    ensures forall i :: 0 <= i < |r| ==> r[i] != []
  {
    if lines == [] then []
    else
      var last := lines[|lines| - 1];
      CleanLines(lines[..|lines| - 1]) + (if Kept(last) then [Cleaned(last)] else [])
  }

  /** Cleaning works line by line and keeps the input order. */
  lemma {:induction false} CleanLinesAppend(a: seq<string>, b: seq<string>)
    ensures CleanLines(a + b) == CleanLines(a) + CleanLines(b)
    decreases |b|
  {
    if b == [] {
      assert a + b == a;
    } else {
      var init := b[..|b| - 1];
      assert (a + b)[..|a + b| - 1] == a + init;
      CleanLinesAppend(a, init);
    }
  }

  /** One line contributes its cleaned text when kept and nothing otherwise. */
  lemma CleanLinesOne(line: string)
    ensures CleanLines([line]) == if Kept(line) then [Cleaned(line)] else []
  {
    assert [line][..0] == [];
  }

  /** The last line contributes last. */
  lemma CleanLinesSnoc(lines: seq<string>, i: nat)
    requires i < |lines|
    ensures CleanLines(lines[..i + 1]) ==
      CleanLines(lines[..i]) + (if Kept(lines[i]) then [Cleaned(lines[i])] else [])
  {
    assert lines[..i + 1][..i] == lines[..i];
  }

  /** Every output entry comes from one kept input line, in order. */
  lemma {:induction false} CleanLinesFromInput(lines: seq<string>, i: nat)
    requires i < |CleanLines(lines)|
    ensures exists j :: 0 <= j < |lines| && Kept(lines[j]) && CleanLines(lines)[i] == Cleaned(lines[j])
    decreases |lines|
  {
    var n := |lines| - 1;
    var init := lines[..n];
    CleanLinesSnoc(lines, n);
    assert lines[..n + 1] == lines;
    if i < |CleanLines(init)| {
      CleanLinesFromInput(init, i);
      var j :| 0 <= j < |init| && Kept(init[j]) && CleanLines(init)[i] == Cleaned(init[j]);
      assert lines[j] == init[j];
      assert CleanLines(lines)[i] == CleanLines(init)[i];
    } else {
      assert Kept(lines[n]) && CleanLines(lines)[i] == Cleaned(lines[n]);
    }
  }

  /**
   * What `_load_poetry` returns: the cleaned primary file; for English, when
   * the primary file cannot be opened, the cleaned `"{type}.txt"`; otherwise
   * nothing.
   */
  function LoadedPoems(files: Files, base: string, language: Language, kind: PoetryType): seq<string> {
    var primary := FilePath(base, FileName(kind, language));
    var fallback := FilePath(base, kind.Value() + ".txt");
    if primary in files then CleanLines(files[primary])
    else if language == English && fallback in files then CleanLines(files[fallback])
    else []
  }

  /** The English fallback reads exactly what the Chinese display reads; Chinese has no fallback. */
  lemma FallbackIsChinese(files: Files, base: string, kind: PoetryType)
    ensures FilePath(base, FileName(kind, English)) !in files ==>
      LoadedPoems(files, base, English, kind) == LoadedPoems(files, base, Chinese, kind)
    ensures FilePath(base, FileName(kind, Chinese)) !in files ==>
      LoadedPoems(files, base, Chinese, kind) == []
  {
  }

  // ---------------------------------------------------------------------
  // The display object

  class PoetryDisplay {
    var basePath: string
    var language: Language
    var poetryFiles: map<PoetryType, FilePath>
    var colors: map<PoetryType, string>

    /** The file paths always belong to the current language. */
    ghost predicate Valid()
      reads this
    {
      poetryFiles == PoetryFiles(basePath, language) && colors == Colors()
    }

    constructor (basePath: string, language: Language)
      ensures Valid()
      ensures this.basePath == basePath && this.language == language
    {
      this.basePath := basePath;
      this.language := language;
      new;
      UpdatePoetryFiles();
      colors := map[AI := "blue", Zen := "green", Love := "red"];
    }

    /** `_update_poetry_files`: recompute the three paths from the language. */
    method UpdatePoetryFiles()
      modifies this`poetryFiles
      ensures poetryFiles == PoetryFiles(basePath, language)
    {
      var suffix := if language == English then "_" + language.Value() else "";
      poetryFiles := map[
        AI := FilePath(basePath, "ai" + suffix + ".txt"),
        Zen := FilePath(basePath, "zen" + suffix + ".txt"),
        Love := FilePath(basePath, "love" + suffix + ".txt")];
    }

    /** `set_language`: the language and all three paths change; nothing else does. */
    method SetLanguage(language: Language)
      requires Valid()
      modifies this`language, this`poetryFiles
      ensures Valid()
      ensures this.language == language
      ensures poetryFiles == PoetryFiles(basePath, language)
      ensures basePath == old(basePath) && colors == old(colors)
    {
      this.language := language;
      UpdatePoetryFiles();
    }

    /** The loop of `_load_poetry`, which the source writes out twice. */
    static method ProcessLines(lines: seq<string>) returns (processed: seq<string>)
      ensures processed == CleanLines(lines)
    {
      processed := [];
      for i := 0 to |lines|
        invariant processed == CleanLines(lines[..i])
      {
        CleanLinesSnoc(lines, i);
        var keep, line := CleanLine(lines[i]);
        if keep {
          processed := processed + [line];
        }
      }
      assert lines[..|lines|] == lines;
    }

    /** One pass of that loop: strip, skip blank and `#` lines, drop a leading `"N. "`. */
    static method CleanLine(raw: string) returns (keep: bool, line: string)
      ensures keep == Kept(raw)
      ensures keep ==> line == Cleaned(raw)
    {
      line := Strip(raw);
      keep := line != [] && !StartsWith(line, "#");
      if keep {
        match IndexOf(line, ". ") {
          case Some(k) => line := line[k + 2..];
          case None =>
        }
      }
    }

    /** `_load_poetry`: read the file of a kind, falling back to the Chinese file for English. */
    method LoadPoetry(files: Files, kind: PoetryType) returns (poems: seq<string>)
      requires Valid()
      ensures poems == LoadedPoems(files, basePath, language, kind)
    {
      var path := poetryFiles[kind];
      if path in files {
        poems := ProcessLines(files[path]);
        return;
      }
      if language == English {
        var fallback := FilePath(basePath, kind.Value() + ".txt");
        if fallback in files {
          poems := ProcessLines(files[fallback]);
          return;
        }
      }
      poems := [];
    }

    /**
     * `display_random_poetry`: `randomType` stands for `random.choice` over the
     * kinds and `pick` for `random.choice` over the poems. Nothing is shown
     * when the file yields no poems.
     */
    method DisplayRandomPoetry(files: Files, requested: Option<PoetryType>, randomType: PoetryType, pick: nat)
      returns (shown: Option<Panel>)
      requires Valid()
      ensures var kind := requested.GetOr(randomType);
        var poems := LoadedPoems(files, basePath, language, kind);
        && (shown.None? <==> poems == [])
        && (shown.Some? ==> shown.value.content in poems && shown.value.content != []
                            && shown.value.title == Upper(kind.Value())
                            && shown.value.style == Color(kind))
    {
      var kind := if requested.Some? then requested.value else randomType;
      assert kind == requested.GetOr(randomType);
      var poems := LoadPoetry(files, kind);
      if poems == [] {
        return None;
      }
      var poem := poems[pick % |poems|];
      assert poem in poems;
      shown := Some(Panel(poem, Upper(kind.Value()), colors[kind]));
    }
  }

  /**
   * The module-level `display_random_poetry`: a language, when given, is set
   * on the shared display before it shows a poem.
   */
  method ShowRandomPoetry(display: PoetryDisplay, files: Files, requested: Option<PoetryType>,
                          language: Option<Language>, randomType: PoetryType, pick: nat)
    returns (shown: Option<Panel>)
    requires display.Valid()
    modifies display
    ensures display.Valid()
    ensures display.language == language.GetOr(old(display.language))
    ensures display.basePath == old(display.basePath)
    ensures var kind := requested.GetOr(randomType);
      var poems := LoadedPoems(files, display.basePath, display.language, kind);
      && (shown.None? <==> poems == [])
      && (shown.Some? ==> shown.value.content in poems && shown.value.content != []
                          && shown.value.title == Upper(kind.Value()) && shown.value.style == Color(kind))
  {
    if language.Some? {
      display.SetLanguage(language.value);
    }
    shown := display.DisplayRandomPoetry(files, requested, randomType, pick);
  }
}
