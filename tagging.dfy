/** The pure string expressions of `crag/create_vectordb.py`: the source tag
    derived from a file path, the `<documento>` wrapper put around every
    translated chunk, and the path of the persisted BM25 retriever. */
module Tagging {
  import opened PyStr

  datatype Option<T> = None | Some(value: T)

  /** The file name without directories: `path.split('/')[-1]`. */
  function FileName(path: string): string { LastPart(path, '/') }

  /** The file name up to its first dot: `.split('.')[0]`. */
  function Stem(path: string): string { FirstPart(FileName(path), '.') }

  /** `path.split('/')[-1].split('.')[0].replace('_', ' ').title()`.
      The tag holds no slash, no dot and no underscore, and has one character
      for every character of the stem. */
  function SourceTag(path: string): (tag: string)
    ensures '/' !in tag && '.' !in tag && '_' !in tag
    ensures |tag| == |Stem(path)|
  {
    var spaced := Replace(Stem(path), '_', ' ');
    ReplaceRemoves(Stem(path), '_', ' ');
    TitleKeepsNonLetters(spaced, '/');
    TitleKeepsNonLetters(spaced, '.');
    TitleKeepsNonLetters(spaced, '_');
    assert '/' !in spaced && '.' !in spaced by {
      assert forall i :: 0 <= i < |spaced| ==> spaced[i] != '/' && spaced[i] != '.';
    }
    Title(spaced)
  }

  /** The stem of `dir/stem.ext` is `stem` when neither the stem nor the
      extension holds a slash and the stem holds no dot; `dir` may be any
      path, nested directories included, since only the last component counts. */
  lemma StemOf(dir: string, stem: string, ext: string)
    requires '/' !in stem && '/' !in ext && '.' !in stem
    ensures Stem(dir + "/" + stem + "." + ext) == stem
  {
    var name := stem + "." + ext;
    var s := dir + "/" + name;
    assert s == dir + "/" + stem + "." + ext;
    assert '/' !in name by {
      assert forall i :: 0 <= i < |name| ==> name[i] != '/' by {
        forall i | 0 <= i < |name| ensures name[i] != '/' {
          if i < |stem| { assert name[i] == stem[i]; }
          else if i > |stem| { assert name[i] == ext[i - |stem| - 1]; }
        }
      }
    }
    var r := LastPart(s, '/');
    assert s[|s| - |name|..] == name;
    // Both `r` and `name` are slash-free suffixes of `s` preceded by a slash,
    // so neither can be longer than the other.
    assert |s| - |name| - 1 == |dir| && s[|dir|] == '/';
    assert forall i :: |s| - |r| <= i < |s| ==> s[i] == r[i - (|s| - |r|)];
    assert forall i :: |s| - |name| <= i < |s| ==> s[i] == name[i - (|s| - |name|)];
    assert |r| == |name|;
    assert r == s[|s| - |name|..] == name;
    FirstPartOf(stem, '.', ext);
  }

  /** A file named after underscore-separated lower-case words is tagged with
      those words capitalised and separated by spaces, whatever directory holds it. */
  lemma SourceTagOfWords(dir: string, words: seq<string>, ext: string)
    requires '/' !in ext
    requires |words| >= 1 && forall i :: 0 <= i < |words| ==> LowerWord(words[i])
    ensures SourceTag(dir + "/" + Join(words, '_') + "." + ext) == Join(CapitalizeAll(words), ' ')
  {
    var stem := Join(words, '_');
    JoinExcludes(words, '_', '/');
    JoinExcludes(words, '_', '.');
    StemOf(dir, stem, ext);
    ReplaceJoin(words, '_', ' ');
    TitleJoin(words);
  }

  const ExampleWords: seq<string> := ["thinking", "systems", "from", "donella", "meadows"]

  lemma ExampleWordsAreLower()
    ensures forall i :: 0 <= i < |ExampleWords| ==> LowerWord(ExampleWords[i])
  {
    assert LowerWord("thinking") && LowerWord("systems") && LowerWord("from");
    assert LowerWord("donella") && LowerWord("meadows");
  }

  lemma ExampleWordsCapitalized()
    ensures Join(CapitalizeAll(ExampleWords), ' ') == "Thinking Systems From Donella Meadows"
  {
    var caps := CapitalizeAll(ExampleWords);
    assert caps[0] == Capitalize("thinking") == "Thinking";
    assert caps[1] == Capitalize("systems") == "Systems";
    assert caps[2] == Capitalize("from") == "From";
    assert caps[3] == Capitalize("donella") == "Donella";
    assert caps[4] == Capitalize("meadows") == "Meadows";
    assert caps == ["Thinking", "Systems", "From", "Donella", "Meadows"];
    ExampleTitleJoined();
  }

  /** Joining a first word to the join of the rest. */
  lemma JoinFirst(w: string, rest: seq<string>, sep: char)
    requires |rest| >= 1
    ensures Join([w] + rest, sep) == w + [sep] + Join(rest, sep)
  {
    assert ([w] + rest)[1..] == rest;
  }

  lemma ExampleTitleJoinedSpelled()
    ensures "Thinking" + " " + ("Systems" + " " + ("From" + " " + ("Donella" + " " + "Meadows"))) == "Thinking Systems From Donella Meadows"
  {
  }

  lemma ExampleTitleJoined()
    ensures Join(["Thinking", "Systems", "From", "Donella", "Meadows"], ' ') == "Thinking Systems From Donella Meadows"
  {
    calc {
      Join(["Thinking", "Systems", "From", "Donella", "Meadows"], ' ');
    == { JoinFirst("Thinking", ["Systems", "From", "Donella", "Meadows"], ' '); }
      "Thinking" + " " + Join(["Systems", "From", "Donella", "Meadows"], ' ');
    == { JoinFirst("Systems", ["From", "Donella", "Meadows"], ' '); }
      "Thinking" + " " + ("Systems" + " " + Join(["From", "Donella", "Meadows"], ' '));
    == { JoinFirst("From", ["Donella", "Meadows"], ' '); }
      "Thinking" + " " + ("Systems" + " " + ("From" + " " + Join(["Donella", "Meadows"], ' ')));
    == { JoinFirst("Donella", ["Meadows"], ' '); }
      "Thinking" + " " + ("Systems" + " " + ("From" + " " + ("Donella" + " " + "Meadows")));
    == { ExampleTitleJoinedSpelled(); }
      "Thinking Systems From Donella Meadows";
    }
  }

  lemma ExamplePath()
    ensures "data/thinking_systems_from_donella_meadows.pdf" == "data" + "/" + Join(ExampleWords, '_') + "." + "pdf"
  {
    ExampleStemJoined();
    ExamplePathSplit();
  }

  lemma ExamplePathSplit()
    ensures "data/thinking_systems_from_donella_meadows.pdf"
         == "data" + "/" + "thinking_systems_from_donella_meadows" + "." + "pdf"
  {
  }

  lemma ExampleStemJoinedSpelled()
    ensures "thinking" + "_" + ("systems" + "_" + ("from" + "_" + ("donella" + "_" + "meadows"))) == "thinking_systems_from_donella_meadows"
  {
  }

  lemma ExampleStemJoined()
    ensures Join(ExampleWords, '_') == "thinking_systems_from_donella_meadows"
  {
    calc {
      Join(["thinking", "systems", "from", "donella", "meadows"], '_');
    == { JoinFirst("thinking", ["systems", "from", "donella", "meadows"], '_'); }
      "thinking" + "_" + Join(["systems", "from", "donella", "meadows"], '_');
    == { JoinFirst("systems", ["from", "donella", "meadows"], '_'); }
      "thinking" + "_" + ("systems" + "_" + Join(["from", "donella", "meadows"], '_'));
    == { JoinFirst("from", ["donella", "meadows"], '_'); }
      "thinking" + "_" + ("systems" + "_" + ("from" + "_" + Join(["donella", "meadows"], '_')));
    == { JoinFirst("donella", ["meadows"], '_'); }
      "thinking" + "_" + ("systems" + "_" + ("from" + "_" + ("donella" + "_" + "meadows")));
    == { ExampleStemJoinedSpelled(); }
      "thinking_systems_from_donella_meadows";
    }
  }

  /** The source tag of the file ingested by the example run at the bottom of the script. */
  lemma SourceTagExample()
    ensures SourceTag("data/thinking_systems_from_donella_meadows.pdf")
         == "Thinking Systems From Donella Meadows"
  {
    ExamplePath();
    ExampleWordsAreLower();
    SourceTagOfWords("data", ExampleWords, "pdf");
    ExampleWordsCapitalized();
  }

  const Open: string := "<documento> FUENTE: "
  const Close: string := "<documento>"

  /** `f'<documento> FUENTE: {source}. {content}<documento>'`. */
  function Wrap(tag: string, body: string): (content: string)
    ensures |content| == |Open| + |tag| + 2 + |body| + |Close|
    ensures content[..|Open| + |tag| + 2] == Open + tag + ". "
    ensures content[|content| - |Close|..] == Close
  {
    Open + tag + ". " + body + Close
  }

  datatype Wrapped = Wrapped(tag: string, body: string)

  /** Reads a wrapped chunk back: the tag runs up to the first dot after the
      opening marker, and the body lies between the ". " after it and the
      closing marker. */
  function Unwrap(content: string): Option<Wrapped> {
    if |content| < |Open| + |Close| || content[..|Open|] != Open || content[|content| - |Close|..] != Close then
      None
    else
      var inner := content[|Open|..|content| - |Close|];
      var tag := FirstPart(inner, '.');
      if |inner| < |tag| + 2 || inner[|tag|..|tag| + 2] != ". " then None
      else Some(Wrapped(tag, inner[|tag| + 2..]))
  }

  /** Unwrapping recovers the tag and the body of anything wrapped with a dot-free tag. */
  lemma UnwrapWrap(tag: string, body: string)
    requires '.' !in tag
    ensures Unwrap(Wrap(tag, body)) == Some(Wrapped(tag, body))
  {
    var content := Wrap(tag, body);
    var inner := content[|Open|..|content| - |Close|];
    assert inner == tag + "." + (" " + body);
    FirstPartOf(tag, '.', " " + body);
    assert inner[|tag| + 2..] == body;
  }

  /** Whatever unwraps was produced by `Wrap` from a dot-free tag. */
  lemma WrapUnwrap(content: string)
    requires Unwrap(content).Some?
    ensures '.' !in Unwrap(content).value.tag
    ensures Wrap(Unwrap(content).value.tag, Unwrap(content).value.body) == content
  {
    var w := Unwrap(content).value;
    var inner := content[|Open|..|content| - |Close|];
    assert inner == w.tag + ". " + w.body;
    assert content == content[..|Open|] + inner + content[|content| - |Close|..];
  }

  /** `f'data/{self.collection_name}_bm25'`: distinct collections never share a BM25 file. */
  function Bm25Path(collectionName: string): (path: string)
    ensures |path| == |collectionName| + 10
    ensures path[..5] == "data/" && path[|path| - 5..] == "_bm25"
    ensures path[5..|path| - 5] == collectionName
  {
    "data/" + collectionName + "_bm25"
  }

  lemma Bm25PathInjective(a: string, b: string)
    requires Bm25Path(a) == Bm25Path(b)
    ensures a == b
  {
    assert a == Bm25Path(a)[5..|Bm25Path(a)| - 5];
  }
}
