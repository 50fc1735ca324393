/** The Python `str` operations the ingestion code relies on, over `seq<char>`:
    `split` with an explicit one-character separator (and `join`, its inverse),
    `replace` of one character by another, `endswith`, and `title` restricted
    to ASCII letters. */
module PyStr {

  /** `sep.join(parts)`: the parts with one separator between neighbours. */
  function Join(parts: seq<string>, sep: char): string
    requires |parts| >= 1
  {
    if |parts| == 1 then parts[0] else parts[0] + [sep] + Join(parts[1..], sep)
  }

  /** `s.split(sep)`: the maximal runs of non-separator characters, including
      the empty runs before, between and after separators. Never empty. */
  function Split(s: string, sep: char): (parts: seq<string>)
    ensures |parts| >= 1
    ensures forall i :: 0 <= i < |parts| ==> sep !in parts[i]
    ensures Join(parts, sep) == s
  {
    if |s| == 0 then [""]
    else
      var rest := Split(s[1..], sep);
      if s[0] == sep then
        assert s == [sep] + s[1..];
        [""] + rest
      else
        var parts := [[s[0]] + rest[0]] + rest[1..];
        assert parts[1..] == rest[1..];
        if |rest| == 1 then
          parts
        else
          assert Join(rest, sep) == rest[0] + [sep] + Join(rest[1..], sep);
          assert [s[0]] + rest[0] + [sep] + Join(rest[1..], sep) == [s[0]] + Join(rest, sep);
          parts
  }

  /** `s.split(sep)[-1]`: the text after the last separator. */
  function LastPart(s: string, sep: char): (r: string)
    ensures sep !in r
    ensures |r| <= |s| && s[|s| - |r|..] == r
    ensures |r| < |s| ==> s[|s| - |r| - 1] == sep
  {
    var parts := Split(s, sep);
    JoinEndsWithLast(parts, sep);
    parts[|parts| - 1]
  }

  /** The last part is a suffix of the joined string, preceded by a separator when other parts precede it. */
  lemma {:induction false} JoinEndsWithLast(parts: seq<string>, sep: char)
    requires |parts| >= 1
    ensures var j, l := Join(parts, sep), parts[|parts| - 1];
      |l| <= |j| && j[|j| - |l|..] == l && (|parts| > 1 ==> |l| < |j| && j[|j| - |l| - 1] == sep)
  {
    if |parts| > 1 {
      JoinEndsWithLast(parts[1..], sep);
      var j, l := Join(parts, sep), parts[|parts| - 1];
      var rest := Join(parts[1..], sep);
      assert j == parts[0] + [sep] + rest;
      assert l == parts[1..][|parts[1..]| - 1];
      assert j[|j| - |rest|..] == rest;
      if |parts| == 2 {
        assert rest == l;
      }
    }
  }

  /** `s.split(sep)[0]`: the text before the first separator. */
  function FirstPart(s: string, sep: char): (r: string)
    ensures sep !in r
    ensures |r| <= |s| && s[..|r|] == r
    ensures |r| < |s| ==> s[|r|] == sep
  {
    var parts := Split(s, sep);
    assert |parts| > 1 ==> Join(parts, sep) == parts[0] + [sep] + Join(parts[1..], sep);
    parts[0]
  }

  /** A string holding no separator splits into itself alone. */
  lemma {:induction false} SplitWithoutSep(s: string, sep: char)
    requires sep !in s
    ensures Split(s, sep) == [s]
  {
    if |s| > 0 {
      SplitWithoutSep(s[1..], sep);
      assert [s[0]] + s[1..] == s;
    }
  }

  /** Splitting `p + sep + t`, where `p` holds no separator, yields `p` and then the parts of `t`. */
  lemma {:induction false} SplitAfterPart(p: string, sep: char, t: string)
    requires sep !in p
    ensures Split(p + [sep] + t, sep) == [p] + Split(t, sep)
  {
    var s := p + [sep] + t;
    if |p| == 0 {
      assert s[1..] == t;
    } else {
      assert s[1..] == p[1..] + [sep] + t;
      SplitAfterPart(p[1..], sep, t);
      assert [p[0]] + p[1..] == p;
    }
  }

  /** `split` inverts `join` whenever no part holds the separator, so together with
      the postconditions of `Split` the two are mutually inverse. */
  lemma {:induction false} SplitJoin(parts: seq<string>, sep: char)
    requires |parts| >= 1
    requires forall i :: 0 <= i < |parts| ==> sep !in parts[i]
    ensures Split(Join(parts, sep), sep) == parts
  {
    if |parts| == 1 {
      SplitWithoutSep(parts[0], sep);
    } else {
      SplitJoin(parts[1..], sep);
      SplitAfterPart(parts[0], sep, Join(parts[1..], sep));
      assert [parts[0]] + parts[1..] == parts;
    }
  }

  /** The text before the first separator of `p + sep + t`, when `p` holds none, is `p`. */
  lemma FirstPartOf(p: string, sep: char, t: string)
    requires sep !in p
    ensures FirstPart(p + [sep] + t, sep) == p
  {
    SplitAfterPart(p, sep, t);
  }

  /** `s.replace(from, to)` for one-character `from` and `to`. */
  function Replace(s: string, from: char, to: char): (r: string)
    ensures |r| == |s|
    ensures forall i :: 0 <= i < |s| ==> r[i] == (if s[i] == from then to else s[i])
  {
    if |s| == 0 then "" else [if s[0] == from then to else s[0]] + Replace(s[1..], from, to)
  }

  /** After replacing every `from` by a different character, no `from` is left. */
  lemma ReplaceRemoves(s: string, from: char, to: char)
    requires from != to
    ensures from !in Replace(s, from, to)
  {
    var r := Replace(s, from, to);
    assert forall i :: 0 <= i < |r| ==> r[i] != from;
  }

  /** `s.endswith(suffix)`: a string that ends with `suffix` is some prefix followed by it. */
  predicate EndsWith(s: string, suffix: string)
    ensures EndsWith(s, suffix) ==> |suffix| <= |s| && s == s[..|s| - |suffix|] + suffix
  {
    |suffix| <= |s| && s[|s| - |suffix|..] == suffix
  }

  /** Conversely, anything followed by `suffix` ends with it. */
  lemma EndsWithAppend(p: string, suffix: string)
    ensures EndsWith(p + suffix, suffix)
  {
    assert (p + suffix)[|p|..] == suffix;
  }

  predicate IsUpper(c: char) { 'A' <= c <= 'Z' }
  predicate IsLower(c: char) { 'a' <= c <= 'z' }
  /** A cased character, in the ASCII range. */
  predicate IsLetter(c: char) { IsUpper(c) || IsLower(c) }

  /** ASCII upper-casing: a lower-case letter becomes its upper-case partner. */
  function Upper(c: char): (u: char)
    ensures IsLower(c) ==> IsUpper(u)
    ensures !IsLower(c) ==> u == c
    ensures IsLetter(u) == IsLetter(c)
  {
    if IsLower(c) then (c as int - 32) as char else c
  }

  /** ASCII lower-casing: an upper-case letter becomes its lower-case partner. */
  function Lower(c: char): (l: char)
    ensures IsUpper(c) ==> IsLower(l)
    ensures !IsUpper(c) ==> l == c
    ensures IsLetter(l) == IsLetter(c)
  {
    if IsUpper(c) then (c as int + 32) as char else c
  }

  /** One step of `title`: upper-case unless the previous character was a letter. */
  function TitleChar(c: char, afterLetter: bool): (t: char)
    ensures IsLetter(t) == IsLetter(c)
  {
    if afterLetter then Lower(c) else Upper(c)
  }

  /** The scan `title` performs, carrying whether the previous character was cased. */
  function TitleFrom(s: string, afterLetter: bool): (r: string)
    ensures |r| == |s|
    ensures forall i :: 0 <= i < |s| ==>
      r[i] == TitleChar(s[i], if i == 0 then afterLetter else IsLetter(s[i - 1]))
  {
    if |s| == 0 then "" else [TitleChar(s[0], afterLetter)] + TitleFrom(s[1..], IsLetter(s[0]))
  }

  /** `s.title()` over ASCII: a letter that starts the string or follows a
      non-letter is upper-cased, every other letter is lower-cased, and every
      non-letter is left as it is. */
  function Title(s: string): (r: string)
    ensures |r| == |s|
    ensures forall i :: 0 <= i < |s| ==>
      r[i] == if i == 0 || !IsLetter(s[i - 1]) then Upper(s[i]) else Lower(s[i])
    ensures forall i :: 0 <= i < |s| ==> IsLetter(r[i]) == IsLetter(s[i])
    ensures forall i :: 0 <= i < |s| && !IsLetter(s[i]) ==> r[i] == s[i]
  {
    var t := TitleFrom(s, false);
    assert forall i :: 0 <= i < |s| ==>
      t[i] == if i == 0 || !IsLetter(s[i - 1]) then Upper(s[i]) else Lower(s[i]) by {
      forall i | 0 <= i < |s|
        ensures t[i] == if i == 0 || !IsLetter(s[i - 1]) then Upper(s[i]) else Lower(s[i])
      {
        assert t[i] == TitleChar(s[i], if i == 0 then false else IsLetter(s[i - 1]));
      }
    }
    assert forall i :: 0 <= i < |s| ==> IsLetter(t[i]) == IsLetter(s[i]) && (!IsLetter(s[i]) ==> t[i] == s[i]) by {
      forall i | 0 <= i < |s| ensures IsLetter(t[i]) == IsLetter(s[i]) && (!IsLetter(s[i]) ==> t[i] == s[i]) {
        assert t[i] == TitleChar(s[i], if i == 0 then false else IsLetter(s[i - 1]));
      }
    }
    t
  }

  /** `title` keeps every character's letter-ness, so applying it twice changes nothing. */
  lemma TitleIdempotent(s: string)
    ensures Title(Title(s)) == Title(s)
  {
    var t := Title(s);
    forall i | 0 <= i < |s| ensures Title(t)[i] == t[i] {
      assert IsLetter(t[i]) == IsLetter(s[i]);
      if i > 0 {
        assert IsLetter(t[i - 1]) == IsLetter(s[i - 1]);
      }
    }
  }

  /** `title` leaves every non-letter in place, so a non-letter is in the result iff it is in the input. */
  lemma TitleKeepsNonLetters(s: string, c: char)
    requires !IsLetter(c)
    ensures c in Title(s) <==> c in s
  {
    var t := Title(s);
    if c in t {
      var i :| 0 <= i < |t| && t[i] == c;
      assert s[i] == c;
    }
    if c in s {
      var i :| 0 <= i < |s| && s[i] == c;
      assert t[i] == c;
    }
  }

  /** A character other than the separator is in the join only if it is in some part. */
  lemma {:induction false} JoinExcludes(parts: seq<string>, sep: char, c: char)
    requires |parts| >= 1 && c != sep
    requires forall i :: 0 <= i < |parts| ==> c !in parts[i]
    ensures c !in Join(parts, sep)
  {
    if |parts| > 1 {
      JoinExcludes(parts[1..], sep, c);
      assert c !in parts[0] + [sep];
    }
  }

  /** `replace` distributes over concatenation. */
  lemma ReplaceConcat(a: string, b: string, from: char, to: char)
    ensures Replace(a + b, from, to) == Replace(a, from, to) + Replace(b, from, to)
  {
    var l, r := Replace(a + b, from, to), Replace(a, from, to) + Replace(b, from, to);
    forall i | 0 <= i < |l| ensures l[i] == r[i] {
      if i < |a| {
        assert (a + b)[i] == a[i] && r[i] == Replace(a, from, to)[i];
      } else {
        assert (a + b)[i] == b[i - |a|] && r[i] == Replace(b, from, to)[i - |a|];
      }
    }
    assert l == r;
  }

  /** Replacing a separator by another turns the one join into the other. */
  lemma {:induction false} ReplaceJoin(parts: seq<string>, from: char, to: char)
    requires |parts| >= 1
    requires forall i :: 0 <= i < |parts| ==> from !in parts[i]
    ensures Replace(Join(parts, from), from, to) == Join(parts, to)
  {
    var p := parts[0];
    assert Replace(p, from, to) == p by {
      assert forall i :: 0 <= i < |p| ==> Replace(p, from, to)[i] == p[i];
    }
    if |parts| > 1 {
      ReplaceJoin(parts[1..], from, to);
      ReplaceConcat(p + [from], Join(parts[1..], from), from, to);
      ReplaceConcat(p, [from], from, to);
    }
  }

  /** A word of lower-case ASCII letters. */
  predicate LowerWord(w: string) {
    |w| > 0 && forall i :: 0 <= i < |w| ==> IsLower(w[i])
  }

  /** The word with its first letter upper-cased. */
  function Capitalize(w: string): string {
    if |w| == 0 then "" else [Upper(w[0])] + w[1..]
  }

  /** `title` capitalises a lower-case word and restarts after the space that ends it. */
  lemma TitleWordThen(w: string, rest: string)
    requires LowerWord(w)
    ensures Title(w + " " + rest) == Capitalize(w) + " " + Title(rest)
  {
    var s := w + " " + rest;
    var l, r := Title(s), Capitalize(w) + " " + Title(rest);
    forall i | 0 <= i < |l| ensures l[i] == r[i] {
      if i < |w| {
        assert s[i] == w[i];
        if i > 0 {
          assert s[i - 1] == w[i - 1];
          assert r[i] == w[i] == Lower(w[i]);
        }
      } else if i == |w| {
        assert s[i] == ' ' && r[i] == ' ';
      } else {
        var j := i - |w| - 1;
        assert s[i] == rest[j];
        assert r[i] == Title(rest)[j];
        if j > 0 { assert s[i - 1] == rest[j - 1]; } else { assert s[i - 1] == ' '; }
      }
    }
  }

  /** `title` capitalises a single lower-case word. */
  lemma TitleWord(w: string)
    requires LowerWord(w)
    ensures Title(w) == Capitalize(w)
  {
    forall i | 0 <= i < |w| ensures Title(w)[i] == Capitalize(w)[i] {
      if i > 0 {
        assert IsLetter(w[i - 1]);
        assert Capitalize(w)[i] == w[i] == Lower(w[i]);
      }
    }
  }

  /** Every word capitalised. */
  function CapitalizeAll(words: seq<string>): (caps: seq<string>)
    ensures |caps| == |words|
    ensures forall i :: 0 <= i < |words| ==> caps[i] == Capitalize(words[i])
  {
    if |words| == 0 then [] else [Capitalize(words[0])] + CapitalizeAll(words[1..])
  }

  /** On space-separated lower-case words, `title` capitalises every word. */
  lemma {:induction false} TitleJoin(words: seq<string>)
    requires |words| >= 1
    requires forall i :: 0 <= i < |words| ==> LowerWord(words[i])
    ensures Title(Join(words, ' ')) == Join(CapitalizeAll(words), ' ')
  {
    if |words| == 1 {
      TitleWord(words[0]);
    } else {
      TitleJoin(words[1..]);
      TitleWordThen(words[0], Join(words[1..], ' '));
    }
  }
}
