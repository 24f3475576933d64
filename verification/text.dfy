/**
 * The parts of Go's `strings` package that the bot relies on:
 * `strings.Fields` (splitting a message into words) and `strings.Join`
 * (rendering a subscription list). `Split` is its inverse on a
 * one-character separator and serves to state round trips.
 */
module Text {

  /** Go's `unicode.IsSpace` set: the characters `strings.Fields` splits on. */
  const SpaceChars: set<char> := {
    '\t', '\n', '\U{0B}', '\U{0C}', '\r', ' ', '\U{85}', '\U{A0}', '\U{1680}',
    '\U{2000}', '\U{2001}', '\U{2002}', '\U{2003}', '\U{2004}', '\U{2005}',
    '\U{2006}', '\U{2007}', '\U{2008}', '\U{2009}', '\U{200A}',
    '\U{2028}', '\U{2029}', '\U{202F}', '\U{205F}', '\U{3000}'
  }

  /** Every space character is at most `' '` or at least U+0085; the range test rules out the rest. */
  predicate IsSpace(c: char)
  {
    (c <= ' ' || '\U{85}' <= c) && c in SpaceChars
  }

  /** A non-empty run of non-space characters: what `strings.Fields` yields. */
  predicate IsWord(w: string)
  {
    w != [] && forall i :: 0 <= i < |w| ==> !IsSpace(w[i])
  }

  /** `s` with its leading white space removed. */
  function TrimLeftSpace(s: string): (r: string)
    ensures |r| <= |s|
    ensures r != [] ==> !IsSpace(r[0])
  {
    if s != [] && IsSpace(s[0]) then TrimLeftSpace(s[1..]) else s
  }

  /** The length of the longest space-free prefix of `s`. */
  function WordLength(s: string): (n: nat)
    ensures n <= |s|
    ensures forall i :: 0 <= i < n ==> !IsSpace(s[i])
    ensures n < |s| ==> IsSpace(s[n])
  {
    if s == [] || IsSpace(s[0]) then 0 else 1 + WordLength(s[1..])
  }

  /** Go's `strings.Fields`: the maximal runs of non-space characters, in order. */
  function Fields(s: string): (r: seq<string>)
    ensures forall f :: f in r ==> IsWord(f)
    decreases |s|
  {
    var t := TrimLeftSpace(s);
    if t == [] then []
    else
      var n := WordLength(t);
      [t[..n]] + Fields(t[n..])
  }

  /** The combined length of the parts. */
  function TotalLength(parts: seq<string>): nat
  {
    if parts == [] then 0 else |parts[0]| + TotalLength(parts[1..])
  }

  /** Go's `strings.Join`, whose result has exactly the length it preallocates. */
  function Join(parts: seq<string>, sep: string): (r: string)
    ensures parts == [] ==> r == ""
    ensures |parts| >= 1 ==> |r| == TotalLength(parts) + (|parts| - 1) * |sep|
  {
    if |parts| == 0 then ""
    else if |parts| == 1 then parts[0]
    else parts[0] + sep + Join(parts[1..], sep)
  }

  /** Go's `strings.Split` for a one-character separator. */
  function Split(s: string, sep: char): (r: seq<string>)
    ensures |r| >= 1
    decreases |s|
  {
    if s == [] then [[]]
    else
      var rest := Split(s[1..], sep);
      if s[0] == sep then [[]] + rest else [[s[0]] + rest[0]] + rest[1..]
  }

  lemma {:induction false} SplitWithoutSeparator(w: string, sep: char)
    requires sep !in w
    ensures Split(w, sep) == [w]
    decreases |w|
  {
    if w != [] {
      SplitWithoutSeparator(w[1..], sep);
      assert w[0] != sep;
      assert [w[0]] + w[1..] == w;
    }
  }

  lemma {:induction false} SplitAfterPart(w: string, rest: string, sep: char)
    requires sep !in w
    ensures Split(w + [sep] + rest, sep) == [w] + Split(rest, sep)
    decreases |w|
  {
    var s := w + [sep] + rest;
    if w == [] {
      assert s[1..] == rest;
    } else {
      assert s[1..] == w[1..] + [sep] + rest;
      SplitAfterPart(w[1..], rest, sep);
      assert [w[0]] + w[1..] == w;
    }
  }

  /** Splitting a join on a separator no part contains gives the parts back. */
  lemma {:induction false} SplitJoin(parts: seq<string>, sep: char)
    requires |parts| >= 1
    requires forall p :: p in parts ==> sep !in p
    ensures Split(Join(parts, [sep]), sep) == parts
  {
    assert parts[0] in parts;
    if |parts| == 1 {
      SplitWithoutSeparator(parts[0], sep);
    } else {
      var rest := parts[1..];
      assert Join(parts, [sep]) == parts[0] + [sep] + Join(rest, [sep]);
      SplitAfterPart(parts[0], Join(rest, [sep]), sep);
      SplitJoin(rest, sep);
    }
  }

  lemma {:induction false} WordLengthOfWord(w: string, rest: string)
    requires IsWord(w)
    requires rest == [] || IsSpace(rest[0])
    ensures WordLength(w + rest) == |w|
    decreases |w|
  {
    var s := w + rest;
    if |w| > 1 {
      assert s[1..] == w[1..] + rest;
      WordLengthOfWord(w[1..], rest);
    } else {
      assert s[1..] == rest;
    }
  }

  /** The words of `w + rest`, when `w` is a word followed by a space or nothing. */
  lemma FieldsOfLeadingWord(w: string, rest: string)
    requires IsWord(w)
    requires rest == [] || IsSpace(rest[0])
    ensures Fields(w + rest) == [w] + Fields(rest)
  {
    var s := w + rest;
    WordLengthOfWord(w, rest);
    assert TrimLeftSpace(s) == s;
    assert s[..|w|] == w && s[|w|..] == rest;
    if rest != [] {
      assert TrimLeftSpace(rest) == TrimLeftSpace(rest[1..]);
    }
  }

  lemma FieldsOfEmpty()
    ensures Fields([]) == []
  {
    assert TrimLeftSpace([]) == [];
  }

  /** The words of a word, a space and more text: the word, then the words of the rest. */
  lemma FieldsAfterWord(w: string, rest: string)
    requires IsWord(w)
    ensures Fields(w + " " + rest) == [w] + Fields(rest)
  {
    var tail := " " + rest;
    assert w + " " + rest == w + tail;
    FieldsOfLeadingWord(w, tail);
    assert tail[1..] == rest;
    assert TrimLeftSpace(tail) == TrimLeftSpace(rest);
  }

  /** `strings.Fields` undoes joining words with single spaces. */
  lemma {:induction false} FieldsJoin(words: seq<string>)
    requires forall w :: w in words ==> IsWord(w)
    ensures Fields(Join(words, " ")) == words
  {
    if |words| == 0 {
      FieldsOfEmpty();
    } else if |words| == 1 {
      FieldsOfWord(words[0]);
    } else {
      var rest := words[1..];
      assert Join(words, " ") == words[0] + " " + Join(rest, " ");
      FieldsAfterWord(words[0], Join(rest, " "));
      FieldsJoin(rest);
    }
  }

  lemma FieldsOfWord(w: string)
    requires IsWord(w)
    ensures Fields(w) == [w]
  {
    FieldsOfLeadingWord(w, []);
    assert w + [] == w;
    FieldsOfEmpty();
  }

  /** A string that starts with the space-free `p` has a first word that starts with `p`. */
  lemma FirstFieldHasPrefix(s: string, p: string)
    requires p != [] && p <= s
    requires forall i :: 0 <= i < |p| ==> !IsSpace(p[i])
    ensures Fields(s) != [] && p <= Fields(s)[0]
  {
    assert s[0] == p[0];
    assert TrimLeftSpace(s) == s;
    assert Fields(s)[0] == s[..WordLength(s)];
  }

  /** A leading white-space character does not change the words. */
  lemma {:induction false} FieldsAfterSpace(c: char, rest: string)
    requires IsSpace(c)
    ensures Fields([c] + rest) == Fields(rest)
  {
    assert ([c] + rest)[1..] == rest;
  }

  /** A non-space character directly before a word is glued to that word. */
  lemma {:induction false} FieldsGlueChar(c: char, rest: string)
    requires !IsSpace(c)
    requires rest != [] && !IsSpace(rest[0])
    ensures Fields(rest) != [] && Fields([c] + rest) == [[c] + Fields(rest)[0]] + Fields(rest)[1..]
  {
    var s := [c] + rest;
    assert s[1..] == rest;
    var m := WordLength(rest);
    assert WordLength(s) == 1 + m;
    assert s[..1 + m] == [c] + rest[..m];
    assert s[1 + m..] == rest[m..];
  }

  /** A word directly followed by a non-space character is glued to the next word. */
  lemma {:induction false} FieldsGlue(w: string, x: string)
    requires IsWord(w)
    requires x != [] && !IsSpace(x[0])
    ensures Fields(x) != [] && Fields(w + x) == [w + Fields(x)[0]] + Fields(x)[1..]
    decreases |w|
  {
    var c, tail := w[0], w[1..];
    assert w == [c] + tail;
    ConsAppend(c, tail, x);
    if tail == [] {
      FieldsGlueChar(c, x);
    } else {
      ConsAppend(c, tail, Fields(x)[0]);
      FieldsGlue(tail, x);
      FieldsGlueChar(c, tail + x);
    }
  }

  /**
   * Splitting off the first character of a concatenation. Stated on its own
   * so that `FieldsGlue` need not prove it among its many `Fields` terms.
   */
  lemma ConsAppend(c: char, tail: string, x: string)
    ensures [c] + tail + x == [c] + (tail + x)
  {
  }

  /** After a leading word, the words of `w + s` do not depend on `w`. */
  lemma {:induction false} FieldsAfterLeadingWord(w: string, s: string)
    requires IsWord(w)
    ensures s != [] && !IsSpace(s[0]) ==> Fields(s) != []
    ensures Fields(w + s) != []
    ensures Fields(w + s)[1..] == if s != [] && !IsSpace(s[0]) then Fields(s)[1..] else Fields(s)
  {
    if s != [] && !IsSpace(s[0]) {
      FieldsGlue(w, s);
      assert Fields(w + s)[1..] == Fields(s)[1..];
    } else {
      FieldsOfLeadingWord(w, s);
      assert Fields(w + s)[1..] == Fields(s);
    }
  }

  /** Only the first word of `w + s` depends on the leading word `w`. */
  lemma {:induction false} FieldsAfterFirstWord(w1: string, w2: string, s: string)
    requires IsWord(w1) && IsWord(w2)
    ensures |Fields(w1 + s)| == |Fields(w2 + s)| >= 1
    ensures Fields(w1 + s)[1..] == Fields(w2 + s)[1..]
  {
    FieldsAfterLeadingWord(w1, s);
    FieldsAfterLeadingWord(w2, s);
    var f1, f2 := Fields(w1 + s), Fields(w2 + s);
    assert |f1| == 1 + |f1[1..]| && |f2| == 1 + |f2[1..]|;
  }

  /**
   * White space collapsed character by character: `emitted` says whether a
   * character has been output yet, `gap` whether white space has been read
   * since then. Leading and trailing white space vanish; every inner run of it
   * becomes one space.
   */
  function Collapse(s: string, emitted: bool, gap: bool): string
  {
    if s == [] then []
    else if IsSpace(s[0]) then Collapse(s[1..], emitted, true)
    else (if emitted && gap then " " else []) + ([s[0]] + Collapse(s[1..], true, false))
  }

  /** `s` with outer white space dropped and each inner run turned into one space. */
  function Squeeze(s: string): string
  {
    Collapse(s, false, false)
  }

  /** A join starts with its first part. */
  lemma JoinStartsWithFirst(parts: seq<string>, sep: string)
    requires parts != []
    ensures parts[0] <= Join(parts, sep)
  {
  }

  /** A join of two or more parts: the first part, the separator, then the join of the rest. */
  lemma JoinCons(first: string, rest: seq<string>, sep: string)
    requires rest != []
    ensures Join([first] + rest, sep) == first + sep + Join(rest, sep)
  {
    assert ([first] + rest)[1..] == rest;
  }

  /** Gluing a character onto the first part glues it onto the join. */
  lemma {:induction false} JoinGlue(c: char, parts: seq<string>, sep: string)
    requires parts != []
    ensures Join([[c] + parts[0]] + parts[1..], sep) == [c] + Join(parts, sep)
  {
    var glued := [[c] + parts[0]] + parts[1..];
    if |parts| > 1 {
      assert glued[1..] == parts[1..];
    }
  }

  /**
   * What `Collapse` outputs in a given state: nothing when `s` has no words;
   * otherwise the words joined by single spaces, after one more space when a
   * word was output before and white space separates it from the next one.
   */
  predicate CollapsesToFields(s: string, emitted: bool, gap: bool)
  {
    Collapse(s, emitted, gap) ==
      if Fields(s) == [] then []
      else (if emitted && (gap || (s != [] && IsSpace(s[0]))) then " " else []) + Join(Fields(s), " ")
  }

  lemma {:induction false} CollapseFields(s: string, emitted: bool, gap: bool)
    ensures CollapsesToFields(s, emitted, gap)
    decreases |s|
  {
    if s == [] {
      FieldsOfEmpty();
    } else if IsSpace(s[0]) {
      CollapseFields(s[1..], emitted, true);
      CollapseSpace(s, emitted, gap);
    } else {
      var c, rest := s[0], s[1..];
      CollapseFields(rest, true, false);
      if rest != [] && !IsSpace(rest[0]) {
        CollapseGlued(c, rest);
      } else {
        CollapseSeparated(c, rest);
      }
      CollapseNonSpace(s, emitted, gap);
    }
  }

  /** The step of `CollapseFields` for a white-space first character. */
  lemma {:induction false} CollapseSpace(s: string, emitted: bool, gap: bool)
    requires s != [] && IsSpace(s[0])
    requires CollapsesToFields(s[1..], emitted, true)
    ensures CollapsesToFields(s, emitted, gap)
  {
    assert s == [s[0]] + s[1..];
    FieldsAfterSpace(s[0], s[1..]);
  }

  /** The step of `CollapseFields` for a non-space first character. */
  lemma {:induction false} CollapseNonSpace(s: string, emitted: bool, gap: bool)
    requires s != [] && !IsSpace(s[0])
    requires Fields([s[0]] + s[1..]) != []
    requires [s[0]] + Collapse(s[1..], true, false) == Join(Fields([s[0]] + s[1..]), " ")
    ensures CollapsesToFields(s, emitted, gap)
  {
    assert s == [s[0]] + s[1..];
  }

  /** The step of `CollapseFields` for a non-space character glued to the next word. */
  lemma {:induction false} CollapseGlued(c: char, rest: string)
    requires !IsSpace(c)
    requires rest != [] && !IsSpace(rest[0])
    requires CollapsesToFields(rest, true, false)
    ensures Fields([c] + rest) != []
    ensures [c] + Collapse(rest, true, false) == Join(Fields([c] + rest), " ")
  {
    var words := Fields(rest);
    FieldsGlueChar(c, rest);
    assert Collapse(rest, true, false) == Join(words, " ");
    JoinGlue(c, words, " ");
  }

  /** The step of `CollapseFields` for a non-space character that ends a word. */
  lemma {:induction false} CollapseSeparated(c: char, rest: string)
    requires !IsSpace(c)
    requires rest == [] || IsSpace(rest[0])
    requires CollapsesToFields(rest, true, false)
    ensures Fields([c] + rest) != []
    ensures [c] + Collapse(rest, true, false) == Join(Fields([c] + rest), " ")
  {
    var words := Fields(rest);
    assert IsWord([c]);
    FieldsOfLeadingWord([c], rest);
    if words == [] {
      assert Join([[c]] + words, " ") == [c];
    } else {
      JoinCons([c], words, " ");
    }
  }

  /** Joining the words of `s` with single spaces is `s` with its white space squeezed. */
  lemma {:induction false} FieldsSqueeze(s: string)
    ensures Join(Fields(s), " ") == Squeeze(s)
  {
    CollapseFields(s, false, false);
    FieldsOfEmpty();
  }

  /**
   * The words of `s` are the only list of words whose single-space join is the
   * squeezed `s`.
   */
  lemma {:induction false} FieldsUnique(s: string, words: seq<string>)
    requires forall w :: w in words ==> IsWord(w)
    requires Join(words, " ") == Squeeze(s)
    ensures words == Fields(s)
  {
    FieldsSqueeze(s);
    FieldsJoin(words);
    FieldsJoin(Fields(s));
  }
}
