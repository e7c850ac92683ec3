/** The memo normaliser `limpiar_glosa` and the comma-separated term lists
    the detectors read from text inputs.

    Character classes follow Python's `re`/`str` rules on ASCII: `\d` is
    0-9, `\s` and `str.split()` whitespace are the ASCII and Unicode space
    characters, `\w` is letters, digits and underscore.  Every other non-ASCII
    character counts as a word character, and `str.upper` maps a-z and the
    Latin-1 lower-case letters. */
module Memo {
  import opened Common
  import opened Tables

  // ---------------------------------------------------------------------
  // Character classes

  predicate IsDigit(c: char)
  {
    '0' <= c <= '9'
  }

  predicate IsSpace(c: char)
  {
    c == ' ' || ('\t' <= c <= '\r') || ('\U{1C}' <= c <= '\U{1F}')
    || c == '\U{85}' || c == '\U{A0}' || c == '\U{1680}'
    || ('\U{2000}' <= c <= '\U{200A}') || c == '\U{2028}' || c == '\U{2029}'
    || c == '\U{202F}' || c == '\U{205F}' || c == '\U{3000}'
  }

  predicate IsWordChar(c: char)
  {
    !IsSpace(c) && (('a' <= c <= 'z') || ('A' <= c <= 'Z') || IsDigit(c) || c == '_' || c as int >= 128)
  }

  predicate IsLower(c: char)
  {
    ('a' <= c <= 'z') || ('\U{E0}' <= c <= '\U{FE}' && c != '\U{F7}') || c == '\U{FF}' || c == '\U{B5}'
  }

  function ToUpper(c: char): (u: char)
    ensures !IsLower(u)
    ensures IsLower(c) <==> u != c
    ensures IsSpace(u) <==> IsSpace(c)
    ensures IsWordChar(c) ==> IsWordChar(u)
    ensures !IsDigit(c) ==> !IsDigit(u)
  {
    if 'a' <= c <= 'z' then (c as int - 32) as char
    else if '\U{E0}' <= c <= '\U{FE}' && c != '\U{F7}' then (c as int - 32) as char
    else if c == '\U{FF}' then '\U{178}'
    else if c == '\U{B5}' then '\U{39C}'
    else c
  }

  // ---------------------------------------------------------------------
  // The four stages of limpiar_glosa

  /** `re.sub(r'\d+', '', s)`. */
  function StripDigits(s: string): (r: string)
    ensures forall c :: c in r ==> c in s && !IsDigit(c)
    ensures forall c :: c in s && !IsDigit(c) ==> c in r
  {
    Filter(s, NotDigit)
  }

  predicate NotDigit(c: char)
  {
    !IsDigit(c)
  }

  /** Dropping digits works piece by piece: the order of what is kept is the input's. */
  lemma StripDigitsConcat(a: string, b: string)
    ensures StripDigits(a + b) == StripDigits(a) + StripDigits(b)
  {
    FilterConcat(a, b, NotDigit);
  }

  /** `re.sub(r'[^\w\s]', ' ', s)`. */
  function PunctToSpace(s: string): (r: string)
    ensures |r| == |s|
    ensures forall i :: 0 <= i < |r| ==> IsWordChar(r[i]) || IsSpace(r[i])
    ensures forall i :: 0 <= i < |s| && (IsWordChar(s[i]) || IsSpace(s[i])) ==> r[i] == s[i]
    ensures forall i :: 0 <= i < |s| && !IsWordChar(s[i]) && !IsSpace(s[i]) ==> r[i] == ' '
  {
    seq(|s|, i requires 0 <= i < |s| => if IsWordChar(s[i]) || IsSpace(s[i]) then s[i] else ' ')
  }

  /** Length of the leading run of non-space characters. */
  function WordLength(s: string): (n: nat)
    ensures n <= |s|
    ensures forall i :: 0 <= i < n ==> !IsSpace(s[i])
    ensures n < |s| ==> IsSpace(s[n])
  {
    if s == [] || IsSpace(s[0]) then 0 else 1 + WordLength(s[1..])
  }

  /** `str.split()` with no separator: the maximal runs of non-space characters. */
  function Split(s: string): seq<string>
    decreases |s|
  {
    if s == [] then []
    else if IsSpace(s[0]) then Split(s[1..])
    else
      var n := WordLength(s);
      [s[..n]] + Split(s[n..])
  }

  /** `' '.join(words)`. */
  function Join(ws: seq<string>): string
  {
    if ws == [] then "" else if |ws| == 1 then ws[0] else ws[0] + " " + Join(ws[1..])
  }

  /** `str.upper()`. */
  function Upper(s: string): (r: string)
    ensures |r| == |s|
    ensures forall i :: 0 <= i < |s| ==> r[i] == ToUpper(s[i])
  {
    seq(|s|, i requires 0 <= i < |s| => ToUpper(s[i]))
  }

  // ---------------------------------------------------------------------
  // Shape of a normalised memo

  /** The blank at position `i`, if any, is not followed by another one. */
  predicate NoDoubleAt(s: string, i: int)
  {
    0 <= i < |s| - 1 && s[i] == ' ' ==> s[i + 1] != ' '
  }

  /** No leading, trailing or doubled blank. */
  predicate SingleSpaced(s: string)
  {
    && (|s| > 0 ==> s[0] != ' ' && s[|s| - 1] != ' ')
    && (forall i :: 0 <= i < |s| ==> NoDoubleAt(s, i))
  }

  /** Upper-case words without digits or punctuation, separated by single blanks. */
  predicate IsNormalized(s: string)
  {
    && (forall i :: 0 <= i < |s| ==> s[i] == ' ' || (IsWordChar(s[i]) && !IsDigit(s[i]) && !IsLower(s[i])))
    && SingleSpaced(s)
  }

  predicate IsWord(w: string)
  {
    |w| > 0 && forall i :: 0 <= i < |w| ==> !IsSpace(w[i])
  }

  /** `limpiar_glosa`: a null memo gives the empty string; otherwise digits are
      dropped, punctuation becomes blanks, blanks are collapsed and the result
      is upper-cased. */
  function Normalize(glosa: Option<string>): (r: string)
    ensures glosa.None? ==> r == ""
    ensures IsNormalized(r)
  {
    match glosa
    case None => ""
    case Some(g) =>
      var clean := PunctToSpace(StripDigits(g));
      var joined := Join(Split(clean));
      SplitWords(clean);
      JoinShape(Split(clean), c => IsWordChar(c) && !IsDigit(c));
      var r := Upper(joined);
      UpperKeepsShape(joined);
      r
  }

  // ---------------------------------------------------------------------
  // Lemmas

  lemma {:induction false} SplitWords(s: string)
    ensures forall w :: w in Split(s) ==> IsWord(w) && forall c :: c in w ==> c in s
    decreases |s|
  {
    if s != [] {
      if IsSpace(s[0]) {
        SplitWords(s[1..]);
      } else {
        var n := WordLength(s);
        SplitWords(s[n..]);
      }
    }
  }

  lemma {:induction false} JoinShape(ws: seq<string>, p: char -> bool)
    requires forall w :: w in ws ==> IsWord(w)
    requires forall w, c :: w in ws && c in w ==> p(c)
    ensures SingleSpaced(Join(ws))
    ensures forall i :: 0 <= i < |Join(ws)| ==> Join(ws)[i] == ' ' || p(Join(ws)[i])
  {
    if |ws| > 1 {
      JoinShape(ws[1..], p);
      var w := ws[0];
      var rest := Join(ws[1..]);
      var j := w + " " + rest;
      assert w in ws;
      assert rest != [] by { assert ws[1] in ws; JoinNonEmpty(ws[1..]); }
      forall i | 0 <= i < |j| ensures j[i] == ' ' || p(j[i]) {
        if i < |w| { assert j[i] == w[i] && w[i] in w; }
        else if i > |w| { assert j[i] == rest[i - |w| - 1]; }
      }
      assert forall i :: 0 <= i < |w| ==> j[i] == w[i] && !IsSpace(w[i]);
      forall i ensures NoDoubleAt(j, i) {
        if i < |w| || i >= |j| - 1 || j[i] != ' ' {
        } else if i == |w| {
          assert j[i + 1] == rest[0];
        } else {
          assert NoDoubleAt(rest, i - |w| - 1);
          assert j[i] == rest[i - |w| - 1] && j[i + 1] == rest[i - |w|];
        }
      }
      assert j[0] == w[0] && !IsSpace(w[0]);
    } else if |ws| == 1 {
      assert ws[0] in ws;
      forall i | 0 <= i < |ws[0]| ensures ws[0][i] == ' ' || p(ws[0][i]) {
        assert ws[0][i] in ws[0];
      }
    }
  }

  lemma {:induction false} JoinNonEmpty(ws: seq<string>)
    requires |ws| > 0 && IsWord(ws[0])
    ensures |Join(ws)| > 0
  {
  }

  lemma UpperKeepsShape(s: string)
    requires SingleSpaced(s)
    requires forall i :: 0 <= i < |s| ==> s[i] == ' ' || (IsWordChar(s[i]) && !IsDigit(s[i]))
    ensures IsNormalized(Upper(s))
  {
    var u := Upper(s);
    forall i | 0 <= i < |s| ensures u[i] == ' ' <==> s[i] == ' ' {
      if s[i] != ' ' { assert !IsSpace(s[i]); }
    }
    forall i ensures NoDoubleAt(u, i) {
      if 0 <= i < |s| - 1 { assert NoDoubleAt(s, i); }
    }
  }

  lemma SplitUnfold(s: string)
    requires s != [] && !IsSpace(s[0])
    ensures Split(s) == [s[..WordLength(s)]] + Split(s[WordLength(s)..])
  {
  }

  lemma JoinUnfold(w: string, ws: seq<string>)
    requires ws != []
    ensures Join([w] + ws) == w + " " + Join(ws)
  {
    assert ([w] + ws)[1..] == ws;
  }

  /** The part after the first blank of a single-spaced string is single-spaced. */
  lemma SingleSpacedAfter(s: string, n: nat)
    requires SingleSpaced(s)
    requires n < |s| - 1 && s[n] == ' '
    ensures SingleSpaced(s[n + 1..]) && s[n + 1..] != [] && s[n + 1] != ' '
  {
    var t := s[n + 1..];
    forall i ensures NoDoubleAt(t, i) {
      if 0 <= i < |t| - 1 {
        assert NoDoubleAt(s, n + 1 + i);
        assert t[i] == s[n + 1 + i] && t[i + 1] == s[n + 1 + i + 1];
      }
    }
    assert NoDoubleAt(s, n);
  }

  /** A word followed by one blank and a non-blank: the split is that word
      and the split of the remainder. */
  lemma SplitAtBlank(s: string, n: nat)
    requires s != [] && !IsSpace(s[0]) && n == WordLength(s)
    requires n + 1 < |s| && s[n] == ' '
    ensures Split(s) == [s[..n]] + Split(s[n + 1..])
  {
    SplitUnfold(s);
    assert s[n..][1..] == s[n + 1..];
  }

  lemma BlankFree(s: string, n: nat)
    requires forall i :: 0 <= i < |s| && IsSpace(s[i]) ==> s[i] == ' '
    requires n <= |s|
    ensures forall i :: 0 <= i < |s[n..]| && IsSpace(s[n..][i]) ==> s[n..][i] == ' '
  {
    assert forall i :: 0 <= i < |s[n..]| ==> s[n..][i] == s[n + i];
  }

  /** `str.split()` then `' '.join` gives back any single-spaced string whose
      only blank character is ' '. */
  lemma {:induction false} JoinSplit(s: string)
    requires SingleSpaced(s)
    requires forall i :: 0 <= i < |s| && IsSpace(s[i]) ==> s[i] == ' '
    ensures Join(Split(s)) == s
    decreases |s|
  {
    if s != [] {
      assert !IsSpace(s[0]);
      var n := WordLength(s);
      if n == |s| {
        SplitUnfold(s);
        assert s[n..] == [];
        assert s[..n] == s;
      } else {
        SingleSpacedAfter(s, n);
        BlankFree(s, n + 1);
        JoinSplit(s[n + 1..]);
        JoinSplitStep(s, n);
      }
    }
  }

  lemma AroundBlank(s: string, n: nat)
    requires n < |s| && s[n] == ' '
    ensures s == s[..n] + " " + s[n + 1..]
  {
  }

  /** The inductive step of JoinSplit: one word, one blank, then a remainder
      that already round-trips. */
  lemma JoinSplitStep(s: string, n: nat)
    requires s != [] && !IsSpace(s[0]) && n == WordLength(s)
    requires n + 1 < |s| && s[n] == ' ' && !IsSpace(s[n + 1])
    requires Join(Split(s[n + 1..])) == s[n + 1..]
    ensures Join(Split(s)) == s
  {
    var t := s[n + 1..];
    SplitAtBlank(s, n);
    SplitUnfold(t);
    JoinUnfold(s[..n], Split(t));
    AroundBlank(s, n);
  }

  lemma {:induction false} WordLengthConcat(w: string, t: string)
    requires forall i :: 0 <= i < |w| ==> !IsSpace(w[i])
    requires t == [] || IsSpace(t[0])
    ensures WordLength(w + t) == |w|
  {
    if w != [] {
      assert (w + t)[1..] == w[1..] + t;
      WordLengthConcat(w[1..], t);
    } else {
      assert w + t == t;
    }
  }

  /** Round trip: joining words with single blanks and splitting again gives
      back the same words. */
  lemma SplitOneWord(w: string)
    requires IsWord(w)
    ensures Split(w) == [w]
  {
    WordLengthConcat(w, []);
    assert w + [] == w;
    assert w[|w|..] == [];
  }

  lemma SplitWordThen(w: string, rest: string)
    requires IsWord(w)
    ensures Split(w + " " + rest) == [w] + Split(rest)
  {
    var s := w + " " + rest;
    assert s == w + (" " + rest);
    WordLengthConcat(w, " " + rest);
    assert s[..|w|] == w;
    assert s[|w|..] == " " + rest;
    assert (" " + rest)[1..] == rest;
  }

  lemma {:induction false} SplitJoin(ws: seq<string>)
    requires forall w :: w in ws ==> IsWord(w)
    ensures Split(Join(ws)) == ws
  {
    if ws == [] {
    } else if |ws| == 1 {
      assert ws[0] in ws;
      SplitOneWord(ws[0]);
    } else {
      assert ws[0] in ws;
      SplitWordThen(ws[0], Join(ws[1..]));
      SplitJoin(ws[1..]);
      assert ws == [ws[0]] + ws[1..];
    }
  }

  lemma PunctToSpaceKeeps(s: string)
    requires forall i :: 0 <= i < |s| ==> IsWordChar(s[i]) || IsSpace(s[i])
    ensures PunctToSpace(s) == s
  {
  }

  lemma UpperKeeps(s: string)
    requires forall i :: 0 <= i < |s| ==> !IsLower(s[i])
    ensures Upper(s) == s
  {
  }

  /** Normalising is idempotent: a normalised memo is its own normal form. */
  lemma NormalizeIdempotent(glosa: Option<string>)
    ensures Normalize(Some(Normalize(glosa))) == Normalize(glosa)
  {
    var s := Normalize(glosa);
    assert forall c :: c in s ==> !IsDigit(c);
    FilterKeepsAll(s, NotDigit);
    assert StripDigits(s) == s;
    PunctToSpaceKeeps(s);
    JoinSplit(s);
    UpperKeeps(s);
  }

  /** A character a cleaned memo keeps: a word character that is not a digit. */
  predicate Kept(c: char)
  {
    IsWordChar(c) && !IsDigit(c)
  }

  predicate NonBlank(c: char)
  {
    !IsSpace(c)
  }

  /** The words, written one after the other. */
  function Flatten(ws: seq<string>): string
  {
    if ws == [] then "" else ws[0] + Flatten(ws[1..])
  }

  lemma {:induction false} FilterJoin(ws: seq<string>)
    requires forall w :: w in ws ==> IsWord(w)
    ensures Filter(Join(ws), NonBlank) == Flatten(ws)
  {
    if ws != [] {
      var w := ws[0];
      assert w in ws;
      FilterWord(w);
      if |ws| == 1 {
        assert Flatten(ws) == w + Flatten([]);
      } else {
        FilterJoin(ws[1..]);
        JoinStep(w, Join(ws[1..]), Flatten(ws[1..]));
        assert Join(ws) == w + " " + Join(ws[1..]);
        assert Flatten(ws) == w + Flatten(ws[1..]);
      }
    }
  }

  lemma JoinStep(w: string, joined: string, flat: string)
    requires Filter(w, NonBlank) == w
    requires Filter(joined, NonBlank) == flat
    ensures Filter(w + " " + joined, NonBlank) == w + flat
  {
    var head := w + " ";
    assert w + " " + joined == head + joined;
    HeadKept(w);
    FilterConcat(head, joined, NonBlank);
  }

  lemma HeadKept(w: string)
    requires Filter(w, NonBlank) == w
    ensures Filter(w + " ", NonBlank) == w
  {
    BlankDropped();
    FilterConcat(w, " ", NonBlank);
    assert w + [] == w;
  }

  lemma BlankDropped()
    ensures Filter(" ", NonBlank) == []
  {
    var sp := " ";
    assert !NonBlank(sp[0]) && sp[1..] == [];
  }

  /** A word has no blank to drop. */
  lemma FilterWord(w: string)
    requires IsWord(w)
    ensures Filter(w, NonBlank) == w
  {
    assert forall c :: c in w ==> NonBlank(c);
    FilterKeepsAll(w, NonBlank);
  }

  lemma {:induction false} FilterSplit(x: string)
    ensures Filter(x, NonBlank) == Flatten(Split(x))
    decreases |x|
  {
    if x != [] {
      if IsSpace(x[0]) {
        FilterSplit(x[1..]);
      } else {
        var n := WordLength(x);
        FilterSplit(x[n..]);
        assert x == x[..n] + x[n..];
        FilterConcat(x[..n], x[n..], NonBlank);
        FilterKeepsAll(x[..n], NonBlank);
        SplitUnfold(x);
        var ws := [x[..n]] + Split(x[n..]);
        assert ws[1..] == Split(x[n..]);
      }
    }
  }

  lemma {:induction false} FilterPunct(y: string)
    ensures Filter(PunctToSpace(y), NonBlank) == Filter(y, IsWordChar)
    decreases |y|
  {
    if y != [] {
      FilterPunct(y[1..]);
      assert PunctToSpace(y)[1..] == PunctToSpace(y[1..]);
    }
  }

  lemma {:induction false} FilterTwice(g: string)
    ensures Filter(Filter(g, NotDigit), IsWordChar) == Filter(g, Kept)
  {
    if g != [] {
      FilterTwice(g[1..]);
      var head := if NotDigit(g[0]) then [g[0]] else [];
      FilterConcat(head, Filter(g[1..], NotDigit), IsWordChar);
    }
  }

  lemma UpperConcat(a: string, b: string)
    ensures Upper(a + b) == Upper(a) + Upper(b)
  {
  }

  lemma {:induction false} FilterUpper(s: string)
    ensures Filter(Upper(s), NonBlank) == Upper(Filter(s, NonBlank))
  {
    if s != [] {
      FilterUpper(s[1..]);
      assert Upper(s)[1..] == Upper(s[1..]);
      var head := if NonBlank(s[0]) then [s[0]] else [];
      UpperConcat(head, Filter(s[1..], NonBlank));
    }
  }

  /** What a cleaned memo keeps: its non-blank characters are exactly the
      memo's word characters other than digits, upper-cased, in their order. */
  lemma NormalizeKeeps(g: string)
    ensures Filter(Normalize(Some(g)), NonBlank) == Upper(Filter(g, Kept))
  {
    var x := PunctToSpace(StripDigits(g));
    FilterUpper(Join(Split(x)));
    SplitWords(x);
    FilterJoin(Split(x));
    FilterSplit(x);
    FilterPunct(StripDigits(g));
    FilterTwice(g);
  }

  // ---------------------------------------------------------------------
  // Comma-separated term lists: `[k.strip().upper() for k in text.split(',')]`

  /** `str.split(sep)`: the pieces between separators, empty pieces kept. */
  function SplitOn(s: string, sep: char): (r: seq<string>)
    ensures |r| >= 1
    ensures forall p :: p in r ==> sep !in p
  {
    if s == [] then [""]
    else
      var rest := SplitOn(s[1..], sep);
      if s[0] == sep then [""] + rest
      else [[s[0]] + rest[0]] + rest[1..]
  }

  function JoinOn(ps: seq<string>, sep: char): string
  {
    if ps == [] then "" else if |ps| == 1 then ps[0] else ps[0] + [sep] + JoinOn(ps[1..], sep)
  }

  /** Splitting on a separator loses nothing: re-joining gives the text back. */
  lemma {:induction false} SplitOnRoundTrip(s: string, sep: char)
    ensures JoinOn(SplitOn(s, sep), sep) == s
  {
    if s != [] {
      var rest := SplitOn(s[1..], sep);
      SplitOnRoundTrip(s[1..], sep);
      if s[0] == sep {
        assert s == [sep] + s[1..];
      } else {
        var r := [[s[0]] + rest[0]] + rest[1..];
        if |rest| == 1 {
          assert s == [s[0]] + rest[0];
        } else {
          assert JoinOn(rest, sep) == rest[0] + [sep] + JoinOn(rest[1..], sep);
          assert r[1..] == rest[1..];
          assert s == [s[0]] + (rest[0] + [sep] + JoinOn(rest[1..], sep));
        }
      }
    }
  }

  /** `str.strip()`: leading and trailing blanks removed. */
  function Strip(s: string): (r: string)
    ensures |r| > 0 ==> !IsSpace(r[0]) && !IsSpace(r[|r| - 1])
    ensures forall c :: c in r ==> c in s
    decreases |s|
  {
    if s == [] then s
    else if IsSpace(s[0]) then Strip(s[1..])
    else if IsSpace(s[|s| - 1]) then Strip(s[..|s| - 1])
    else s
  }

  /** The term list an analyst types: comma-separated, trimmed, upper-cased. */
  function TermList(text: string): (r: seq<string>)
    ensures |r| == |SplitOn(text, ',')|
    ensures forall i :: 0 <= i < |r| ==> r[i] == Upper(Strip(SplitOn(text, ',')[i]))
    ensures forall i :: 0 <= i < |r| && |r[i]| > 0 ==> !IsSpace(r[i][0]) && !IsSpace(r[i][|r[i]| - 1])
    ensures forall i, c :: 0 <= i < |r| && c in r[i] ==> !IsLower(c) && c != ','
  {
    var ps := SplitOn(text, ',');
    TermChars(ps);
    seq(|ps|, i requires 0 <= i < |ps| => Upper(Strip(ps[i])))
  }

  /** A trimmed, upper-cased piece holds no lower-case letter, and no comma
      when the piece had none. */
  lemma TermChars(ps: seq<string>)
    requires forall p :: p in ps ==> ',' !in p
    ensures forall i, c :: 0 <= i < |ps| && c in Upper(Strip(ps[i])) ==> !IsLower(c) && c != ','
  {
    forall i, c | 0 <= i < |ps| && c in Upper(Strip(ps[i])) ensures !IsLower(c) && c != ',' {
      var u := Upper(Strip(ps[i]));
      var j :| 0 <= j < |u| && u[j] == c;
      assert Strip(ps[i])[j] in ps[i];
    }
  }

  /** `str.split(sep)` gives one piece more than there are separators. */
  lemma {:induction false} SplitOnCount(s: string, sep: char)
    ensures |SplitOn(s, sep)| == |Filter(s, c => c == sep)| + 1
  {
    if s != [] {
      SplitOnCount(s[1..], sep);
    }
  }

  /** One term per comma-separated piece: a text with `k` commas gives
      `k + 1` terms, empty ones included. */
  lemma TermCount(text: string)
    ensures |TermList(text)| == |Filter(text, c => c == ',')| + 1
  {
    SplitOnCount(text, ',');
  }

  /** Substring test `needle in haystack`; the empty string is in every string. */
  predicate Contains(haystack: string, needle: string)
  {
    needle <= haystack || (haystack != [] && Contains(haystack[1..], needle))
  }
}
