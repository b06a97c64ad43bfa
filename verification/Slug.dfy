/**
 Slugs of organization names: five passes over the string, against one description of what
 a slug is.  Lowercasing is any map on characters that leaves separators, a-z and 0-9 alone.
 */
module Slug {

  predicate IsWordChar(c: char) {
    'a' <= c <= 'z' || '0' <= c <= '9'
  }

  predicate IsSeparator(c: char) {
    c == ' ' || c == '_' || c == '-'
  }

  ghost predicate Lowercasing(lower: char -> char) {
    forall c :: IsWordChar(c) || IsSeparator(c) ==> lower(c) == c
  }

  // The five passes

  function ToLower(s: string, lower: char -> char): string {
    if s == "" then "" else [lower(s[0])] + ToLower(s[1..], lower)
  }

  function ReplaceAll(s: string, from: char, to: char): string {
    if s == "" then "" else [if s[0] == from then to else s[0]] + ReplaceAll(s[1..], from, to)
  }

  /** Removes every character outside a-z, 0-9 and the hyphen. */
  function StripOthers(s: string): string {
    if s == "" then ""
    else (if IsWordChar(s[0]) || s[0] == '-' then [s[0]] else "") + StripOthers(s[1..])
  }

  /** Replaces every run of hyphens by one. */
  function Collapse(s: string): string {
    if s == "" then ""
    else if s[0] == '-' && |s| > 1 && s[1] == '-' then Collapse(s[1..])
    else [s[0]] + Collapse(s[1..])
  }

  function TrimLeft(s: string): string {
    if s != "" && s[0] == '-' then TrimLeft(s[1..]) else s
  }

  function TrimRight(s: string): string {
    if s != "" && s[|s| - 1] == '-' then TrimRight(s[..|s| - 1]) else s
  }

  function Hyphenated(s: string, lower: char -> char): string {
    ReplaceAll(ReplaceAll(ToLower(s, lower), ' ', '-'), '_', '-')
  }

  function Slugify(s: string, lower: char -> char): string {
    TrimRight(TrimLeft(Collapse(StripOthers(Hyphenated(s, lower)))))
  }

  // What a slug is: split at separators, keep the word characters, drop empty words, join

  function Split(s: string): (pieces: seq<string>)
    ensures pieces != []
  {
    if s == "" then [""]
    else if IsSeparator(s[0]) then [""] + Split(s[1..])
    else [[s[0]] + Split(s[1..])[0]] + Split(s[1..])[1..]
  }

  function WordChars(s: string): string {
    if s == "" then "" else (if IsWordChar(s[0]) then [s[0]] else "") + WordChars(s[1..])
  }

  /** The non-empty words of the pieces, in order. */
  function Words(pieces: seq<string>): seq<string> {
    if pieces == [] then []
    else (if WordChars(pieces[0]) == "" then [] else [WordChars(pieces[0])]) + Words(pieces[1..])
  }

  function Join(words: seq<string>): string {
    if words == [] then ""
    else if |words| == 1 then words[0]
    else words[0] + "-" + Join(words[1..])
  }

  function SlugOf(s: string, lower: char -> char): string {
    Join(Words(Split(ToLower(s, lower))))
  }

  // The passes compute it

  /** Stripping after hyphenating leaves the words of the lowercased string. */
  lemma {:induction false} SameWords(l: string)
    ensures var v := StripOthers(ReplaceAll(ReplaceAll(l, ' ', '-'), '_', '-'));
      && Words(Split(v)) == Words(Split(l))
      && WordChars(Split(v)[0]) == WordChars(Split(l)[0])
  {
    if l != "" {
      SameWords(l[1..]);
      var c, v := l[0], StripOthers(ReplaceAll(ReplaceAll(l[1..], ' ', '-'), '_', '-'));
      var w := StripOthers(ReplaceAll(ReplaceAll(l, ' ', '-'), '_', '-'));
      HyphenateHead(l);
      if IsSeparator(c) {
        assert w == "-" + v && w[1..] == v;
        assert ([""] + Split(v))[1..] == Split(v) && ([""] + Split(l[1..]))[1..] == Split(l[1..]);
      } else if IsWordChar(c) {
        assert w == [c] + v && w[1..] == v;
        HeadWord(c, Split(v));
        HeadWord(c, Split(l[1..]));
      } else {
        assert w == v;
        HeadOther(c, Split(l[1..]));
      }
    }
  }

  lemma HyphenateHead(l: string)
    requires l != ""
    ensures var c := if IsSeparator(l[0]) then '-' else l[0];
      ReplaceAll(ReplaceAll(l, ' ', '-'), '_', '-') == [c] + ReplaceAll(ReplaceAll(l[1..], ' ', '-'), '_', '-')
  {
    var one := ReplaceAll(l, ' ', '-');
    assert one[1..] == ReplaceAll(l[1..], ' ', '-');
  }

  /** A word character in front of the first piece goes in front of its word. */
  lemma HeadWord(c: char, ps: seq<string>)
    requires ps != [] && IsWordChar(c)
    ensures WordChars([c] + ps[0]) == [c] + WordChars(ps[0])
    ensures Words([[c] + ps[0]] + ps[1..]) == [[c] + WordChars(ps[0])] + Words(ps[1..])
    ensures Words(ps) == (if WordChars(ps[0]) == "" then [] else [WordChars(ps[0])]) + Words(ps[1..])
    ensures Words(ps[1..]) == Words(ps)[if WordChars(ps[0]) == "" then 0 else 1..]
  {
    var qs := [[c] + ps[0]] + ps[1..];
    assert ([c] + ps[0])[1..] == ps[0];
    assert qs[1..] == ps[1..];
  }

  lemma HeadOther(c: char, ps: seq<string>)
    requires ps != [] && !IsWordChar(c)
    ensures WordChars([c] + ps[0]) == WordChars(ps[0])
    ensures Words([[c] + ps[0]] + ps[1..]) == Words(ps)
  {
    var qs := [[c] + ps[0]] + ps[1..];
    assert ([c] + ps[0])[1..] == ps[0];
    assert qs[1..] == ps[1..];
  }

  ghost predicate OverSlugChars(v: string) {
    forall i :: 0 <= i < |v| ==> 'a' <= v[i] <= 'z' || '0' <= v[i] <= '9' || v[i] == '-'
  }

  lemma {:induction false} StrippedChars(s: string)
    ensures OverSlugChars(StripOthers(s))
  {
    if s != "" { StrippedChars(s[1..]); }
  }

  lemma {:induction false} TrimRightCons(c: char, w: string)
    ensures TrimRight([c] + w) ==
      if TrimRight(w) != "" then [c] + TrimRight(w) else if c == '-' then "" else [c]
  {
    if w == "" {
      assert [c] + w == [c];
      assert [c][..0] == "";
    } else if w[|w| - 1] == '-' {
      TrimRightCons(c, w[..|w| - 1]);
      assert ([c] + w)[..|w|] == [c] + w[..|w| - 1];
    }
  }

  /** What collapsing and trimming must give for pieces ps: their words joined, after one
      hyphen if the string began with one. */
  function Expected(v: string, ps: seq<string>): string {
    (if v != "" && v[0] == '-' && Words(ps) != [] then "-" else "") + Join(Words(ps))
  }

  /** Collapsed and trimmed on the right, a string of words and hyphens is the join of its
      words, after one hyphen if it began with one. */
  lemma {:induction false} CollapsedIsJoined(v: string)
    requires OverSlugChars(v)
    ensures TrimRight(Collapse(v)) == Expected(v, Split(v))
    ensures v != "" && v[0] != '-' ==> Words(Split(v)) != [] && WordChars(Split(v)[0]) != "" && Join(Words(Split(v))) != ""
    ensures v != "" && v[0] == '-' ==> WordChars(Split(v)[0]) == ""
  {
    if v != "" {
      CollapsedIsJoined(v[1..]);
      if v[0] == '-' {
        HyphenCase(v);
      } else {
        WordCase(v);
        assert "" + Join(Words(Split(v))) == Join(Words(Split(v)));
      }
    }
  }

  lemma HyphenCase(v: string)
    requires v != "" && v[0] == '-'
    requires TrimRight(Collapse(v[1..])) == Expected(v[1..], Split(v[1..]))
    requires v[1..] != "" && v[1] != '-' ==> Words(Split(v[1..])) != [] && Join(Words(Split(v[1..]))) != ""
    ensures TrimRight(Collapse(v)) == Expected(v, Split(v))
    ensures WordChars(Split(v)[0]) == ""
  {
    var u, rest := v[1..], Split(v[1..]);
    assert ([""] + rest)[1..] == rest;
    assert Words(Split(v)) == Words(rest);
    if u != "" && u[0] == '-' {
      assert Collapse(v) == Collapse(u);
    } else {
      assert Collapse(v) == ['-'] + Collapse(u);
      TrimRightCons('-', Collapse(u));
      assert "" + Join(Words(rest)) == Join(Words(rest));
    }
  }

  lemma JoinHead(w: string, ws: seq<string>)
    ensures Join([w] + ws) == if ws == [] then w else w + "-" + Join(ws)
  {
    assert ([w] + ws)[1..] == ws;
  }

  lemma JoinCons(c: char, w: string, ws: seq<string>)
    ensures Join([[c] + w] + ws) == [c] + Join([w] + ws)
  {
    JoinHead(w, ws);
    JoinHead([c] + w, ws);
    if ws != [] { assert [c] + w + "-" + Join(ws) == [c] + (w + "-" + Join(ws)); }
  }

  lemma WordCase(v: string)
    requires v != "" && IsWordChar(v[0])
    requires TrimRight(Collapse(v[1..])) == Expected(v[1..], Split(v[1..]))
    requires v[1..] != "" && v[1] != '-' ==> WordChars(Split(v[1..])[0]) != ""
    requires v[1..] != "" && v[1] == '-' ==> WordChars(Split(v[1..])[0]) == ""
    ensures TrimRight(Collapse(v)) == Join(Words(Split(v)))
    ensures Words(Split(v)) != [] && WordChars(Split(v)[0]) != "" && Join(Words(Split(v))) != ""
  {
    var c, rest := v[0], Split(v[1..]);
    var first, ws := WordChars(rest[0]), Words(rest[1..]);
    HeadWord(c, rest);
    assert Words(Split(v)) == [[c] + first] + ws;
    JoinCons(c, first, ws);
    TrimRightCons(c, Collapse(v[1..]));
    assert Collapse(v) == [c] + Collapse(v[1..]);
    JoinedRest(v[1..], rest, first, ws);
  }

  /** What follows the first word character joins on to it. */
  lemma JoinedRest(u: string, ps: seq<string>, first: string, ws: seq<string>)
    requires first == "" <==> u == "" || u[0] == '-'
    requires u == "" ==> ws == []
    requires ps != [] && Words(ps) == (if first == "" then [] else [first]) + ws
    ensures Expected(u, ps) == Join([first] + ws)
    ensures u == "" && ws == [] ==> Expected(u, ps) == ""
  {
    JoinHead(first, ws);
    if first == "" {
      assert [] + ws == ws;
      if ws != [] { assert "" + "-" + Join(ws) == "-" + Join(ws); }
    } else {
      assert "" + Join([first] + ws) == Join([first] + ws);
    }
  }

  lemma {:induction false} TrimsCommute(s: string)
    ensures TrimRight(TrimLeft(s)) == TrimLeft(TrimRight(s))
  {
    if s != "" {
      TrimsCommute(s[1..]);
      assert s == [s[0]] + s[1..];
      TrimRightCons(s[0], s[1..]);
      if TrimRight(s[1..]) != "" {
        assert ([s[0]] + TrimRight(s[1..]))[1..] == TrimRight(s[1..]);
      } else if s[0] == '-' {
        assert TrimLeft("") == "";
      }
    }
  }

  lemma JoinedStart(v: string)
    requires Words(Split(v)) != []
    ensures Join(Words(Split(v))) != "" && Join(Words(Split(v)))[0] != '-'
  {
    FirstWordChar(Split(v));
  }

  lemma {:induction false} FirstWordChar(ps: seq<string>)
    requires Words(ps) != []
    ensures Join(Words(ps)) != "" && IsWordChar(Join(Words(ps))[0])
  {
    if WordChars(ps[0]) == "" {
      FirstWordChar(ps[1..]);
    } else {
      WordCharsOnly(ps[0]);
    }
  }

  lemma {:induction false} WordCharsOnly(s: string)
    ensures forall i :: 0 <= i < |WordChars(s)| ==> IsWordChar(WordChars(s)[i])
  {
    if s != "" { WordCharsOnly(s[1..]); }
  }

  /** The five passes compute the slug, for every string. */
  lemma SlugifyIsSlugOf(s: string, lower: char -> char)
    ensures Slugify(s, lower) == SlugOf(s, lower)
  {
    var v := StripOthers(Hyphenated(s, lower));
    StrippedChars(Hyphenated(s, lower));
    SameWords(ToLower(s, lower));
    CollapsedIsJoined(v);
    TrimsCommute(Collapse(v));
    var joined := Join(Words(Split(v)));
    if Words(Split(v)) != [] {
      JoinedStart(v);
      assert ("-" + joined)[1..] == joined;
      assert "" + joined == joined;
    }
  }

  // Normal forms

  ghost predicate NoDoubleHyphen(t: string) {
    forall i :: 0 <= i < |t| - 1 ==> !(t[i] == '-' && t[i + 1] == '-')
  }

  /** Word characters and single hyphens between them. */
  ghost predicate NormalSlug(t: string) {
    && OverSlugChars(t)
    && (t != "" ==> t[0] != '-' && t[|t| - 1] != '-')
    && NoDoubleHyphen(t)
  }

  lemma {:induction false} CollapseNormal(v: string)
    requires OverSlugChars(v)
    ensures OverSlugChars(Collapse(v)) && NoDoubleHyphen(Collapse(v))
    ensures v != "" ==> Collapse(v) != "" && Collapse(v)[0] == v[0]
    ensures NoDoubleHyphen(v) ==> Collapse(v) == v
  {
    if v != "" {
      CollapseNormal(v[1..]);
      if NoDoubleHyphen(v) {
        forall i | 0 <= i < |v[1..]| - 1 ensures !(v[1..][i] == '-' && v[1..][i + 1] == '-') {
          assert v[i + 1] == v[1..][i];
        }
        if |v| > 1 { assert !(v[0] == '-' && v[0 + 1] == '-'); }
      }
    }
  }

  lemma {:induction false} TrimLeftNormal(v: string)
    requires OverSlugChars(v) && NoDoubleHyphen(v)
    ensures var t := TrimLeft(v); OverSlugChars(t) && NoDoubleHyphen(t) && (t != "" ==> t[0] != '-')
  {
    if v != "" && v[0] == '-' {
      forall i | 0 <= i < |v[1..]| - 1 ensures !(v[1..][i] == '-' && v[1..][i + 1] == '-') {
        assert v[i + 1] == v[1..][i];
      }
      TrimLeftNormal(v[1..]);
    }
  }

  lemma {:induction false} TrimRightNormal(v: string)
    requires OverSlugChars(v) && NoDoubleHyphen(v) && (v != "" ==> v[0] != '-')
    ensures NormalSlug(TrimRight(v))
  {
    if v != "" && v[|v| - 1] == '-' { TrimRightNormal(v[..|v| - 1]); }
  }

  lemma SlugsAreNormal(s: string, lower: char -> char)
    ensures NormalSlug(Slugify(s, lower))
  {
    var v := StripOthers(Hyphenated(s, lower));
    StrippedChars(Hyphenated(s, lower));
    CollapseNormal(v);
    TrimLeftNormal(Collapse(v));
    TrimRightNormal(TrimLeft(Collapse(v)));
  }

  lemma {:induction false} FirstPassesKeep(t: string, lower: char -> char)
    requires Lowercasing(lower) && OverSlugChars(t)
    ensures ToLower(t, lower) == t && ReplaceAll(t, ' ', '-') == t && ReplaceAll(t, '_', '-') == t && StripOthers(t) == t
  {
    if t != "" { FirstPassesKeep(t[1..], lower); }
  }

  /** The fixed points are exactly the normal slugs, so slugifying twice changes nothing. */
  lemma FixedPoints(t: string, lower: char -> char)
    requires Lowercasing(lower)
    ensures Slugify(t, lower) == t <==> NormalSlug(t)
    ensures Slugify(Slugify(t, lower), lower) == Slugify(t, lower)
  {
    SlugsAreNormal(t, lower);
    NormalIsFixed(Slugify(t, lower), lower);
    if NormalSlug(t) { NormalIsFixed(t, lower); }
  }

  lemma NormalIsFixed(t: string, lower: char -> char)
    requires Lowercasing(lower) && NormalSlug(t)
    ensures Slugify(t, lower) == t
  {
    FirstPassesKeep(t, lower);
    CollapseNormal(t);
  }

  // What the slug of a string is made of, character by character

  lemma {:induction false} ToLowerAppended(u: string, v: string, lower: char -> char)
    ensures ToLower(u + v, lower) == ToLower(u, lower) + ToLower(v, lower)
  {
    if u == "" {
      assert u + v == v;
    } else {
      ToLowerAppended(u[1..], v, lower);
      assert (u + v)[1..] == u[1..] + v;
      Associative([lower(u[0])], ToLower(u[1..], lower), ToLower(v, lower));
    }
  }

  lemma ToLowerBetween(u: string, c: char, v: string, lower: char -> char)
    ensures ToLower(u + [c] + v, lower) == ToLower(u, lower) + [lower(c)] + ToLower(v, lower)
  {
    ToLowerAppended(u + [c], v, lower);
    ToLowerAppended(u, [c], lower);
    assert [c][1..] == "";
    assert ToLower([c], lower) == [lower(c)];
  }

  lemma {:induction false} SplitAtSeparator(u: string, c: char, v: string)
    requires IsSeparator(c)
    ensures Split(u + [c] + v) == Split(u) + Split(v)
  {
    if u == "" {
      assert u + [c] + v == [c] + v && ([c] + v)[1..] == v;
    } else {
      SplitAtSeparator(u[1..], c, v);
      assert (u + [c] + v)[1..] == u[1..] + [c] + v;
      SplitHead(u[0], Split(u[1..]), Split(v));
    }
  }

  lemma SplitHead(c: char, ps: seq<string>, qs: seq<string>)
    requires ps != []
    ensures [""] + (ps + qs) == ([""] + ps) + qs
    ensures [[c] + (ps + qs)[0]] + (ps + qs)[1..] == ([[c] + ps[0]] + ps[1..]) + qs
  {
    assert (ps + qs)[1..] == ps[1..] + qs;
  }

  lemma {:induction false} WordsAppended(ps: seq<string>, qs: seq<string>)
    ensures Words(ps + qs) == Words(ps) + Words(qs)
  {
    if ps == [] {
      assert ps + qs == qs;
    } else {
      WordsAppended(ps[1..], qs);
      assert (ps + qs)[1..] == ps[1..] + qs;
      var head := if WordChars(ps[0]) == "" then [] else [WordChars(ps[0])];
      Associative(head, Words(ps[1..]), Words(qs));
    }
  }

  lemma Associative<T>(a: seq<T>, b: seq<T>, c: seq<T>)
    ensures a + (b + c) == (a + b) + c
  {
  }

  lemma {:induction false} JoinAppended(ws: seq<string>, xs: seq<string>)
    ensures Join(ws + xs) == if ws == [] then Join(xs) else if xs == [] then Join(ws) else Join(ws) + "-" + Join(xs)
  {
    if ws == [] {
      assert ws + xs == xs;
    } else if xs == [] {
      assert ws + xs == ws;
    } else {
      JoinAppended(ws[1..], xs);
      assert ws + xs == [ws[0]] + (ws[1..] + xs);
      JoinHead(ws[0], ws[1..] + xs);
      JoinHead(ws[0], ws[1..]);
      assert [ws[0]] + ws[1..] == ws;
      if |ws| > 1 { assert ws[0] + "-" + (Join(ws[1..]) + "-" + Join(xs)) == (ws[0] + "-" + Join(ws[1..])) + "-" + Join(xs); }
    }
  }

  lemma NoWordsNoSlug(ps: seq<string>)
    ensures Join(Words(ps)) == "" <==> Words(ps) == []
  {
    if Words(ps) != [] { FirstWordChar(ps); }
  }

  /** A blank, an underscore or a hyphen parts two slugs, of which either may be empty. */
  lemma SeparatorsPart(u: string, c: char, v: string, lower: char -> char)
    requires Lowercasing(lower) && (c == ' ' || c == '_' || c == '-')
    ensures var a, b := Slugify(u, lower), Slugify(v, lower);
      Slugify(u + [c] + v, lower) == if a == "" then b else if b == "" then a else a + "-" + b
  {
    SlugifyIsSlugOf(u, lower);
    SlugifyIsSlugOf(v, lower);
    SlugifyIsSlugOf(u + [c] + v, lower);
    ToLowerBetween(u, c, v, lower);
    var l, m := ToLower(u, lower), ToLower(v, lower);
    SplitAtSeparator(l, c, m);
    WordsAppended(Split(l), Split(m));
    JoinAppended(Words(Split(l)), Words(Split(m)));
    NoWordsNoSlug(Split(l));
    NoWordsNoSlug(Split(m));
  }

  lemma {:induction false} OtherVanishes(u: string, c: char, v: string)
    requires !IsSeparator(c) && !IsWordChar(c)
    ensures WordChars(Split(u + [c] + v)[0]) == WordChars(Split(u + v)[0])
    ensures Words(Split(u + [c] + v)[1..]) == Words(Split(u + v)[1..])
    ensures Words(Split(u + [c] + v)) == Words(Split(u + v))
  {
    if u == "" {
      assert "" + [c] + v == [c] + v && "" + v == v;
      OtherInFront(c, v);
    } else {
      OtherVanishes(u[1..], c, v);
      TakeHead(u, [c] + v);
      TakeHead(u, v);
      Associative(u, [c], v);
      Associative(u[1..], [c], v);
      ConsWords(u[0], u[1..] + [c] + v, u[1..] + v);
    }
  }

  lemma TakeHead(u: string, v: string)
    requires u != ""
    ensures u + v == [u[0]] + (u[1..] + v)
  {
  }

  lemma OtherInFront(c: char, v: string)
    requires !IsSeparator(c) && !IsWordChar(c)
    ensures WordChars(Split([c] + v)[0]) == WordChars(Split(v)[0])
    ensures Words(Split([c] + v)[1..]) == Words(Split(v)[1..]) && Words(Split([c] + v)) == Words(Split(v))
  {
    assert ([c] + v)[1..] == v;
    HeadOther(c, Split(v));
    assert ([[c] + Split(v)[0]] + Split(v)[1..])[1..] == Split(v)[1..];
  }

  /** The same character in front of strings with the same words. */
  lemma ConsWords(c: char, x: string, y: string)
    requires WordChars(Split(x)[0]) == WordChars(Split(y)[0])
    requires Words(Split(x)[1..]) == Words(Split(y)[1..]) && Words(Split(x)) == Words(Split(y))
    ensures WordChars(Split([c] + x)[0]) == WordChars(Split([c] + y)[0])
    ensures Words(Split([c] + x)[1..]) == Words(Split([c] + y)[1..]) && Words(Split([c] + x)) == Words(Split([c] + y))
  {
    assert ([c] + x)[1..] == x && ([c] + y)[1..] == y;
    if IsSeparator(c) {
      assert ([""] + Split(x))[1..] == Split(x) && ([""] + Split(y))[1..] == Split(y);
    } else if IsWordChar(c) {
      HeadWord(c, Split(x));
      HeadWord(c, Split(y));
      assert ([[c] + Split(x)[0]] + Split(x)[1..])[1..] == Split(x)[1..];
      assert ([[c] + Split(y)[0]] + Split(y)[1..])[1..] == Split(y)[1..];
    } else {
      HeadOther(c, Split(x));
      HeadOther(c, Split(y));
      assert ([[c] + Split(x)[0]] + Split(x)[1..])[1..] == Split(x)[1..];
      assert ([[c] + Split(y)[0]] + Split(y)[1..])[1..] == Split(y)[1..];
    }
  }

  predicate OtherChar(c: char) {
    !('a' <= c <= 'z') && !('0' <= c <= '9') && c != ' ' && c != '_' && c != '-'
  }

  /** Any other character leaves no trace, and a letter counts as its lowercase one. */
  lemma OthersVanish(u: string, c: char, v: string, lower: char -> char)
    requires Lowercasing(lower)
    ensures OtherChar(lower(c)) ==> Slugify(u + [c] + v, lower) == Slugify(u + v, lower)
    ensures !OtherChar(lower(c)) ==> Slugify(u + [c] + v, lower) == Slugify(u + [lower(c)] + v, lower)
  {
    SlugifyIsSlugOf(u + [c] + v, lower);
    SlugifyIsSlugOf(u + v, lower);
    SlugifyIsSlugOf(u + [lower(c)] + v, lower);
    ToLowerBetween(u, c, v, lower);
    ToLowerBetween(u, lower(c), v, lower);
    ToLowerAppended(u, v, lower);
    if OtherChar(lower(c)) { OtherVanishes(ToLower(u, lower), lower(c), ToLower(v, lower)); }
  }
}
