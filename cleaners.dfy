/**
 * `sanitize_lot_text` (src/utils/cleaners.py): unescape HTML entities, replace
 * every tag `<[^>]+>` by a space, collapse whitespace runs to one space and
 * strip the ends. `html.unescape` is a parameter of the model.
 */
module Cleaners {
  import opened Wrappers
  import opened Text

  // ------------------------------------------------------------- tags

  /** The index of the first `>` at or after `k`, or `|s|` when there is none. */
  function NextGt(s: string, k: nat): (j: nat)
    requires k <= |s|
    ensures k <= j <= |s|
    ensures j < |s| ==> s[j] == '>'
    ensures forall i :: k <= i < j ==> s[i] != '>'
    decreases |s| - k
  {
    if k == |s| || s[k] == '>' then k else NextGt(s, k + 1)
  }

  /** The regular expression `<[^>]+>` matches at the start of `s`. */
  predicate TagAtStart(s: string) {
    |s| >= 2 && s[0] == '<' && 2 <= NextGt(s, 1) < |s|
  }

  /**
   * No match of `<[^>]+>` anywhere: every `<` is either followed directly by
   * `>` or by no `>` at all.
   */
  predicate NoTags(s: string) {
    forall i, j :: 0 <= i < j < |s| && s[i] == '<' && s[i + 1] != '>' ==> s[j] != '>'
  }

  /** `re.sub(r'<[^>]+>', ' ', s)`: leftmost, non-overlapping matches. */
  function StripTags(s: string): (r: string)
    decreases |s|
  {
    if s == [] then []
    else if TagAtStart(s) then [' '] + StripTags(s[NextGt(s, 1) + 1..])
    else [s[0]] + StripTags(s[1..])
  }

  lemma StripTagsKeepsNoGt(s: string)
    requires '>' !in s
    ensures '>' !in StripTags(s)
    decreases |s|
  {
    if s != [] {
      assert !TagAtStart(s);
      StripTagsKeepsNoGt(s[1..]);
    }
  }

  lemma ConsNoTags(c: char, r: string)
    requires NoTags(r)
    requires c == '<' && |r| > 0 && r[0] != '>' ==> '>' !in r
    ensures NoTags([c] + r)
  {
    var t := [c] + r;
    forall i, j | 0 <= i < j < |t| && t[i] == '<' && t[i + 1] != '>'
      ensures t[j] != '>'
    {
      if i == 0 {
        assert t[j] == r[j - 1];
      } else {
        assert t[i] == r[i - 1] && t[i + 1] == r[i] && t[j] == r[j - 1];
      }
    }
  }

  /** After the substitution no tag is left. */
  lemma {:induction false} StripTagsLeavesNoTag(s: string)
    ensures NoTags(StripTags(s))
    decreases |s|
  {
    if s == [] {
    } else if TagAtStart(s) {
      StripTagsLeavesNoTag(s[NextGt(s, 1) + 1..]);
      ConsNoTags(' ', StripTags(s[NextGt(s, 1) + 1..]));
    } else {
      var r := StripTags(s[1..]);
      StripTagsLeavesNoTag(s[1..]);
      if s[0] == '<' {
        var j := NextGt(s, 1);
        if j == |s| {
          assert forall i :: 0 <= i < |s[1..]| ==> s[1..][i] != '>';
          StripTagsKeepsNoGt(s[1..]);
        } else {
          assert j == 1;
          assert s[1..][0] == '>';
          assert !TagAtStart(s[1..]);
          assert r[0] == '>';
        }
      }
      ConsNoTags(s[0], r);
    }
  }

  /** Text without tags passes through unchanged. */
  lemma {:induction false} StripTagsIdentity(s: string)
    requires NoTags(s)
    ensures StripTags(s) == s
    decreases |s|
  {
    if s != [] {
      assert !TagAtStart(s);
      var t := s[1..];
      assert NoTags(t) by {
        forall i, j | 0 <= i < j < |t| && t[i] == '<' && t[i + 1] != '>'
          ensures t[j] != '>'
        {
          assert s[i + 1] == '<' && s[i + 2] != '>';
        }
      }
      StripTagsIdentity(t);
    }
  }

  /** Stripping tags twice is the same as once. */
  lemma StripTagsIdempotent(s: string)
    ensures StripTags(StripTags(s)) == StripTags(s)
  {
    StripTagsLeavesNoTag(s);
    StripTagsIdentity(StripTags(s));
  }

  // ------------------------------------------------------- whitespace

  /** `s` without its leading whitespace run. */
  function DropSpaces(s: string): (r: string)
    ensures |r| <= |s| && r == s[|s| - |r|..]
    ensures r == [] || !IsSpace(r[0])
    ensures forall i :: 0 <= i < |s| - |r| ==> IsSpace(s[i])
  {
    if s != [] && IsSpace(s[0]) then
      var t := s[1..];
      var r := DropSpaces(t);
      assert forall i :: 1 <= i < |s| ==> s[i] == t[i - 1];
      assert t[|t| - |r|..] == s[|s| - |r|..];
      r
    else s
  }

  /** The leading run of non-whitespace characters of `s`. */
  function TakeWord(s: string): (w: string)
    ensures |w| <= |s| && w == s[..|w|]
    ensures forall i :: 0 <= i < |w| ==> !IsSpace(w[i])
    ensures |w| < |s| ==> IsSpace(s[|w|])
    ensures s != [] && !IsSpace(s[0]) ==> w != []
  {
    if s != [] && !IsSpace(s[0]) then [s[0]] + TakeWord(s[1..]) else []
  }

  /** `re.sub(r'\s+', ' ', s)`: every maximal whitespace run becomes one space. */
  function CollapseSpaces(s: string): string
    decreases |s|
  {
    if s == [] then []
    else if IsSpace(s[0]) then [' '] + CollapseSpaces(DropSpaces(s))
    else [s[0]] + CollapseSpaces(s[1..])
  }

  /** `s.strip()`. */
  function Strip(s: string): (r: string)
    ensures r == [] || (!IsSpace(r[0]) && !IsSpace(r[|r| - 1]))
  {
    StripEnd(DropSpaces(s))
  }

  function StripEnd(s: string): (r: string)
    ensures |r| <= |s| && r == s[..|r|]
    ensures r == [] || !IsSpace(r[|r| - 1])
    ensures s != [] && !IsSpace(s[0]) ==> r != [] && r[0] == s[0]
  {
    if s != [] && IsSpace(s[|s| - 1]) then StripEnd(s[..|s| - 1]) else s
  }

  // ----------------------------------------- the reference: words joined

  /**
   * The whitespace-separated words of `s`, as `s.split()` gives them: the
   * independent description of what the collapse-and-strip steps keep.
   */
  function Words(s: string): (ws: seq<string>)
    decreases |s|
  {
    var t := DropSpaces(s);
    if t == [] then [] else
      var w := TakeWord(t);
      [w] + Words(t[|w|..])
  }

  /** Every word is non-empty and free of whitespace. */
  lemma {:induction false} WordsAreGood(s: string)
    ensures GoodWords(Words(s))
    decreases |s|
  {
    var t := DropSpaces(s);
    if t != [] {
      var w := TakeWord(t);
      var rest := t[|w|..];
      WordsAreGood(rest);
      assert Words(s) == [w] + Words(rest);
      GoodCons(w, Words(rest));
    }
  }

  lemma GoodCons(w: string, ws: seq<string>)
    requires w != [] && (forall i :: 0 <= i < |w| ==> !IsSpace(w[i])) && GoodWords(ws)
    ensures GoodWords([w] + ws)
  {
    var r := [w] + ws;
    forall k | 0 <= k < |r| ensures r[k] != [] && forall i :: 0 <= i < |r[k]| ==> !IsSpace(r[k][i]) {
      if k > 0 {
        assert r[k] == ws[k - 1];
      }
    }
  }

  /** `" ".join(ws)`. */
  function JoinWords(ws: seq<string>): string {
    if ws == [] then "" else if |ws| == 1 then ws[0] else ws[0] + " " + JoinWords(ws[1..])
  }

  predicate NoDoubleSpace(s: string) {
    forall i :: 0 <= i < |s| - 1 ==> !(IsSpace(s[i]) && IsSpace(s[i + 1]))
  }

  predicate NoEdgeSpace(s: string) {
    s == [] || (!IsSpace(s[0]) && !IsSpace(s[|s| - 1]))
  }

  /** Every whitespace character is a plain space. */
  predicate OnlyPlainSpaces(s: string) {
    forall i :: 0 <= i < |s| ==> IsSpace(s[i]) ==> s[i] == ' '
  }

  predicate GoodWords(ws: seq<string>) {
    forall k :: 0 <= k < |ws| ==> ws[k] != [] && forall i :: 0 <= i < |ws[k]| ==> !IsSpace(ws[k][i])
  }

  /** Joining non-empty words with single spaces gives a normalised string. */
  lemma {:induction false} JoinWordsNormal(ws: seq<string>)
    requires GoodWords(ws)
    ensures var r := JoinWords(ws);
      NoDoubleSpace(r) && NoEdgeSpace(r) && OnlyPlainSpaces(r) && (ws != [] ==> r != [])
  {
    if |ws| > 1 {
      JoinWordsNormal(ws[1..]);
      var w, rest := ws[0], JoinWords(ws[1..]);
      var r := w + " " + rest;
      assert r == JoinWords(ws);
      forall i | 0 <= i < |r| - 1 ensures !(IsSpace(r[i]) && IsSpace(r[i + 1])) {
        if i < |w| - 1 {
          assert r[i + 1] == w[i + 1];
        } else if i == |w| - 1 {
          assert r[i] == w[i];
        } else if i == |w| {
          assert r[i + 1] == rest[0];
        } else {
          assert r[i] == rest[i - |w| - 1] && r[i + 1] == rest[i - |w|];
        }
      }
      forall i | 0 <= i < |r| ensures IsSpace(r[i]) ==> r[i] == ' ' {
        if i < |w| {
          assert r[i] == w[i];
        } else if i > |w| {
          assert r[i] == rest[i - |w| - 1];
        }
      }
      assert r[|r| - 1] == rest[|rest| - 1];
    }
  }

  /** Collapsing a word-initial segment emits the word, then continues. */
  lemma {:induction false} CollapseWord(s: string)
    ensures CollapseSpaces(s) == TakeWord(s) + CollapseSpaces(s[|TakeWord(s)|..])
    decreases |s|
  {
    if s != [] && !IsSpace(s[0]) {
      var t := s[1..];
      var w := TakeWord(t);
      CollapseWord(t);
      var c := CollapseSpaces(t[|w|..]);
      assert TakeWord(s) == [s[0]] + w;
      assert t[|w|..] == s[|TakeWord(s)|..];
      assert CollapseSpaces(s) == [s[0]] + CollapseSpaces(t);
      ConcatAssoc3([s[0]], w, c);
    } else {
      assert TakeWord(s) == [];
      assert s[0..] == s;
    }
  }

  /**
   * For text starting with a non-space character, collapsing gives the words
   * joined by single spaces, plus one space if the text ends in whitespace.
   */
  lemma {:induction false} CollapseIsJoin(t: string)
    requires t == [] || !IsSpace(t[0])
    ensures CollapseSpaces(t) == JoinWords(Words(t)) + TrailingSpace(t)
    decreases |t|
  {
    if t != [] {
      var w := TakeWord(t);
      if |w| == |t| {
        CollapseLastWord(t);
      } else {
        var t' := DropSpaces(t[|w|..]);
        CollapseIsJoin(t');
        CollapseNextWord(t, t');
      }
    }
  }

  lemma WordsOfWordStart(t: string)
    requires t != [] && !IsSpace(t[0])
    ensures Words(t) == [TakeWord(t)] + Words(t[|TakeWord(t)|..])
  {
    assert DropSpaces(t) == t;
  }

  lemma CollapseLastWord(t: string)
    requires t != [] && !IsSpace(t[0]) && |TakeWord(t)| == |t|
    ensures CollapseSpaces(t) == JoinWords(Words(t)) + TrailingSpace(t)
  {
    var w := TakeWord(t);
    CollapseWord(t);
    WordsOfWordStart(t);
    assert w == t;
    assert t[|w|..] == [];
    assert JoinWords([w]) == w;
    assert TrailingSpace(t) == "" by { assert t[|t| - 1] == w[|w| - 1]; }
  }

  lemma CollapseNextWord(t: string, t': string)
    requires t != [] && !IsSpace(t[0]) && |TakeWord(t)| < |t|
    requires t' == DropSpaces(t[|TakeWord(t)|..])
    requires CollapseSpaces(t') == JoinWords(Words(t')) + TrailingSpace(t')
    ensures CollapseSpaces(t) == JoinWords(Words(t)) + TrailingSpace(t)
  {
    var w := TakeWord(t);
    NextWordParts(t, t');
    if t' == [] {
      assert Words(t') == [] && CollapseSpaces(t') == [];
      assert " " + CollapseSpaces(t') == " ";
      assert JoinWords([w]) == w;
    } else {
      var ws, j, e := Words(t'), JoinWords(Words(t')), TrailingSpace(t');
      JoinWordsCons(w, ws);
      ConcatAssoc(w, " ", j, e);
      assert CollapseSpaces(t) == w + (" " + (j + e));
      assert JoinWords(Words(t)) == w + " " + j;
    }
  }

  /** The first word of `t`, then the rest after its whitespace run. */
  lemma NextWordParts(t: string, t': string)
    requires t != [] && !IsSpace(t[0]) && |TakeWord(t)| < |t|
    requires t' == DropSpaces(t[|TakeWord(t)|..])
    ensures CollapseSpaces(t) == TakeWord(t) + (" " + CollapseSpaces(t'))
    ensures Words(t) == [TakeWord(t)] + Words(t')
    ensures t' == [] ==> TrailingSpace(t) == " "
    ensures t' != [] ==> TrailingSpace(t) == TrailingSpace(t') && Words(t') != []
  {
    NextWordCollapse(t, t');
    NextWordWords(t, t');
    TrailingOfRest(t, |TakeWord(t)|, t');
    if t' != [] {
      WordsOfWordStart(t');
      TrailingSame(t, t');
    } else {
      TrailingOne(t);
    }
  }

  lemma TrailingSame(t: string, u: string)
    requires t != [] && u != [] && t[|t| - 1] == u[|u| - 1]
    ensures TrailingSpace(t) == TrailingSpace(u)
  {
  }

  lemma TrailingOne(t: string)
    requires t != [] && IsSpace(t[|t| - 1])
    ensures TrailingSpace(t) == " "
  {
  }

  lemma NextWordCollapse(t: string, t': string)
    requires t != [] && !IsSpace(t[0]) && |TakeWord(t)| < |t|
    requires t' == DropSpaces(t[|TakeWord(t)|..])
    ensures CollapseSpaces(t) == TakeWord(t) + (" " + CollapseSpaces(t'))
  {
    var w := TakeWord(t);
    CollapseWord(t);
    CollapseAtSpace(t, |w|);
  }

  lemma NextWordWords(t: string, t': string)
    requires t != [] && !IsSpace(t[0]) && |TakeWord(t)| < |t|
    requires t' == DropSpaces(t[|TakeWord(t)|..])
    ensures Words(t) == [TakeWord(t)] + Words(t')
  {
    WordsOfWordStart(t);
    WordsSkipSpaces(t[|TakeWord(t)|..]);
  }

  /** Collapsing from a whitespace position emits one space and skips the run. */
  lemma CollapseAtSpace(t: string, k: nat)
    requires k < |t| && IsSpace(t[k])
    ensures CollapseSpaces(t[k..]) == " " + CollapseSpaces(DropSpaces(t[k..]))
  {
    assert t[k..][0] == t[k];
  }

  /** The text ends in whitespace exactly when its rest after position `k`, without leading spaces, does or is empty. */
  lemma TrailingOfRest(t: string, k: nat, t': string)
    requires k < |t| && t' == DropSpaces(t[k..])
    ensures t' == [] ==> IsSpace(t[|t| - 1])
    ensures t' != [] ==> t[|t| - 1] == t'[|t'| - 1]
  {
    var rest := t[k..];
    LastOfSuffix(t, k);
    if t' == [] {
      AllSpacesLast(rest);
    } else {
      SuffixLast(rest, t');
    }
  }

  lemma LastOfSuffix(t: string, k: nat)
    requires k < |t|
    ensures t[k..][|t| - k - 1] == t[|t| - 1]
  {
  }

  lemma AllSpacesLast(rest: string)
    requires rest != [] && DropSpaces(rest) == []
    ensures IsSpace(rest[|rest| - 1])
  {
  }

  lemma SuffixLast(rest: string, t': string)
    requires t' == DropSpaces(rest) && t' != []
    ensures t'[|t'| - 1] == rest[|rest| - 1]
  {
  }

  /** A single space when `t` ends in whitespace, empty otherwise. */
  function TrailingSpace(t: string): string {
    if t != [] && IsSpace(t[|t| - 1]) then " " else ""
  }

  lemma JoinWordsCons(w: string, ws: seq<string>)
    requires ws != []
    ensures JoinWords([w] + ws) == w + " " + JoinWords(ws)
  {
    assert ([w] + ws)[1..] == ws;
  }

  lemma WordsSkipSpaces(s: string)
    ensures Words(s) == Words(DropSpaces(s))
  {
    assert DropSpaces(DropSpaces(s)) == DropSpaces(s);
  }

  lemma StripPadded(lead: string, x: string, trail: string)
    requires lead == "" || lead == " "
    requires trail == "" || trail == " "
    requires x != [] && NoEdgeSpace(x)
    ensures Strip(lead + x + trail) == x
  {
    var d := x + trail;
    assert d[0] == x[0];
    DropLead(lead, d);
    StripTrail(x, trail);
    ConcatAssoc3(lead, x, trail);
    assert Strip(lead + d) == StripEnd(d);
  }

  /** At most one leading space before a non-space start is dropped. */
  lemma DropLead(lead: string, d: string)
    requires lead == "" || lead == " "
    requires d != [] && !IsSpace(d[0])
    ensures DropSpaces(lead + d) == d
  {
    if lead == " " {
      assert IsSpace((lead + d)[0]);
      assert (lead + d)[1..] == d;
    } else {
      assert lead + d == d;
    }
  }

  /** At most one trailing space after a non-space end is dropped. */
  lemma StripTrail(x: string, trail: string)
    requires trail == "" || trail == " "
    requires x != [] && !IsSpace(x[|x| - 1])
    ensures StripEnd(x + trail) == x
  {
    assert StripEnd(x) == x;
    if trail == " " {
      var d := x + trail;
      assert IsSpace(d[|d| - 1]);
      assert d[..|d| - 1] == x;
    } else {
      assert x + trail == x;
    }
  }

  lemma StripBlank(s: string)
    requires forall i :: 0 <= i < |s| ==> IsSpace(s[i])
    ensures Strip(s) == ""
  {
    if s != [] {
      assert IsSpace(s[0]);
    }
  }

  /** Collapsing emits one space for a leading whitespace run, then the rest. */
  lemma CollapseLead(s: string)
    ensures CollapseSpaces(s) == LeadingSpace(s) + CollapseSpaces(DropSpaces(s))
  {
    if s == [] || !IsSpace(s[0]) {
      assert DropSpaces(s) == s;
    }
  }

  /** A single space when `s` starts with whitespace, empty otherwise. */
  function LeadingSpace(s: string): string {
    if s != [] && IsSpace(s[0]) then " " else ""
  }

  /** Collapse-then-strip is exactly "the words joined by single spaces". */
  lemma NormalizeIsJoinWords(s: string)
    ensures Strip(CollapseSpaces(s)) == JoinWords(Words(s))
  {
    var t := DropSpaces(s);
    CollapseLead(s);
    CollapseIsJoin(t);
    WordsSkipSpaces(s);
    if t == [] {
      NormalizeBlank(s);
    } else {
      NormalizeWords(s, LeadingSpace(s), t);
    }
  }

  lemma NormalizeBlank(s: string)
    requires DropSpaces(s) == []
    requires CollapseSpaces(s) == LeadingSpace(s) + CollapseSpaces(DropSpaces(s))
    ensures Strip(CollapseSpaces(s)) == JoinWords(Words(s))
  {
    assert Words(s) == [];
    assert CollapseSpaces(s) == LeadingSpace(s);
    StripBlank(LeadingSpace(s));
  }

  lemma NormalizeWords(s: string, lead: string, t: string)
    requires lead == LeadingSpace(s) && t == DropSpaces(s) && t != []
    requires CollapseSpaces(s) == lead + CollapseSpaces(t)
    requires CollapseSpaces(t) == JoinWords(Words(t)) + TrailingSpace(t)
    requires Words(s) == Words(t)
    ensures Strip(CollapseSpaces(s)) == JoinWords(Words(s))
  {
    WordsAreGood(t);
    WordsOfWordStart(t);
    JoinWordsNormal(Words(t));
    var j := JoinWords(Words(t));
    var trail := TrailingSpace(t);
    assert lead == "" || lead == " ";
    assert trail == "" || trail == " ";
    ConcatAssoc3(lead, j, trail);
    StripPadded(lead, j, trail);
  }

  // --------------------------------------------------------- the pipeline

  /**
   * `sanitize_lot_text(text)`: None and "" come back unchanged; otherwise the
   * result is the words of the unescaped, tag-stripped text joined by single
   * spaces, so it has no tag, no leading, trailing or doubled whitespace.
   */
  function SanitizeLotText(text: Option<string>, unescape: string -> string): (r: Option<string>)
    ensures !Truthy(text) ==> r == text
    ensures Truthy(text) ==> r == Some(JoinWords(Words(StripTags(unescape(text.value)))))
  {
    if !Truthy(text) then text
    else
      var cleaned := unescape(text.value);
      var untagged := StripTags(cleaned);
      var collapsed := CollapseSpaces(untagged);
      NormalizeIsJoinWords(untagged);
      Some(Strip(collapsed))
  }

  /** A piece cut from either end of a text without tags has none either. */
  lemma SliceNoTags(s: string, i: nat, j: nat)
    requires NoTags(s) && i <= j <= |s|
    ensures NoTags(s[i..j])
  {
    var t := s[i..j];
    forall a, b | 0 <= a < b < |t| && t[a] == '<' && t[a + 1] != '>' ensures t[b] != '>' {
      assert s[i + a] == '<' && s[i + a + 1] != '>' && t[b] == s[i + b];
    }
  }

  lemma {:induction false} CollapseKeepsNoGt(s: string)
    requires '>' !in s
    ensures '>' !in CollapseSpaces(s)
    decreases |s|
  {
    if s != [] {
      if IsSpace(s[0]) {
        var t := DropSpaces(s);
        assert forall k :: 0 <= k < |t| ==> t[k] == s[|s| - |t| + k];
        CollapseKeepsNoGt(t);
      } else {
        assert forall k :: 0 <= k < |s| - 1 ==> s[1..][k] == s[k + 1];
        CollapseKeepsNoGt(s[1..]);
      }
    }
  }

  /** Collapsing whitespace runs cannot make a tag. */
  lemma {:induction false} CollapseKeepsNoTags(s: string)
    requires NoTags(s)
    ensures NoTags(CollapseSpaces(s))
    decreases |s|
  {
    if s != [] {
      if IsSpace(s[0]) {
        var t := DropSpaces(s);
        SliceNoTags(s, |s| - |t|, |s|);
        CollapseKeepsNoTags(t);
        ConsNoTags(' ', CollapseSpaces(t));
      } else {
        var t := s[1..];
        SliceNoTags(s, 1, |s|);
        CollapseKeepsNoTags(t);
        if s[0] == '<' && t != [] {
          if t[0] == '>' {
            assert CollapseSpaces(t)[0] == '>';
          } else {
            assert forall k :: 0 <= k < |t| ==> t[k] == s[k + 1] && s[k + 1] != '>';
            CollapseKeepsNoGt(t);
          }
        }
        ConsNoTags(s[0], CollapseSpaces(t));
      }
    }
  }

  /** The sanitised text holds no tag. */
  lemma SanitizedHasNoTags(text: Option<string>, unescape: string -> string)
    requires Truthy(text)
    ensures NoTags(SanitizeLotText(text, unescape).value)
  {
    var untagged := StripTags(unescape(text.value));
    StripTagsLeavesNoTag(unescape(text.value));
    var collapsed := CollapseSpaces(untagged);
    CollapseKeepsNoTags(untagged);
    var dropped := DropSpaces(collapsed);
    SliceNoTags(collapsed, |collapsed| - |dropped|, |collapsed|);
    var r := StripEnd(dropped);
    SliceNoTags(dropped, 0, |r|);
    assert SanitizeLotText(text, unescape).value == r;
  }

  /** The sanitised text has no doubled, leading or trailing whitespace. */
  lemma SanitizedIsNormal(text: Option<string>, unescape: string -> string)
    requires Truthy(text)
    ensures var r := SanitizeLotText(text, unescape).value;
      NoDoubleSpace(r) && NoEdgeSpace(r) && OnlyPlainSpaces(r)
  {
    WordsAreGood(StripTags(unescape(text.value)));
    JoinWordsNormal(Words(StripTags(unescape(text.value))));
  }
}
