/**
 * The narrative post-processor of services/geminiService.ts: every ideographic
 * full stop, together with the run of whitespace after it, becomes the full
 * stop followed by a blank line. The source does this with one global regular
 * expression replace; here the leftmost, non-overlapping, greedy scan of that
 * replace is written out as a recursive function.
 */
module TextFormat {

  /** U+3002 IDEOGRAPHIC FULL STOP, the sentence end of Japanese text. */
  const FullStop: char := '\U{3002}'

  /** What every match is replaced by: the full stop and two line feeds. */
  const ParagraphBreak: string := [FullStop, '\n', '\n']

  /**
   * The characters ECMAScript's `\s` matches: the WhiteSpace code points
   * (tab, vertical tab, form feed, space, no-break space, byte order mark and
   * the Space_Separator category) and the LineTerminator code points.
   * U+3000, the ideographic space, is one of them.
   */
  predicate IsJsWhitespace(c: char)
    ensures c == '\U{3000}' || c == ' ' || c == '\n' ==> IsJsWhitespace(c)
    ensures c == FullStop ==> !IsJsWhitespace(c)
  {
    || c == '\t' || c == '\n' || c == '\U{000B}' || c == '\U{000C}' || c == '\r'
    || c == ' ' || c == '\U{00A0}' || c == '\U{1680}'
    || ('\U{2000}' <= c <= '\U{200A}')
    || c == '\U{2028}' || c == '\U{2029}' || c == '\U{202F}' || c == '\U{205F}'
    || c == '\U{3000}' || c == '\U{FEFF}'
  }

  /** The greedy `\s*`: drops the longest whitespace prefix of `s`. */
  function SkipWhitespace(s: string): (r: string)
    ensures |r| <= |s| && r == s[|s| - |r|..]
    ensures forall i :: 0 <= i < |s| - |r| ==> IsJsWhitespace(s[i])
    ensures r == [] || !IsJsWhitespace(r[0])
  {
    if s != [] && IsJsWhitespace(s[0]) then SkipWhitespace(s[1..]) else s
  }

  /** `s.replace(/。(\s*)/g, "。\n\n")`, scanning from the left. */
  function ReplaceFullStops(s: string): (r: string)
    ensures r == [] <==> s == []
    ensures s != [] ==> r[0] == s[0]
    decreases |s|
  {
    if s == [] then []
    else if s[0] == FullStop then ParagraphBreak + ReplaceFullStops(SkipWhitespace(s[1..]))
    else [s[0]] + ReplaceFullStops(s[1..])
  }

  /**
   * `formatText`: a falsy text gives the empty string, anything else goes
   * through the replace.
   */
  function FormatText(text: string): (r: string)
    ensures r == [] <==> text == []
  {
    if text == [] then [] else ReplaceFullStops(text)
  }

  /** Number of occurrences of `c` in `s`. */
  function Count(c: char, s: string): nat {
    if s == [] then 0 else (if s[0] == c then 1 else 0) + Count(c, s[1..])
  }

  /** `s` with every whitespace character deleted. */
  function StripWhitespace(s: string): string {
    if s == [] then []
    else (if IsJsWhitespace(s[0]) then [] else [s[0]]) + StripWhitespace(s[1..])
  }

  /**
   * The shape `formatText` leaves behind: every full stop is followed by
   * exactly two line feeds and then by a non-whitespace character or the end.
   */
  ghost predicate IsParagraphed(s: string) {
    forall i :: 0 <= i < |s| && s[i] == FullStop ==>
      && i + 2 < |s| && s[i + 1] == '\n' && s[i + 2] == '\n'
      && (i + 3 == |s| || !IsJsWhitespace(s[i + 3]))
  }

  // ---------------------------------------------------------------------------
  // Helper facts about the counting and stripping functions

  lemma {:induction false} CountConcat(c: char, a: string, b: string)
    ensures Count(c, a + b) == Count(c, a) + Count(c, b)
  {
    if a == [] {
      assert a + b == b;
    } else {
      assert (a + b)[1..] == a[1..] + b;
      CountConcat(c, a[1..], b);
    }
  }

  lemma {:induction false} StripConcat(a: string, b: string)
    ensures StripWhitespace(a + b) == StripWhitespace(a) + StripWhitespace(b)
  {
    if a == [] {
      assert a + b == b;
    } else {
      assert (a + b)[1..] == a[1..] + b;
      StripConcat(a[1..], b);
    }
  }

  /** Skipped characters are whitespace, so no non-whitespace `c` is lost. */
  lemma {:induction false} SkipKeepsCount(c: char, s: string)
    requires !IsJsWhitespace(c)
    ensures Count(c, SkipWhitespace(s)) == Count(c, s)
  {
    if s != [] && IsJsWhitespace(s[0]) {
      SkipKeepsCount(c, s[1..]);
    }
  }

  lemma {:induction false} SkipKeepsStripped(s: string)
    ensures StripWhitespace(SkipWhitespace(s)) == StripWhitespace(s)
  {
    if s != [] && IsJsWhitespace(s[0]) {
      SkipKeepsStripped(s[1..]);
    }
  }

  lemma SuffixParagraphed(s: string, k: nat)
    requires k <= |s| && IsParagraphed(s)
    ensures IsParagraphed(s[k..])
  {
    var t := s[k..];
    forall i | 0 <= i < |t| && t[i] == FullStop
      ensures i + 2 < |t| && t[i + 1] == '\n' && t[i + 2] == '\n'
      ensures i + 3 == |t| || !IsJsWhitespace(t[i + 3])
    {
      assert s[k + i] == FullStop;
    }
  }

  lemma ParagraphBreakFacts()
    ensures Count(FullStop, ParagraphBreak) == 1
    ensures StripWhitespace(ParagraphBreak) == [FullStop]
  {
    var lf: string := ['\n'];
    assert Count(FullStop, lf) == 0 && StripWhitespace(lf) == [] by {
      assert lf[1..] == [];
    }
    assert ['\n', '\n'][1..] == lf;
    assert ParagraphBreak[1..] == ['\n', '\n'];
  }

  lemma SkipTwoLineFeeds(rest: string)
    requires rest == [] || !IsJsWhitespace(rest[0])
    ensures SkipWhitespace(['\n', '\n'] + rest) == rest
  {
    assert (['\n', '\n'] + rest)[1..] == ['\n'] + rest;
    assert (['\n'] + rest)[1..] == rest;
  }

  /** A paragraphed text that starts with a full stop starts with a whole paragraph break. */
  lemma ParagraphedHead(s: string) returns (rest: string)
    requires IsParagraphed(s) && s != [] && s[0] == FullStop
    ensures |s| >= 3 && rest == s[3..]
    ensures s == ParagraphBreak + rest && s[1..] == ['\n', '\n'] + rest
    ensures rest == [] || !IsJsWhitespace(rest[0])
  {
    assert 2 < |s| && s[1] == '\n' && s[2] == '\n' && (3 == |s| || !IsJsWhitespace(s[3]));
    rest := s[3..];
    assert s == [s[0], s[1], s[2]] + rest;
  }

  // ---------------------------------------------------------------------------
  // Properties of the replace

  /** Text without a full stop goes through the replace unchanged. */
  lemma {:induction false} ReplaceWithoutFullStop(s: string)
    requires FullStop !in s
    ensures ReplaceFullStops(s) == s
  {
    if s != [] {
      assert s[0] != FullStop;
      assert FullStop !in s[1..] by {
        forall i | 0 <= i < |s[1..]| ensures s[1..][i] != FullStop {
          assert s[1..][i] == s[i + 1];
        }
      }
      ReplaceWithoutFullStop(s[1..]);
      assert s == [s[0]] + s[1..];
    }
  }

  lemma {:induction false} ReplaceKeepsFullStopCount(s: string)
    ensures Count(FullStop, ReplaceFullStops(s)) == Count(FullStop, s)
    decreases |s|
  {
    if s == [] {
    } else if s[0] == FullStop {
      var t := SkipWhitespace(s[1..]);
      ReplaceKeepsFullStopCount(t);
      CountConcat(FullStop, ParagraphBreak, ReplaceFullStops(t));
      ParagraphBreakFacts();
      SkipKeepsCount(FullStop, s[1..]);
    } else {
      ReplaceKeepsFullStopCount(s[1..]);
      CountConcat(FullStop, [s[0]], ReplaceFullStops(s[1..]));
    }
  }

  lemma {:induction false} ReplaceKeepsStripped(s: string)
    ensures StripWhitespace(ReplaceFullStops(s)) == StripWhitespace(s)
    decreases |s|
  {
    if s == [] {
    } else if s[0] == FullStop {
      var t := SkipWhitespace(s[1..]);
      ReplaceKeepsStripped(t);
      StripConcat(ParagraphBreak, ReplaceFullStops(t));
      ParagraphBreakFacts();
      SkipKeepsStripped(s[1..]);
    } else {
      ReplaceKeepsStripped(s[1..]);
      StripConcat([s[0]], ReplaceFullStops(s[1..]));
    }
  }

  lemma {:induction false} ReplaceIsParagraphed(s: string)
    ensures IsParagraphed(ReplaceFullStops(s))
    decreases |s|
  {
    var r := ReplaceFullStops(s);
    if s == [] {
    } else if s[0] == FullStop {
      var t := SkipWhitespace(s[1..]);
      var rest := ReplaceFullStops(t);
      ReplaceIsParagraphed(t);
      assert r == ParagraphBreak + rest;
      forall i | 0 <= i < |r| && r[i] == FullStop
        ensures i + 2 < |r| && r[i + 1] == '\n' && r[i + 2] == '\n'
        ensures i + 3 == |r| || !IsJsWhitespace(r[i + 3])
      {
        if i >= 3 {
          assert r[i] == rest[i - 3];
          if i + 3 < |r| {
            assert r[i + 3] == rest[i];
          }
        } else if i + 3 < |r| {
          assert r[i + 3] == rest[0] == t[0];
        }
      }
    } else {
      var rest := ReplaceFullStops(s[1..]);
      ReplaceIsParagraphed(s[1..]);
      assert r == [s[0]] + rest;
      forall i | 0 <= i < |r| && r[i] == FullStop
        ensures i + 2 < |r| && r[i + 1] == '\n' && r[i + 2] == '\n'
        ensures i + 3 == |r| || !IsJsWhitespace(r[i + 3])
      {
        assert i >= 1;
        assert r[i] == rest[i - 1];
      }
    }
  }

  /** Text already in paragraphed shape is a fixed point of the replace. */
  lemma {:induction false} ReplaceFixesParagraphed(s: string)
    requires IsParagraphed(s)
    ensures ReplaceFullStops(s) == s
    decreases |s|
  {
    if s == [] {
    } else if s[0] == FullStop {
      var rest := ParagraphedHead(s);
      SkipTwoLineFeeds(rest);
      SuffixParagraphed(s, 3);
      ReplaceFixesParagraphed(rest);
    } else {
      SuffixParagraphed(s, 1);
      ReplaceFixesParagraphed(s[1..]);
      assert s == [s[0]] + s[1..];
    }
  }

  // ---------------------------------------------------------------------------
  // Properties of formatText

  /** An empty text gives the empty string. */
  lemma FormatTextEmpty()
    ensures FormatText("") == ""
  {
  }

  /** A text with no full stop is returned unchanged. */
  lemma FormatTextWithoutFullStop(s: string)
    requires FullStop !in s
    ensures FormatText(s) == s
  {
    if s != [] {
      ReplaceWithoutFullStop(s);
    }
  }

  /** The output has exactly as many full stops as the input. */
  lemma FormatTextKeepsFullStopCount(s: string)
    ensures Count(FullStop, FormatText(s)) == Count(FullStop, s)
  {
    if s != [] {
      ReplaceKeepsFullStopCount(s);
    }
  }

  /** Every full stop of the output is followed by "\n\n" and then by a non-whitespace character or the end. */
  lemma FormatTextIsParagraphed(s: string)
    ensures IsParagraphed(FormatText(s))
  {
    if s != [] {
      ReplaceIsParagraphed(s);
    }
  }

  /** Only whitespace is added or removed: the texts agree once whitespace is deleted. */
  lemma FormatTextKeepsNonWhitespace(s: string)
    ensures StripWhitespace(FormatText(s)) == StripWhitespace(s)
  {
    if s != [] {
      ReplaceKeepsStripped(s);
    }
  }

  /** The fixed points of `formatText` are exactly the paragraphed texts. */
  lemma FormatTextFixedPoints(s: string)
    ensures FormatText(s) == s <==> IsParagraphed(s)
  {
    FormatTextIsParagraphed(s);
    if IsParagraphed(s) && s != [] {
      ReplaceFixesParagraphed(s);
    }
  }

  /** Formatting twice is formatting once. */
  lemma FormatTextIdempotent(s: string)
    ensures FormatText(FormatText(s)) == FormatText(s)
  {
    FormatTextIsParagraphed(s);
    FormatTextFixedPoints(FormatText(s));
  }
}
