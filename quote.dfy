/**
 * The text rewriting of the quote layout: wrapping the quoted inlines in
 * curly quotation marks unless they already carry marks at both ends, and
 * turning the leading `--` or `---` of an attribution into an em dash.
 */
module Quote {
  import opened Strings
  import opened Parser

  const LeftQuote: char := '“'
  const RightQuote: char := '”'
  const EmDash: char := '—'

  /** The first inline is text that, after leading whitespace, starts with a left curly or a straight quote. */
  predicate StartsWithQuote(inlines: seq<Inline>)
  {
    && |inlines| > 0
    && inlines[0].Text?
    && var t := TrimStart(inlines[0].s);
       |t| > 0 && (t[0] == LeftQuote || t[0] == '"')
  }

  /** The last inline is text that, before trailing whitespace, ends with a right curly or a straight quote. */
  predicate EndsWithQuote(inlines: seq<Inline>)
  {
    && |inlines| > 0
    && inlines[|inlines| - 1].Text?
    && var t := TrimEnd(inlines[|inlines| - 1].s);
       |t| > 0 && (t[|t| - 1] == RightQuote || t[|t| - 1] == '"')
  }

  /**
   * The quoted inlines: unchanged when both marks are present, and otherwise
   * the missing opening and closing marks added around the inlines.
   */
  function Wrapped(inlines: seq<Inline>): seq<Inline>
  {
    var starts, ends := StartsWithQuote(inlines), EndsWithQuote(inlines);
    if starts && ends then inlines
    else (if starts then [] else [Text([LeftQuote])]) + inlines + (if ends then [] else [Text([RightQuote])])
  }

  /** `wrap_with_quotes`. */
  method WrapWithQuotes(inlines: seq<Inline>) returns (result: seq<Inline>)
    ensures result == Wrapped(inlines)
  {
    var startsWithQuote := StartsWithQuote(inlines);
    var endsWithQuote := EndsWithQuote(inlines);
    if startsWithQuote && endsWithQuote {
      return inlines;
    }
    result := [];
    if !startsWithQuote {
      result := result + [Text([LeftQuote])];
    }
    result := result + inlines;
    if !endsWithQuote {
      result := result + [Text([RightQuote])];
    }
  }

  /**
   * The wrapped inlines always open and close with a quotation mark, keep the
   * original inlines in order right after the opening mark if one was added,
   * and are at most two inlines longer; a mark is added only where one was missing.
   */
  lemma WrappedIsQuoted(inlines: seq<Inline>)
    ensures var w := Wrapped(inlines); StartsWithQuote(w) && EndsWithQuote(w)
    ensures var w, k := Wrapped(inlines), if StartsWithQuote(inlines) then 0 else 1;
      k + |inlines| <= |w| && w[k..k + |inlines|] == inlines
    ensures |Wrapped(inlines)| ==
      |inlines| + (if StartsWithQuote(inlines) then 0 else 1) + (if EndsWithQuote(inlines) then 0 else 1)
  {
    var w := Wrapped(inlines);
    var starts, ends := StartsWithQuote(inlines), EndsWithQuote(inlines);
    if !(starts && ends) {
      var pre: seq<Inline> := if starts then [] else [Text([LeftQuote])];
      var post: seq<Inline> := if ends then [] else [Text([RightQuote])];
      assert w == pre + inlines + post;
      if starts {
        assert w[0] == inlines[0];
      } else {
        assert w[0] == Text([LeftQuote]);
        assert TrimStart([LeftQuote]) == [LeftQuote];
      }
      if ends {
        assert w[|w| - 1] == inlines[|inlines| - 1];
      } else {
        assert w[|w| - 1] == Text([RightQuote]);
        assert TrimEnd([RightQuote]) == [RightQuote];
      }
      var k := |pre|;
      assert w[k..k + |inlines|] == inlines;
    }
  }

  /** Wrapping is idempotent: quoted inlines are left as they are. */
  lemma WrappedTwice(inlines: seq<Inline>)
    ensures Wrapped(Wrapped(inlines)) == Wrapped(inlines)
  {
    WrappedIsQuoted(inlines);
  }

  /** An empty quote becomes the two marks alone. */
  lemma WrappedEmpty()
    ensures Wrapped([]) == [Text([LeftQuote]), Text([RightQuote])]
  {
  }

  /**
   * The cleaned attribution text: after leading whitespace, a leading `---`,
   * or failing that `--`, becomes an em dash and a space followed by the rest
   * without its leading whitespace; any other text is kept.
   */
  function CleanedText(s: string): (r: string)
    ensures r != s ==> StartsWith(TrimStart(s), "--")
  {
    var trimmed := TrimStart(s);
    if StartsWith(trimmed, "---") then [EmDash, ' '] + TrimStart(trimmed[3..])
    else if StartsWith(trimmed, "--") then [EmDash, ' '] + TrimStart(trimmed[2..])
    else s
  }

  /** The attribution with its first inline cleaned when that inline is text. */
  function Cleaned(inlines: seq<Inline>): seq<Inline>
  {
    if |inlines| > 0 && inlines[0].Text? then inlines[0 := Text(CleanedText(inlines[0].s))] else inlines
  }

  /** `clean_attribution`. */
  method CleanAttribution(inlines: seq<Inline>) returns (result: seq<Inline>)
    ensures result == Cleaned(inlines)
  {
    result := inlines;
    if |result| > 0 && result[0].Text? {
      var s := result[0].s;
      var trimmed := TrimStart(s);
      if StartsWith(trimmed, "---") {
        result := result[0 := Text([EmDash, ' '] + TrimStart(trimmed[3..]))];
      } else if StartsWith(trimmed, "--") {
        result := result[0 := Text([EmDash, ' '] + TrimStart(trimmed[2..]))];
      }
    }
  }

  /**
   * Cleaning changes at most the first inline, keeps the length, and changes
   * anything only when the first inline is text starting, after whitespace, with `--`.
   */
  lemma CleanedChangesOnlyFirst(inlines: seq<Inline>)
    ensures var c := Cleaned(inlines);
      && |c| == |inlines|
      && (forall i :: 1 <= i < |inlines| ==> c[i] == inlines[i])
      && (c != inlines ==> inlines[0].Text? && StartsWith(TrimStart(inlines[0].s), "--"))
  {
  }

  /** `---` is stripped whole: three dashes and text become an em dash, a space and the text. */
  lemma TripleDashBecomesEmDash(s: string, rest: string)
    requires TrimStart(s) == "---" + rest
    ensures CleanedText(s) == [EmDash, ' '] + TrimStart(rest)
  {
    assert StartsWith(TrimStart(s), "---");
    assert TrimStart(s)[3..] == rest;
  }

  /** Two dashes followed by something other than a dash become an em dash and a space. */
  lemma DoubleDashBecomesEmDash(s: string, rest: string)
    requires TrimStart(s) == "--" + rest
    requires rest == [] || rest[0] != '-'
    ensures CleanedText(s) == [EmDash, ' '] + TrimStart(rest)
  {
    var t := TrimStart(s);
    assert t[..2] == "--";
    assert t[2..] == rest;
    assert !StartsWith(t, "---") by {
      if |t| >= 3 {
        assert t[2] == rest[0];
      }
    }
  }

  /** Cleaning is idempotent: a cleaned attribution starts with an em dash, which is not cleaned again. */
  lemma CleanedTwice(inlines: seq<Inline>)
    ensures Cleaned(Cleaned(inlines)) == Cleaned(inlines)
  {
    if |inlines| > 0 && inlines[0].Text? {
      var s := inlines[0].s;
      var r := CleanedText(s);
      if r != s {
        assert r[0] == EmDash;
        assert !IsWhitespace(EmDash);
        assert TrimStart(r) == r;
        assert !StartsWith(TrimStart(r), "--");
        assert CleanedText(r) == r;
      }
    }
  }
}
