/** The text the pipeline renders around the model calls: market descriptions,
    the numbered article digest, the post-processing of the model's query list
    and the joined research report. Each text is a list of lines (what the
    f-strings spell out) rendered with `Unlines`; properties about headers and
    labelled lines are stated on those lines. */
module Prompts {
  import opened Common
  import opened PyText
  import opened Kalshi
  import opened Search

  const OutcomesLine: string := "Possible Outcomes: Yes (0) or No (1)"
  // Spelled in two pieces so that the verifier sees its first character.
  const ResolveNote: string := "(Note: The market may " + "resolve before this date.)"

  /** What a prompt is built from; the instruction wording is not modelled. */
  datatype Prompt =
    | QueryPrompt(eventTitle: string, descriptions: string)
    | SummaryPrompt(eventTitle: string, descriptions: string, articles: string)

  /** What one chat-model call yields: it raises, it returns a message whose
      `content` is None, or it returns text. */
  datatype Reply = Raised | NoContent | Content(content: string)

  /** The chat model. */
  type Llm = Prompt -> Reply

  /** `run_openai` of the synchronous scripts: the stripped reply, or "" when
      the call raises, including the AttributeError of stripping a None
      content. */
  function RunOpenAI(llm: Llm, p: Prompt): (r: string)
    ensures NoOuterSpace(r)
    ensures !llm(p).Content? ==> r == ""
    ensures llm(p).Content? ==> r == Strip(llm(p).content)
    ensures llm(p).Content? && NoOuterSpace(llm(p).content) ==> r == llm(p).content
  {
    match llm(p)
    case Content(text) => (if NoOuterSpace(text) then StripIdentity(text); Strip(text) else Strip(text))
    case _ => ""
  }

  // ---------------------------------------------------------------------------
  // Labelled lines
  // ---------------------------------------------------------------------------

  function Selecting(prefix: string): string -> Option<string>
  {
    l => if StartsWith(l, prefix) then Some(l) else None
  }

  /** The lines that start with `prefix`, in order. */
  function LinesStarting(lines: seq<string>, prefix: string): seq<string>
  {
    FilterMap(Selecting(prefix), lines)
  }

  /** A line that begins with `label` cannot begin with a `prefix` that differs
      from `label` at position i. */
  lemma LabelMismatch(tag: string, x: string, prefix: string, i: nat)
    requires i < |tag| && i < |prefix| && tag[i] != prefix[i]
    ensures !StartsWith(tag + x, prefix)
  {
    if |prefix| <= |tag + x| {
      assert (tag + x)[..|prefix|][i] == tag[i];
    }
  }

  lemma LabelMatch(tag: string, x: string)
    ensures StartsWith(tag + x, tag)
  {
    assert (tag + x)[..|tag|] == tag;
  }

  lemma {:induction false} NoneStarting(lines: seq<string>, prefix: string)
    requires forall i :: 0 <= i < |lines| ==> !StartsWith(lines[i], prefix)
    ensures LinesStarting(lines, prefix) == []
    decreases |lines|
  {
    if lines != [] {
      NoneStarting(lines[1..], prefix);
    }
  }

  lemma OneStarting(line: string, prefix: string)
    requires StartsWith(line, prefix)
    ensures LinesStarting([line], prefix) == [line]
  {
    assert [line][1..] == [];
  }

  /** Filtering lines block by block is filtering the concatenated blocks. */
  lemma {:induction false} FilterMapFlatten<U>(f: string -> Option<U>, blocks: seq<seq<string>>)
    ensures FilterMap(f, Flatten(blocks)) == Flatten(seq(|blocks|, k requires 0 <= k < |blocks| => FilterMap(f, blocks[k])))
    decreases |blocks|
  {
    if blocks != [] {
      FilterMapAppend(f, blocks[0], Flatten(blocks[1..]));
      FilterMapFlatten(f, blocks[1..]);
      var all := seq(|blocks|, k requires 0 <= k < |blocks| => FilterMap(f, blocks[k]));
      var rest := seq(|blocks| - 1, k requires 0 <= k < |blocks| - 1 => FilterMap(f, blocks[1..][k]));
      assert all[1..] == rest;
    }
  }

  lemma {:induction false} FlattenSingletons(xs: seq<string>)
    ensures Flatten(seq(|xs|, k requires 0 <= k < |xs| => [xs[k]])) == xs
    decreases |xs|
  {
    if xs != [] {
      var all := seq(|xs|, k requires 0 <= k < |xs| => [xs[k]]);
      var rest := seq(|xs| - 1, k requires 0 <= k < |xs| - 1 => [xs[1..][k]]);
      assert all[1..] == rest;
      FlattenSingletons(xs[1..]);
    }
  }

  // ---------------------------------------------------------------------------
  // Market descriptions (kalshi_ddgs_rag and daily_report)
  // ---------------------------------------------------------------------------

  /** The "Secondary rules" line, present only when the field is truthy. */
  function SecondaryLines(m: Market): (lines: seq<string>)
  {
    if IsTruthyField(m.rulesSecondary) then ["Secondary rules: " + m.rulesSecondary.text] else []
  }

  function SingleMarketLines(eventTitle: string, m: Market): seq<string>
  {
    ["Event title: " + eventTitle, "Title: " + m.title, "Subtitle: " + m.yesSubTitle, OutcomesLine,
     "Rules: " + m.rulesPrimary]
    + SecondaryLines(m)
    + ["Scheduled close date: " + m.expirationTime]
  }

  /** The block of the k-th market (counting from 1), ending in a blank line. */
  function MarketBlockLines(k: nat, m: Market): seq<string>
  {
    ["# Market " + NatToString(k), "Ticker: " + m.ticker, "Title: " + m.title, "Subtitle: " + m.yesSubTitle,
     OutcomesLine, "Rules: " + m.rulesPrimary]
    + SecondaryLines(m)
    + ["Scheduled close date: " + m.expirationTime, ""]
  }

  function MarketBlocks(ms: seq<Market>): seq<seq<string>>
  {
    seq(|ms|, k requires 0 <= k < |ms| => MarketBlockLines(k + 1, ms[k]))
  }

  /** One market: a flat description opened by the event title; otherwise (also
      for no market) one numbered block per market. */
  function DescriptionLines(eventTitle: string, ms: seq<Market>): seq<string>
  {
    if |ms| == 1 then SingleMarketLines(eventTitle, ms[0]) else Flatten(MarketBlocks(ms))
  }

  lemma UnlinesSnoc(lines: seq<string>, x: string)
    ensures Unlines(lines + [x]) == Unlines(lines) + (x + "\n")
  {
    UnlinesAppend(lines, [x]);
    assert Unlines([x]) == x + "\n" + Unlines([]);
  }

  /** The text of four lines, each f-string piece ending in its newline. */
  lemma Unlines4(a: string, b: string, c: string, d: string)
    ensures Unlines([a, b, c, d]) == (a + "\n") + (b + "\n") + (c + "\n") + (d + "\n")
  {
    UnlinesSnoc([], a);
    assert [a] == [] + [a];
    UnlinesSnoc([a], b);
    assert [a, b] == [a] + [b];
    UnlinesSnoc([a, b], c);
    assert [a, b, c] == [a, b] + [c];
    UnlinesSnoc([a, b, c], d);
    assert [a, b, c, d] == [a, b, c] + [d];
  }

  lemma Unlines5(a: string, b: string, c: string, d: string, e: string)
    ensures Unlines([a, b, c, d, e]) == (a + "\n") + (b + "\n") + (c + "\n") + (d + "\n") + (e + "\n")
  {
    Unlines4(a, b, c, d);
    UnlinesSnoc([a, b, c, d], e);
    assert [a, b, c, d, e] == [a, b, c, d] + [e];
  }

  lemma Unlines6(a: string, b: string, c: string, d: string, e: string, f: string)
    ensures Unlines([a, b, c, d, e, f]) == (a + "\n") + (b + "\n") + (c + "\n") + (d + "\n") + (e + "\n") + (f + "\n")
  {
    Unlines5(a, b, c, d, e);
    UnlinesSnoc([a, b, c, d, e], f);
    assert [a, b, c, d, e, f] == [a, b, c, d, e] + [f];
  }

  /** A last line followed by a blank line: the `\n\n` that closes a block. */
  lemma BlankTerminated(x: string)
    ensures Unlines([x, ""]) == x + "\n\n"
  {
    UnlinesSnoc([], x);
    assert [x] == [] + [x];
    UnlinesSnoc([x], "");
    assert [x, ""] == [x] + [""];
    assert (x + "\n") + ("" + "\n") == x + "\n\n";
  }

  /** The optional `Secondary rules` piece of the synchronous scripts. */
  lemma SecondaryText(m: Market)
    ensures Unlines(SecondaryLines(m))
            == (if IsTruthyField(m.rulesSecondary) then "Secondary rules: " + m.rulesSecondary.text + "\n" else "")
  {
    if IsTruthyField(m.rulesSecondary) {
      UnlinesSnoc([], "Secondary rules: " + m.rulesSecondary.text);
      assert [] + ["Secondary rules: " + m.rulesSecondary.text] == SecondaryLines(m);
    }
  }

  lemma Unlines3(a: seq<string>, b: seq<string>, c: seq<string>)
    ensures Unlines(a + b + c) == Unlines(a) + Unlines(b) + Unlines(c)
  {
    UnlinesAppend(a, b);
    UnlinesAppend(a + b, c);
  }

  lemma UnlinesFlattenSnoc(blocks: seq<seq<string>>, i: nat)
    requires i < |blocks|
    ensures Unlines(Flatten(blocks[..i + 1])) == Unlines(Flatten(blocks[..i])) + Unlines(blocks[i])
  {
    assert blocks[..i + 1] == blocks[..i] + [blocks[i]];
    FlattenAppend(blocks[..i], [blocks[i]]);
    assert [blocks[i]][1..] == [];
    assert Flatten([blocks[i]]) == blocks[i] + Flatten([]);
    assert blocks[i] + [] == blocks[i];
    UnlinesAppend(Flatten(blocks[..i]), blocks[i]);
  }

  lemma AppendPieces(s: string, a: string, b: string, c: string)
    ensures s + a + b + c == s + (a + b + c)
  {
  }

  /** The text the single-market f-strings build, piece by piece. */
  lemma SingleMarketText(eventTitle: string, m: Market)
    ensures Unlines(SingleMarketLines(eventTitle, m))
            == ("Event title: " + eventTitle + "\n") + ("Title: " + m.title + "\n") + ("Subtitle: " + m.yesSubTitle + "\n")
               + (OutcomesLine + "\n") + ("Rules: " + m.rulesPrimary + "\n")
               + (if IsTruthyField(m.rulesSecondary) then "Secondary rules: " + m.rulesSecondary.text + "\n" else "")
               + ("Scheduled close date: " + m.expirationTime + "\n")
  {
    var head := ["Event title: " + eventTitle, "Title: " + m.title, "Subtitle: " + m.yesSubTitle, OutcomesLine,
                 "Rules: " + m.rulesPrimary];
    var tail := ["Scheduled close date: " + m.expirationTime];
    Unlines5(head[0], head[1], head[2], head[3], head[4]);
    SecondaryText(m);
    UnlinesSnoc([], tail[0]);
    assert tail == [] + [tail[0]];
    Unlines3(head, SecondaryLines(m), tail);
  }

  /** The text of the k-th market block, piece by piece. */
  lemma MarketBlockText(k: nat, m: Market)
    ensures Unlines(MarketBlockLines(k, m))
            == ("# Market " + NatToString(k) + "\n") + ("Ticker: " + m.ticker + "\n") + ("Title: " + m.title + "\n")
               + ("Subtitle: " + m.yesSubTitle + "\n") + (OutcomesLine + "\n") + ("Rules: " + m.rulesPrimary + "\n")
               + (if IsTruthyField(m.rulesSecondary) then "Secondary rules: " + m.rulesSecondary.text + "\n" else "")
               + ("Scheduled close date: " + m.expirationTime + "\n\n")
  {
    var head := ["# Market " + NatToString(k), "Ticker: " + m.ticker, "Title: " + m.title, "Subtitle: " + m.yesSubTitle,
                 OutcomesLine, "Rules: " + m.rulesPrimary];
    var tail := ["Scheduled close date: " + m.expirationTime, ""];
    Unlines6(head[0], head[1], head[2], head[3], head[4], head[5]);
    SecondaryText(m);
    BlankTerminated(tail[0]);
    Unlines3(head, SecondaryLines(m), tail);
  }

  /** The single-market f-strings of the synchronous scripts. */
  method SingleDescription(eventTitle: string, m: Market) returns (desc: string)
    ensures desc == Unlines(SingleMarketLines(eventTitle, m))
  {
    desc := ("Event title: " + eventTitle + "\n") + ("Title: " + m.title + "\n") + ("Subtitle: " + m.yesSubTitle + "\n")
            + (OutcomesLine + "\n") + ("Rules: " + m.rulesPrimary + "\n");
    if m.rulesSecondary.Text? && m.rulesSecondary.text != "" {
      desc := desc + ("Secondary rules: " + m.rulesSecondary.text + "\n");
    }
    desc := desc + ("Scheduled close date: " + m.expirationTime + "\n");
    SingleMarketText(eventTitle, m);
  }

  /** The f-strings of the k-th market block of the synchronous scripts. */
  method MarketBlock(k: nat, m: Market) returns (block: string)
    ensures block == Unlines(MarketBlockLines(k, m))
  {
    var head := ("# Market " + NatToString(k) + "\n") + ("Ticker: " + m.ticker + "\n") + ("Title: " + m.title + "\n")
                + ("Subtitle: " + m.yesSubTitle + "\n") + (OutcomesLine + "\n") + ("Rules: " + m.rulesPrimary + "\n");
    var secondary := "";
    if m.rulesSecondary.Text? && m.rulesSecondary.text != "" {
      secondary := "Secondary rules: " + m.rulesSecondary.text + "\n";
    }
    block := head + secondary + ("Scheduled close date: " + m.expirationTime + "\n\n");
    MarketBlockText(k, m);
  }

  /** `get_market_descriptions` of the synchronous scripts. */
  method GetMarketDescriptions(eventTitle: string, markets: seq<Market>) returns (desc: string)
    ensures desc == Unlines(DescriptionLines(eventTitle, markets))
  {
    if |markets| == 1 {
      desc := SingleDescription(eventTitle, markets[0]);
      return;
    }
    desc := "";
    ghost var blocks := MarketBlocks(markets);
    var i := 0;
    while i < |markets|
      invariant i <= |markets|
      invariant desc == Unlines(Flatten(blocks[..i]))
    {
      var block := MarketBlock(i + 1, markets[i]);
      UnlinesFlattenSnoc(blocks, i);
      desc := desc + block;
      i := i + 1;
    }
    assert blocks[..i] == blocks;
  }

  /** A single-market description opens with the event title. */
  lemma SingleDescriptionOpensWithEvent(eventTitle: string, m: Market)
    ensures StartsWith(Unlines(DescriptionLines(eventTitle, [m])), "Event title: " + eventTitle + "\n")
  {
    var lines := SingleMarketLines(eventTitle, m);
    assert lines == [lines[0]] + lines[1..];
    UnlinesAppend([lines[0]], lines[1..]);
    LabelMatch("Event title: " + eventTitle + "\n", Unlines(lines[1..]));
  }

  lemma MarketBlockHeader(k: nat, m: Market)
    ensures LinesStarting(MarketBlockLines(k, m), "# Market ") == ["# Market " + NatToString(k)]
  {
    var p := "# Market ";
    var lines := MarketBlockLines(k, m);
    var rest := lines[1..];
    forall i | 0 <= i < |rest| ensures !StartsWith(rest[i], p) {
      var l := rest[i];
      if l == OutcomesLine { assert l[0] != p[0]; }
      else if l == "" { }
      else if l == "Ticker: " + m.ticker { LabelMismatch("Ticker: ", m.ticker, p, 0); }
      else if l == "Title: " + m.title { LabelMismatch("Title: ", m.title, p, 0); }
      else if l == "Subtitle: " + m.yesSubTitle { LabelMismatch("Subtitle: ", m.yesSubTitle, p, 0); }
      else if l == "Rules: " + m.rulesPrimary { LabelMismatch("Rules: ", m.rulesPrimary, p, 0); }
      else if l == "Scheduled close date: " + m.expirationTime { LabelMismatch("Scheduled close date: ", m.expirationTime, p, 0); }
      else { LabelMismatch("Secondary rules: ", m.rulesSecondary.text, p, 0); }
    }
    NoneStarting(rest, p);
    LabelMatch(p, NatToString(k));
    OneStarting(lines[0], p);
    assert lines == [lines[0]] + rest;
    FilterMapAppend(Selecting(p), [lines[0]], rest);
  }

  lemma MarketBlockSecondary(k: nat, m: Market)
    ensures LinesStarting(MarketBlockLines(k, m), "Secondary rules: ") == SecondaryLines(m)
  {
    var p := "Secondary rules: ";
    var head := ["# Market " + NatToString(k), "Ticker: " + m.ticker, "Title: " + m.title, "Subtitle: " + m.yesSubTitle,
                 OutcomesLine, "Rules: " + m.rulesPrimary];
    var tail := ["Scheduled close date: " + m.expirationTime, ""];
    forall i | 0 <= i < |head| ensures !StartsWith(head[i], p) {
      if i == 0 { LabelMismatch("# Market ", NatToString(k), p, 0); }
      else if i == 1 { LabelMismatch("Ticker: ", m.ticker, p, 0); }
      else if i == 2 { LabelMismatch("Title: ", m.title, p, 0); }
      else if i == 3 { LabelMismatch("Subtitle: ", m.yesSubTitle, p, 1); }
      else if i == 4 { assert head[i][0] != p[0]; }
      else { LabelMismatch("Rules: ", m.rulesPrimary, p, 0); }
    }
    forall i | 0 <= i < |tail| ensures !StartsWith(tail[i], p) {
      if i == 0 { LabelMismatch("Scheduled close date: ", m.expirationTime, p, 1); }
    }
    NoneStarting(head, p);
    NoneStarting(tail, p);
    SecondarySelected(m);
    FilterMapAppend(Selecting(p), head, SecondaryLines(m));
    FilterMapAppend(Selecting(p), head + SecondaryLines(m), tail);
  }

  lemma SecondarySelected(m: Market)
    ensures LinesStarting(SecondaryLines(m), "Secondary rules: ") == SecondaryLines(m)
  {
    if IsTruthyField(m.rulesSecondary) {
      LabelMatch("Secondary rules: ", m.rulesSecondary.text);
      OneStarting("Secondary rules: " + m.rulesSecondary.text, "Secondary rules: ");
    }
  }

  /** A multi-market description carries the headers `# Market 1` to `# Market n`,
      in market order, and no other line starting with `# Market `. */
  lemma MarketHeadersInOrder(eventTitle: string, ms: seq<Market>)
    requires |ms| != 1
    ensures LinesStarting(DescriptionLines(eventTitle, ms), "# Market ")
            == seq(|ms|, k requires 0 <= k < |ms| => "# Market " + NatToString(k + 1))
  {
    var blocks := MarketBlocks(ms);
    FilterMapFlatten(Selecting("# Market "), blocks);
    var per := seq(|blocks|, k requires 0 <= k < |blocks| => FilterMap(Selecting("# Market "), blocks[k]));
    var headers := seq(|ms|, k requires 0 <= k < |ms| => "# Market " + NatToString(k + 1));
    forall k | 0 <= k < |ms| ensures per[k] == [headers[k]] {
      MarketBlockHeader(k + 1, ms[k]);
    }
    assert per == seq(|headers|, k requires 0 <= k < |headers| => [headers[k]]);
    FlattenSingletons(headers);
  }

  /** When no line of the list holds a newline, the text's "\n"-separated
      pieces are the list and one final empty piece, so the text carries the
      same labelled lines as the list. */
  lemma TextLinesStarting(lines: seq<string>, prefix: string)
    requires prefix != ""
    requires forall k :: 0 <= k < |lines| ==> NoNewline(lines[k])
    ensures LinesStarting(SplitNewline(Unlines(lines)), prefix) == LinesStarting(lines, prefix)
  {
    SplitNewlineUnlines(lines);
    FilterMapAppend(Selecting(prefix), lines, [""]);
    assert [""][1..] == [];
    assert FilterMap(Selecting(prefix), [""]) == [];
  }

  /** The same headers, read off the description text itself, when no market
      field holds a newline. */
  lemma MarketHeadersInText(eventTitle: string, ms: seq<Market>)
    requires |ms| != 1
    requires var lines := DescriptionLines(eventTitle, ms);
             forall k :: 0 <= k < |lines| ==> NoNewline(lines[k])
    ensures LinesStarting(SplitNewline(Unlines(DescriptionLines(eventTitle, ms))), "# Market ")
            == seq(|ms|, k requires 0 <= k < |ms| => "# Market " + NatToString(k + 1))
  {
    MarketHeadersInOrder(eventTitle, ms);
    TextLinesStarting(DescriptionLines(eventTitle, ms), "# Market ");
  }

  /** A `Secondary rules:` line is emitted for a market exactly when its
      `rules_secondary` is truthy, in market order, for one market or many. */
  lemma SecondaryRulesIffTruthy(eventTitle: string, ms: seq<Market>)
    ensures LinesStarting(DescriptionLines(eventTitle, ms), "Secondary rules: ")
            == Flatten(seq(|ms|, k requires 0 <= k < |ms| => SecondaryLines(ms[k])))
  {
    var p := "Secondary rules: ";
    var all := seq(|ms|, k requires 0 <= k < |ms| => SecondaryLines(ms[k]));
    if |ms| == 1 {
      SingleSecondaryLines(eventTitle, ms[0]);
      assert DescriptionLines(eventTitle, ms) == SingleMarketLines(eventTitle, ms[0]);
      assert all == [SecondaryLines(ms[0])];
      assert Flatten(all) == SecondaryLines(ms[0]) + Flatten([]);
    } else {
      var blocks := MarketBlocks(ms);
      FilterMapFlatten(Selecting(p), blocks);
      var per := seq(|blocks|, k requires 0 <= k < |blocks| => FilterMap(Selecting(p), blocks[k]));
      forall k | 0 <= k < |ms| ensures per[k] == SecondaryLines(ms[k]) {
        MarketBlockSecondary(k + 1, ms[k]);
      }
      assert per == all;
    }
  }

  /** The single-market lines hold the `Secondary rules:` line iff it is truthy. */
  lemma SingleSecondaryLines(eventTitle: string, m: Market)
    ensures LinesStarting(SingleMarketLines(eventTitle, m), "Secondary rules: ") == SecondaryLines(m)
  {
    var p := "Secondary rules: ";
    var head := ["Event title: " + eventTitle, "Title: " + m.title, "Subtitle: " + m.yesSubTitle, OutcomesLine,
                 "Rules: " + m.rulesPrimary];
    var tail := ["Scheduled close date: " + m.expirationTime];
    forall i | 0 <= i < |head| ensures !StartsWith(head[i], p) {
      if i == 0 { LabelMismatch("Event title: ", eventTitle, p, 0); }
      else if i == 1 { LabelMismatch("Title: ", m.title, p, 0); }
      else if i == 2 { LabelMismatch("Subtitle: ", m.yesSubTitle, p, 1); }
      else if i == 3 { assert head[i][0] != p[0]; }
      else { LabelMismatch("Rules: ", m.rulesPrimary, p, 0); }
    }
    LabelMismatch("Scheduled close date: ", m.expirationTime, p, 1);
    NoneStarting(head, p);
    NoneStarting(tail, p);
    SecondarySelected(m);
    FilterMapAppend(Selecting(p), head, SecondaryLines(m));
    FilterMapAppend(Selecting(p), head + SecondaryLines(m), tail);
    assert SingleMarketLines(eventTitle, m) == head + SecondaryLines(m) + tail;
  }

  // ---------------------------------------------------------------------------
  // Market descriptions (daily_report_generation)
  // ---------------------------------------------------------------------------

  function GenSingleMarketLines(eventTitle: string, m: Market): seq<string>
  {
    ["Event title: " + eventTitle, "Title: " + m.title, "Subtitle: " + m.yesSubTitle, OutcomesLine,
     "Rules: " + m.rulesPrimary]
    + SecondaryLines(m)
    + ["Scheduled close date: " + m.expirationTime, ResolveNote]
  }

  /** The k-th block of the multi-market variant: `getattr` on a dict always
      yields its default, so Subtitle and Rules are empty and no secondary line
      is written. */
  function GenMarketBlockLines(k: nat, m: Market): seq<string>
  {
    ["# Market " + NatToString(k), "Ticker: " + m.ticker, "Title: " + m.title, "Subtitle: ", OutcomesLine,
     "Rules: ", "Scheduled close date: " + m.expirationTime, ""]
  }

  function GenDescriptionLines(eventTitle: string, ms: seq<Market>): seq<string>
  {
    if |ms| == 1 then GenSingleMarketLines(eventTitle, ms[0])
    else Flatten(seq(|ms|, k requires 0 <= k < |ms| => GenMarketBlockLines(k + 1, ms[k])))
  }

  /** Appending `"\n" + tag + v` to a text that lacks only its final newline. */
  lemma ContinueLine(d: string, lines: seq<string>, tag: string, v: string)
    requires d + "\n" == Unlines(lines)
    ensures d + ("\n" + tag + v) + "\n" == Unlines(lines + [tag + v])
  {
    UnlinesSnoc(lines, tag + v);
    assert (d + "\n") + ((tag + v) + "\n") == d + ("\n" + tag + v) + "\n";
  }

  /** Closing such a text with a last line and a newline. */
  lemma CloseLine(d: string, lines: seq<string>, x: string)
    requires d + "\n" == Unlines(lines)
    ensures d + ("\n" + x + "\n") == Unlines(lines + [x])
  {
    UnlinesSnoc(lines, x);
    assert (d + "\n") + (x + "\n") == d + ("\n" + x + "\n");
  }

  /** Closing such a text with a last line and a blank line. */
  lemma CloseBlock(d: string, lines: seq<string>, tag: string, v: string)
    requires d + "\n" == Unlines(lines)
    ensures d + ("\n" + tag + v + "\n\n") == Unlines(lines + [tag + v, ""])
  {
    UnlinesAppend(lines, [tag + v, ""]);
    BlankTerminated(tag + v);
    assert (d + "\n") + ((tag + v) + "\n\n") == d + ("\n" + tag + v + "\n\n");
  }

  /** The single-market lines up to the rules, without the final newline. */
  lemma GenSingleHeadText(eventTitle: string, m: Market)
    ensures ("Event title: " + eventTitle + "\n") + ("Title: " + m.title + "\n") + ("Subtitle: " + m.yesSubTitle + "\n")
            + (OutcomesLine + "\n") + ("Rules: " + m.rulesPrimary) + "\n"
            == Unlines(["Event title: " + eventTitle, "Title: " + m.title, "Subtitle: " + m.yesSubTitle, OutcomesLine,
                        "Rules: " + m.rulesPrimary])
  {
    Unlines4("Event title: " + eventTitle, "Title: " + m.title, "Subtitle: " + m.yesSubTitle, OutcomesLine);
    UnlinesSnoc(["Event title: " + eventTitle, "Title: " + m.title, "Subtitle: " + m.yesSubTitle, OutcomesLine],
                "Rules: " + m.rulesPrimary);
    assert ["Event title: " + eventTitle, "Title: " + m.title, "Subtitle: " + m.yesSubTitle, OutcomesLine,
            "Rules: " + m.rulesPrimary]
           == ["Event title: " + eventTitle, "Title: " + m.title, "Subtitle: " + m.yesSubTitle, OutcomesLine]
              + ["Rules: " + m.rulesPrimary];
  }

  /** The text the concurrent script's single-market f-strings build. */
  lemma GenSingleMarketText(eventTitle: string, m: Market)
    ensures Unlines(GenSingleMarketLines(eventTitle, m))
            == ("Event title: " + eventTitle + "\n") + ("Title: " + m.title + "\n") + ("Subtitle: " + m.yesSubTitle + "\n")
               + (OutcomesLine + "\n") + ("Rules: " + m.rulesPrimary)
               + (if IsTruthyField(m.rulesSecondary) then "\n" + "Secondary rules: " + m.rulesSecondary.text else "")
               + ("\n" + "Scheduled close date: " + m.expirationTime)
               + ("\n" + ResolveNote + "\n")
  {
    var head := ["Event title: " + eventTitle, "Title: " + m.title, "Subtitle: " + m.yesSubTitle, OutcomesLine,
                 "Rules: " + m.rulesPrimary];
    var d0 := ("Event title: " + eventTitle + "\n") + ("Title: " + m.title + "\n") + ("Subtitle: " + m.yesSubTitle + "\n")
              + (OutcomesLine + "\n") + ("Rules: " + m.rulesPrimary);
    GenSingleHeadText(eventTitle, m);
    var sec := if IsTruthyField(m.rulesSecondary) then "\n" + "Secondary rules: " + m.rulesSecondary.text else "";
    var d1 := d0 + sec;
    if IsTruthyField(m.rulesSecondary) {
      ContinueLine(d0, head, "Secondary rules: ", m.rulesSecondary.text);
    } else {
      assert head + SecondaryLines(m) == head;
      assert d1 == d0;
    }
    var lines := head + SecondaryLines(m);
    assert d1 + "\n" == Unlines(lines);
    ContinueLine(d1, lines, "Scheduled close date: ", m.expirationTime);
    var d2 := d1 + ("\n" + "Scheduled close date: " + m.expirationTime);
    CloseLine(d2, lines + ["Scheduled close date: " + m.expirationTime], ResolveNote);
    assert lines + ["Scheduled close date: " + m.expirationTime] + [ResolveNote] == GenSingleMarketLines(eventTitle, m);
  }

  /** The text of the concurrent script's k-th market block. */
  lemma GenMarketBlockText(k: nat, m: Market)
    ensures Unlines(GenMarketBlockLines(k, m))
            == ("# Market " + NatToString(k) + "\n") + ("Ticker: " + m.ticker + "\n") + ("Title: " + m.title + "\n")
               + ("Subtitle: " + "\n") + (OutcomesLine + "\n") + "Rules: "
               + ("\n" + "Scheduled close date: " + m.expirationTime + "\n\n")
  {
    var head := ["# Market " + NatToString(k), "Ticker: " + m.ticker, "Title: " + m.title, "Subtitle: ", OutcomesLine];
    Unlines5(head[0], head[1], head[2], head[3], head[4]);
    var d := ("# Market " + NatToString(k) + "\n") + ("Ticker: " + m.ticker + "\n") + ("Title: " + m.title + "\n")
             + ("Subtitle: " + "\n") + (OutcomesLine + "\n") + "Rules: ";
    UnlinesSnoc(head, "Rules: ");
    assert d + "\n" == Unlines(head + ["Rules: "]);
    CloseBlock(d, head + ["Rules: "], "Scheduled close date: ", m.expirationTime);
    assert head + ["Rules: "] + ["Scheduled close date: " + m.expirationTime, ""] == GenMarketBlockLines(k, m);
  }

  /** The single-market branch reads `m['rules_secondary']` by subscript, so
      it raises KeyError for a market without that key; the multi-market
      branch only reads it through `getattr`, which never raises. */
  predicate GenDescribable(ms: seq<Market>)
  {
    |ms| != 1 || !ms[0].rulesSecondary.Missing?
  }

  /** The single-market f-strings of the concurrent script; None when the
      market has no `rules_secondary` key. */
  method GenSingleDescription(eventTitle: string, m: Market) returns (desc: Option<string>)
    ensures desc.None? <==> m.rulesSecondary.Missing?
    ensures desc.Some? ==> desc.value == Unlines(GenSingleMarketLines(eventTitle, m))
  {
    if m.rulesSecondary.Missing? {
      return None;
    }
    var d := ("Event title: " + eventTitle + "\n") + ("Title: " + m.title + "\n") + ("Subtitle: " + m.yesSubTitle + "\n")
             + (OutcomesLine + "\n") + ("Rules: " + m.rulesPrimary);
    ghost var head := d;
    if IsTruthyField(m.rulesSecondary) {
      d := d + ("\n" + "Secondary rules: " + m.rulesSecondary.text);
    }
    assert d == head + (if IsTruthyField(m.rulesSecondary) then "\n" + "Secondary rules: " + m.rulesSecondary.text else "");
    d := d + ("\n" + "Scheduled close date: " + m.expirationTime);
    d := d + ("\n" + ResolveNote + "\n");
    GenSingleMarketText(eventTitle, m);
    desc := Some(d);
  }

  /** The f-strings of the concurrent script's k-th market block; `getattr` on
      a dict yields the default, so subtitle and rules render empty. */
  method GenMarketBlock(k: nat, m: Market) returns (block: string)
    ensures block == Unlines(GenMarketBlockLines(k, m))
  {
    block := ("# Market " + NatToString(k) + "\n") + ("Ticker: " + m.ticker + "\n") + ("Title: " + m.title + "\n")
             + ("Subtitle: " + "\n") + (OutcomesLine + "\n") + "Rules: ";
    block := block + ("\n" + "Scheduled close date: " + m.expirationTime + "\n\n");
    GenMarketBlockText(k, m);
  }

  /** `get_market_descriptions(event, markets)` of the concurrent script: None
      when the single-market branch raises KeyError. */
  method GenGetMarketDescriptions(eventTitle: string, markets: seq<Market>) returns (desc: Option<string>)
    ensures desc.None? <==> !GenDescribable(markets)
    ensures desc.Some? ==> desc.value == Unlines(GenDescriptionLines(eventTitle, markets))
  {
    if |markets| == 1 {
      desc := GenSingleDescription(eventTitle, markets[0]);
      return;
    }
    var d := "";
    ghost var blocks := seq(|markets|, k requires 0 <= k < |markets| => GenMarketBlockLines(k + 1, markets[k]));
    var i := 0;
    while i < |markets|
      invariant i <= |markets|
      invariant d == Unlines(Flatten(blocks[..i]))
    {
      var block := GenMarketBlock(i + 1, markets[i]);
      UnlinesFlattenSnoc(blocks, i);
      d := d + block;
      i := i + 1;
    }
    assert blocks[..i] == blocks;
    desc := Some(d);
  }

  /** The concurrent single-market description holds a `Secondary rules:` line
      exactly when the field is a non-empty string. */
  lemma GenSingleSecondaryLines(eventTitle: string, m: Market)
    ensures LinesStarting(GenSingleMarketLines(eventTitle, m), "Secondary rules: ") == SecondaryLines(m)
  {
    var p := "Secondary rules: ";
    var head := ["Event title: " + eventTitle, "Title: " + m.title, "Subtitle: " + m.yesSubTitle, OutcomesLine,
                 "Rules: " + m.rulesPrimary];
    var tail := ["Scheduled close date: " + m.expirationTime, ResolveNote];
    forall i | 0 <= i < |head| ensures !StartsWith(head[i], p) {
      if i == 0 { LabelMismatch("Event title: ", eventTitle, p, 0); }
      else if i == 1 { LabelMismatch("Title: ", m.title, p, 0); }
      else if i == 2 { LabelMismatch("Subtitle: ", m.yesSubTitle, p, 1); }
      else if i == 3 { assert head[i][0] != p[0]; }
      else { LabelMismatch("Rules: ", m.rulesPrimary, p, 0); }
    }
    forall i | 0 <= i < |tail| ensures !StartsWith(tail[i], p) {
      if i == 0 { LabelMismatch("Scheduled close date: ", m.expirationTime, p, 1); }
      else { assert tail[i][0] != p[0]; }
    }
    NoneStarting(head, p);
    NoneStarting(tail, p);
    SecondarySelected(m);
    FilterMapAppend(Selecting(p), head, SecondaryLines(m));
    FilterMapAppend(Selecting(p), head + SecondaryLines(m), tail);
    assert GenSingleMarketLines(eventTitle, m) == head + SecondaryLines(m) + tail;
  }

  /** In the concurrent script's multi-market description no line ever starts
      with `Secondary rules:`, whatever the markets hold. */
  lemma GenMultiHasNoSecondary(eventTitle: string, ms: seq<Market>)
    requires |ms| != 1
    ensures LinesStarting(GenDescriptionLines(eventTitle, ms), "Secondary rules: ") == []
  {
    var p := "Secondary rules: ";
    var blocks := seq(|ms|, k requires 0 <= k < |ms| => GenMarketBlockLines(k + 1, ms[k]));
    forall i | 0 <= i < |Flatten(blocks)| ensures !StartsWith(Flatten(blocks)[i], p) {
      FlattenMember(blocks, i);
      var k :| 0 <= k < |blocks| && Flatten(blocks)[i] in blocks[k];
      GenBlockLineNotSecondary(k + 1, ms[k], Flatten(blocks)[i]);
    }
    NoneStarting(Flatten(blocks), p);
  }

  /** No line of a concurrent market block starts with `Secondary rules: `. */
  lemma GenBlockLineNotSecondary(k: nat, m: Market, l: string)
    requires l in GenMarketBlockLines(k, m)
    ensures !StartsWith(l, "Secondary rules: ")
  {
    var p := "Secondary rules: ";
    if l == "# Market " + NatToString(k) { LabelMismatch("# Market ", NatToString(k), p, 0); }
    else if l == "Ticker: " + m.ticker { LabelMismatch("Ticker: ", m.ticker, p, 0); }
    else if l == "Title: " + m.title { LabelMismatch("Title: ", m.title, p, 0); }
    else if l == "Scheduled close date: " + m.expirationTime { LabelMismatch("Scheduled close date: ", m.expirationTime, p, 1); }
    else if l == "Subtitle: " { assert l[1] != p[1]; }
    else if l == OutcomesLine { assert l[0] != p[0]; }
    else if l == "Rules: " { assert l[0] != p[0]; }
  }

  lemma {:induction false} FlattenMember<T>(xss: seq<seq<T>>, i: nat)
    requires i < |Flatten(xss)|
    ensures exists k :: 0 <= k < |xss| && Flatten(xss)[i] in xss[k]
    decreases |xss|
  {
    if i < |xss[0]| {
      assert Flatten(xss)[i] == xss[0][i];
    } else {
      FlattenMember(xss[1..], i - |xss[0]|);
      var k :| 0 <= k < |xss[1..]| && Flatten(xss[1..])[i - |xss[0]|] in xss[1..][k];
      assert xss[1..][k] == xss[k + 1];
    }
  }

  // ---------------------------------------------------------------------------
  // Article digest
  // ---------------------------------------------------------------------------

  /** The block of the i-th article (counting from 1), ending in a blank line. */
  function ArticleBlockLines(i: nat, c: Article): seq<string>
  {
    ["# Article " + NatToString(i), "Title: " + c.title, "Body: " + c.body, "Source URL: " + c.href,
     "Full Content: " + c.article, ""]
  }

  function DigestLines(cs: seq<Article>): seq<string>
  {
    Flatten(seq(|cs|, k requires 0 <= k < |cs| => ArticleBlockLines(k + 1, cs[k])))
  }

  /** The text of the k-th article block, piece by piece. */
  lemma ArticleBlockText(k: nat, c: Article)
    ensures Unlines(ArticleBlockLines(k, c))
            == ("# Article " + NatToString(k) + "\n") + ("Title: " + c.title + "\n") + ("Body: " + c.body + "\n")
               + ("Source URL: " + c.href + "\n") + ("Full Content: " + c.article + "\n\n")
  {
    var head := ["# Article " + NatToString(k), "Title: " + c.title, "Body: " + c.body, "Source URL: " + c.href];
    var tail := ["Full Content: " + c.article, ""];
    Unlines4(head[0], head[1], head[2], head[3]);
    BlankTerminated(tail[0]);
    UnlinesAppend(head, tail);
    assert head + tail == ArticleBlockLines(k, c);
  }

  /** The `all_articles` text of `summarize_articles`. */
  method ArticleDigest(contents: seq<Article>) returns (all: string)
    ensures all == Unlines(DigestLines(contents))
  {
    ghost var blocks := seq(|contents|, k requires 0 <= k < |contents| => ArticleBlockLines(k + 1, contents[k]));
    all := "";
    var i := 0;
    while i < |contents|
      invariant i <= |contents|
      invariant all == Unlines(Flatten(blocks[..i]))
    {
      var c := contents[i];
      all := all + (("# Article " + NatToString(i + 1) + "\n") + ("Title: " + c.title + "\n") + ("Body: " + c.body + "\n")
                    + ("Source URL: " + c.href + "\n") + ("Full Content: " + c.article + "\n\n"));
      ArticleBlockText(i + 1, c);
      UnlinesFlattenSnoc(blocks, i);
      i := i + 1;
    }
    assert blocks[..i] == blocks;
  }

  /** `articles_concatenated` of `step4_summarization`: the same blocks, stripped. */
  function GenArticleDigest(contents: seq<Article>): (r: string)
    ensures NoOuterSpace(r)
  {
    Strip(Unlines(DigestLines(contents)))
  }

  lemma ArticleBlockSelected(i: nat, c: Article)
    ensures LinesStarting(ArticleBlockLines(i, c), "# Article ") == ["# Article " + NatToString(i)]
    ensures LinesStarting(ArticleBlockLines(i, c), "Source URL: ") == ["Source URL: " + c.href]
  {
    var lines := ArticleBlockLines(i, c);
    var h, s := "# Article ", "Source URL: ";
    LabelMatch(h, NatToString(i));
    LabelMatch(s, c.href);
    LabelMismatch(h, NatToString(i), s, 0);
    LabelMismatch("Title: ", c.title, h, 0);
    LabelMismatch("Title: ", c.title, s, 0);
    LabelMismatch("Body: ", c.body, h, 0);
    LabelMismatch("Body: ", c.body, s, 0);
    LabelMismatch(s, c.href, h, 0);
    LabelMismatch("Full Content: ", c.article, h, 0);
    LabelMismatch("Full Content: ", c.article, s, 0);
    var pre, mid, post := lines[..3], [lines[3]], lines[4..];
    assert lines == [lines[0]] + lines[1..3] + mid + post;
    NoneStarting(lines[1..3], h);
    NoneStarting(mid, h);
    NoneStarting(post, h);
    OneStarting(lines[0], h);
    FilterMapAppend(Selecting(h), [lines[0]], lines[1..3]);
    FilterMapAppend(Selecting(h), [lines[0]] + lines[1..3], mid);
    FilterMapAppend(Selecting(h), [lines[0]] + lines[1..3] + mid, post);
    NoneStarting(pre, s);
    NoneStarting(post, s);
    OneStarting(lines[3], s);
    assert lines == pre + mid + post;
    FilterMapAppend(Selecting(s), pre, mid);
    FilterMapAppend(Selecting(s), pre + mid, post);
  }

  /** The digest numbers its articles `# Article 1` to `# Article n` in list
      order, and its `Source URL:` lines are the articles' URLs in the same order. */
  lemma DigestNumberedInOrder(cs: seq<Article>)
    ensures LinesStarting(DigestLines(cs), "# Article ") == seq(|cs|, k requires 0 <= k < |cs| => "# Article " + NatToString(k + 1))
    ensures LinesStarting(DigestLines(cs), "Source URL: ") == seq(|cs|, k requires 0 <= k < |cs| => "Source URL: " + cs[k].href)
  {
    var blocks := seq(|cs|, k requires 0 <= k < |cs| => ArticleBlockLines(k + 1, cs[k]));
    FilterMapFlatten(Selecting("# Article "), blocks);
    FilterMapFlatten(Selecting("Source URL: "), blocks);
    var headers := seq(|cs|, k requires 0 <= k < |cs| => "# Article " + NatToString(k + 1));
    var urls := seq(|cs|, k requires 0 <= k < |cs| => "Source URL: " + cs[k].href);
    forall k | 0 <= k < |cs| ensures FilterMap(Selecting("# Article "), blocks[k]) == [headers[k]]
                                  && FilterMap(Selecting("Source URL: "), blocks[k]) == [urls[k]] {
      ArticleBlockSelected(k + 1, cs[k]);
    }
    assert seq(|blocks|, k requires 0 <= k < |blocks| => FilterMap(Selecting("# Article "), blocks[k]))
        == seq(|headers|, k requires 0 <= k < |headers| => [headers[k]]);
    assert seq(|blocks|, k requires 0 <= k < |blocks| => FilterMap(Selecting("Source URL: "), blocks[k]))
        == seq(|urls|, k requires 0 <= k < |urls| => [urls[k]]);
    FlattenSingletons(headers);
    FlattenSingletons(urls);
  }

  /** The same headers and URLs, read off the digest text itself, when no
      article field holds a newline. */
  lemma DigestNumberedInText(cs: seq<Article>)
    requires forall k :: 0 <= k < |DigestLines(cs)| ==> NoNewline(DigestLines(cs)[k])
    ensures LinesStarting(SplitNewline(Unlines(DigestLines(cs))), "# Article ")
            == seq(|cs|, k requires 0 <= k < |cs| => "# Article " + NatToString(k + 1))
    ensures LinesStarting(SplitNewline(Unlines(DigestLines(cs))), "Source URL: ")
            == seq(|cs|, k requires 0 <= k < |cs| => "Source URL: " + cs[k].href)
  {
    DigestNumberedInOrder(cs);
    TextLinesStarting(DigestLines(cs), "# Article ");
    TextLinesStarting(DigestLines(cs), "Source URL: ");
  }

  /** The stripped digest of the concurrent script only loses the trailing blank
      line: it is the plain digest without its trailing whitespace, and it is
      empty exactly when there are no articles. */
  lemma GenDigestTrimsOnlyTheEnd(cs: seq<Article>)
    ensures var d := Unlines(DigestLines(cs));
            GenArticleDigest(cs) == d[..|d| - TrailCount(d)]
    ensures GenArticleDigest(cs) == "" <==> cs == []
  {
    var d := Unlines(DigestLines(cs));
    if cs == [] {
      assert d == "";
      StripNoLead(d);
    } else {
      DigestOpensWithHash(cs);
      StripNoLead(d);
      assert TrailCount(d) < |d|;
    }
  }

  /** A digest with an article opens with the `#` of `# Article 1`. */
  lemma DigestOpensWithHash(cs: seq<Article>)
    requires cs != []
    ensures var d := Unlines(DigestLines(cs)); d != "" && d[0] == '#'
  {
    var blocks := seq(|cs|, k requires 0 <= k < |cs| => ArticleBlockLines(k + 1, cs[k]));
    var lines := DigestLines(cs);
    assert lines == blocks[0] + Flatten(blocks[1..]);
    assert lines[0] == "# Article " + NatToString(1);
    var d := Unlines(lines);
    assert d == lines[0] + "\n" + Unlines(lines[1..]);
    assert d[0] == lines[0][0];
  }

  // ---------------------------------------------------------------------------
  // Query post-processing
  // ---------------------------------------------------------------------------

  /** `generate_search_queries`: the stripped, non-blank lines of the reply. */
  function GenerateSearchQueries(output: string): (qs: seq<string>)
    ensures forall k :: 0 <= k < |qs| ==> qs[k] != "" && NoOuterSpace(qs[k])
  {
    CleanLines(SplitLines(output))
  }

  /** `step1_generate_queries`: strip the reply, split at "\n", keep the
      stripped non-blank pieces. */
  function Step1Queries(output: string): (qs: seq<string>)
    ensures forall k :: 0 <= k < |qs| ==> qs[k] != "" && NoOuterSpace(qs[k])
  {
    CleanLines(SplitNewline(Strip(output)))
  }

  /** Lines that are already clean survive cleaning unchanged. */
  lemma {:induction false} CleanLinesIdentity(lines: seq<string>)
    requires forall k :: 0 <= k < |lines| ==> lines[k] != "" && NoOuterSpace(lines[k])
    ensures CleanLines(lines) == lines
    decreases |lines|
  {
    if lines != [] {
      StripIdentity(lines[0]);
      CleanLinesIdentity(lines[1..]);
    }
  }

  /** Cleaning keeps the order of the lines: the queries are the stripped lines
      minus the blank ones. */
  lemma {:induction false} CleanLinesInOrder(lines: seq<string>)
    ensures IsSubsequence(CleanLines(lines), seq(|lines|, k requires 0 <= k < |lines| => Strip(lines[k])))
    decreases |lines|
  {
    var all := seq(|lines|, k requires 0 <= k < |lines| => Strip(lines[k]));
    if lines != [] {
      CleanLinesInOrder(lines[1..]);
      var rest := seq(|lines| - 1, k requires 0 <= k < |lines| - 1 => Strip(lines[1..][k]));
      assert all[1..] == rest;
      var c, h := CleanLines(lines), all[0];
      if h != [] {
        assert c == [h] + CleanLines(lines[1..]);
        assert c[1..] == CleanLines(lines[1..]);
        assert IsSubsequence(c[1..], all[1..]);
      } else {
        assert c == CleanLines(lines[1..]);
        assert c != [] ==> c[0] != h;
        assert IsSubsequence(c, all[1..]);
      }
    }
  }

  /** The query list is recovered from a reply that lists clean queries one per line. */
  lemma QueriesRoundTrip(qs: seq<string>)
    requires forall k :: 0 <= k < |qs| ==> qs[k] != "" && NoOuterSpace(qs[k]) && NoLineBoundary(qs[k])
    ensures GenerateSearchQueries(Join(qs, "\n")) == qs
  {
    SplitLinesJoin(qs);
    CleanLinesIdentity(qs);
  }

  lemma {:induction false} JoinEnds(parts: seq<string>, sep: string)
    requires |parts| >= 1 && forall k :: 0 <= k < |parts| ==> parts[k] != ""
    ensures Join(parts, sep) != ""
    ensures Join(parts, sep)[0] == parts[0][0]
    ensures Join(parts, sep)[|Join(parts, sep)| - 1] == parts[|parts| - 1][|parts[|parts| - 1]| - 1]
    decreases |parts|
  {
    if |parts| > 1 {
      assert parts[1..][|parts[1..]| - 1] == parts[|parts| - 1];
      JoinEnds(parts[1..], sep);
    }
  }

  /** The concurrent script's post-processing recovers the same query list. */
  lemma Step1RoundTrip(qs: seq<string>)
    requires forall k :: 0 <= k < |qs| ==> qs[k] != "" && NoOuterSpace(qs[k]) && NoNewline(qs[k])
    ensures Step1Queries(Join(qs, "\n")) == qs
  {
    if qs == [] {
      StripIdentity("");
      assert SplitNewline("") == [""];
      assert CleanLines([""]) == [];
    } else {
      JoinEnds(qs, "\n");
      StripIdentity(Join(qs, "\n"));
      SplitNewlineJoin(qs);
      CleanLinesIdentity(qs);
    }
  }

  /** A blank reply (what `run_openai` returns on error) yields no queries. */
  lemma BlankReplyNoQueries(output: string)
    requires AllSpace(output)
    ensures Step1Queries(output) == []
    ensures GenerateSearchQueries(output) == []
  {
    assert output[..0] == [] && output[0..] == output;
    StripUnique(output, 0, "");
    assert SplitNewline("") == [""];
    assert CleanLines([""]) == [];
    BlankLinesClean(output);
  }

  lemma {:induction false} BlankLinesClean(s: string)
    requires AllSpace(s)
    ensures CleanLines(SplitLines(s)) == []
    decreases |s|
  {
    if s != [] {
      var i := BoundaryIndex(s);
      var piece := s[..i];
      AllSpaceSlice(s, 0, i);
      StripBlank(piece);
      if i < |s| {
        var next := if s[i] == '\r' && i + 1 < |s| && s[i + 1] == '\n' then i + 2 else i + 1;
        AllSpaceSlice(s, next, |s|);
        BlankLinesClean(s[next..]);
        var rest := SplitLines(s[next..]);
        assert SplitLines(s) == [piece] + rest;
        assert ([piece] + rest)[1..] == rest;
      } else {
        assert SplitLines(s) == [s];
        assert [s][1..] == [];
      }
    }
  }

  lemma AllSpaceSlice(s: string, a: nat, b: nat)
    requires AllSpace(s) && a <= b <= |s|
    ensures AllSpace(s[a..b])
  {
    forall k | 0 <= k < b - a ensures IsSpace(s[a..b][k]) {
      assert s[a..b][k] == s[a + k];
    }
  }

  /** Stripping a blank text leaves nothing. */
  lemma StripBlank(s: string)
    requires AllSpace(s)
    ensures Strip(s) == ""
  {
    assert s[..0] == [] && s[0..] == s;
    StripUnique(s, 0, "");
  }

  // ---------------------------------------------------------------------------
  // The combined research report
  // ---------------------------------------------------------------------------

  /** `# Research Report i` then the summary; the concurrent script writes a colon
      after the number. */
  function ReportBlock(i: nat, summary: string, colon: bool): string
  {
    "# Research Report " + NatToString(i) + (if colon then ":" else "") + "\n" + summary
  }

  function ReportBlocks(summaries: seq<string>, colon: bool): (bs: seq<string>)
    ensures |bs| == |summaries|
  {
    seq(|summaries|, i requires 0 <= i < |summaries| => ReportBlock(i + 1, summaries[i], colon))
  }

  /** The blocks joined by a blank line, then stripped. */
  function CombinedReport(summaries: seq<string>, colon: bool): (r: string)
    ensures NoOuterSpace(r)
  {
    Strip(Join(ReportBlocks(summaries, colon), "\n\n"))
  }

  /** Stripping a text that opens with a header whose first and last characters
      are not whitespace keeps the header. */
  lemma StripKeepsHeader(j: string, h: string)
    requires h != [] && StartsWith(j, h) && !IsSpace(h[0]) && !IsSpace(h[|h| - 1])
    ensures Strip(j) == j[..|j| - TrailCount(j)]
    ensures StartsWith(Strip(j), h)
  {
    assert j[..|h|][0] == j[0];
    StripNoLead(j);
    var t := TrailCount(j);
    assert j[..|h|][|h| - 1] == j[|h| - 1];
    assert !IsSpace(j[|h| - 1]);
    assert t <= |j| - |h|;
    PrefixOfPrefix(j, |j| - t, |h|);
  }

  lemma PrefixOfPrefix(s: string, n: nat, k: nat)
    requires k <= n <= |s|
    ensures s[..n][..k] == s[..k]
  {
  }

  /** The stripped report loses only trailing whitespace, opens with the first
      header, and is empty exactly when there are no summaries. */
  lemma CombinedReportShape(summaries: seq<string>, colon: bool)
    ensures var j := Join(ReportBlocks(summaries, colon), "\n\n");
            CombinedReport(summaries, colon) == j[..|j| - TrailCount(j)]
    ensures CombinedReport(summaries, colon) == "" <==> summaries == []
    ensures summaries != [] ==> StartsWith(CombinedReport(summaries, colon), "# Research Report 1")
  {
    var bs := ReportBlocks(summaries, colon);
    var j := Join(bs, "\n\n");
    if summaries == [] {
      StripNoLead(j);
    } else {
      var h := "# Research Report 1";
      assert NatToString(1) == "1";
      assert bs[0] == h + ((if colon then ":" else "") + "\n" + summaries[0]);
      assert StartsWith(bs[0], h);
      JoinStartsWith(bs, "\n\n");
      assert j[..|h|] == bs[0][..|h|];
      StripKeepsHeader(j, h);
    }
  }

  lemma {:induction false} JoinSnoc(parts: seq<string>, x: string, sep: string)
    requires parts != []
    ensures Join(parts + [x], sep) == Join(parts, sep) + sep + x
    decreases |parts|
  {
    if |parts| == 1 {
      assert (parts + [x])[1..] == [x];
    } else {
      assert (parts + [x])[1..] == parts[1..] + [x];
      JoinSnoc(parts[1..], x, sep);
    }
  }

  /** One block per summary, numbered in order: the report of one more summary is
      the previous report's blocks, a blank line, and the next numbered block. */
  lemma ReportBlocksInOrder(summaries: seq<string>, x: string, colon: bool)
    requires summaries != []
    ensures Join(ReportBlocks(summaries + [x], colon), "\n\n")
            == Join(ReportBlocks(summaries, colon), "\n\n") + "\n\n" + ReportBlock(|summaries| + 1, x, colon)
  {
    assert ReportBlocks(summaries + [x], colon) == ReportBlocks(summaries, colon) + [ReportBlock(|summaries| + 1, x, colon)];
    JoinSnoc(ReportBlocks(summaries, colon), ReportBlock(|summaries| + 1, x, colon), "\n\n");
  }

  /** Distinct positions get distinct headers. */
  lemma ReportHeadersDistinct(i: nat, j: nat, a: string, b: string, colon: bool)
    requires i != j
    ensures ReportBlock(i, a, colon)[..|"# Research Report "| + |NatToString(i)|]
            != ReportBlock(j, b, colon)[..|"# Research Report "| + |NatToString(j)|]
  {
    var p := "# Research Report ";
    assert ReportBlock(i, a, colon)[..|p| + |NatToString(i)|] == p + NatToString(i);
    assert ReportBlock(j, b, colon)[..|p| + |NatToString(j)|] == p + NatToString(j);
    if p + NatToString(i) == p + NatToString(j) {
      assert NatToString(i) == (p + NatToString(i))[|p|..];
      assert NatToString(j) == (p + NatToString(j))[|p|..];
      NatToStringInjective(i, j);
    }
  }
}
