/**
 * The reasoning-block handling of the chat window's `formatMessage`
 * (renderer/llm-chat.js:294-367). A model's `<think>…</think>` sections are
 * cut out of the reply, the rest is rendered with numbered placeholders in
 * their place, and each placeholder is then replaced by a collapsible
 * `<details>` element holding the rendered section. The Markdown renderer
 * and the sanitiser (or the escaping fallback) are the parameter `render`.
 */
module ThinkFormat {
  import opened Wrappers
  import opened Text

  const OpenTag: string := "<think>"
  const CloseTag: string := "</think>"

  /** A reply still streaming its reasoning: more `<think>` than `</think>` (llm-chat.js:309-311). */
  predicate IsThinking(text: string) {
    CountOf(text, OpenTag) > CountOf(text, CloseTag)
  }

  /** Neither tag can overlap itself: `<` appears only at its start. */
  lemma TagsUnbordered()
    ensures Unbordered(OpenTag) && Unbordered(CloseTag)
  {
    forall k | 0 < k < |OpenTag| ensures OpenTag[k..] != OpenTag[..|OpenTag| - k] {
      assert OpenTag[k..][0] == OpenTag[k] != '<';
    }
    forall k | 0 < k < |CloseTag| ensures CloseTag[k..] != CloseTag[..|CloseTag| - k] {
      assert CloseTag[k..][0] == CloseTag[k] != '<';
    }
  }

  /**
   * The two counts `IsThinking` compares are the numbers of positions at
   * which each tag occurs.
   */
  lemma TagCounts(text: string)
    ensures CountOf(text, OpenTag) == Occurrences(text, OpenTag)
    ensures CountOf(text, CloseTag) == Occurrences(text, CloseTag)
  {
    TagsUnbordered();
    CountOfOccurrences(text, OpenTag);
    CountOfOccurrences(text, CloseTag);
  }

  /** The working copy `formatMessage` parses: one `</think>` appended while thinking (llm-chat.js:305-314). */
  function Prepared(text: string): (t: string)
    ensures IsThinking(text) ==> t == text + CloseTag
    ensures !IsThinking(text) ==> t == text
  {
    if IsThinking(text) then text + CloseTag else text
  }

  /** A section of the working copy: plain text, or the inside of a `<think>` block. */
  datatype Piece = Literal(text: string) | Think(content: string)

  /** The text the pieces were cut from. */
  function Source(ps: seq<Piece>): string {
    if ps == [] then ""
    else (match ps[0] case Literal(s) => s case Think(c) => OpenTag + c + CloseTag) + Source(ps[1..])
  }

  /** No `<think>` in `t` has a `</think>` after it: the global regular expression finds nothing more. */
  ghost predicate NoBlock(t: string) {
    forall i, j :: OccursAt(t, OpenTag, i) && i + |OpenTag| <= j ==> !OccursAt(t, CloseTag, j)
  }

  /** `pat` does not occur in `t`. */
  ghost predicate Absent(t: string, pat: string) {
    forall j :: !OccursAt(t, pat, j)
  }

  /**
   * The shape of a left-to-right cut: text without `<think>`, a block
   * without `</think>` inside, and so on, ending in text in which no
   * further block starts.
   */
  ghost predicate WellCut(ps: seq<Piece>)
    decreases |ps|
  {
    if |ps| < 3 then |ps| == 1 && ps[0].Literal? && NoBlock(ps[0].text)
    else
      && ps[0].Literal? && Absent(ps[0].text, OpenTag)
      && ps[1].Think? && Absent(ps[1].content, CloseTag)
      && WellCut(ps[2..])
  }

  /** Without a `<think>`, or without a `</think>` after the first one, there is no block. */
  lemma NoFirstBlock(t: string)
    requires IndexOf(t, OpenTag).None? || IndexOf(t[IndexOf(t, OpenTag).value + |OpenTag|..], CloseTag).None?
    ensures NoBlock(t)
  {
    if IndexOf(t, OpenTag).Some? {
      var i := IndexOf(t, OpenTag).value;
      forall a, j | OccursAt(t, OpenTag, a) && a + |OpenTag| <= j ensures !OccursAt(t, CloseTag, j) {
        assert !(a < i);
        if OccursAt(t, CloseTag, j) {
          OccursInSuffix(t, CloseTag, i + |OpenTag|, j);
        }
      }
    }
  }

  /** The first block: no `<think>` before it, no `</think>` inside it. */
  lemma FirstBlock(t: string, i: nat, j: nat)
    requires IndexOf(t, OpenTag) == Some(i) && IndexOf(t[i + |OpenTag|..], CloseTag) == Some(j)
    ensures Absent(t[..i], OpenTag) && Absent(t[i + |OpenTag|..][..j], CloseTag)
  {
    var after := t[i + |OpenTag|..];
    forall k ensures !OccursAt(after[..j], CloseTag, k) {
      if OccursAt(after[..j], CloseTag, k) {
        OccursInPrefix(after, CloseTag, j, k);
      }
    }
    forall k ensures !OccursAt(t[..i], OpenTag, k) {
      if OccursAt(t[..i], OpenTag, k) {
        OccursInPrefix(t, OpenTag, i, k);
      }
    }
  }

  /**
   * The matches of `/<think>([\s\S]*?)<\/think>/g`, left to right
   * (llm-chat.js:318-322): each block runs from the first `<think>` to the
   * nearest `</think>` after it; the text between blocks is kept.
   */
  function Segments(t: string): (ps: seq<Piece>)
    ensures WellCut(ps)
    decreases |t|
  {
    match IndexOf(t, OpenTag)
    case None =>
      NoFirstBlock(t);
      [Literal(t)]
    case Some(i) =>
      var after := t[i + |OpenTag|..];
      match IndexOf(after, CloseTag)
      case None =>
        NoFirstBlock(t);
        [Literal(t)]
      case Some(j) =>
        FirstBlock(t, i, j);
        var ps := [Literal(t[..i]), Think(after[..j])] + Segments(after[j + |CloseTag|..]);
        assert ps[2..] == Segments(after[j + |CloseTag|..]);
        ps
  }

  /** Cutting the working copy into pieces loses nothing: the pieces spell it out again. */
  lemma {:induction false} SegmentsSource(t: string)
    ensures Source(Segments(t)) == t
    decreases |t|
  {
    var open := IndexOf(t, OpenTag);
    if open.None? || IndexOf(t[open.value + |OpenTag|..], CloseTag).None? {
      assert Segments(t) == [Literal(t)];
      SourceLiteral(t);
    } else {
      var i := open.value;
      var after := t[i + |OpenTag|..];
      var j := IndexOf(after, CloseTag).value;
      var rest := after[j + |CloseTag|..];
      assert Segments(t) == [Literal(t[..i]), Think(after[..j])] + Segments(rest);
      SegmentsSource(rest);
      SourceStep(t[..i], after[..j], Segments(rest));
      CutAtBlock(t, i, j);
    }
  }

  /** A single literal spells out its text. */
  lemma SourceLiteral(t: string)
    ensures Source([Literal(t)]) == t
  {
    assert [Literal(t)][1..] == [];
    assert t + "" == t;
  }

  /** The text of a literal and a block in front of more pieces. */
  lemma SourceStep(a: string, c: string, rest: seq<Piece>)
    ensures Source([Literal(a), Think(c)] + rest) == a + OpenTag + c + CloseTag + Source(rest)
  {
    var ps := [Literal(a), Think(c)] + rest;
    assert ps[1..][1..] == rest;
    assert Source(ps[1..]) == OpenTag + c + CloseTag + Source(rest);
  }

  /** A text is what comes before a block, the block and what follows it. */
  lemma CutAtBlock(t: string, i: nat, j: nat)
    requires OccursAt(t, OpenTag, i) && OccursAt(t[i + |OpenTag|..], CloseTag, j)
    ensures var after := t[i + |OpenTag|..];
      t == t[..i] + OpenTag + after[..j] + CloseTag + after[j + |CloseTag|..]
  {
    var after := t[i + |OpenTag|..];
    assert after == after[..j] + after[j..j + |CloseTag|] + after[j + |CloseTag|..];
    assert t == t[..i] + t[i..i + |OpenTag|] + after;
  }

  /** `thinkBlocks`: the contents of the blocks, in order. */
  function Blocks(ps: seq<Piece>): (bs: seq<string>)
    ensures |bs| <= |ps|
  {
    if ps == [] then []
    else (if ps[0].Think? then [ps[0].content] else []) + Blocks(ps[1..])
  }

  /** The pieces alternate text and blocks, and `thinkBlocks[k]` is the inside of the k-th block from the left. */
  lemma {:induction false} BlockOrder(ps: seq<Piece>)
    requires WellCut(ps)
    ensures |ps| == 2 * |Blocks(ps)| + 1
    ensures forall k :: 0 <= k < |Blocks(ps)| ==> ps[2 * k + 1] == Think(Blocks(ps)[k])
    decreases |ps|
  {
    if |ps| >= 3 {
      var rest := ps[2..];
      BlocksFront(ps);
      BlockOrder(rest);
      var bs, br := Blocks(ps), Blocks(rest);
      assert bs == [ps[1].content] + br;
      forall k | 0 <= k < |bs| ensures ps[2 * k + 1] == Think(bs[k]) {
        if k > 0 {
          assert ps[2 * k + 1] == rest[2 * (k - 1) + 1];
          assert bs[k] == br[k - 1];
        }
      }
    }
  }

  /** The blocks of pieces that start with a literal and a block. */
  lemma BlocksFront(ps: seq<Piece>)
    requires |ps| >= 2 && ps[0].Literal? && ps[1].Think?
    ensures Blocks(ps) == [ps[1].content] + Blocks(ps[2..])
  {
    assert ps[1..][1..] == ps[2..];
    assert Blocks(ps) == [] + Blocks(ps[1..]);
  }

  /** `THINKBLOCKPLACEHOLDER<i>END`. */
  function Placeholder(i: nat): string {
    "THINKBLOCKPLACEHOLDER" + NatToString(i) + "END"
  }

  /** The working copy with block `n + k` replaced by its placeholder: the text that is rendered. */
  function Masked(ps: seq<Piece>, n: nat): string {
    if ps == [] then ""
    else
      match ps[0]
      case Literal(s) => s + Masked(ps[1..], n)
      case Think(_) => Placeholder(n) + Masked(ps[1..], n + 1)
  }

  /** A reply still thinking has at least one block: the `</think>` appended closes the first `<think>`. */
  lemma ThinkingHasBlock(text: string)
    requires IsThinking(text)
    ensures |Blocks(Segments(Prepared(text)))| >= 1
  {
    var t := text + CloseTag;
    assert Prepared(text) == t;
    var i :| OccursAt(text, OpenTag, i);
    assert t[..|text|] == text;
    OccursInPrefix(t, OpenTag, |text|, i);
    assert t[|text|..] == CloseTag;
    BlockFound(t, i, |text|);
  }

  /** A `<think>` with a `</think>` somewhere after it makes a block. */
  lemma BlockFound(t: string, a: nat, k: nat)
    requires OccursAt(t, OpenTag, a) && a + |OpenTag| <= k && OccursAt(t, CloseTag, k)
    ensures |Blocks(Segments(t))| >= 1
  {
    var first := IndexOf(t, OpenTag).value;
    assert first <= a;
    OccursInSuffix(t, CloseTag, first + |OpenTag|, k);
    var after := t[first + |OpenTag|..];
    var j := IndexOf(after, CloseTag).value;
    var ps := Segments(t);
    assert ps == [Literal(t[..first]), Think(after[..j])] + Segments(after[j + |CloseTag|..]);
    BlocksFront(ps);
  }

  /** The summary line and the opening of the content `div`, shared by both wrappers. */
  const SummaryStart: string := "<summary class=\"think-summary\">" + "<span class=\"think-icon\">" + "💭</span> "
  const SummaryEnd: string := "</summary>" + "<div class=\"think-content " + "markdown-body\">"
  const DetailsEnd: string := "</div></details>"

  const ClosedHead: string := "<details class=\"think-block\">" + SummaryStart + "推論過程を表示" + SummaryEnd
  const OpenHead: string := "<details class=\"think-block " + "thinking\" open>" + SummaryStart + "思考中..." + SummaryEnd

  /** The `<details>` element of a finished block (llm-chat.js:358). */
  function ClosedDetails(contentHtml: string): string {
    ClosedHead + contentHtml + DetailsEnd
  }

  /** The open `<details>` element of the block still being written (llm-chat.js:356). */
  function OpenDetails(contentHtml: string): string {
    OpenHead + contentHtml + DetailsEnd
  }

  /** The wrapper of block `i` of `n` (llm-chat.js:352-359): open exactly for the last block of a reply still thinking. */
  function Wrapper(i: nat, n: nat, thinking: bool, contentHtml: string): (r: string)
    ensures r == OpenDetails(contentHtml) <==> thinking && i + 1 == n
    ensures r == ClosedDetails(contentHtml) <==> !(thinking && i + 1 == n)
  {
    assert OpenDetails(contentHtml)[27] != ClosedDetails(contentHtml)[27];
    if thinking && i + 1 == n then OpenDetails(contentHtml) else ClosedDetails(contentHtml)
  }

  /**
   * The text a match is replaced with by `String.prototype.replace` given a
   * replacement string, for a pattern without capture groups (GetSubstitution
   * in section 22.1.3.19.1 of ECMA-262): `$$`, `$&`, `` $` `` and `$'` are
   * expanded, every other character is kept.
   */
  function Expand(r: string, matched: string, before: string, after: string): string
    decreases |r|
  {
    if r == [] then []
    else if r[0] == '$' && |r| >= 2 && IsPattern(r[1]) then
      Substitution(r[1], matched, before, after) + Expand(r[2..], matched, before, after)
    else [r[0]] + Expand(r[1..], matched, before, after)
  }

  /** The characters that make a `$` pattern. */
  predicate IsPattern(c: char) {
    c == '$' || c == '&' || c == '`' || c == '\''
  }

  /** What `$c` stands for. */
  function Substitution(c: char, matched: string, before: string, after: string): string
    requires IsPattern(c)
  {
    match c
    case '$' => "$"
    case '&' => matched
    case '`' => before
    case _ => after
  }

  /** A replacement without `$` is inserted as it is. */
  lemma {:induction false} ExpandPlain(r: string, matched: string, before: string, after: string)
    requires '$' !in r
    ensures Expand(r, matched, before, after) == r
    decreases |r|
  {
    if r != [] {
      ExpandPlain(r[1..], matched, before, after);
      assert r == [r[0]] + r[1..];
    }
  }

  /** Text without `$` in front of a replacement is kept as it is. */
  lemma {:induction false} ExpandPlainFront(a: string, b: string, matched: string, before: string, after: string)
    requires '$' !in a
    ensures Expand(a + b, matched, before, after) == a + Expand(b, matched, before, after)
    decreases |a|
  {
    if a == [] {
      assert a + b == b;
    } else {
      assert a[0] in a && (a + b)[0] == a[0];
      assert (a + b)[1..] == a[1..] + b;
      assert forall c :: c in a[1..] ==> c in a;
      assert Expand(a + b, matched, before, after) == [a[0]] + Expand(a[1..] + b, matched, before, after);
      ExpandPlainFront(a[1..], b, matched, before, after);
      var e := Expand(b, matched, before, after);
      assert [a[0]] + (a[1..] + e) == ([a[0]] + a[1..]) + e;
      assert a == [a[0]] + a[1..];
    }
  }

  /** Text without `$` that starts with `<` after a replacement is kept as it is. */
  lemma {:induction false} ExpandPlainBack(a: string, b: string, matched: string, before: string, after: string)
    requires '$' !in b && |b| > 0 && b[0] == '<'
    ensures Expand(a + b, matched, before, after) == Expand(a, matched, before, after) + b
    decreases |a|
  {
    var ab := a + b;
    if a == [] {
      assert ab == b;
      ExpandPlain(b, matched, before, after);
    } else if a[0] == '$' && |a| >= 2 && IsPattern(a[1]) {
      assert ab[0] == a[0] && ab[1] == a[1] && ab[2..] == a[2..] + b;
      ExpandPlainBack(a[2..], b, matched, before, after);
    } else if a[0] == '$' && |a| == 1 {
      assert ab[0] == '$' && ab[1] == b[0] && ab[1..] == b;
      assert Expand(ab, matched, before, after) == "$" + Expand(b, matched, before, after);
      assert Expand(a, matched, before, after) == "$";
      ExpandPlain(b, matched, before, after);
    } else {
      assert ab[0] == a[0] && ab[1..] == a[1..] + b;
      assert Expand(ab, matched, before, after) == [a[0]] + Expand(a[1..] + b, matched, before, after);
      assert Expand(a, matched, before, after) == [a[0]] + Expand(a[1..], matched, before, after);
      ExpandPlainBack(a[1..], b, matched, before, after);
    }
  }

  /** The wrappers' own markup holds no `$`. */
  lemma HeadsPlain()
    ensures '$' !in OpenHead && '$' !in ClosedHead && '$' !in DetailsEnd && DetailsEnd[0] == '<'
  {
    SummaryPlain();
    assert '$' !in "<details class=\"think-block\">" && '$' !in "推論過程を表示";
    assert '$' !in "<details class=\"think-block " && '$' !in "thinking\" open>" && '$' !in "思考中...";
  }

  /** The summary markup holds no `$`. */
  lemma SummaryPlain()
    ensures '$' !in SummaryStart && '$' !in SummaryEnd
  {
    SummaryStartPlain();
    assert '$' !in "</summary>" && '$' !in "<div class=\"think-content " && '$' !in "markdown-body\">";
  }

  lemma SummaryStartPlain()
    ensures '$' !in SummaryStart
  {
    assert '$' !in "<summary class=\"think-summary\">";
    assert '$' !in "<span class=\"think-icon\">" && '$' !in "💭</span> ";
  }

  /** A `$`-free head and the closing markup around a block's HTML are kept as they are. */
  lemma ExpandAround(head: string, h: string, matched: string, before: string, after: string)
    requires '$' !in head
    ensures Expand(head + h + DetailsEnd, matched, before, after) ==
            head + Expand(h, matched, before, after) + DetailsEnd
  {
    HeadsPlain();
    assert head + h + DetailsEnd == head + (h + DetailsEnd);
    ExpandPlainFront(head, h + DetailsEnd, matched, before, after);
    ExpandPlainBack(h, DetailsEnd, matched, before, after);
  }

  /** As written, a block's HTML goes into its wrapper with its `$` patterns expanded. */
  lemma WrapperExpanded(i: nat, n: nat, thinking: bool, h: string, matched: string, before: string, after: string)
    ensures Expand(Wrapper(i, n, thinking, h), matched, before, after) ==
            Wrapper(i, n, thinking, Expand(h, matched, before, after))
  {
    HeadsPlain();
    if thinking && i + 1 == n {
      ExpandAround(OpenHead, h, matched, before, after);
    } else {
      ExpandAround(ClosedHead, h, matched, before, after);
    }
  }

  /**
   * `s.replace(new RegExp('<p>' + ph + '</p>|' + ph, 'g'), w)` from position
   * `pos` on (llm-chat.js:362-363): each match, the paragraph-wrapped form
   * tried first, becomes `w`, expanded unless `verbatim`.
   */
  function ReplaceFrom(s: string, pos: nat, ph: string, w: string, verbatim: bool): string
    requires |ph| > 0
    decreases |s| - pos
  {
    if pos >= |s| then ""
    else
      var wrapped := "<p>" + ph + "</p>";
      var m := if OccursAt(s, wrapped, pos) then wrapped else if OccursAt(s, ph, pos) then ph else "";
      if m == "" then [s[pos]] + ReplaceFrom(s, pos + 1, ph, w, verbatim)
      else
        (if verbatim then w else Expand(w, m, s[..pos], s[pos + |m|..])) + ReplaceFrom(s, pos + |m|, ph, w, verbatim)
  }

  /** Where the placeholder does not occur, nothing is replaced. */
  lemma {:induction false} ReplaceAbsent(s: string, pos: nat, ph: string, w: string, verbatim: bool)
    requires |ph| > 0 && pos <= |s| && forall j :: !OccursAt(s, ph, j)
    ensures ReplaceFrom(s, pos, ph, w, verbatim) == s[pos..]
    decreases |s| - pos
  {
    if pos < |s| {
      WrappedOccurs(s, ph, pos);
      ReplaceAbsent(s, pos + 1, ph, w, verbatim);
      assert s[pos..] == [s[pos]] + s[pos + 1..];
    }
  }

  /** A paragraph-wrapped placeholder contains the placeholder. */
  lemma WrappedOccurs(s: string, ph: string, pos: nat)
    ensures OccursAt(s, "<p>" + ph + "</p>", pos) ==> OccursAt(s, ph, pos + 3)
  {
    var wrapped := "<p>" + ph + "</p>";
    if OccursAt(s, wrapped, pos) {
      var sub := s[pos..pos + |wrapped|];
      forall k | 0 <= k < |ph| ensures s[pos + 3 + k] == ph[k] {
        assert s[pos + 3 + k] == sub[3 + k] == wrapped[3 + k] == ph[k];
      }
      assert s[pos + 3..pos + 3 + |ph|] == ph;
    }
  }

  /** The `forEach` over the blocks from block `i` on (llm-chat.js:341-364). */
  function InsertBlocks(html: string, blocks: seq<string>, i: nat, thinking: bool,
                        render: string -> string, verbatim: bool): string
    decreases |blocks| - i
  {
    if i >= |blocks| then html
    else
      var details := Wrapper(i, |blocks|, thinking, render(Trim(blocks[i])));
      InsertBlocks(ReplaceFrom(html, 0, Placeholder(i), details, verbatim), blocks, i + 1, thinking, render, verbatim)
  }

  /** `formatMessage` with the placeholders replaced as given by `verbatim`. */
  function Format(text: string, render: string -> string, verbatim: bool): (r: string)
    ensures text == "" <==> r == ""
    ensures text != "" ==> StartsWith(r, "<div class=\"markdown-body\">") && EndsWith(r, "</div>")
  {
    if text == "" then ""
    else
      var t := Prepared(text);
      var ps := Segments(t);
      var html := InsertBlocks(render(Masked(ps, 0)), Blocks(ps), 0, IsThinking(text), render, verbatim);
      var r := "<div class=\"markdown-body\">" + html + "</div>";
      assert r[..|"<div class=\"markdown-body\">"|] == "<div class=\"markdown-body\">";
      assert r[|r| - |"</div>"|..] == "</div>";
      r
  }

  /** `formatMessage` as written: the `<details>` HTML is passed to `replace` as a replacement string. */
  function FormatMessageAsWritten(text: string, render: string -> string): string {
    Format(text, render, false)
  }

  /** `formatMessage` with each block's `<details>` HTML inserted verbatim. */
  function FormatMessage(text: string, render: string -> string): string {
    Format(text, render, true)
  }

  /**
   * A reasoning block whose rendered HTML holds `$$`, as LaTeX display
   * mathematics does, comes out with a single `$` as written, and unchanged
   * when inserted verbatim.
   */
  lemma DollarCollapsed(thinking: bool)
    ensures var ph := Placeholder(0);
      && ReplaceFrom(ph, 0, ph, Wrapper(0, 1, thinking, "$$"), false) == Wrapper(0, 1, thinking, "$")
      && ReplaceFrom(ph, 0, ph, Wrapper(0, 1, thinking, "$$"), true) == Wrapper(0, 1, thinking, "$$")
  {
    var ph := Placeholder(0);
    var w := Wrapper(0, 1, thinking, "$$");
    ReplaceAlone(0, w, false);
    ReplaceAlone(0, w, true);
    WrapperExpanded(0, 1, thinking, "$$", ph, "", "");
    DoubleDollar(ph, "", "");
  }

  /** `$$` in a replacement stands for one `$`. */
  lemma DoubleDollar(matched: string, before: string, after: string)
    ensures Expand("$$", matched, before, after) == "$"
  {
    assert "$$"[2..] == "";
    assert Expand("$$", matched, before, after) == "$" + Expand("", matched, before, after);
  }

  /** A placeholder standing alone is replaced by its wrapper, expanded unless `verbatim`. */
  lemma ReplaceAlone(i: nat, w: string, verbatim: bool)
    ensures var ph := Placeholder(i);
      ReplaceFrom(ph, 0, ph, w, verbatim) == if verbatim then w else Expand(w, ph, "", "")
  {
    var ph := Placeholder(i);
    assert OccursAt(ph, ph, 0) && ph[..0] == "" && ph[|ph|..] == "";
    assert !OccursAt(ph, "<p>" + ph + "</p>", 0);
    var e := if verbatim then w else Expand(w, ph, "", "");
    assert ReplaceFrom(ph, 0, ph, w, verbatim) == e + ReplaceFrom(ph, |ph|, ph, w, verbatim);
    assert e + "" == e;
  }

  /** A placeholder standing alone is replaced by exactly its wrapper when inserted verbatim. */
  lemma VerbatimInsertion(i: nat, w: string)
    ensures ReplaceFrom(Placeholder(i), 0, Placeholder(i), w, true) == w
  {
    ReplaceAlone(i, w, true);
  }

  /** A finished reply whose only content is a reasoning block holding `$$`. */
  const DollarReply: string := OpenTag + "$$" + CloseTag

  lemma DollarReplyNotThinking()
    ensures !IsThinking(DollarReply) && Prepared(DollarReply) == DollarReply
  {
    var t := DollarReply;
    assert t[..7] == OpenTag && t[7..] == "$$" + CloseTag;
    DollarTailCount();
    assert CountOf(t, OpenTag) == 1;
    assert t[9..17] == CloseTag;
    assert OccursAt(t, CloseTag, 9);
  }

  /** No `<think>` follows the first one in that reply. */
  lemma DollarTailCount()
    ensures CountOf("$$" + CloseTag, OpenTag) == 0
  {
    var x := "$$" + CloseTag;
    assert x[0] == '$' && x[1] == '$' && x[2] == '<' && x[3] == '/';
    forall i ensures !OccursAt(x, OpenTag, i) {
      if 0 <= i && i + 7 <= |x| {
        assert x[i..i + 7][0] == x[i] && x[i..i + 7][1] == x[i + 1];
      }
    }
  }

  lemma DollarReplySegments()
    ensures Segments(DollarReply) == [Literal(""), Think("$$"), Literal("")]
  {
    var t := DollarReply;
    assert t[..7] == OpenTag;
    assert IndexOf(t, OpenTag) == Some(0);
    var after := t[7..];
    assert after == "$$" + CloseTag;
    DollarTailIndex();
    assert Segments(t) == [Literal(t[..0]), Think(after[..2])] + Segments(after[10..]);
    assert t[..0] == "" && after[..2] == "$$" && after[10..] == "";
    SegmentsEmpty();
  }

  lemma SegmentsEmpty()
    ensures Segments("") == [Literal("")]
  {
    assert IndexOf("", OpenTag) == None;
  }

  /** The `</think>` of that reply comes right after the `$$`. */
  lemma DollarTailIndex()
    ensures IndexOf("$$" + CloseTag, CloseTag) == Some(2)
  {
    var x := "$$" + CloseTag;
    assert x[0] == '$' && x[1] == '$';
    assert x[2..10] == CloseTag && OccursAt(x, CloseTag, 2);
    forall j | 0 <= j < 2 ensures !OccursAt(x, CloseTag, j) {
      assert x[j..j + 8][0] == x[j];
    }
  }

  lemma DollarReplyInsert(render: string -> string, verbatim: bool)
    requires render("$$") == "$$"
    ensures InsertBlocks(Placeholder(0), ["$$"], 0, false, render, verbatim) ==
            ClosedDetails(if verbatim then "$$" else "$")
  {
    DollarBlockInsert(false, render, verbatim);
  }

  /** The one block `$$` put in place of its placeholder, for either state of the reply. */
  lemma DollarBlockInsert(thinking: bool, render: string -> string, verbatim: bool)
    requires render("$$") == "$$"
    ensures InsertBlocks(Placeholder(0), ["$$"], 0, thinking, render, verbatim) ==
            Wrapper(0, 1, thinking, if verbatim then "$$" else "$")
  {
    InsertOneBlock("$$", thinking, render, verbatim);
    TrimIdempotentOnCore("$$");
    DollarCollapsed(thinking);
  }

  /** With a single block, inserting the blocks is one replacement of placeholder 0. */
  lemma InsertOneBlock(b: string, thinking: bool, render: string -> string, verbatim: bool)
    ensures InsertBlocks(Placeholder(0), [b], 0, thinking, render, verbatim) ==
            ReplaceFrom(Placeholder(0), 0, Placeholder(0), Wrapper(0, 1, thinking, render(Trim(b))), verbatim)
  {
    var replaced := ReplaceFrom(Placeholder(0), 0, Placeholder(0), Wrapper(0, 1, thinking, render(Trim(b))), verbatim);
    assert InsertBlocks(replaced, [b], 1, thinking, render, verbatim) == replaced;
  }

  lemma DollarReplyFormat(render: string -> string, verbatim: bool)
    requires render("$$") == "$$" && render(Placeholder(0)) == Placeholder(0)
    ensures Format(DollarReply, render, verbatim) ==
            "<div class=\"markdown-body\">" + ClosedDetails(if verbatim then "$$" else "$") + "</div>"
  {
    DollarReplyNotThinking();
    DollarReplySegments();
    DollarReplyPieces();
    var ps := Segments(DollarReply);
    var html := InsertBlocks(render(Masked(ps, 0)), Blocks(ps), 0, IsThinking(DollarReply), render, verbatim);
    DollarReplyInsert(render, verbatim);
    assert html == ClosedDetails(if verbatim then "$$" else "$");
    assert DollarReply != "";
  }

  lemma DollarReplyPieces()
    ensures var ps := [Literal(""), Think("$$"), Literal("")];
      Blocks(ps) == ["$$"] && Masked(ps, 0) == Placeholder(0)
  {
    var ps := [Literal(""), Think("$$"), Literal("")];
    assert ps[1..][1..] == [Literal("")];
    assert Masked([Literal("")], 1) == "";
    assert Placeholder(0) + "" == Placeholder(0);
  }

  /**
   * The whole of `formatMessage` on that reply, with rendering left as is:
   * as written the block comes out holding `$`, inserted verbatim `$$`.
   */
  lemma FormatCollapsesDollars()
    ensures var render := (s: string) => s;
      && FormatMessageAsWritten(DollarReply, render) == "<div class=\"markdown-body\">" + ClosedDetails("$") + "</div>"
      && FormatMessage(DollarReply, render) == "<div class=\"markdown-body\">" + ClosedDetails("$$") + "</div>"
  {
    var render := (s: string) => s;
    DollarReplyFormat(render, false);
    DollarReplyFormat(render, true);
  }
}
