/**
  The self-contained helpers of the Word add-in's `QuoteFormatter`: the cache
  of paragraph end offsets and its lookup, the word count of a quotation,
  the grouping of validation issues by type for the report, and the labels
  of the issue types.
 */
module APAQuoteFormatter {
  import opened JsText

  // ---------------------------------------------------------------------------
  // Validation issues
  // ---------------------------------------------------------------------------

  datatype IssueType = LongQuote | TechnicalTerm | WrongSingleQuote | Punctuation | ScaleAnchor

  /** The string an issue carries in its `type` field. */
  function IssueTypeKey(t: IssueType): string {
    match t
    case LongQuote => "long_quote"
    case TechnicalTerm => "technical_term"
    case WrongSingleQuote => "wrong_single_quote"
    case Punctuation => "punctuation"
    case ScaleAnchor => "scale_anchor"
  }

  /** Different issue types have different keys. */
  lemma IssueTypeKeyInjective(t1: IssueType, t2: IssueType)
    ensures IssueTypeKey(t1) == IssueTypeKey(t2) ==> t1 == t2
  {
    if IssueTypeKey(t1) == IssueTypeKey(t2) {
      assert |IssueTypeKey(t1)| == |IssueTypeKey(t2)|;
    }
  }

  /** `ValidationIssue`; `type` is a keyword here, hence `issueType`. */
  datatype ValidationIssue = ValidationIssue(
    issueType: IssueType, location: string, text: string, suggestion: string, paragraph: int)

  // ---------------------------------------------------------------------------
  // Paragraph offsets
  // ---------------------------------------------------------------------------

  /** The end offsets of the pieces `ps` laid out from `start`, each piece
      followed by one delimiter: the running sums of `|p| + 1`. */
  function OffsetsFrom(ps: seq<string>, start: int): (offsets: seq<int>)
    ensures |offsets| == |ps|
  {
    if |ps| == 0 then [] else [start + |ps[0]| + 1] + OffsetsFrom(ps[1..], start + |ps[0]| + 1)
  }

  /** The running position after all the pieces. */
  function EndFrom(ps: seq<string>, start: int): int {
    if |ps| == 0 then start else EndFrom(ps[1..], start + |ps[0]| + 1)
  }

  /** What `buildParagraphOffsets(text)` stores: one end offset per
      '\n'-separated piece of the text. */
  function ParagraphOffsets(text: string): seq<int> {
    OffsetsFrom(Split(text, '\n'), 0)
  }

  /** One more piece adds one more offset, the previous end plus the piece
      and its delimiter. */
  lemma {:induction false} OffsetsFromSnoc(ps: seq<string>, x: string, start: int)
    ensures OffsetsFrom(ps + [x], start) == OffsetsFrom(ps, start) + [EndFrom(ps, start) + |x| + 1]
    ensures EndFrom(ps + [x], start) == EndFrom(ps, start) + |x| + 1
  {
    if |ps| == 0 {
      assert ps + [x] == [x];
    } else {
      assert (ps + [x])[1..] == ps[1..] + [x];
      OffsetsFromSnoc(ps[1..], x, start + |ps[0]| + 1);
    }
  }

  /** The offsets lie above the start and strictly increase. */
  lemma {:induction false} OffsetsFromIncreasing(ps: seq<string>, start: int)
    ensures var offsets := OffsetsFrom(ps, start);
      forall i :: 0 <= i < |offsets| ==> offsets[i] > start
    ensures var offsets := OffsetsFrom(ps, start);
      forall i, j :: 0 <= i < j < |offsets| ==> offsets[i] < offsets[j]
  {
    if |ps| > 0 {
      var next := start + |ps[0]| + 1;
      var offsets := OffsetsFrom(ps, start);
      OffsetsFromIncreasing(ps[1..], next);
      assert offsets[1..] == OffsetsFrom(ps[1..], next);
      forall i, j | 0 <= i < j < |offsets| ensures offsets[i] < offsets[j] {
        assert offsets[j] == offsets[1..][j - 1];
        if i > 0 {
          assert offsets[i] == offsets[1..][i - 1];
        }
      }
    }
  }

  /** The last offset is the end, which lies one delimiter past the
      '\n'-join of the pieces. */
  lemma {:induction false} OffsetsFromLast(ps: seq<string>, start: int)
    requires |ps| > 0
    ensures OffsetsFrom(ps, start)[|ps| - 1] == EndFrom(ps, start)
    ensures EndFrom(ps, start) == start + |Join(ps, "\n")| + 1
  {
    if |ps| > 1 {
      var next := start + |ps[0]| + 1;
      OffsetsFromLast(ps[1..], next);
      assert OffsetsFrom(ps, start)[|ps| - 1] == OffsetsFrom(ps[1..], next)[|ps| - 2];
    }
  }

  /** The cache holds one entry per line, strictly increasing, and the last
      entry is one past the end of the text. */
  lemma ParagraphOffsetsShape(text: string)
    ensures var offsets := ParagraphOffsets(text);
      |offsets| == Count(text, '\n') + 1
      && (forall i, j :: 0 <= i < j < |offsets| ==> offsets[i] < offsets[j])
      && offsets[|offsets| - 1] == |text| + 1
  {
    var ps := Split(text, '\n');
    OffsetsFromIncreasing(ps, 0);
    OffsetsFromLast(ps, 0);
    JoinSplit(text, '\n');
  }

  // ---------------------------------------------------------------------------
  // Paragraph lookup
  // ---------------------------------------------------------------------------

  /** The index `findIndex(offset => offset > position)` finds, or the length
      when there is none. */
  function FirstGreater(offsets: seq<int>, position: int): (i: nat)
    ensures i <= |offsets|
    ensures forall j :: 0 <= j < i ==> offsets[j] <= position
    ensures i < |offsets| ==> offsets[i] > position
  {
    if |offsets| == 0 then 0
    else if offsets[0] > position then 0
    else 1 + FirstGreater(offsets[1..], position)
  }

  /** `text.substring(0, end)`: the end is clamped into `0..|text|`. */
  function SubstringTo(text: string, end: int): string {
    text[..if end < 0 then 0 else if end > |text| then |text| else end]
  }

  /** What `findParagraphNumber(text, position)` returns for a given cache:
      without a cache, one more than the newlines before `position`; with
      one, the 1-based index of the first paragraph ending after `position`,
      or the last paragraph. */
  function ParagraphNumber(offsets: seq<int>, text: string, position: int): (n: int)
    ensures |offsets| > 0 ==> 1 <= n <= |offsets|
    ensures |offsets| == 0 ==> n == Count(SubstringTo(text, position), '\n') + 1
  {
    if |offsets| == 0 then |Split(SubstringTo(text, position), '\n')|
    else
      var index := FirstGreater(offsets, position);
      if index < |offsets| then index + 1 else |offsets|
  }

  /** Over '\n'-free pieces laid out from `start`, the (capped) index of the
      first offset past `start + p` counts the newlines in the first `p`
      characters of their join. */
  lemma {:induction false} FirstGreaterCountsNewlines(ps: seq<string>, start: int, p: int)
    requires |ps| > 0
    requires forall i :: 0 <= i < |ps| ==> '\n' !in ps[i]
    ensures var i := FirstGreater(OffsetsFrom(ps, start), start + p);
      (if i < |ps| then i else |ps| - 1) == Count(SubstringTo(Join(ps, "\n"), p), '\n')
  {
    var x := ps[0];
    var offsets := OffsetsFrom(ps, start);
    var i := FirstGreater(offsets, start + p);
    var t := Join(ps, "\n");
    if |ps| == 1 {
      assert t == x;
      NewlineFreePrefix(x, p);
    } else {
      var rest := Join(ps[1..], "\n");
      assert t == x + "\n" + rest;
      if p < |x| + 1 {
        assert i == 0;
        SubstringWithinFirst(x, rest, p);
        NewlineFreePrefix(x, p);
      } else {
        var next := start + |x| + 1;
        var q := p - |x| - 1;
        assert i == 1 + FirstGreater(OffsetsFrom(ps[1..], next), next + q) by {
          assert offsets[1..] == OffsetsFrom(ps[1..], next);
        }
        FirstGreaterCountsNewlines(ps[1..], next, q);
        SubstringPastFirst(x, rest, p);
        CountPastFirst(x, SubstringTo(rest, q));
      }
    }
  }

  /** A cut before the first newline stays inside the first piece. */
  lemma SubstringWithinFirst(x: string, rest: string, p: int)
    requires p < |x| + 1
    ensures SubstringTo(x + "\n" + rest, p) == SubstringTo(x, p)
  {
  }

  /** A cut past the first newline keeps the first piece whole. */
  lemma SubstringPastFirst(x: string, rest: string, p: int)
    requires p >= |x| + 1
    ensures SubstringTo(x + "\n" + rest, p) == (x + "\n") + SubstringTo(rest, p - |x| - 1)
  {
  }

  /** A newline-free piece and its newline count one. */
  lemma CountPastFirst(x: string, r: string)
    requires '\n' !in x
    ensures Count((x + "\n") + r, '\n') == 1 + Count(r, '\n')
  {
    CountAppend(x + "\n", r, '\n');
    CountAppend(x, "\n", '\n');
    CountAbsent(x, '\n');
  }

  /** A prefix of a newline-free string holds no newline. */
  lemma NewlineFreePrefix(x: string, p: int)
    requires '\n' !in x
    ensures Count(SubstringTo(x, p), '\n') == 0
  {
    var s := SubstringTo(x, p);
    assert forall c :: c in s ==> c in x;
    CountAbsent(s, '\n');
  }

  /** The cached lookup agrees with the fallback it replaces: once the cache
      is built for `text`, the paragraph number of any position is one more
      than the number of newlines in `text.substring(0, position)`. */
  lemma CachedLookupMatchesFallback(text: string, position: int)
    ensures ParagraphNumber(ParagraphOffsets(text), text, position)
      == ParagraphNumber([], text, position)
  {
    var ps := Split(text, '\n');
    SplitSemSeparador(text, '\n');
    JoinSplit(text, '\n');
    FirstGreaterCountsNewlines(ps, 0, position);
  }

  // ---------------------------------------------------------------------------
  // Word count
  // ---------------------------------------------------------------------------

  /** `countWords`: `text.trim().split(/\s+/).length`. */
  function CountWords(text: string): (n: nat)
    ensures n >= 1
  {
    |SplitWhitespaceRuns(Trim(text))|
  }

  /** A blank text still counts as one word: splitting "" gives [""]. */
  lemma CountWordsBlank(text: string)
    requires forall i :: 0 <= i < |text| ==> IsWhitespace(text[i])
    ensures CountWords(text) == 1
  {
    TrimVazio(text);
  }

  /** A word: non-empty, without whitespace. */
  predicate IsWord(w: string) {
    |w| > 0 && forall i :: 0 <= i < |w| ==> !IsWhitespace(w[i])
  }

  /** Printable ASCII and Latin-1 letters are not whitespace. */
  lemma PrintableIsWord(w: string)
    requires |w| > 0
    requires forall i :: 0 <= i < |w| ==> '!' <= w[i] <= '~' || '\U{00C0}' <= w[i] <= '\U{00FF}'
    ensures IsWord(w)
  {
  }

  /** A run of whitespace: non-empty, nothing else. */
  predicate IsBlankRun(s: string) {
    |s| > 0 && forall i :: 0 <= i < |s| ==> IsWhitespace(s[i])
  }

  /** The words interleaved with the separators: `ws[0] + seps[0] + ws[1] + ...`. */
  function Interleave(ws: seq<string>, seps: seq<string>): string
    requires |ws| > 0 && |seps| == |ws| - 1
  {
    if |ws| == 1 then ws[0] else ws[0] + seps[0] + Interleave(ws[1..], seps[1..])
  }

  /** Words separated by runs of whitespace count as exactly those words. */
  lemma CountWordsInterleaved(ws: seq<string>, seps: seq<string>)
    requires |ws| > 0 && |seps| == |ws| - 1
    requires forall i :: 0 <= i < |ws| ==> IsWord(ws[i])
    requires forall i :: 0 <= i < |seps| ==> IsBlankRun(seps[i])
    ensures CountWords(Interleave(ws, seps)) == |ws|
  {
    var s := Interleave(ws, seps);
    InterleaveEnds(ws, seps);
    TrimOfTrimmed(s);
    SplitInterleaved(ws, seps);
  }

  /** An interleaving starts with the first word and ends with the last. */
  lemma {:induction false} InterleaveEnds(ws: seq<string>, seps: seq<string>)
    requires |ws| > 0 && |seps| == |ws| - 1
    requires forall i :: 0 <= i < |ws| ==> IsWord(ws[i])
    ensures var s := Interleave(ws, seps); var first := ws[0]; var last := ws[|ws| - 1];
      IsWord(first) && IsWord(last) && |s| > 0 && s[0] == first[0] && s[|s| - 1] == last[|last| - 1]
  {
    if |ws| > 1 {
      InterleaveEnds(ws[1..], seps[1..]);
    }
  }

  /** Splitting an interleaving on whitespace runs gives back the words. */
  lemma {:induction false} SplitInterleaved(ws: seq<string>, seps: seq<string>)
    requires |ws| > 0 && |seps| == |ws| - 1
    requires forall i :: 0 <= i < |ws| ==> IsWord(ws[i])
    requires forall i :: 0 <= i < |seps| ==> IsBlankRun(seps[i])
    ensures SplitWhitespaceRuns(Interleave(ws, seps)) == ws
  {
    var w := ws[0];
    if |ws| == 1 {
      SplitWordThen(w, "");
      assert w + "" == w;
    } else {
      var rest := Interleave(ws[1..], seps[1..]);
      SplitInterleaved(ws[1..], seps[1..]);
      InterleaveEnds(ws[1..], seps[1..]);
      SplitBlankThen(seps[0], rest);
      SplitWordThen(w, seps[0] + rest);
      assert Interleave(ws, seps) == w + (seps[0] + rest);
      assert w + "" == w;
      assert [w] + ws[1..] == ws;
    }
  }

  /** A word glues onto the first piece of what follows it. */
  lemma {:induction false} SplitWordThen(w: string, s: string)
    requires forall i :: 0 <= i < |w| ==> !IsWhitespace(w[i])
    ensures var r := SplitWhitespaceRuns(s);
      SplitWhitespaceRuns(w + s) == [w + r[0]] + r[1..]
    decreases |w|
  {
    var r := SplitWhitespaceRuns(s);
    if |w| == 0 {
      assert w + s == s;
      assert w + r[0] == r[0];
      assert [r[0]] + r[1..] == r;
    } else {
      var rest := SplitWhitespaceRuns(w[1..] + s);
      assert rest == [w[1..] + r[0]] + r[1..] by {
        SplitWordThen(w[1..], s);
      }
      assert SplitWhitespaceRuns(w + s) == [[w[0]] + rest[0]] + rest[1..] by {
        assert (w + s)[1..] == w[1..] + s;
        assert (w + s)[0] == w[0] && !IsWhitespace(w[0]);
      }
      assert [w[0]] + (w[1..] + r[0]) == w + r[0];
    }
  }

  /** A run of whitespace before a word starts a new piece. */
  lemma SplitBlankThen(b: string, s: string)
    requires IsBlankRun(b)
    requires |s| > 0 && !IsWhitespace(s[0])
    ensures SplitWhitespaceRuns(b + s) == [""] + SplitWhitespaceRuns(s)
  {
    TrimStartBlankThen(b, s);
  }

  /** `trimStart` drops exactly a leading run of whitespace. */
  lemma {:induction false} TrimStartBlankThen(b: string, s: string)
    requires forall i :: 0 <= i < |b| ==> IsWhitespace(b[i])
    requires |s| > 0 && !IsWhitespace(s[0])
    ensures TrimStart(b + s) == s
    decreases |b|
  {
    if |b| > 0 {
      assert (b + s)[1..] == b[1..] + s;
      TrimStartBlankThen(b[1..], s);
    } else {
      assert b + s == s;
    }
  }

  /** The words of the samples below hold no whitespace. */
  lemma SampleWordsPlain()
    ensures IsWord("uma") && IsWord("duas") && IsWord("três")
  {
    PrintableIsWord("uma");
    PrintableIsWord("duas");
    PrintableIsWord("três");
  }

  lemma SampleWordsLonger()
    ensures IsWord("quatro") && IsWord("cinco")
  {
    PrintableIsWord("quatro");
    PrintableIsWord("cinco");
  }

  lemma SampleWordsPunctuated()
    ensures IsWord("uma,") && IsWord("duas.") && IsWord("três!") && IsWord("quatro?")
  {
    PrintableIsWord("uma,");
    PrintableIsWord("duas.");
    PrintableIsWord("três!");
    PrintableIsWord("quatro?");
  }

  /** The sample of `CountWordsSingleSpaces` laid out as words and separators. */
  lemma CountWordsSingleSpacesLayout(text: string, ws: seq<string>, seps: seq<string>)
    requires text == "uma duas três quatro cinco"
    requires ws == ["uma", "duas", "três", "quatro", "cinco"] && seps == [" ", " ", " ", " "]
    ensures Interleave(ws, seps) == text
  {
    assert text == "uma" + " " + ("duas" + " " + ("três" + " " + ("quatro" + " " + "cinco")));
    assert ws[1..] == ["duas", "três", "quatro", "cinco"];
    assert ws[2..] == ["três", "quatro", "cinco"];
    assert ws[3..] == ["quatro", "cinco"];
    assert Interleave(ws[3..], seps[3..]) == "quatro" + " " + "cinco";
    assert Interleave(ws[2..], seps[2..]) == "três" + " " + ("quatro" + " " + "cinco");
    assert Interleave(ws[1..], seps[1..]) == "duas" + " " + ("três" + " " + ("quatro" + " " + "cinco"));
  }

  /** Single spaces between five words count five. */
  lemma CountWordsSingleSpaces(text: string)
    requires text == "uma duas três quatro cinco"
    ensures CountWords(text) == 5
  {
    var ws := ["uma", "duas", "três", "quatro", "cinco"];
    var seps := [" ", " ", " ", " "];
    CountWordsSingleSpacesLayout(text, ws, seps);
    SampleWordsPlain();
    SampleWordsLonger();
    assert IsBlankRun(" ");
    CountWordsInterleaved(ws, seps);
  }

  /** The sample of `CountWordsSpaceRuns` laid out as words and separators. */
  lemma CountWordsSpaceRunsLayout(text: string, ws: seq<string>, seps: seq<string>)
    requires text == "uma  duas   três"
    requires ws == ["uma", "duas", "três"] && seps == ["  ", "   "]
    ensures Interleave(ws, seps) == text
  {
    assert text == "uma" + "  " + ("duas" + "   " + "três");
    assert ws[1..] == ["duas", "três"];
    assert Interleave(ws[1..], seps[1..]) == "duas" + "   " + "três";
  }

  /** Runs of several spaces separate words like a single one. */
  lemma CountWordsSpaceRuns(text: string)
    requires text == "uma  duas   três"
    ensures CountWords(text) == 3
  {
    var ws := ["uma", "duas", "três"];
    var seps := ["  ", "   "];
    CountWordsSpaceRunsLayout(text, ws, seps);
    SampleWordsPlain();
    assert IsBlankRun("  ") && IsBlankRun("   ");
    CountWordsInterleaved(ws, seps);
  }

  /** The sample of `CountWordsPunctuation` laid out as words and separators. */
  lemma CountWordsPunctuationLayout(text: string, ws: seq<string>, seps: seq<string>)
    requires text == "uma, duas. três! quatro?"
    requires ws == ["uma,", "duas.", "três!", "quatro?"] && seps == [" ", " ", " "]
    ensures Interleave(ws, seps) == text
  {
    assert text == "uma," + " " + ("duas." + " " + ("três!" + " " + "quatro?"));
    assert ws[1..] == ["duas.", "três!", "quatro?"];
    assert ws[2..] == ["três!", "quatro?"];
    assert Interleave(ws[2..], seps[2..]) == "três!" + " " + "quatro?";
    assert Interleave(ws[1..], seps[1..]) == "duas." + " " + ("três!" + " " + "quatro?");
  }

  /** Punctuation stays part of its word. */
  lemma CountWordsPunctuation(text: string)
    requires text == "uma, duas. três! quatro?"
    ensures CountWords(text) == 4
  {
    var ws := ["uma,", "duas.", "três!", "quatro?"];
    var seps := [" ", " ", " "];
    CountWordsPunctuationLayout(text, ws, seps);
    SampleWordsPunctuated();
    assert IsBlankRun(" ");
    CountWordsInterleaved(ws, seps);
  }

  // ---------------------------------------------------------------------------
  // Grouping issues by type
  // ---------------------------------------------------------------------------

  /** The issues whose type has the given key, in their original order. */
  function IssuesWithKey(issues: seq<ValidationIssue>, key: string): seq<ValidationIssue> {
    if |issues| == 0 then []
    else
      var last := issues[|issues| - 1];
      IssuesWithKey(issues[..|issues| - 1], key) + (if IssueTypeKey(last.issueType) == key then [last] else [])
  }

  /** Selecting by key distributes over concatenation: the groups keep the
      relative order of the issues. */
  lemma {:induction false} IssuesWithKeyAppend(a: seq<ValidationIssue>, b: seq<ValidationIssue>, key: string)
    ensures IssuesWithKey(a + b, key) == IssuesWithKey(a, key) + IssuesWithKey(b, key)
    decreases |b|
  {
    if |b| == 0 {
      assert a + b == a;
    } else {
      assert (a + b)[..|a + b| - 1] == a + b[..|b| - 1];
      IssuesWithKeyAppend(a, b[..|b| - 1], key);
    }
  }

  /** Every issue lands in the group of its own type, and a group holds only
      issues of its type. */
  lemma {:induction false} IssuesWithKeyMembers(issues: seq<ValidationIssue>, key: string)
    ensures forall x :: x in IssuesWithKey(issues, key) ==> x in issues && IssueTypeKey(x.issueType) == key
    ensures forall i :: (0 <= i < |issues| && IssueTypeKey(issues[i].issueType) == key
      ==> issues[i] in IssuesWithKey(issues, key))
  {
    if |issues| > 0 {
      var init := issues[..|issues| - 1];
      IssuesWithKeyMembers(init, key);
      forall i | 0 <= i < |issues| - 1 ensures issues[i] == init[i] { }
    }
  }

  /** Only the five issue keys ever get a group. */
  lemma {:induction false} IssuesWithUnknownKey(issues: seq<ValidationIssue>, key: string)
    requires forall t :: IssueTypeKey(t) != key
    ensures IssuesWithKey(issues, key) == []
  {
    if |issues| > 0 {
      IssuesWithUnknownKey(issues[..|issues| - 1], key);
    }
  }

  /** The five groups together hold every issue exactly once. */
  lemma {:induction false} GroupSizesSum(issues: seq<ValidationIssue>)
    ensures |IssuesWithKey(issues, "long_quote")| + |IssuesWithKey(issues, "technical_term")|
      + |IssuesWithKey(issues, "wrong_single_quote")| + |IssuesWithKey(issues, "punctuation")|
      + |IssuesWithKey(issues, "scale_anchor")| == |issues|
  {
    if |issues| > 0 {
      GroupSizesSum(issues[..|issues| - 1]);
    }
  }

  // ---------------------------------------------------------------------------
  // Issue labels
  // ---------------------------------------------------------------------------

  /** The `labels` table of `getIssueTypeLabel`. */
  const ISSUE_TYPE_LABELS: map<string, string> := map[
    "long_quote" := "📏 Citações Longas (devem ser formatadas como bloco)",
    "technical_term" := "📚 Termos Técnicos (considere usar itálico)",
    "wrong_single_quote" := "❌ Aspas Simples Incorretas",
    "punctuation" := "🔤 Problemas de Pontuação",
    "scale_anchor" := "📊 Âncoras de Escala (devem usar itálico)"]

  /** `getIssueTypeLabel`: `labels[type] || type`, so the table's label for
      a key it holds (none is empty) and the key itself otherwise. */
  function GetIssueTypeLabel(issueType: string): (shown: string)
    ensures issueType in ISSUE_TYPE_LABELS ==> shown == ISSUE_TYPE_LABELS[issueType]
    ensures issueType !in ISSUE_TYPE_LABELS ==> shown == issueType
  {
    if issueType in ISSUE_TYPE_LABELS && ISSUE_TYPE_LABELS[issueType] != "" then ISSUE_TYPE_LABELS[issueType]
    else issueType
  }

  /** The labelled keys are exactly the five issue types; each gets its own
      label, never the bare key, and any other string comes back unchanged. */
  lemma IssueTypeLabels(s: string)
    ensures s in ISSUE_TYPE_LABELS <==> exists t :: IssueTypeKey(t) == s
    ensures s in ISSUE_TYPE_LABELS ==> GetIssueTypeLabel(s) == ISSUE_TYPE_LABELS[s] && GetIssueTypeLabel(s) != s
    ensures s !in ISSUE_TYPE_LABELS ==> GetIssueTypeLabel(s) == s
  {
    if s in ISSUE_TYPE_LABELS {
      var t :| t in [LongQuote, TechnicalTerm, WrongSingleQuote, Punctuation, ScaleAnchor] && IssueTypeKey(t) == s;
      assert |ISSUE_TYPE_LABELS[s]| != |s|;
    }
  }

  // ---------------------------------------------------------------------------
  // The formatter object
  // ---------------------------------------------------------------------------

  /** `QuoteFormatter`, reduced to the state these helpers use: the paragraph
      offset cache and the issues of the execution report. */
  class QuoteFormatter {
    var paragraphOffsets: seq<int>
    var issues: seq<ValidationIssue>

    /** A new formatter has an empty cache and an empty report. */
    constructor ()
      ensures paragraphOffsets == [] && issues == []
    {
      paragraphOffsets := [];
      issues := [];
    }

    /** `buildParagraphOffsets`: reset the cache, then push the running end
        offset of every '\n'-separated piece. */
    method BuildParagraphOffsets(text: string)
      modifies this
      ensures paragraphOffsets == ParagraphOffsets(text)
      ensures issues == old(issues)
    {
      paragraphOffsets := [];
      var currentPos := 0;
      var paragraphs := Split(text, '\n');
      for i := 0 to |paragraphs|
        invariant paragraphOffsets == OffsetsFrom(paragraphs[..i], 0)
        invariant currentPos == EndFrom(paragraphs[..i], 0)
        invariant issues == old(issues)
      {
        var p := paragraphs[i];
        assert paragraphs[..i + 1] == paragraphs[..i] + [p];
        OffsetsFromSnoc(paragraphs[..i], p, 0);
        currentPos := currentPos + |p| + 1;
        paragraphOffsets := paragraphOffsets + [currentPos];
      }
      assert paragraphs[..|paragraphs|] == paragraphs;
    }

    /** `findParagraphNumber`: the fallback count without a cache, otherwise
        a `findIndex` over the cache. */
    method FindParagraphNumber(text: string, position: int) returns (n: int)
      ensures n == ParagraphNumber(paragraphOffsets, text, position)
    {
      if |paragraphOffsets| == 0 {
        var textUpToPosition := SubstringTo(text, position);
        return |Split(textUpToPosition, '\n')|;
      }
      var index := -1;
      var k := 0;
      while k < |paragraphOffsets|
        invariant 0 <= k <= |paragraphOffsets|
        invariant forall j :: 0 <= j < k ==> paragraphOffsets[j] <= position
      {
        if paragraphOffsets[k] > position {
          index := k;
          break;
        }
        k := k + 1;
      }
      n := if index != -1 then index + 1 else |paragraphOffsets|;
    }

    /** `groupIssuesByType`: a group per type that occurs, each holding that
        type's issues in report order. */
    method GroupIssuesByType() returns (grouped: map<string, seq<ValidationIssue>>)
      ensures forall key :: key in grouped <==> IssuesWithKey(issues, key) != []
      ensures forall key :: key in grouped ==> grouped[key] == IssuesWithKey(issues, key)
    {
      grouped := map[];
      for i := 0 to |issues|
        invariant forall key :: key in grouped <==> IssuesWithKey(issues[..i], key) != []
        invariant forall key :: key in grouped ==> grouped[key] == IssuesWithKey(issues[..i], key)
      {
        var issue := issues[i];
        var key := IssueTypeKey(issue.issueType);
        assert issues[..i + 1][..i] == issues[..i];
        if key !in grouped {
          grouped := grouped[key := []];
        }
        grouped := grouped[key := grouped[key] + [issue]];
      }
      assert issues[..|issues|] == issues;
    }
  }
}
