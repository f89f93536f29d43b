/** The older single-file variant: a looser header pattern
    `(?P<timestamp>\d+)\s*(?P<id>\d+)\s+(?P<type>\w+)\s.*`, unparsable lines
    reported and dropped instead of raised, and an outlier test on the raw
    timestamps of the phase boundaries. Every other handler is the packaged
    one. */
module Older {
  import opened Results
  import opened Chars
  import opened LineRecords
  import opened Decoder
  import opened LineFormat
  import opened Correlator

  /** `\s+(?P<type>\w+)\s` at the start of `t`: the type word, which must be
      preceded by whitespace and followed by one whitespace character. A
      shorter run of either class could not be followed by the next item, so
      only the longest runs need trying. */
  function TypeField(t: string): (r: Option<string>)
    ensures r.Some? ==> |r.value| > 0 && AllIn(r.value, Word)
    ensures r.Some? ==> |t| > 0 && IsSpace(t[0])
    ensures r.Some? ==> exists sp, rest :: t == sp + r.value + rest && |sp| > 0 && AllIn(sp, Space)
                                           && |rest| > 0 && IsSpace(rest[0])
  {
    var (spaces, rest1) := TakeRun(t, Space);
    var (word, rest2) := TakeRun(rest1, Word);
    if |spaces| == 0 || |word| == 0 || |rest2| == 0 || !IsSpace(rest2[0]) then None
    else
      assert t == spaces + word + rest2;
      Some(word)
  }

  /** The older header pattern matched at the start of the line, as a
      backtracking matcher resolves it. First the timestamp takes the whole
      leading digit run and `\s*` the whitespace after it; the id is then the
      next digit run. When that fails, backtracking gives the id the last
      digit of the leading run and the timestamp the digits before it; every
      shorter timestamp fails the same way. */
  function OlderHeader(line: string): (r: Option<Header>)
    ensures |line| == 0 || !IsDigit(line[0]) ==> r.None?
    ensures r.Some? ==> |r.value.requestType| > 0 && AllIn(r.value.requestType, Word)
  {
    var (tsText, rest1) := TakeRun(line, Digit);
    var (_, rest2) := TakeRun(rest1, Space);
    var (idText, rest3) := TakeRun(rest2, Digit);
    if |tsText| == 0 then None
    else if |idText| > 0 && TypeField(rest3).Some? then
      Some(Header(ParseNat(tsText), ParseNat(idText), TypeField(rest3).value))
    else if |tsText| >= 2 && TypeField(rest1).Some? then
      var n := |tsText| - 1;
      Some(Header(ParseNat(tsText[..n]), DigitValue(tsText[n]), TypeField(rest1).value))
    else None
  }

  /** The older `parse_line` up to the handler call: `None` where it prints
      a complaint and returns, for either pattern failing. */
  function OlderDecode(line: string): (r: Option<LineInfo>)
    ensures OlderHeader(line).None? ==> r.None?
    ensures OlderHeader(line).Some? ==>
              (r.None? <==> Build(OlderHeader(line).value, line).Failure?)
    ensures r.Some? ==> WellTagged(r.value) && r.value.requestType == OlderHeader(line).value.requestType
  {
    match OlderHeader(line)
    case None => None
    case Some(h) =>
      match Build(h, line)
      case Success(info) => Some(info)
      case Failure(_) => None
  }

  /** A line both header patterns read alike decodes alike: the older
      decoder drops exactly the lines the monolithic one raises on. */
  lemma SameHeaderSameRecord(line: string)
    requires OlderHeader(line) == ParseHeader(line)
    ensures OlderDecode(line).Some? <==> Decode(line).Success?
    ensures OlderDecode(line).Some? ==> OlderDecode(line).value == Decode(line).value
  {
  }

  /** On the layout the recorded logs use, followed by whitespace, both
      header patterns read the same three fields. */
  lemma {:induction false} OlderHeaderAgrees(ts: nat, id: nat, tag: string, sep: char, rest: string)
    requires |tag| > 0 && AllIn(tag, Word) && IsSpace(sep)
    ensures OlderHeader(HeaderPrefix(ts, id) + (tag + ([sep] + rest))) == Some(Header(ts, id, tag))
    ensures ParseHeader(HeaderPrefix(ts, id) + (tag + ([sep] + rest))) == Some(Header(ts, id, tag))
  {
    var tail := [sep] + rest;
    HeaderRoundTrip(ts, id, tag, tail);
    var afterId := "\t" + (tag + tail);
    var idText := ShowNat(id);
    var afterTs := "\t" + (idText + afterId);
    var line := HeaderPrefix(ts, id) + (tag + tail);
    assert line == ShowNat(ts) + afterTs;
    TakeRunOf(ShowNat(ts), afterTs, Digit);
    TakeRunOf("\t", idText + afterId, Space);
    TakeRunOf(idText, afterId, Digit);
    TypeFieldOf("\t", tag, sep, rest);
    ParseShowNat(ts);
    ParseShowNat(id);
  }

  /** A whitespace run, a word and a whitespace character: the type field. */
  lemma TypeFieldOf(spaces: string, word: string, sep: char, rest: string)
    requires |spaces| > 0 && AllIn(spaces, Space)
    requires |word| > 0 && AllIn(word, Word) && IsSpace(sep)
    ensures TypeField(spaces + (word + ([sep] + rest))) == Some(word)
  {
    assert !IsWord(sep);
    TakeRunOf(spaces, word + ([sep] + rest), Space);
    TakeRunOf(word, [sep] + rest, Word);
  }

  /** The decimal form of a number of two or more digits is the form of
      its leading digits followed by its last digit. */
  lemma LastDigit(ts: nat)
    ensures ts < 10 <==> |ShowNat(ts)| == 1
    ensures ts >= 10 ==> ParseNat(ShowNat(ts)[..|ShowNat(ts)| - 1]) == ts / 10
    ensures ts >= 10 ==> DigitValue(ShowNat(ts)[|ShowNat(ts)| - 1]) == ts % 10
  {
    if ts >= 10 {
      var text := ShowNat(ts);
      assert text[..|text| - 1] == ShowNat(ts / 10);
      ParseShowNat(ts / 10);
    }
  }

  lemma DigitsAreWord(s: string)
    requires AllIn(s, Digit)
    ensures AllIn(s, Word)
  {
    forall k | 0 <= k < |s|
      ensures IsWord(s[k])
    {
      assert InClass(s[k], Digit);
    }
  }

  /** A line whose timestamp is followed by a tab and the type word, with
      no id: the older pattern takes the last digit of the timestamp for the
      id and the digits before it for the timestamp. The packaged pattern
      rejects the line. */
  lemma {:induction false} MissingIdSplitsTimestamp(ts: nat, tag: string, sep: char, rest: string)
    requires ts >= 10
    requires |tag| > 0 && AllIn(tag, Word) && !IsDigit(tag[0]) && IsSpace(sep)
    ensures OlderHeader(ShowNat(ts) + ("\t" + (tag + ([sep] + rest))))
         == Some(Header(ts / 10, ts % 10, tag))
    ensures ParseHeader(ShowNat(ts) + ("\t" + (tag + ([sep] + rest)))).None?
  {
    var afterTs := "\t" + (tag + ([sep] + rest));
    var line := ShowNat(ts) + afterTs;
    TakeRunOf(ShowNat(ts), afterTs, Digit);
    TakeRunOf("\t", tag + ([sep] + rest), Space);
    TakeRunOf("", tag + ([sep] + rest), Digit);
    TypeFieldOf("\t", tag, sep, rest);
    LastDigit(ts);
    assert ShowNat(ts) + ['\t'] + (tag + ([sep] + rest)) == line;
    HeaderRejectsMissingId(ShowNat(ts), '\t', tag + ([sep] + rest));
  }

  /** A line that ends right after its type word, as the last line of a file
      without a final newline does: the older pattern finds no whitespace
      after the type. A one-digit timestamp leaves nothing to backtrack into;
      a longer one is split, and the id's digits become the type word. The
      packaged pattern reads the line as written. */
  lemma TrailingTypeMisread(ts: nat, id: nat, tag: string)
    requires |tag| > 0 && AllIn(tag, Word)
    ensures ts < 10 ==> OlderHeader(HeaderPrefix(ts, id) + tag).None?
    ensures ts >= 10 ==> OlderHeader(HeaderPrefix(ts, id) + tag) == Some(Header(ts / 10, ts % 10, ShowNat(id)))
    ensures ParseHeader(HeaderPrefix(ts, id) + tag) == Some(Header(ts, id, tag))
  {
    var t, i := ShowNat(ts), ShowNat(id);
    PrefixThenTag(ts, id, tag);
    TrailingFields(t, i, tag);
    LastDigit(ts);
    HeaderAtEnd(ts, id, tag);
  }

  lemma PrefixThenTag(ts: nat, id: nat, tag: string)
    ensures HeaderPrefix(ts, id) + tag == ShowNat(ts) + ("\t" + (ShowNat(id) + ("\t" + tag)))
  {
  }

  lemma HeaderAtEnd(ts: nat, id: nat, tag: string)
    requires |tag| > 0 && AllIn(tag, Word)
    ensures ParseHeader(HeaderPrefix(ts, id) + tag) == Some(Header(ts, id, tag))
  {
    HeaderRoundTrip(ts, id, tag, "");
    assert tag + "" == tag;
  }

  /** `<digits>\t<digits>\t<word>` with nothing after the word, read by the
      older pattern. */
  lemma TrailingFields(t: string, i: string, tag: string)
    requires |t| > 0 && AllIn(t, Digit) && |i| > 0 && AllIn(i, Digit)
    requires |tag| > 0 && AllIn(tag, Word)
    ensures var line := t + ("\t" + (i + ("\t" + tag)));
            && (|t| < 2 ==> OlderHeader(line).None?)
            && (|t| >= 2 ==> OlderHeader(line) == Some(Header(ParseNat(t[..|t| - 1]), DigitValue(t[|t| - 1]), i)))
  {
    var afterId := "\t" + tag;
    var afterTs := "\t" + (i + afterId);
    TakeRunOf(t, afterTs, Digit);
    TakeRunOf("\t", i + afterId, Space);
    TakeRunOf(i, afterId, Digit);
    TypeFieldAtEnd(tag);
    DigitsAreWord(i);
    assert afterTs == "\t" + (i + (['\t'] + tag));
    TypeFieldOf("\t", i, '\t', tag);
  }

  /** A type word at the very end of the line has no whitespace after it. */
  lemma TypeFieldAtEnd(tag: string)
    requires |tag| > 0 && AllIn(tag, Word)
    ensures TypeField("\t" + tag).None?
  {
    TakeRunOf("\t", tag, Space);
    TakeRunOf(tag, "", Word);
    assert tag + "" == tag;
  }

  /** The older outlier test: the finish timestamp lies strictly after the
      StartSendResult and the StartMerge timestamps. */
  predicate FinishesLast(s: Stats, id: nat, ts: nat)
    requires FinishEnabled(s, id)
  {
    ts > s.mergeEnds[id] && ts > s.pollEnds[id]
  }

  /** The older outlier check: while fewer than `MaxOutliers` are collected,
      the request is appended when it finished last. */
  function OlderCheckOutlier(s: Stats, id: nat, ts: nat): (r: Stats)
    requires FinishEnabled(s, id)
    ensures |s.outliers| <= |r.outliers| <= |s.outliers| + 1
    ensures r.outliers[..|s.outliers|] == s.outliers
    ensures |r.outliers| > |s.outliers| <==> |s.outliers| < MaxOutliers && FinishesLast(s, id, ts)
    ensures |r.outliers| > |s.outliers| ==> r.outliers[|s.outliers|] == id
    ensures r == CheckOutlier(s, id, ts).(outliers := r.outliers)
  {
    if |s.outliers| < MaxOutliers && FinishesLast(s, id, ts) then s.(outliers := s.outliers + [id]) else s
  }

  /** The older finish: the packaged finish with the timestamp comparison in
      place of the phase-duration comparison. */
  function OlderFinish(s: Stats, id: nat, ts: nat): (r: Stats)
    requires FinishEnabled(s, id)
    ensures |s.outliers| <= |r.outliers| <= |s.outliers| + 1
    ensures r.outliers[..|s.outliers|] == s.outliers
    ensures |r.outliers| > |s.outliers| <==> |s.outliers| < MaxOutliers && FinishesLast(s, id, ts)
    ensures |r.outliers| > |s.outliers| ==> r.outliers[|s.outliers|] == id
    ensures r == HandleFinish(s, id, ts).(outliers := r.outliers)
  {
    var s1 := RecordDuration(s, id, ts);
    assert FinishesLast(s1, id, ts) == FinishesLast(s, id, ts);
    var s2 := OlderCheckOutlier(s1, id, ts);
    assert s2.status == s.status;
    RemoveRequest(CountIncomplete(s2, id), id)
  }

  /** When the log is in order (each phase boundary after the previous and
      the finish after all of them) the older test flags every finishing
      request until the list is full, whatever its phase durations. */
  lemma OrderedFinishFlagged(s: Stats, id: nat, ts: nat)
    requires FinishEnabled(s, id)
    requires s.pollEnds[id] <= s.mergeEnds[id] < ts
    ensures |OlderFinish(s, id, ts).outliers| > |s.outliers| <==> |s.outliers| < MaxOutliers
  {
  }

  /** A request of phases 100, 10 and 1 time units is no send-phase outlier,
      yet the older test flags it. */
  lemma OutlierTestsDisagree()
    ensures var s := Clean().(startTimes := map[0 := 0], pollEnds := map[0 := 100],
                              mergeEnds := map[0 := 110], connections := map[0 := map[]]);
            && |OlderFinish(s, 0, 111).outliers| == 1
            && |HandleFinish(s, 0, 111).outliers| == 0
  {
  }

  /** The older dispatch: the packaged handler for every type except
      FinishRequest, which takes the older finish. */
  function OlderStep(s: Stats, info: LineInfo): (r: Stats)
    requires Enabled(s, info)
    ensures info.requestType != FinishTag ==> r == Step(s, info)
    ensures info.requestType == FinishTag ==> r == Step(s, info).(outliers := r.outliers)
  {
    if info.requestType == FinishTag then OlderFinish(s, info.requestId, info.timestamp)
    else Step(s, info)
  }

  /** The older `parse_line`: a line either pattern rejects leaves the state
      as it is; any other line goes to its handler. */
  function OlderParseLine(s: Stats, line: string): (r: Stats)
    requires OlderDecode(line).Some? ==> Enabled(s, OlderDecode(line).value)
    ensures OlderDecode(line).None? ==> r == s
    ensures OlderDecode(line).Some? && OlderDecode(line).value.requestType != FinishTag ==>
              r == Step(s, OlderDecode(line).value)
  {
    match OlderDecode(line)
    case None => s
    case Some(info) => OlderStep(s, info)
  }

  /** A word starting with a digit is no type tag, so a record carrying it
      has no handler. */
  lemma DigitWordUnhandled(w: string)
    requires |w| > 0 && IsDigit(w[0])
    ensures !Handled(w) && !IsBackendTag(w)
  {
    assert StartTag[0] == 'S' && FinishTag[0] == 'F' && ConnectTag[0] == 'B';
    assert OkTag[0] == 'B' && ErrorTag[0] == 'B' && MergeTag[0] == 'S' && SendResultTag[0] == 'S';
  }

  /** The last line of a file without a final newline is dropped by the
      older variant, finish or not; the packaged decoder reads it. */
  lemma {:induction false} TrailingLineIgnored(s: Stats, ts: nat, id: nat, tag: string)
    requires |tag| > 0 && AllIn(tag, Word)
    ensures OlderDecode(HeaderPrefix(ts, id) + tag).Some? ==>
              OlderDecode(HeaderPrefix(ts, id) + tag).value == Plain(ts % 10, ShowNat(id), ts / 10)
    ensures OlderParseLine(s, HeaderPrefix(ts, id) + tag) == s
  {
    TrailingTypeMisread(ts, id, tag);
    DigitWordUnhandled(ShowNat(id));
  }
}
