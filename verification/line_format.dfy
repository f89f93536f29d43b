/** Writing a record back as a log line, `<ts>\t<id>\t<Type>[\t<group>[\t<text>]]`,
    the layout of the recorded test lines, and the proof that decoding
    undoes it. */
module LineFormat {
  import opened Results
  import opened Chars
  import opened LineRecords
  import opened Decoder

  /** The timestamp and id fields with their separators. */
  function HeaderPrefix(ts: nat, id: nat): string {
    ShowNat(ts) + ("\t" + (ShowNat(id) + "\t"))
  }

  /** What follows the type word on a backend line. */
  function ArgsText(info: LineInfo): string {
    match info
    case Plain(_, _, _) => ""
    case ConnectInfo(_, _, _, g, url) => "\t" + (ShowNat(g) + ("\t" + url))
    case OkInfo(_, _, _, g) => "\t" + ShowNat(g)
    case ErrorInfo(_, _, _, g, err) => "\t" + (ShowNat(g) + ("\t" + err))
  }

  function EncodeLine(info: LineInfo): string {
    HeaderPrefix(info.timestamp, info.requestId) + (info.requestType + ArgsText(info))
  }

  /** No position of `s` starts a complete BackendError match: the keyword
      followed by one whitespace character, a group and a whitespace run.
      The keyword alone, without such a tail, does not count. */
  predicate NoErrorMatchIn(s: string) {
    forall j: nat | j <= |s| :: Candidate(s, ErrorPattern, j).None?
  }

  /** The records a log line can carry unchanged: a word for the type, a
      url without whitespace, and an error message on one line that does
      not start with whitespace (the pattern would swallow it) and holds no
      complete BackendError match of its own (the backtracking search would
      settle there, on the rightmost one). */
  predicate Encodable(info: LineInfo) {
    && WellTagged(info)
    && |info.requestType| > 0 && AllIn(info.requestType, Word)
    && (info.ConnectInfo? ==> |info.backendUrl| > 0 && AllIn(info.backendUrl, NonSpace))
    && (info.ErrorInfo? ==>
          && AllIn(info.error, NotNewline)
          && (|info.error| == 0 || !IsSpace(info.error[0]))
          && NoErrorMatchIn(info.error))
  }

  /** The header pattern reads back the fields it was given, whatever
      follows the type word as long as it does not continue the word. */
  lemma HeaderRoundTrip(ts: nat, id: nat, tag: string, rest: string)
    requires |tag| > 0 && AllIn(tag, Word)
    requires |rest| == 0 || !IsWord(rest[0])
    ensures ParseHeader(HeaderPrefix(ts, id) + (tag + rest)) == Some(Header(ts, id, tag))
  {
    var t := ShowNat(ts);
    var i := ShowNat(id);
    ParseHeaderOf(HeaderPrefix(ts, id) + (tag + rest), t, '\t', i, '\t', tag, rest);
    ParseShowNat(ts);
    ParseShowNat(id);
  }

  /** The text a backend record carries: its url, its error message, or
      nothing for BackendOk. */
  function TextOf(info: LineInfo): string
    requires !info.Plain?
  {
    if info.ConnectInfo? then info.backendUrl else if info.ErrorInfo? then info.error else ""
  }

  /** The backend pattern's tail recovers the group and text it was given. */
  lemma TailRoundTrip(info: LineInfo)
    requires Encodable(info) && !info.Plain?
    ensures MatchTail(PatternOf(info.requestType), ArgsText(info))
         == Some(BackendArgs(info.groupId, TextOf(info)))
  {
    var gs := ShowNat(info.groupId);
    ParseShowNat(info.groupId);
    if info.OkInfo? {
      OkTailOf("\t", gs, "");
      assert gs + "" == gs;
    } else {
      TextTailOf('\t', gs, "\t", TextOf(info), "", info.ConnectInfo?);
      assert TextOf(info) + "" == TextOf(info);
    }
  }

  /** When the candidate at `i0` matches and none to its right does, the
      backtracking search settles on `i0`. */
  lemma SearchSettlesOnRightmost(hit: nat -> bool, i: nat, i0: nat)
    requires i0 <= i
    requires hit(i0)
    requires forall k :: i0 < k <= i ==> !hit(k)
    ensures RightmostHit(hit, i) == Some(i0)
  {
    var r := RightmostHit(hit, i);
    assert r.Some?;
    var v := r.value;
    assert v <= i && hit(v);
  }

  /** Candidates in the part of a line after a prefix only see that part. */
  lemma CandidateShift(x: string, y: string, p: BackendPattern, j: nat)
    requires j <= |y|
    ensures Candidate(x + y, p, |x| + j) == Candidate(y, p, j)
  {
    SuffixOfConcat(x, y, j);
  }

  /** A suffix of `x + y` that starts inside `y` is a suffix of `y`. */
  lemma SuffixOfConcat(x: string, y: string, j: nat)
    requires j <= |y|
    ensures (x + y)[|x| + j..] == y[j..]
  {
  }

  /** A position whose character cannot start the keyword holds no candidate. */
  lemma NoKeywordStart(s: string, p: BackendPattern, j: nat)
    requires j <= |s|
    requires j == |s| || s[j] != Keyword(p)[0]
    ensures Candidate(s, p, j).None?
  {
    if j + |Keyword(p)| <= |s| {
      assert s[j..j + |Keyword(p)|][0] == s[j];
    }
  }

  /** In the separators and group digits, no candidate starts. */
  lemma NoCandidateInGroup(gs: string, text: string, p: BackendPattern, j: nat)
    requires AllIn(gs, Digit)
    requires j <= |gs| + 1 && j <= |"\t" + gs + text|
    requires |text| > 0 ==> text[0] == '\t'
    ensures Candidate("\t" + gs + text, p, j).None?
  {
    var s := "\t" + gs + text;
    assert j == 0 || j == |s| || s[j] == '\t' || IsDigit(s[j]);
    NoKeywordStart(s, p, j);
  }

  /** Inside a url no candidate matches: its tail would have to start with
      whitespace. */
  lemma NoCandidateInUrl(head: string, url: string, j: nat)
    requires AllIn(url, NonSpace)
    requires |head| <= j <= |head + url|
    ensures Candidate(head + url, ConnectPattern, j).None?
  {
    var s := head + url;
    var kw := Keyword(ConnectPattern);
    if j + |kw| < |s| {
      assert s[j + |kw|..][0] == url[j + |kw| - |head|];
    }
  }

  /** Inside an error message holding no match of its own no candidate
      matches. */
  lemma NoCandidateInError(head: string, err: string, j: nat)
    requires NoErrorMatchIn(err)
    requires |head| <= j <= |head + err|
    ensures Candidate(head + err, ErrorPattern, j).None?
  {
    CandidateShift(head, err, ErrorPattern, j - |head|);
    assert Candidate(err, ErrorPattern, j - |head|).None?;
  }

  /** No position of a BackendOk line's argument text starts a matching candidate. */
  lemma NoCandidateInOkArgs(gs: string, p: BackendPattern, j: nat)
    requires AllIn(gs, Digit)
    requires j <= |"\t" + gs|
    ensures Candidate("\t" + gs, p, j).None?
  {
    assert "\t" + gs + "" == "\t" + gs;
    NoCandidateInGroup(gs, "", p, j);
  }

  /** No position of a url or error line's argument text starts a matching
      candidate. */
  lemma NoCandidateInTextArgs(gs: string, text: string, toUrl: bool, j: nat)
    requires AllIn(gs, Digit)
    requires toUrl ==> AllIn(text, NonSpace)
    requires !toUrl ==> NoErrorMatchIn(text)
    requires j <= |"\t" + (gs + ("\t" + text))|
    ensures Candidate("\t" + (gs + ("\t" + text)), if toUrl then ConnectPattern else ErrorPattern, j).None?
  {
    var args := "\t" + (gs + ("\t" + text));
    var p := if toUrl then ConnectPattern else ErrorPattern;
    var head := "\t" + gs + "\t";
    if j <= |gs| + 1 {
      assert args == "\t" + gs + ("\t" + text);
      NoCandidateInGroup(gs, "\t" + text, p, j);
    } else {
      assert args == head + text;
      if toUrl {
        NoCandidateInUrl(head, text, j);
      } else {
        NoCandidateInError(head, text, j);
      }
    }
  }

  /** No position of a backend line's argument text starts a matching candidate. */
  lemma NoCandidateInArgs(info: LineInfo, j: nat)
    requires Encodable(info) && !info.Plain?
    requires j <= |ArgsText(info)|
    ensures Candidate(ArgsText(info), PatternOf(info.requestType), j).None?
  {
    var gs := ShowNat(info.groupId);
    if info.OkInfo? {
      NoCandidateInOkArgs(gs, OkPattern, j);
    } else {
      NoCandidateInTextArgs(gs, TextOf(info), info.ConnectInfo?, j);
    }
  }

  /** Inside the type word itself (after its first character) no candidate
      can match: the keyword would have to run over the tab after the word. */
  lemma NoCandidateInsideType(info: LineInfo, j: nat)
    requires Encodable(info) && !info.Plain?
    requires 0 < j < |info.requestType|
    ensures Candidate(info.requestType + ArgsText(info), PatternOf(info.requestType), j).None?
  {
    var p := PatternOf(info.requestType);
    assert Keyword(p) == info.requestType;
    NoCandidateInsideWord(p, ArgsText(info), j);
  }

  lemma NoCandidateInsideWord(p: BackendPattern, rest: string, j: nat)
    requires AllIn(Keyword(p), Word)
    requires |rest| == 0 || !IsWord(rest[0])
    requires 0 < j < |Keyword(p)|
    ensures Candidate(Keyword(p) + rest, p, j).None?
  {
    var kw := Keyword(p);
    var line := kw + rest;
    var c := |kw|;
    if j + c <= |line| {
      assert line[j..j + c][c - j] == rest[0];
      assert IsWord(kw[c - j]);
    }
  }

  lemma DigitsOnOneLine(s: string)
    requires AllIn(s, Digit)
    ensures AllIn(s, NotNewline)
  {
    assert forall k :: 0 <= k < |s| ==> InClass(s[k], Digit);
  }

  lemma WordOnOneLine(s: string)
    requires AllIn(s, Word)
    ensures AllIn(s, NotNewline)
  {
    assert forall k :: 0 <= k < |s| ==> InClass(s[k], Word);
  }

  lemma ArgsOnOneLine(info: LineInfo)
    requires Encodable(info)
    ensures AllIn(ArgsText(info), NotNewline)
  {
    if !info.Plain? {
      var gs := ShowNat(info.groupId);
      DigitsOnOneLine(gs);
      if info.OkInfo? {
        AllInConcat("\t", gs, NotNewline);
      } else {
        var text := TextOf(info);
        assert AllIn(text, NotNewline) by {
          if info.ConnectInfo? {
            assert forall k :: 0 <= k < |text| ==> InClass(text[k], NonSpace);
          }
        }
        AllInConcat("\t", text, NotNewline);
        AllInConcat(gs, "\t" + text, NotNewline);
        AllInConcat("\t", gs + ("\t" + text), NotNewline);
      }
    }
  }

  /** A written line holds no newline, so `.` reaches its end. */
  lemma NoNewline(info: LineInfo)
    requires Encodable(info)
    ensures |TakeRun(EncodeLine(info), NotNewline).0| == |EncodeLine(info)|
  {
    var line := EncodeLine(info);
    var t := ShowNat(info.timestamp);
    var i := ShowNat(info.requestId);
    var body := info.requestType + ArgsText(info);
    DigitsOnOneLine(t);
    DigitsOnOneLine(i);
    WordOnOneLine(info.requestType);
    ArgsOnOneLine(info);
    AllInConcat(info.requestType, ArgsText(info), NotNewline);
    AllInConcat("\t", body, NotNewline);
    AllInConcat(i, "\t" + body, NotNewline);
    AllInConcat("\t", i + ("\t" + body), NotNewline);
    AllInConcat(t, "\t" + (i + ("\t" + body)), NotNewline);
    assert line == t + ("\t" + (i + ("\t" + body)));
    TakeRunOf(line, "", NotNewline);
    assert line + "" == line;
  }

  /** Right of the type word's first character, no candidate matches. */
  lemma NoCandidateAfterType(info: LineInfo, k: nat)
    requires Encodable(info) && !info.Plain?
    requires |HeaderPrefix(info.timestamp, info.requestId)| < k <= |EncodeLine(info)|
    ensures Candidate(EncodeLine(info), PatternOf(info.requestType), k).None?
  {
    var prefix := HeaderPrefix(info.timestamp, info.requestId);
    var body := info.requestType + ArgsText(info);
    NoCandidateInBody(info, k - |prefix|);
    NoCandidateShifted(prefix, body, PatternOf(info.requestType), k);
  }

  lemma NoCandidateShifted(x: string, y: string, p: BackendPattern, k: nat)
    requires |x| <= k <= |x| + |y|
    requires Candidate(y, p, k - |x|).None?
    ensures Candidate(x + y, p, k).None?
  {
    SuffixOfConcat(x, y, k - |x|);
  }

  lemma NoCandidateInBody(info: LineInfo, j: nat)
    requires Encodable(info) && !info.Plain?
    requires 0 < j <= |info.requestType + ArgsText(info)|
    ensures Candidate(info.requestType + ArgsText(info), PatternOf(info.requestType), j).None?
  {
    var w, args, p := info.requestType, ArgsText(info), PatternOf(info.requestType);
    if j < |w| {
      NoCandidateInsideType(info, j);
    } else {
      NoCandidateInArgs(info, j - |w|);
      NoCandidateShifted(w, args, p, j);
    }
  }

  /** On a written backend line the search settles on the type word. */
  lemma SearchFindsType(info: LineInfo)
    requires Encodable(info) && !info.Plain?
    ensures RightmostHit(Hits(EncodeLine(info), PatternOf(info.requestType)), |EncodeLine(info)|)
         == Some(|HeaderPrefix(info.timestamp, info.requestId)|)
  {
    var prefix := HeaderPrefix(info.timestamp, info.requestId);
    var line := EncodeLine(info);
    var p := PatternOf(info.requestType);
    var hit := Hits(line, p);
    CandidateAtType(info);
    assert hit(|prefix|);
    forall k | |prefix| < k <= |line|
      ensures !hit(k)
    {
      NoCandidateAfterType(info, k);
    }
    SearchSettlesOnRightmost(hit, |line|, |prefix|);
  }

  /** A keyword after a prefix leaves the line's rest to the pattern's tail. */
  lemma CandidateAfter(prefix: string, p: BackendPattern, rest: string)
    ensures Candidate(prefix + (Keyword(p) + rest), p, |prefix|) == MatchTail(p, rest)
  {
    var line := prefix + (Keyword(p) + rest);
    var n := |prefix| + |Keyword(p)|;
    assert line[|prefix|..n] == Keyword(p);
    assert line[n..] == rest;
  }

  /** The candidate at the type word reads the group and text back. */
  lemma CandidateAtType(info: LineInfo)
    requires Encodable(info) && !info.Plain?
    ensures Candidate(EncodeLine(info), PatternOf(info.requestType), |HeaderPrefix(info.timestamp, info.requestId)|)
         == Some(BackendArgs(info.groupId, TextOf(info)))
  {
    var p := PatternOf(info.requestType);
    assert Keyword(p) == info.requestType;
    CandidateAfter(HeaderPrefix(info.timestamp, info.requestId), p, ArgsText(info));
    TailRoundTrip(info);
  }

  /** The backend pattern finds the keyword at the type word and reads the
      group and text back. */
  lemma BackendArgsRoundTrip(info: LineInfo)
    requires Encodable(info) && !info.Plain?
    ensures MatchBackend(EncodeLine(info), PatternOf(info.requestType))
         == Some(BackendArgs(info.groupId, TextOf(info)))
  {
    NoNewline(info);
    SearchFindsType(info);
    CandidateAtType(info);
  }

  /** Decoding a written line gives back the record: the printer and the
      decoder are inverse on every record a line can carry. */
  lemma RoundTrip(info: LineInfo)
    requires Encodable(info)
    ensures Decode(EncodeLine(info)) == Success(info)
  {
    var args := ArgsText(info);
    assert |args| > 0 ==> args[0] == '\t';
    HeaderRoundTrip(info.timestamp, info.requestId, info.requestType, args);
    if !info.Plain? {
      BackendArgsRoundTrip(info);
    }
  }

  /** An error message may mention the keyword: without a group after it,
      the search backtracks to the type word and the message reads back
      whole. */
  lemma KeywordInMessageReadBack()
    ensures Encodable(ErrorInfo(0, ErrorTag, 1, 1, "BackendError x"))
    ensures Decode(EncodeLine(ErrorInfo(0, ErrorTag, 1, 1, "BackendError x")))
         == Success(ErrorInfo(0, ErrorTag, 1, 1, "BackendError x"))
  {
    var err := "BackendError x";
    forall j: nat | j <= |err|
      ensures Candidate(err, ErrorPattern, j).None?
    {
      if j == 0 {
        assert err == Keyword(ErrorPattern) + " x";
        CandidateAfter("", ErrorPattern, " x");
        TakeRunOf("", "x", Digit);
      } else {
        assert j == |err| || err[j] != 'B';
        NoKeywordStart(err, ErrorPattern, j);
      }
    }
    RoundTrip(ErrorInfo(0, ErrorTag, 1, 1, err));
  }

  /** The header fields and their separators hold only digits and tabs. */
  lemma PrefixChars(ts: nat, id: nat)
    ensures forall j :: 0 <= j < |HeaderPrefix(ts, id)| ==>
              IsDigit(HeaderPrefix(ts, id)[j]) || HeaderPrefix(ts, id)[j] == '\t'
  {
    var t, i := ShowNat(ts), ShowNat(id);
    var prefix := HeaderPrefix(ts, id);
    assert prefix == t + "\t" + i + "\t";
    forall j | 0 <= j < |prefix|
      ensures IsDigit(prefix[j]) || prefix[j] == '\t'
    {
      if j < |t| {
        assert prefix[j] == t[j];
      } else if |t| < j < |t| + 1 + |i| {
        assert prefix[j] == i[j - |t| - 1];
      }
    }
  }

  /** A whitespace run alone is no backend tail: every tail needs a group. */
  lemma NoTailInSpaces(p: BackendPattern, ws: string)
    requires AllIn(ws, Space)
    ensures MatchTail(p, ws).None?
  {
    assert ws + "" == ws;
    TakeRunOf(ws, "", Space);
    if |ws| > 0 {
      assert |ws[1..]| == 0 || IsSpace(ws[1..][0]);
      TakeRunOf("", ws[1..], Digit);
    }
  }

  /** No backend pattern matches a line that ends with whitespace right
      after its keyword. */
  lemma NoCandidateWithoutArgs(ts: nat, id: nat, p: BackendPattern, ws: string, j: nat)
    requires AllIn(ws, Space)
    requires j <= |HeaderPrefix(ts, id) + (Keyword(p) + ws)|
    ensures Candidate(HeaderPrefix(ts, id) + (Keyword(p) + ws), p, j).None?
  {
    var prefix := HeaderPrefix(ts, id);
    var kw := Keyword(p);
    var body := kw + ws;
    var line := prefix + body;
    if j < |prefix| {
      PrefixChars(ts, id);
      assert line[j] == prefix[j];
      NoKeywordStart(line, p, j);
    } else if j == |prefix| {
      CandidateAfter(prefix, p, ws);
      NoTailInSpaces(p, ws);
    } else {
      NoCandidateAfterKeywordStart(p, ws, j - |prefix|);
      NoCandidateShifted(prefix, body, p, j);
    }
  }

  /** Past the keyword's first character, a keyword followed by whitespace
      holds no candidate. */
  lemma NoCandidateAfterKeywordStart(p: BackendPattern, ws: string, k: nat)
    requires AllIn(ws, Space)
    requires 0 < k <= |Keyword(p) + ws|
    ensures Candidate(Keyword(p) + ws, p, k).None?
  {
    var kw := Keyword(p);
    var body := kw + ws;
    if k < |kw| {
      assert AllIn(kw, Word);
      assert |ws| == 0 || IsSpace(ws[0]);
      NoCandidateInsideWord(p, ws, k);
    } else {
      assert k == |body| || body[k] == ws[k - |kw|];
      NoKeywordStart(body, p, k);
    }
  }

  /** With only whitespace after the keyword, the backend search finds nothing. */
  lemma NoMatchWithoutArgs(ts: nat, id: nat, p: BackendPattern, ws: string)
    requires AllIn(ws, Space)
    ensures MatchBackend(HeaderPrefix(ts, id) + (Keyword(p) + ws), p).None?
  {
    var line := HeaderPrefix(ts, id) + (Keyword(p) + ws);
    var hit := Hits(line, p);
    var i := |TakeRun(line, NotNewline).0|;
    forall j | 0 <= j <= i
      ensures !hit(j)
    {
      NoCandidateWithoutArgs(ts, id, p, ws, j);
    }
    assert RightmostHit(hit, i).None?;
  }

  /** A backend line without its group field, whether it ends at the keyword
      or keeps its trailing newline or other whitespace, is rejected by the
      backend pattern, and the decoder reports that its arguments cannot be
      parsed. */
  lemma MissingGroupRejected(ts: nat, id: nat, p: BackendPattern, ws: string)
    requires AllIn(ws, Space)
    ensures Decode(HeaderPrefix(ts, id) + (Keyword(p) + ws)) == Failure(CannotParseBackendArgs)
  {
    var kw := Keyword(p);
    assert AllIn(kw, Word);
    assert |ws| == 0 || !IsWord(ws[0]);
    HeaderRoundTrip(ts, id, kw, ws);
    assert IsBackendTag(kw) && PatternOf(kw) == p;
    NoMatchWithoutArgs(ts, id, p, ws);
  }

  /** The newline-terminated form of such a line, as the file loop passes it. */
  lemma MissingGroupWithNewline(ts: nat, id: nat, p: BackendPattern)
    ensures Decode(HeaderPrefix(ts, id) + (Keyword(p) + "\n")) == Failure(CannotParseBackendArgs)
  {
    MissingGroupRejected(ts, id, p, "\n");
  }
}
