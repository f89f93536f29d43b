/** Decoding one log line into a record: the header pattern
    `(?P<timestamp>\d+)\s(?P<id>\d+)\s(?P<type>\w+).*`, then, for the three
    backend types, a second pattern `.*<Type><tail>` over the whole line. */
module Decoder {
  import opened Results
  import opened Chars
  import opened LineRecords

  datatype Header = Header(timestamp: nat, requestId: nat, requestType: string)

  /** The header pattern, matched at the start of the line. Each field is the
      longest run of its class; the pattern allows exactly one whitespace
      character between fields and ignores what follows the type word. */
  function ParseHeader(line: string): (r: Option<Header>)
    ensures r.Some? ==> |r.value.requestType| > 0 && AllIn(r.value.requestType, Word)
    ensures |line| == 0 || !IsDigit(line[0]) ==> r.None?
  {
    var (tsText, rest1) := TakeRun(line, Digit);
    if |tsText| == 0 || |rest1| == 0 || !IsSpace(rest1[0]) then None
    else
      var (idText, rest2) := TakeRun(rest1[1..], Digit);
      if |idText| == 0 || |rest2| == 0 || !IsSpace(rest2[0]) then None
      else
        var (tag, _) := TakeRun(rest2[1..], Word);
        if |tag| == 0 then None
        else Some(Header(ParseNat(tsText), ParseNat(idText), tag))
  }

  /** A line whose second field does not start with a digit (the request id is
      missing) is rejected, whatever follows. */
  lemma HeaderRejectsMissingId(digits: string, sep: char, rest: string)
    requires |digits| > 0 && AllIn(digits, Digit) && IsSpace(sep)
    requires |rest| == 0 || !IsDigit(rest[0])
    ensures ParseHeader(digits + [sep] + rest).None?
  {
    assert digits + [sep] + rest == digits + ([sep] + rest);
    TakeRunOf(digits, [sep] + rest, Digit);
    assert ([sep] + rest)[1..] == rest;
    TakeRunOf("", rest, Digit);
  }

  /** `line` is a digit run `t`, one whitespace character, a digit run `i`,
      one whitespace character and a word `w`, followed by `rest`, which does
      not continue the word. */
  predicate HeaderLayout(line: string, t: string, s1: char, i: string, s2: char, w: string, rest: string) {
    && |t| > 0 && AllIn(t, Digit) && IsSpace(s1)
    && |i| > 0 && AllIn(i, Digit) && IsSpace(s2)
    && |w| > 0 && AllIn(w, Word) && (|rest| == 0 || !IsWord(rest[0]))
    && line == t + ([s1] + (i + ([s2] + (w + rest))))
  }

  /** Any such layout is read as its digit runs' values and its word,
      leading zeros and any separator included. */
  lemma ParseHeaderOf(line: string, t: string, s1: char, i: string, s2: char, w: string, rest: string)
    requires HeaderLayout(line, t, s1, i, s2, w, rest)
    ensures ParseHeader(line) == Some(Header(ParseNat(t), ParseNat(i), w))
  {
    var afterId := [s2] + (w + rest);
    var afterTs := [s1] + (i + afterId);
    TakeRunOf(t, afterTs, Digit);
    assert afterTs[1..] == i + afterId;
    TakeRunOf(i, afterId, Digit);
    assert afterId[1..] == w + rest;
    TakeRunOf(w, rest, Word);
  }

  /** Conversely, every line the header pattern accepts has that layout. */
  lemma {:induction false} ParseHeaderHasLayout(line: string)
    requires ParseHeader(line).Some?
    ensures exists t, s1, i, s2, w, rest :: HeaderLayout(line, t, s1, i, s2, w, rest)
  {
    var (t, rest1) := TakeRun(line, Digit);
    var (i, rest2) := TakeRun(rest1[1..], Digit);
    var (w, rest) := TakeRun(rest2[1..], Word);
    assert rest2 == [rest2[0]] + rest2[1..];
    assert rest1 == [rest1[0]] + rest1[1..];
    assert HeaderLayout(line, t, rest1[0], i, rest2[0], w, rest);
  }

  /** The header pattern accepts exactly the lines of that layout. */
  lemma ParseHeaderExactly(line: string)
    ensures ParseHeader(line).Some? <==> exists t, s1, i, s2, w, rest :: HeaderLayout(line, t, s1, i, s2, w, rest)
  {
    if ParseHeader(line).Some? {
      ParseHeaderHasLayout(line);
    } else if exists t, s1, i, s2, w, rest :: HeaderLayout(line, t, s1, i, s2, w, rest) {
      var t, s1, i, s2, w, rest :| HeaderLayout(line, t, s1, i, s2, w, rest);
      ParseHeaderOf(line, t, s1, i, s2, w, rest);
    }
  }

  /** The three backend patterns, named by the keyword they search for. */
  datatype BackendPattern = ConnectPattern | OkPattern | ErrorPattern

  /** The group number and the text field (url or error message; empty for
      BackendOk) captured by a backend pattern. */
  datatype BackendArgs = BackendArgs(group: nat, text: string)

  function Keyword(p: BackendPattern): string {
    match p
    case ConnectPattern => ConnectTag
    case OkPattern => OkTag
    case ErrorPattern => ErrorTag
  }

  function PatternOf(tag: string): BackendPattern
    requires IsBackendTag(tag)
  {
    if tag == ConnectTag then ConnectPattern
    else if tag == OkTag then OkPattern
    else ErrorPattern
  }

  /** BackendOk's tail `\s+(?P<group>\d+)`; the group is the longest digit run. */
  function OkTail(rest: string): (r: Option<BackendArgs>)
    ensures r.Some? ==> |rest| > 0 && IsSpace(rest[0]) && r.value.text == ""
  {
    var (spaces, rest1) := TakeRun(rest, Space);
    if |spaces| == 0 then None
    else
      var (groupText, _) := TakeRun(rest1, Digit);
      if |groupText| == 0 then None
      else Some(BackendArgs(ParseNat(groupText), ""))
  }

  /** BackendConnect's tail `\s(?P<group>\d+)\s+(?P<url>\S+)` (`toUrl`) and
      BackendError's tail `\s(?P<group>\d+)\s+(?P<error>.*)`. Every run is
      greedy and no shorter run could complete the match. */
  function TextTail(rest: string, toUrl: bool): (r: Option<BackendArgs>)
    ensures r.Some? ==> |rest| > 0 && IsSpace(rest[0])
    ensures r.Some? && toUrl ==> |r.value.text| > 0 && AllIn(r.value.text, NonSpace)
    ensures r.Some? && !toUrl ==> AllIn(r.value.text, NotNewline)
  {
    if |rest| == 0 || !IsSpace(rest[0]) then None
    else
      var (groupText, rest1) := TakeRun(rest[1..], Digit);
      if |groupText| == 0 then None
      else
        var (spaces, rest2) := TakeRun(rest1, Space);
        if |spaces| == 0 then None
        else
          var (text, _) := TakeRun(rest2, if toUrl then NonSpace else NotNewline);
          if toUrl && |text| == 0 then None
          else Some(BackendArgs(ParseNat(groupText), text))
  }

  /** BackendOk's tail reads the group from any whitespace run followed by
      a digit run that nothing else continues. */
  lemma OkTailOf(sp: string, gs: string, after: string)
    requires |sp| > 0 && AllIn(sp, Space)
    requires |gs| > 0 && AllIn(gs, Digit) && (|after| == 0 || !IsDigit(after[0]))
    ensures OkTail(sp + (gs + after)) == Some(BackendArgs(ParseNat(gs), ""))
  {
    assert |gs + after| > 0 && (gs + after)[0] == gs[0];
    TakeRunOf(sp, gs + after, Space);
    TakeRunOf(gs, after, Digit);
  }

  /** The url and error tails read the group and the text from one
      whitespace character, a digit run, a whitespace run and the longest
      run of the text's class. */
  lemma TextTailOf(s: char, gs: string, sp: string, text: string, after: string, toUrl: bool)
    requires IsSpace(s) && |gs| > 0 && AllIn(gs, Digit)
    requires |sp| > 0 && AllIn(sp, Space)
    requires toUrl ==> |text| > 0 && AllIn(text, NonSpace) && (|after| == 0 || IsSpace(after[0]))
    requires !toUrl ==> AllIn(text, NotNewline) && (|text| == 0 || !IsSpace(text[0]))
                        && (|after| == 0 || after[0] == '\n')
    requires !toUrl && |text| == 0 ==> |after| == 0 || !IsSpace(after[0])
    ensures TextTail([s] + (gs + (sp + (text + after))), toUrl) == Some(BackendArgs(ParseNat(gs), text))
  {
    var rest := [s] + (gs + (sp + (text + after)));
    assert rest[1..] == gs + (sp + (text + after));
    assert |sp + (text + after)| > 0 && (sp + (text + after))[0] == sp[0];
    TakeRunOf(gs, sp + (text + after), Digit);
    if |text| > 0 {
      assert (text + after)[0] == text[0];
    } else {
      assert text + after == after;
    }
    TakeRunOf(sp, text + after, Space);
    var cls := if toUrl then NonSpace else NotNewline;
    TakeRunOf(text, after, cls);
  }

  /** What each pattern requires right after its keyword. */
  function MatchTail(p: BackendPattern, rest: string): Option<BackendArgs> {
    match p
    case OkPattern => OkTail(rest)
    case ConnectPattern => TextTail(rest, true)
    case ErrorPattern => TextTail(rest, false)
  }

  /** The pattern's keyword at the start of `t`, followed by a matching tail. */
  function KeywordMatch(t: string, p: BackendPattern): Option<BackendArgs> {
    var kw := Keyword(p);
    if |kw| <= |t| && t[..|kw|] == kw then MatchTail(p, t[|kw|..]) else None
  }

  /** The pattern's keyword at position `i` of the line, followed by a
      matching tail; nothing past the end of the line. */
  function Candidate(line: string, p: BackendPattern, i: nat): Option<BackendArgs> {
    if i <= |line| then KeywordMatch(line[i..], p) else None
  }

  /** Backtracking of a leading greedy `.*` from position `i` downwards: the
      first, hence rightmost, position where the rest of the pattern (`hit`)
      matches. */
  function RightmostHit(hit: nat -> bool, i: nat): (r: Option<nat>)
    ensures r.None? ==> forall j :: 0 <= j <= i ==> !hit(j)
    ensures r.Some? ==> r.value <= i && hit(r.value)
    ensures r.Some? ==> forall k :: r.value < k <= i ==> !hit(k)
    decreases i
  {
    if hit(i) then Some(i)
    else if i == 0 then None
    else RightmostHit(hit, i - 1)
  }

  /** Positions where the keyword starts a complete match. */
  function Hits(line: string, p: BackendPattern): nat -> bool {
    (j: nat) => Candidate(line, p, j).Some?
  }

  /** `.*<Keyword><tail>` matched at the start of the line. `.` does not
      cross a newline, so the keyword must begin before the first newline. */
  function MatchBackend(line: string, p: BackendPattern): Option<BackendArgs> {
    match RightmostHit(Hits(line, p), |TakeRun(line, NotNewline).0|)
    case None => None
    case Some(i) => Candidate(line, p, i)
  }

  /** The exception raised while decoding: `ParseException` for either
      pattern failing, or a `TypeError` for a constructor called without a
      required argument. */
  datatype DecodeError =
    | CannotParseLine
    | CannotParseBackendArgs
    | MissingArgument(name: string)

  /** `parse_line` with its three backend sub-parsers, as in the monolithic
      module, where BackendOk lines decode. */
  function Decode(line: string): (r: Result<LineInfo, DecodeError>)
    ensures ParseHeader(line).None? <==> r == Failure(CannotParseLine)
    ensures r.Failure? ==> r.error != MissingArgument("aaaargs") && !r.error.MissingArgument?
    ensures r.Success? ==> WellTagged(r.value)
    ensures r.Success? ==> var h := ParseHeader(line).value;
              r.value.requestId == h.requestId && r.value.timestamp == h.timestamp
              && r.value.requestType == h.requestType
    ensures ParseHeader(line).Some? && IsBackendTag(ParseHeader(line).value.requestType) ==>
              (r == Failure(CannotParseBackendArgs) <==> MatchBackend(line, PatternOf(ParseHeader(line).value.requestType)).None?)
    ensures ParseHeader(line).Some? && !IsBackendTag(ParseHeader(line).value.requestType) ==>
              r.Success? && r.value.Plain?
  {
    match ParseHeader(line)
    case None => Failure(CannotParseLine)
    case Some(h) => Build(h, line)
  }

  /** The record for a line whose header fields are `h`: a backend type
      takes its group and text from the second pattern, and fails with
      `ParseException` when that pattern does not match; any other type is a
      plain record, whatever the word. */
  function Build(h: Header, line: string): (r: Result<LineInfo, DecodeError>)
    ensures r.Failure? <==> IsBackendTag(h.requestType) && MatchBackend(line, PatternOf(h.requestType)).None?
    ensures r.Failure? ==> r.error == CannotParseBackendArgs
    ensures r.Success? ==> WellTagged(r.value) && r.value.requestType == h.requestType
    ensures r.Success? ==> r.value.requestId == h.requestId && r.value.timestamp == h.timestamp
    ensures r.Success? && !r.value.Plain? ==>
              var args := MatchBackend(line, PatternOf(h.requestType)).value;
              && r.value.groupId == args.group
              && (r.value.ConnectInfo? ==> r.value.backendUrl == args.text)
              && (r.value.ErrorInfo? ==> r.value.error == args.text)
  {
    if IsBackendTag(h.requestType) then
      match MatchBackend(line, PatternOf(h.requestType))
      case None => Failure(CannotParseBackendArgs)
      case Some(args) =>
        if h.requestType == ConnectTag then
          Success(ConnectInfo(h.requestId, h.requestType, h.timestamp, args.group, args.text))
        else if h.requestType == ErrorTag then
          Success(ErrorInfo(h.requestId, h.requestType, h.timestamp, args.group, args.text))
        else
          Success(OkInfo(h.requestId, h.requestType, h.timestamp, args.group))
    else Success(Plain(h.requestId, h.requestType, h.timestamp))
  }

  /** `parse_line` of the packaged module: identical, except that building
      the BackendOk record omits the constructor's second positional
      parameter, so every line that would decode to one raises `TypeError`. */
  function PackagedDecode(line: string): (r: Result<LineInfo, DecodeError>)
    ensures r.Success? ==> !r.value.OkInfo?
    ensures (Decode(line).Success? && Decode(line).value.OkInfo?) <==> r == Failure(MissingArgument("aaaargs"))
    ensures !(Decode(line).Success? && Decode(line).value.OkInfo?) ==> r == Decode(line)
  {
    match Decode(line)
    case Success(OkInfo(_, _, _, _)) => Failure(MissingArgument("aaaargs"))
    case other => other
  }
}
