/** The input loops: each line is decoded and its record handed to the
    correlator. The monolithic module skips a line on `ParseException` and
    goes on; the packaged entry point does the same but does not catch the
    `TypeError` its decoder raises on BackendOk lines, so the run stops there. */
module Pipeline {
  import opened Results
  import opened LineRecords
  import opened Decoder
  import opened Correlator
  import opened Traces

  /** The record a line contributes: one if it decodes, none if not. */
  function Records(decode: string -> Result<LineInfo, DecodeError>, line: string): (r: seq<LineInfo>)
    ensures |r| <= 1
  {
    if decode(line).Success? then [decode(line).value] else []
  }

  /** The records of the lines that decode, in order; a line whose decoding
      fails contributes nothing. */
  function Decoded(decode: string -> Result<LineInfo, DecodeError>, lines: seq<string>): (r: seq<LineInfo>)
    ensures |r| <= |lines|
    decreases |lines|
  {
    if |lines| == 0 then [] else Records(decode, lines[0]) + Decoded(decode, lines[1..])
  }

  lemma Tail<T>(a: seq<T>, b: seq<T>)
    requires |a| > 0
    ensures (a + b)[0] == a[0] && (a + b)[1..] == a[1..] + b
  {
  }

  lemma Assoc<T>(a: seq<T>, b: seq<T>, c: seq<T>)
    ensures a + (b + c) == (a + b) + c
  {
  }

  /** Decoding a concatenation decodes each part. */
  lemma {:induction false} DecodedAppend(decode: string -> Result<LineInfo, DecodeError>, a: seq<string>, b: seq<string>)
    ensures Decoded(decode, a + b) == Decoded(decode, a) + Decoded(decode, b)
    decreases |a|
  {
    if |a| == 0 {
      assert a + b == b;
    } else {
      Tail(a, b);
      DecodedAppend(decode, a[1..], b);
      Assoc(Records(decode, a[0]), Decoded(decode, a[1..]), Decoded(decode, b));
    }
  }

  /** A line that fails to decode drops out: the records are those of the
      lines before it followed by those of the lines after it. */
  lemma FailedLineSkipped(decode: string -> Result<LineInfo, DecodeError>, lines: seq<string>, i: nat)
    requires i < |lines| && decode(lines[i]).Failure?
    ensures Decoded(decode, lines) == Decoded(decode, lines[..i]) + Decoded(decode, lines[i + 1..])
  {
    SplitAt(lines, i);
    DecodedAppend(decode, lines[..i], lines[i..]);
    var rest := Decoded(decode, lines[i + 1..]);
    assert Decoded(decode, lines[i..]) == [] + rest;
    assert [] + rest == rest;
  }

  lemma SplitAt<T>(s: seq<T>, i: nat)
    requires i < |s|
    ensures s == s[..i] + s[i..]
    ensures |s[i..]| > 0 && s[i..][0] == s[i] && s[i..][1..] == s[i + 1..]
  {
  }

  /** The remaining lines from `i` on: the record of line `i`, if any, is
      handled first, then those of the lines after it. */
  lemma Remaining(decode: string -> Result<LineInfo, DecodeError>, r: Stats, lines: seq<string>, i: nat, n: nat)
    requires i < n <= |lines| && CanRun(r, Decoded(decode, lines[i..n]))
    ensures decode(lines[i]).Success? ==>
              var v := decode(lines[i]).value;
              Enabled(r, v) && CanRun(Step(r, v), Decoded(decode, lines[i + 1..n]))
              && Run(r, Decoded(decode, lines[i..n])) == Run(Step(r, v), Decoded(decode, lines[i + 1..n]))
    ensures decode(lines[i]).Failure? ==> Decoded(decode, lines[i..n]) == Decoded(decode, lines[i + 1..n])
  {
    var rest := lines[i..n];
    assert rest[0] == lines[i] && rest[1..] == lines[i + 1..n];
    var d := Decoded(decode, rest);
    if decode(lines[i]).Success? {
      assert d[0] == decode(lines[i]).value && d[1..] == Decoded(decode, lines[i + 1..n]);
    } else {
      assert d == [] + Decoded(decode, lines[i + 1..n]);
    }
  }

  /** The first line the loop stops at, if any. */
  function FirstStop(stops: string -> bool, lines: seq<string>): (r: Option<nat>)
    ensures r.None? <==> forall k :: 0 <= k < |lines| ==> !stops(lines[k])
    ensures r.Some? ==> r.value < |lines| && stops(lines[r.value])
    ensures r.Some? ==> forall k :: 0 <= k < r.value ==> !stops(lines[k])
    decreases |lines|
  {
    if |lines| == 0 then None
    else if stops(lines[0]) then Some(0)
    else match FirstStop(stops, lines[1..])
      case None => None
      case Some(k) => Some(k + 1)
  }

  /** How many lines the loop gets through. */
  function Reached(stops: string -> bool, lines: seq<string>): (n: nat)
    ensures n <= |lines|
  {
    match FirstStop(stops, lines)
    case None => |lines|
    case Some(k) => k
  }

  /** One pass of the loop: the record of line `i` is handled, or the line
      is added to the skipped ones. */
  method HandleLine(decode: string -> Result<LineInfo, DecodeError>, r: Stats, skipped: seq<nat>, lines: seq<string>, i: nat, n: nat)
    returns (r': Stats, skipped': seq<nat>)
    requires i < n <= |lines| && CanRun(r, Decoded(decode, lines[i..n]))
    requires forall k :: 0 <= k < |skipped| ==> skipped[k] < i && decode(lines[skipped[k]]).Failure?
    requires forall k :: 0 <= k < i && decode(lines[k]).Failure? ==> k in skipped
    requires forall a, b :: 0 <= a < b < |skipped| ==> skipped[a] < skipped[b]
    ensures CanRun(r', Decoded(decode, lines[i + 1..n]))
    ensures Run(r', Decoded(decode, lines[i + 1..n])) == Run(r, Decoded(decode, lines[i..n]))
    ensures forall k :: 0 <= k < |skipped'| ==> skipped'[k] < i + 1 && decode(lines[skipped'[k]]).Failure?
    ensures forall k :: 0 <= k < i + 1 && decode(lines[k]).Failure? ==> k in skipped'
    ensures forall a, b :: 0 <= a < b < |skipped'| ==> skipped'[a] < skipped'[b]
  {
    Remaining(decode, r, lines, i, n);
    var d := decode(lines[i]);
    if d.Success? {
      r', skipped' := Step(r, d.value), skipped;
    } else {
      r', skipped' := r, skipped + [i];
    }
  }

  /** The loop of `parse_input`, for a decoder and the lines on which an
      exception escapes it: each line before the first such line is decoded,
      its record handled or, on a caught exception, the line skipped. */
  method HandleLines(decode: string -> Result<LineInfo, DecodeError>, stops: string -> bool, s: Stats, lines: seq<string>)
    returns (r: Stats, skipped: seq<nat>, stopped: Option<nat>)
    requires CanRun(s, Decoded(decode, lines[..Reached(stops, lines)]))
    ensures stopped == FirstStop(stops, lines)
    ensures r == Run(s, Decoded(decode, lines[..Reached(stops, lines)]))
    ensures forall k :: 0 <= k < |skipped| ==> skipped[k] < Reached(stops, lines) && decode(lines[skipped[k]]).Failure?
    ensures forall k :: 0 <= k < Reached(stops, lines) && decode(lines[k]).Failure? ==> k in skipped
    ensures forall a, b :: 0 <= a < b < |skipped| ==> skipped[a] < skipped[b]
  {
    r, skipped, stopped := s, [], None;
    var n := Reached(stops, lines);
    var i := 0;
    assert lines[0..n] == lines[..n];
    while i < |lines|
      invariant 0 <= i <= n
      invariant forall k :: 0 <= k < i ==> !stops(lines[k])
      invariant CanRun(r, Decoded(decode, lines[i..n]))
      invariant Run(r, Decoded(decode, lines[i..n])) == Run(s, Decoded(decode, lines[..n]))
      invariant forall k :: 0 <= k < |skipped| ==> skipped[k] < i && decode(lines[skipped[k]]).Failure?
      invariant forall k :: 0 <= k < i && decode(lines[k]).Failure? ==> k in skipped
      invariant forall a, b :: 0 <= a < b < |skipped| ==> skipped[a] < skipped[b]
    {
      if stops(lines[i]) {
        stopped := Some(i);
        break;
      }
      r, skipped := HandleLine(decode, r, skipped, lines, i, n);
      i := i + 1;
    }
    assert i == n;
    assert Decoded(decode, lines[i..n]) == [];
  }

  /** Nothing escapes the monolithic loop. */
  predicate NeverStops(line: string) {
    false
  }

  /** `parse_input` of the monolithic module: every line is decoded; a
      record is handled, a `ParseException` is reported and the line
      skipped. The run reaches the end of the input. */
  method ProcessLines(s: Stats, lines: seq<string>) returns (r: Stats, skipped: seq<nat>)
    requires CanRun(s, Decoded(Decode, lines))
    ensures r == Run(s, Decoded(Decode, lines))
    ensures forall k :: 0 <= k < |skipped| ==> skipped[k] < |lines| && Decode(lines[skipped[k]]).Failure?
    ensures forall k :: 0 <= k < |lines| && Decode(lines[k]).Failure? ==> k in skipped
    ensures forall a, b :: 0 <= a < b < |skipped| ==> skipped[a] < skipped[b]
  {
    assert Reached(NeverStops, lines) == |lines| && lines[..|lines|] == lines;
    var stopped;
    r, skipped, stopped := HandleLines(Decode, NeverStops, s, lines);
  }

  /** The packaged decoder raises `TypeError` on the line, which the
      packaged loop does not catch. */
  predicate Crashes(line: string) {
    PackagedDecode(line).Failure? && PackagedDecode(line).error.MissingArgument?
  }

  /** `parse_input` of the packaged entry point: like the monolithic loop,
      except that the first line the decoder raises `TypeError` on ends the
      run, leaving the state as the lines before it made it. */
  method PackagedProcessLines(s: Stats, lines: seq<string>) returns (r: Stats, skipped: seq<nat>, crashed: Option<nat>)
    requires CanRun(s, Decoded(PackagedDecode, lines[..Reached(Crashes, lines)]))
    ensures crashed.None? <==> forall k :: 0 <= k < |lines| ==> !Crashes(lines[k])
    ensures crashed.Some? ==> crashed.value < |lines| && Crashes(lines[crashed.value])
                              && forall k :: 0 <= k < crashed.value ==> !Crashes(lines[k])
    ensures r == Run(s, Decoded(PackagedDecode, lines[..Reached(Crashes, lines)]))
    ensures forall k :: 0 <= k < |skipped| ==> skipped[k] < Reached(Crashes, lines) && PackagedDecode(lines[skipped[k]]).Failure?
    ensures forall k :: 0 <= k < Reached(Crashes, lines) && PackagedDecode(lines[k]).Failure? ==> k in skipped
    ensures forall a, b :: 0 <= a < b < |skipped| ==> skipped[a] < skipped[b]
  {
    r, skipped, crashed := HandleLines(PackagedDecode, Crashes, s, lines);
  }

  /** Before the packaged loop stops, both decoders give the same records:
      the only lines on which they differ are the ones that stop it. */
  lemma {:induction false} PackagedAgreesBeforeCrash(lines: seq<string>)
    requires forall k :: 0 <= k < |lines| ==> !Crashes(lines[k])
    ensures Decoded(PackagedDecode, lines) == Decoded(Decode, lines)
    decreases |lines|
  {
    if |lines| > 0 {
      assert !Crashes(lines[0]);
      PackagedAgreesBeforeCrash(lines[1..]);
    }
  }
}
