/** The recorded log lines of the decoder's test table, each read back into
    the record the table expects. */
module Vectors {
  import opened Results
  import opened Chars
  import opened LineRecords
  import opened Decoder
  import opened LineFormat

  /** The digits every recorded timestamp starts with. */
  lemma ShowCommonPrefix()
    ensures ShowNat(1390950) == "1390950"
  {
    assert ShowNat(1) == "1";
    assert ShowNat(13) == "13";
    assert ShowNat(139) == "139";
    assert ShowNat(1390) == "1390";
    assert ShowNat(13909) == "13909";
    assert ShowNat(139095) == "139095";
  }

  lemma ShowStartTime()
    ensures ShowNat(1390950160808136) == "1390950160808136"
  {
    ShowCommonPrefix();
    assert ShowNat(13909501) == "13909501";
    assert ShowNat(139095016) == "139095016";
    assert ShowNat(1390950160) == "1390950160";
    assert ShowNat(13909501608) == "13909501608";
    assert ShowNat(139095016080) == "139095016080";
    assert ShowNat(1390950160808) == "1390950160808";
    assert ShowNat(13909501608081) == "13909501608081";
    assert ShowNat(139095016080813) == "139095016080813";
  }

  lemma ShowMergeTime()
    ensures ShowNat(1390950162475798) == "1390950162475798"
  {
    ShowCommonPrefix();
    assert ShowNat(13909501) == "13909501";
    assert ShowNat(139095016) == "139095016";
    assert ShowNat(1390950162) == "1390950162";
    assert ShowNat(13909501624) == "13909501624";
    assert ShowNat(139095016247) == "139095016247";
    assert ShowNat(1390950162475) == "1390950162475";
    assert ShowNat(13909501624757) == "13909501624757";
    assert ShowNat(139095016247579) == "139095016247579";
  }

  lemma ShowSendResultTime()
    ensures ShowNat(1390950162536865) == "1390950162536865"
  {
    ShowCommonPrefix();
    assert ShowNat(13909501) == "13909501";
    assert ShowNat(139095016) == "139095016";
    assert ShowNat(1390950162) == "1390950162";
    assert ShowNat(13909501625) == "13909501625";
    assert ShowNat(139095016253) == "139095016253";
    assert ShowNat(1390950162536) == "1390950162536";
    assert ShowNat(13909501625368) == "13909501625368";
    assert ShowNat(139095016253686) == "139095016253686";
  }

  lemma ShowFinishTime()
    ensures ShowNat(1390950162890134) == "1390950162890134"
  {
    ShowCommonPrefix();
    assert ShowNat(13909501) == "13909501";
    assert ShowNat(139095016) == "139095016";
    assert ShowNat(1390950162) == "1390950162";
    assert ShowNat(13909501628) == "13909501628";
    assert ShowNat(139095016289) == "139095016289";
    assert ShowNat(1390950162890) == "1390950162890";
    assert ShowNat(13909501628901) == "13909501628901";
    assert ShowNat(139095016289013) == "139095016289013";
  }

  lemma ShowConnectTime()
    ensures ShowNat(1390950160810164) == "1390950160810164"
  {
    ShowCommonPrefix();
    assert ShowNat(13909501) == "13909501";
    assert ShowNat(139095016) == "139095016";
    assert ShowNat(1390950160) == "1390950160";
    assert ShowNat(13909501608) == "13909501608";
    assert ShowNat(139095016081) == "139095016081";
    assert ShowNat(1390950160810) == "1390950160810";
    assert ShowNat(13909501608101) == "13909501608101";
    assert ShowNat(139095016081016) == "139095016081016";
  }

  lemma ShowOkTime()
    ensures ShowNat(1390950160948308) == "1390950160948308"
  {
    ShowCommonPrefix();
    assert ShowNat(13909501) == "13909501";
    assert ShowNat(139095016) == "139095016";
    assert ShowNat(1390950160) == "1390950160";
    assert ShowNat(13909501609) == "13909501609";
    assert ShowNat(139095016094) == "139095016094";
    assert ShowNat(1390950160948) == "1390950160948";
    assert ShowNat(13909501609483) == "13909501609483";
    assert ShowNat(139095016094830) == "139095016094830";
  }

  lemma ShowErrorTime()
    ensures ShowNat(1390950161841530) == "1390950161841530"
  {
    ShowCommonPrefix();
    assert ShowNat(13909501) == "13909501";
    assert ShowNat(139095016) == "139095016";
    assert ShowNat(1390950161) == "1390950161";
    assert ShowNat(13909501618) == "13909501618";
    assert ShowNat(139095016184) == "139095016184";
    assert ShowNat(1390950161841) == "1390950161841";
    assert ShowNat(13909501618415) == "13909501618415";
    assert ShowNat(139095016184153) == "139095016184153";
  }

  /** A line that prints a record a line can carry decodes to that record. */
  lemma DecodesTo(info: LineInfo, line: string)
    requires Encodable(info) && EncodeLine(info) == line
    ensures Decode(line) == Success(info)
  {
    RoundTrip(info);
  }

  /** How a plain record of request 0 is printed, field by field. */
  lemma PrintPlain(ts: nat, tag: string, t: string)
    requires ShowNat(ts) == t
    ensures EncodeLine(Plain(0, tag, ts)) == t + "\t0\t" + (tag + "")
  {
    assert ShowNat(0) == "0";
    assert "\t" + ("0" + "\t") == "\t0\t";
  }

  /** How a BackendOk record of request 0 is printed, field by field. */
  lemma PrintOk(ts: nat, g: nat, t: string, gs: string)
    requires ShowNat(ts) == t && ShowNat(g) == gs
    ensures EncodeLine(OkInfo(0, OkTag, ts, g)) == t + "\t0\t" + (OkTag + ("\t" + gs))
  {
    assert ShowNat(0) == "0";
    assert "\t" + ("0" + "\t") == "\t0\t";
  }

  /** How a BackendConnect record of request 0 is printed, field by field. */
  lemma PrintConnect(ts: nat, g: nat, url: string, t: string, gs: string)
    requires ShowNat(ts) == t && ShowNat(g) == gs
    ensures EncodeLine(ConnectInfo(0, ConnectTag, ts, g, url))
         == t + "\t0\t" + (ConnectTag + ("\t" + (gs + ("\t" + url))))
  {
    assert ShowNat(0) == "0";
    assert "\t" + ("0" + "\t") == "\t0\t";
  }

  /** How a BackendError record of request 0 is printed, field by field. */
  lemma PrintError(ts: nat, g: nat, err: string, t: string, gs: string)
    requires ShowNat(ts) == t && ShowNat(g) == gs
    ensures EncodeLine(ErrorInfo(0, ErrorTag, ts, g, err))
         == t + "\t0\t" + (ErrorTag + ("\t" + (gs + ("\t" + err))))
  {
    assert ShowNat(0) == "0";
    assert "\t" + ("0" + "\t") == "\t0\t";
  }

  const BackendUrl := "http://backend0-001.yandex.ru:1963/search?"

  const Timeout := "Request Timeout"

  /** The recorded url holds no whitespace: all its characters are visible. */
  lemma UrlIsOneField()
    ensures |BackendUrl| > 0 && AllIn(BackendUrl, NonSpace)
  {
    assert forall k :: 0 <= k < |BackendUrl| ==> '!' <= BackendUrl[k] <= '~';
  }

  /** The recorded message stays on one line, does not start with
      whitespace and holds no BackendError match: none of its characters is
      the keyword's initial `B`. */
  lemma TimeoutIsOneField()
    ensures AllIn(Timeout, NotNewline) && !IsSpace(Timeout[0]) && NoErrorMatchIn(Timeout)
  {
    forall j: nat | j <= |Timeout|
      ensures Candidate(Timeout, ErrorPattern, j).None?
    {
      assert j == |Timeout| || Timeout[j] != 'B';
      NoKeywordStart(Timeout, ErrorPattern, j);
    }
  }

  /** Each recorded line is read in four steps: the record prints field by
      field (`...Fields`), the fields join into the recorded text
      (`...Joined`), the record is one a line can carry (`...Encodable`), and
      decoding the text gives the record back (`...Line`). */
  lemma StartFields()
    ensures EncodeLine(Plain(0, StartTag, 1390950160808136))
         == "1390950160808136" + "\t0\t" + (StartTag + "")
  {
    ShowStartTime();
    PrintPlain(1390950160808136, StartTag, "1390950160808136");
  }

  lemma StartJoined()
    ensures "1390950160808136" + "\t0\t" + (StartTag + "")
         == "1390950160808136\t0\tStartRequest"
  {
  }

  lemma StartEncodable()
    ensures Encodable(Plain(0, StartTag, 1390950160808136))
  {
  }

  lemma StartLine()
    ensures Decode("1390950160808136\t0\tStartRequest")
         == Success(Plain(0, StartTag, 1390950160808136))
  {
    StartFields();
    StartJoined();
    StartEncodable();
    DecodesTo(Plain(0, StartTag, 1390950160808136), "1390950160808136\t0\tStartRequest");
  }

  lemma MergeFields()
    ensures EncodeLine(Plain(0, MergeTag, 1390950162475798))
         == "1390950162475798" + "\t0\t" + (MergeTag + "")
  {
    ShowMergeTime();
    PrintPlain(1390950162475798, MergeTag, "1390950162475798");
  }

  lemma MergeJoined()
    ensures "1390950162475798" + "\t0\t" + (MergeTag + "")
         == "1390950162475798\t0\tStartMerge"
  {
  }

  lemma MergeEncodable()
    ensures Encodable(Plain(0, MergeTag, 1390950162475798))
  {
  }

  lemma MergeLine()
    ensures Decode("1390950162475798\t0\tStartMerge")
         == Success(Plain(0, MergeTag, 1390950162475798))
  {
    MergeFields();
    MergeJoined();
    MergeEncodable();
    DecodesTo(Plain(0, MergeTag, 1390950162475798), "1390950162475798\t0\tStartMerge");
  }

  lemma SendResultFields()
    ensures EncodeLine(Plain(0, SendResultTag, 1390950162536865))
         == "1390950162536865" + "\t0\t" + (SendResultTag + "")
  {
    ShowSendResultTime();
    PrintPlain(1390950162536865, SendResultTag, "1390950162536865");
  }

  lemma SendResultJoined()
    ensures "1390950162536865" + "\t0\t" + (SendResultTag + "")
         == "1390950162536865\t0\tStartSendResult"
  {
  }

  lemma SendResultEncodable()
    ensures Encodable(Plain(0, SendResultTag, 1390950162536865))
  {
  }

  lemma SendResultLine()
    ensures Decode("1390950162536865\t0\tStartSendResult")
         == Success(Plain(0, SendResultTag, 1390950162536865))
  {
    SendResultFields();
    SendResultJoined();
    SendResultEncodable();
    DecodesTo(Plain(0, SendResultTag, 1390950162536865), "1390950162536865\t0\tStartSendResult");
  }

  lemma FinishFields()
    ensures EncodeLine(Plain(0, FinishTag, 1390950162890134))
         == "1390950162890134" + "\t0\t" + (FinishTag + "")
  {
    ShowFinishTime();
    PrintPlain(1390950162890134, FinishTag, "1390950162890134");
  }

  lemma FinishJoined()
    ensures "1390950162890134" + "\t0\t" + (FinishTag + "")
         == "1390950162890134\t0\tFinishRequest"
  {
  }

  lemma FinishEncodable()
    ensures Encodable(Plain(0, FinishTag, 1390950162890134))
  {
  }

  lemma FinishLine()
    ensures Decode("1390950162890134\t0\tFinishRequest")
         == Success(Plain(0, FinishTag, 1390950162890134))
  {
    FinishFields();
    FinishJoined();
    FinishEncodable();
    DecodesTo(Plain(0, FinishTag, 1390950162890134), "1390950162890134\t0\tFinishRequest");
  }

  lemma ConnectFields()
    ensures EncodeLine(ConnectInfo(0, ConnectTag, 1390950160810164, 0, BackendUrl))
         == "1390950160810164" + "\t0\t" + (ConnectTag + ("\t" + ("0" + ("\t" + BackendUrl))))
  {
    ShowConnectTime();
    PrintConnect(1390950160810164, 0, BackendUrl, "1390950160810164", "0");
  }

  lemma ConnectJoined(text: string)
    ensures "1390950160810164" + "\t0\t" + (ConnectTag + ("\t" + ("0" + ("\t" + text))))
         == "1390950160810164\t0\tBackendConnect\t0\t" + text
  {
  }

  lemma ConnectEncodable()
    ensures Encodable(ConnectInfo(0, ConnectTag, 1390950160810164, 0, BackendUrl))
  {
    UrlIsOneField();
  }

  lemma ConnectLine()
    ensures Decode("1390950160810164\t0\tBackendConnect\t0\t" + BackendUrl)
         == Success(ConnectInfo(0, ConnectTag, 1390950160810164, 0, BackendUrl))
  {
    ConnectFields();
    ConnectJoined(BackendUrl);
    ConnectEncodable();
    DecodesTo(ConnectInfo(0, ConnectTag, 1390950160810164, 0, BackendUrl), "1390950160810164\t0\tBackendConnect\t0\t" + BackendUrl);
  }

  lemma OkFields()
    ensures EncodeLine(OkInfo(0, OkTag, 1390950160948308, 1))
         == "1390950160948308" + "\t0\t" + (OkTag + ("\t" + "1"))
  {
    ShowOkTime();
    assert ShowNat(1) == "1";
    PrintOk(1390950160948308, 1, "1390950160948308", "1");
  }

  lemma OkJoined()
    ensures "1390950160948308" + "\t0\t" + (OkTag + ("\t" + "1"))
         == "1390950160948308\t0\tBackendOk\t1"
  {
  }

  lemma OkEncodable()
    ensures Encodable(OkInfo(0, OkTag, 1390950160948308, 1))
  {
  }

  /** The BackendOk line decodes in the monolithic module; the packaged one
      raises `TypeError` on it instead. */
  lemma OkLine()
    ensures Decode("1390950160948308\t0\tBackendOk\t1")
         == Success(OkInfo(0, OkTag, 1390950160948308, 1))
    ensures PackagedDecode("1390950160948308\t0\tBackendOk\t1") == Failure(MissingArgument("aaaargs"))
  {
    OkFields();
    OkJoined();
    OkEncodable();
    DecodesTo(OkInfo(0, OkTag, 1390950160948308, 1), "1390950160948308\t0\tBackendOk\t1");
  }

  lemma ErrorFields()
    ensures EncodeLine(ErrorInfo(0, ErrorTag, 1390950161841530, 1, Timeout))
         == "1390950161841530" + "\t0\t" + (ErrorTag + ("\t" + ("1" + ("\t" + Timeout))))
  {
    ShowErrorTime();
    assert ShowNat(1) == "1";
    PrintError(1390950161841530, 1, Timeout, "1390950161841530", "1");
  }

  lemma ErrorJoined(text: string)
    ensures "1390950161841530" + "\t0\t" + (ErrorTag + ("\t" + ("1" + ("\t" + text))))
         == "1390950161841530\t0\tBackendError\t1\t" + text
  {
  }

  lemma ErrorEncodable()
    ensures Encodable(ErrorInfo(0, ErrorTag, 1390950161841530, 1, Timeout))
  {
    TimeoutIsOneField();
  }

  lemma ErrorLine()
    ensures Decode("1390950161841530\t0\tBackendError\t1\t" + Timeout)
         == Success(ErrorInfo(0, ErrorTag, 1390950161841530, 1, Timeout))
  {
    ErrorFields();
    ErrorJoined(Timeout);
    ErrorEncodable();
    DecodesTo(ErrorInfo(0, ErrorTag, 1390950161841530, 1, Timeout), "1390950161841530\t0\tBackendError\t1\t" + Timeout);
  }
}
