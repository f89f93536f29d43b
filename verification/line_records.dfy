/** The decoded-line records (`LineInfo` and its three backend subclasses),
    the request-type tags, and the attribute-wise equality the records use. */
module LineRecords {
  import opened Results

  const StartTag := "StartRequest"
  const FinishTag := "FinishRequest"
  const ConnectTag := "BackendConnect"
  const OkTag := "BackendOk"
  const ErrorTag := "BackendError"
  const MergeTag := "StartMerge"
  const SendResultTag := "StartSendResult"

  predicate IsBackendTag(tag: string) {
    tag == ConnectTag || tag == OkTag || tag == ErrorTag
  }

  /** One decoded log line: the base record, or one of the backend records
      that add a group and, for two of them, a text field. */
  datatype LineInfo =
    | Plain(requestId: nat, requestType: string, timestamp: nat)
    | ConnectInfo(requestId: nat, requestType: string, timestamp: nat, groupId: nat, backendUrl: string)
    | OkInfo(requestId: nat, requestType: string, timestamp: nat, groupId: nat)
    | ErrorInfo(requestId: nat, requestType: string, timestamp: nat, groupId: nat, error: string)

  /** The record's class agrees with its type tag, as every decoded record does:
      backend records carry their own tag, plain records any other tag. */
  predicate WellTagged(info: LineInfo) {
    match info
    case Plain(_, tag, _) => !IsBackendTag(tag)
    case ConnectInfo(_, tag, _, _, _) => tag == ConnectTag
    case OkInfo(_, tag, _, _) => tag == OkTag
    case ErrorInfo(_, tag, _, _, _) => tag == ErrorTag
  }

  datatype AttrName = RequestId | RequestType | Timestamp | GroupId | ErrorText | BackendUrl
  datatype AttrValue = IntValue(i: int) | StrValue(s: string)

  /** The class-level `attrs` tuple of each record class. */
  function Attrs(info: LineInfo): set<AttrName> {
    match info
    case Plain(_, _, _) => {RequestId, RequestType, Timestamp}
    case ConnectInfo(_, _, _, _, _) => {RequestId, RequestType, Timestamp, GroupId, BackendUrl}
    case OkInfo(_, _, _, _) => {RequestId, RequestType, Timestamp, GroupId}
    case ErrorInfo(_, _, _, _, _) => {RequestId, RequestType, Timestamp, GroupId, ErrorText}
  }

  /** `getattr(info, name, None)`. */
  function GetAttr(info: LineInfo, name: AttrName): Option<AttrValue> {
    match name
    case RequestId => Some(IntValue(info.requestId))
    case RequestType => Some(StrValue(info.requestType))
    case Timestamp => Some(IntValue(info.timestamp))
    case GroupId => if info.Plain? then None else Some(IntValue(info.groupId))
    case ErrorText => if info.ErrorInfo? then Some(StrValue(info.error)) else None
    case BackendUrl => if info.ConnectInfo? then Some(StrValue(info.backendUrl)) else None
  }

  /** `LineInfo.__eq__(a, b)`: every attribute named in `a`'s own `attrs`
      has the same value (or absence) in `b`. Only `a`'s attributes count. */
  predicate Eq(a: LineInfo, b: LineInfo) {
    forall name :: name in Attrs(a) ==> GetAttr(a, name) == GetAttr(b, name)
  }

  /** The class of `b` is a strict subclass of the class of `a`: the three
      backend classes derive from `LineInfo` and not from one another. */
  predicate StrictSubclass(b: LineInfo, a: LineInfo) {
    a.Plain? && !b.Plain?
  }

  /** Python's `a == b` on records. When the right operand's class is a
      strict subclass of the left's, its `__eq__` runs first; otherwise the
      left operand's does. Both return a boolean, so that call decides. */
  predicate PyEq(a: LineInfo, b: LineInfo) {
    if StrictSubclass(b, a) then Eq(b, a) else Eq(a, b)
  }

  /** The one-sided comparison, holding in both directions, is structural
      equality. */
  lemma EqBothWaysIsEquality(a: LineInfo, b: LineInfo)
    ensures Eq(a, b) && Eq(b, a) <==> a == b
  {
    if Eq(a, b) && Eq(b, a) {
      assert GetAttr(a, RequestId) == GetAttr(b, RequestId);
      assert GetAttr(a, RequestType) == GetAttr(b, RequestType);
      assert GetAttr(a, Timestamp) == GetAttr(b, Timestamp);
      assert GetAttr(a, GroupId) == GetAttr(b, GroupId);
      assert GetAttr(a, ErrorText) == GetAttr(b, ErrorText);
      assert GetAttr(a, BackendUrl) == GetAttr(b, BackendUrl);
    }
  }

  /** Record `==` is structural equality except in one case: a BackendOk
      record on the left names only the shared attributes, so it equals a
      sibling BackendConnect or BackendError record that agrees on them.
      Between well-tagged records the type tags differ there, so `==` is
      exactly structural equality, and symmetric. */
  lemma PyEqIsEquality(a: LineInfo, b: LineInfo)
    ensures PyEq(a, b) <==> a == b || (a.OkInfo? && (b.ConnectInfo? || b.ErrorInfo?)
                                      && a.requestId == b.requestId && a.requestType == b.requestType
                                      && a.timestamp == b.timestamp && a.groupId == b.groupId)
    ensures WellTagged(a) && WellTagged(b) ==> (PyEq(a, b) <==> a == b)
    ensures WellTagged(a) && WellTagged(b) ==> (PyEq(a, b) <==> PyEq(b, a))
  {
    assert GetAttr(a, RequestId) == Some(IntValue(a.requestId));
    assert GetAttr(a, RequestType) == Some(StrValue(a.requestType));
    assert GetAttr(a, Timestamp) == Some(IntValue(a.timestamp));
    assert GetAttr(a, GroupId) == GetAttr(b, GroupId) ==> (a.Plain? <==> b.Plain?);
    if PyEq(a, b) && !a.OkInfo? {
      if !StrictSubclass(b, a) {
        assert Eq(a, b);
        EqBothWaysIsEquality(a, b);
        assert GetAttr(a, GroupId) == GetAttr(b, GroupId);
        assert a.ConnectInfo? ==> GetAttr(a, BackendUrl) == GetAttr(b, BackendUrl);
        assert a.ErrorInfo? ==> GetAttr(a, ErrorText) == GetAttr(b, ErrorText);
      }
    }
    if a == b {
      EqBothWaysIsEquality(a, b);
    }
  }

  /** The exception: a BackendOk record equals a BackendConnect record with
      the same shared attributes, while the comparison the other way round
      fails on the url. */
  lemma OkEqualsWiderSibling()
    ensures PyEq(OkInfo(0, OkTag, 7, 1), ConnectInfo(0, OkTag, 7, 1, "u"))
    ensures !PyEq(ConnectInfo(0, OkTag, 7, 1, "u"), OkInfo(0, OkTag, 7, 1))
  {
    assert GetAttr(OkInfo(0, OkTag, 7, 1), BackendUrl) == None;
  }
}
