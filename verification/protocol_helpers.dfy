/**
 * Turning an exception and its chain of inner exceptions into a status whose
 * detail carries every `TypeName: Message` pair, outermost first.
 */
module ProtocolHelpers {
  import opened Wrappers

  /** An exception: its runtime type name, its message and its inner exception. */
  datatype Exn = Exn(typeName: string, message: string, inner: Option<Exn>)

  /** gRPC status codes. */
  datatype StatusCode =
    | OK | Cancelled | Unknown | InvalidArgument | DeadlineExceeded | NotFound
    | AlreadyExists | PermissionDenied | ResourceExhausted | FailedPrecondition
    | Aborted | OutOfRange | Unimplemented | Internal | Unavailable | DataLoss
    | Unauthenticated

  datatype Status = Status(code: StatusCode, detail: string, debugException: Option<Exn>)

  /** Name of the balancer attribute that carries a host-name override. */
  const HostOverrideKey: string := "HostOverride"

  /** The text one exception contributes to a message. */
  function Segment(e: Exn): string
  {
    e.typeName + ": " + e.message
  }

  /** The exception chain reached through `InnerException`, outermost first. */
  function Chain(e: Exn): (c: seq<Exn>)
    ensures |c| >= 1 && c[0] == e
    decreases e
  {
    match e.inner
    case None => [e]
    case Some(i) => [e] + Chain(i)
  }

  /** Each element of the chain wraps the next one, and the last wraps nothing. */
  lemma {:induction false} ChainLinks(e: Exn)
    ensures var c := Chain(e);
            && c[|c| - 1].inner == None
            && forall k {:trigger c[k].inner} :: 0 <= k < |c| - 1 ==> c[k].inner == Some(c[k + 1])
    decreases e
  {
    match e.inner
    case None =>
    case Some(i) =>
      ChainLinks(i);
      var c := Chain(e);
      assert c == [e] + Chain(i);
      forall k | 0 <= k < |c| - 1
        ensures c[k].inner == Some(c[k + 1])
      {
        if k > 0 {
          assert c[k] == Chain(i)[k - 1];
        }
      }
  }

  /** The chain still to be walked from a `current` pointer. */
  function Remaining(current: Option<Exn>): seq<Exn>
  {
    match current
    case None => []
    case Some(e) => Chain(e)
  }

  /** The segments of `chain` joined by single spaces, appended left to right. */
  function JoinedSegments(chain: seq<Exn>): string
    decreases |chain|
  {
    if |chain| == 0 then ""
    else if |chain| == 1 then Segment(chain[0])
    else JoinedSegments(chain[..|chain| - 1]) + " " + Segment(chain[|chain| - 1])
  }

  /** Total length of the segments of `chain`, separators not included. */
  function SegmentsLength(chain: seq<Exn>): nat
    decreases |chain|
  {
    if |chain| == 0 then 0
    else SegmentsLength(chain[..|chain| - 1]) + |Segment(chain[|chain| - 1])|
  }

  /** The message for an exception: one segment per chain element, space-separated. */
  function ErrorMessage(e: Exn): string
  {
    JoinedSegments(Chain(e))
  }

  /** Read from the front, a join is the first segment, a space, and the join of the rest. */
  lemma {:induction false} JoinCons(first: Exn, rest: seq<Exn>)
    requires rest != []
    ensures JoinedSegments([first] + rest) == Segment(first) + " " + JoinedSegments(rest)
    decreases |rest|
  {
    var all := [first] + rest;
    if |rest| == 1 {
      assert all[..1] == [first];
    } else {
      var init := rest[..|rest| - 1];
      assert all[..|all| - 1] == [first] + init;
      JoinCons(first, init);
    }
  }

  /** Exactly one separator sits between neighbouring segments, and none elsewhere. */
  lemma {:induction false} JoinLength(chain: seq<Exn>)
    requires chain != []
    ensures |JoinedSegments(chain)| == SegmentsLength(chain) + |chain| - 1
    decreases |chain|
  {
    if |chain| > 1 {
      JoinLength(chain[..|chain| - 1]);
    }
  }

  /** The join starts with the first segment and ends with the last: no leading or trailing separator. */
  lemma {:induction false} JoinEnds(chain: seq<Exn>)
    requires chain != []
    ensures Segment(chain[0]) <= JoinedSegments(chain)
    ensures var j := JoinedSegments(chain); var last := Segment(chain[|chain| - 1]);
            |last| <= |j| && j[|j| - |last|..] == last
    decreases |chain|
  {
    if |chain| > 1 {
      var init := chain[..|chain| - 1];
      JoinEnds(init);
      assert init[0] == chain[0];
    }
  }

  /** A chain of one exception gives that exception's segment alone. */
  lemma SingleSegment(e: Exn)
    requires e.inner == None
    ensures ErrorMessage(e) == Segment(e)
  {
  }

  /** The message of a chain is the outermost segment, a space, then the message of the inner chain. */
  lemma ErrorMessageUnfold(e: Exn)
    requires e.inner.Some?
    ensures ErrorMessage(e) == Segment(e) + " " + ErrorMessage(e.inner.value)
  {
    var rest := Chain(e.inner.value);
    assert Chain(e) == [e] + rest;
    JoinCons(e, rest);
  }

  /** One more exception appended to the walked prefix adds a separator (unless first) and its segment. */
  lemma JoinSnoc(done: seq<Exn>, e: Exn)
    ensures JoinedSegments(done + [e])
         == (if done == [] then "" else JoinedSegments(done) + " ") + Segment(e)
  {
  }

  /** Stepping `current` to its inner exception consumes the head of the remaining chain. */
  lemma RemainingStep(done: seq<Exn>, e: Exn)
    ensures done + Remaining(Some(e)) == (done + [e]) + Remaining(e.inner)
  {
  }

  /** Appending type name, ": " and message one after the other appends the segment. */
  lemma AppendSegment(prefix: string, e: Exn)
    ensures prefix + e.typeName + ": " + e.message == prefix + Segment(e)
  {
  }

  /**
   * `BuildErrorMessage`: walks `InnerException` with a `do`/`while` loop,
   * writing a space before every segment but the first.
   */
  method BuildErrorMessage(ex: Exn) returns (msg: string)
    ensures msg == ErrorMessage(ex)
  {
    var sb := "";
    var first := true;
    var current: Option<Exn> := Some(ex);
    ghost var done: seq<Exn> := [];
    while current.Some?
      invariant Chain(ex) == done + Remaining(current)
      invariant first <==> done == []
      invariant sb == JoinedSegments(done)
      decreases |Remaining(current)|
    {
      var e := current.value;
      ghost var before := sb;
      if !first {
        sb := sb + " ";
      } else {
        first := false;
      }
      ghost var separated := sb;
      assert separated == (if done == [] then "" else before + " ");
      sb := sb + e.typeName;
      sb := sb + ": ";
      sb := sb + e.message;
      AppendSegment(separated, e);
      JoinSnoc(done, e);
      RemainingStep(done, e);
      done := done + [e];
      current := e.inner;
    }
    assert done == Chain(ex);
    msg := sb;
  }

  /** `ConvertToRpcExceptionMessage`: a lone exception directly, a chain through the loop. */
  method ConvertToRpcExceptionMessage(ex: Exn) returns (msg: string)
    ensures msg == ErrorMessage(ex)
    ensures ex.inner == None ==> msg == ex.typeName + ": " + ex.message
  {
    if ex.inner == None {
      SingleSegment(ex);
      msg := ex.typeName + ": " + ex.message;
    } else {
      msg := BuildErrorMessage(ex);
    }
  }

  /** `CreateStatusFromException`: summary, a space and the converted message; code Internal by default. */
  method CreateStatusFromException(summary: string, ex: Exn, statusCode: Option<StatusCode>)
    returns (status: Status)
    ensures status.code == (if statusCode.Some? then statusCode.value else Internal)
    ensures status.detail == summary + " " + ErrorMessage(ex)
    ensures status.debugException == Some(ex)
  {
    var exceptionMessage := ConvertToRpcExceptionMessage(ex);
    var code := statusCode;
    if code.None? {
      code := Some(Internal);
    }
    status := Status(code.value, summary + " " + exceptionMessage, Some(ex));
  }

  /** For a chain a <- b <- c the message lists the three segments outermost first. */
  lemma ThreeLevelChain(a: Exn, b: Exn, c: Exn)
    requires a.inner == Some(b) && b.inner == Some(c) && c.inner == None
    ensures ErrorMessage(a) == Segment(a) + " " + Segment(b) + " " + Segment(c)
  {
    SingleSegment(c);
    ErrorMessageUnfold(b);
    ErrorMessageUnfold(a);
  }

  /** A chain A(msg1) <- B(msg2) <- C(msg3) under the summary "summary". */
  lemma ThreeLevelChainMessage(a: Exn, b: Exn, c: Exn)
    requires c == Exn("C", "msg3", None)
    requires b == Exn("B", "msg2", Some(c))
    requires a == Exn("A", "msg1", Some(b))
    ensures "summary" + " " + ErrorMessage(a) == "summary A: msg1 B: msg2 C: msg3"
  {
    ThreeLevelChain(a, b, c);
    assert Segment(a) == "A: msg1" && Segment(b) == "B: msg2" && Segment(c) == "C: msg3";
  }
}
