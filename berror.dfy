/**
 * The chained error of berror/error.go. A `*defaultError` carries an optional
 * wrapped cause, a status (code, reason, detail) and the call stack that was
 * captured, or inherited from a structured cause, when it was created.
 *
 * Go's `error` values are `Option<Err>`: `None` is the nil error, `Structured`
 * a (non-nil) `*defaultError`, `Opaque` any other error, seen through its
 * `Error()` text and the error its `Unwrap()` returns. A nil `*defaultError`
 * receiver is the `None` of an `Option<DefaultError>`.
 */
module BError {
  import opened Wrappers

  // ------------------------------------------------------------------ status

  /** A status code in its canonical integer form (`Code.ToInt()`). */
  type Code = int

  // The category codes of bcode. Their numeric values are not part of this
  // model; these are distinct placeholders.
  const InvalidArgument: Code := 400
  const NotFound: Code := 404
  const RequestTimeout: Code := 408
  const AlreadyExists: Code := 409
  const ClientClosed: Code := 499
  const InternalError: Code := 500
  const GatewayTimeout: Code := 504

  /** The `any`-typed detail of a status: nil, a value that can log itself as a
      structured object (a zapcore.ObjectMarshaler), or any other value. */
  datatype Detail = NilDetail | ObjectDetail(obj: string) | ValueDetail(value: string)

  datatype Status = Status(code: Code, reason: string, detail: Detail)

  /** bstatus.Unknown, reported by a nil receiver; its fields are placeholders. */
  const Unknown: Status := Status(-1, "unknown", NilDetail)

  // ------------------------------------------------------------------- stack

  /** A program counter of one call frame, named by its function and line. */
  datatype Token = Pc(fn: string, line: nat)

  /** Go tells a nil stack list from an empty one, and `New` tests for nil. */
  datatype StackList = NilList | List(frames: seq<Token>)

  /** The most frames one capture keeps. */
  const StacktraceMax: nat := 32

  /**
   * bstack.TakeStack. `rt` is the call stack as the calling function sees it,
   * innermost first, so `rt[0]` is that function's own frame. The first `skip`
   * frames are dropped and at most StacktraceMax of the rest are kept.
   */
  function TakeStack(rt: seq<Token>, skip: nat): (s: StackList)
    ensures s.List? && |s.frames| <= StacktraceMax
    ensures forall i :: 0 <= i < |s.frames| ==> skip + i < |rt| && s.frames[i] == rt[skip + i]
    ensures |s.frames| == if skip >= |rt| then 0
      else if |rt| - skip <= StacktraceMax then |rt| - skip else StacktraceMax
  {
    var above := if skip <= |rt| then rt[skip..] else [];
    List(if |above| <= StacktraceMax then above else above[..StacktraceMax])
  }

  /** Capturing one level deeper, below one more pushed frame, records the same frames. */
  lemma TakeStackBelowCall(f: Token, rt: seq<Token>, skip: nat)
    ensures TakeStack([f] + rt, skip + 1) == TakeStack(rt, skip)
  {
  }

  // ------------------------------------------------------------------- error

  datatype DefaultError = DefaultError(err: Option<Err>, status: Option<Status>, stack: StackList)

  datatype Err = Structured(d: DefaultError) | Opaque(msg: string, inner: Option<Err>)

  /** The cause is a `*defaultError` whose stack is set, so a new error shares it. */
  predicate InheritsStack(cause: Option<Err>) {
    cause.Some? && cause.value.Structured? && cause.value.d.stack.List?
  }

  /**
   * New(status, err...). `rt` is the call stack inside New (`rt[0]` is New's
   * own frame). The cause is `err[0]`, possibly nil.
   */
  function New(rt: seq<Token>, status: Option<Status>, err: seq<Option<Err>>): (e: DefaultError)
    ensures e.err == (if |err| > 0 then err[0] else None)
    ensures e.status == status
    ensures InheritsStack(e.err) ==> e.stack == e.err.value.d.stack
    ensures !InheritsStack(e.err) ==> e.stack == TakeStack(rt, 1)
    ensures e.stack.List?
  {
    var cause := if |err| > 0 then err[0] else None;
    var stack := if cause.Some? && cause.value.Structured? then cause.value.d.stack else NilList;
    DefaultError(cause, status, if stack.NilList? then TakeStack(rt, 1) else stack)
  }

  /** NewWithSkip(err, status, skip); `rt` is the call stack inside NewWithSkip. */
  function NewWithSkip(rt: seq<Token>, err: Option<Err>, status: Option<Status>, skip: nat): (e: DefaultError)
    ensures e.err == err && e.status == status
    ensures InheritsStack(err) ==> e.stack == err.value.d.stack
    ensures !InheritsStack(err) ==> e.stack == TakeStack(rt, skip + 1)
    ensures err.None? ==> e.stack == TakeStack(rt, skip + 1)
    ensures e.stack.List?
  {
    var stack := if err.Some? && err.value.Structured? then err.value.d.stack else NilList;
    DefaultError(err, status, if stack.NilList? then TakeStack(rt, skip + 1) else stack)
  }

  /** Creating at depth skip = 0 from the same frame is exactly New. */
  lemma NewWithSkipZeroIsNew(rt: seq<Token>, err: Option<Err>, status: Option<Status>)
    ensures NewWithSkip(rt, err, status, 0) == New(rt, status, [err])
  {
  }

  /** A fresh capture starts at New's caller and keeps at most StacktraceMax frames. */
  lemma NewRecordsCaller(rt: seq<Token>, status: Option<Status>)
    requires |rt| >= 2
    ensures var s := New(rt, status, []).stack;
      0 < |s.frames| <= StacktraceMax && s.frames[0] == rt[1]
  {
  }

  // ---------------------------------------------------- convenience builders

  /** The frame NewWithSkip has when a convenience constructor calls it. */
  const WithSkipFrame: Token := Pc("berror.NewWithSkip", 67)

  /** The first variadic detail, nil when there is none. */
  function FirstDetail(detail: seq<Detail>): Detail {
    if |detail| > 0 then detail[0] else NilDetail
  }

  /**
   * What each convenience constructor promises: exactly the error New would
   * build, at the constructor's own position in the call stack, from the
   * status (code, reason, detail) and the cause. In particular a fresh stack
   * starts at the constructor's caller, not at the constructor.
   */
  predicate Categorised(r: Err, rt: seq<Token>, err: Option<Err>, code: Code, reason: string, detail: Detail) {
    r == Structured(New(rt, Some(Status(code, reason, detail)), [err]))
  }

  /** NewWithSkip(err, Status(code, reason, detail), 1) called from a frame whose call stack is `rt`. */
  function WithCategory(rt: seq<Token>, err: Option<Err>, code: Code, reason: string, detail: Detail): (r: Err)
    ensures Categorised(r, rt, err, code, reason, detail)
  {
    TakeStackBelowCall(WithSkipFrame, rt, 1);
    Structured(NewWithSkip([WithSkipFrame] + rt, err, Some(Status(code, reason, detail)), 1))
  }

  function NewInvalidArgument(rt: seq<Token>, err: Option<Err>, reason: string, detail: seq<Detail>): (r: Err)
    ensures Categorised(r, rt, err, InvalidArgument, reason, if |detail| > 0 then detail[0] else NilDetail)
  {
    WithCategory(rt, err, InvalidArgument, reason, FirstDetail(detail))
  }

  /** `formatted` stands for the fmt.Sprintf(format, args...) text. */
  function NewInvalidArgumentf(rt: seq<Token>, err: Option<Err>, formatted: string): (r: Err)
    ensures Categorised(r, rt, err, InvalidArgument, formatted, NilDetail)
  {
    WithCategory(rt, err, InvalidArgument, formatted, NilDetail)
  }

  function NewNotFound(rt: seq<Token>, err: Option<Err>, reason: string, detail: seq<Detail>): (r: Err)
    ensures Categorised(r, rt, err, NotFound, reason, if |detail| > 0 then detail[0] else NilDetail)
  {
    WithCategory(rt, err, NotFound, reason, FirstDetail(detail))
  }

  function NewNotFoundf(rt: seq<Token>, err: Option<Err>, formatted: string): (r: Err)
    ensures Categorised(r, rt, err, NotFound, formatted, NilDetail)
  {
    WithCategory(rt, err, NotFound, formatted, NilDetail)
  }

  function NewRequestTimeout(rt: seq<Token>, err: Option<Err>, reason: string, detail: seq<Detail>): (r: Err)
    ensures Categorised(r, rt, err, RequestTimeout, reason, if |detail| > 0 then detail[0] else NilDetail)
  {
    WithCategory(rt, err, RequestTimeout, reason, FirstDetail(detail))
  }

  function NewRequestTimeoutf(rt: seq<Token>, err: Option<Err>, formatted: string): (r: Err)
    ensures Categorised(r, rt, err, RequestTimeout, formatted, NilDetail)
  {
    WithCategory(rt, err, RequestTimeout, formatted, NilDetail)
  }

  function NewGatewayTimeout(rt: seq<Token>, err: Option<Err>, reason: string, detail: seq<Detail>): (r: Err)
    ensures Categorised(r, rt, err, GatewayTimeout, reason, if |detail| > 0 then detail[0] else NilDetail)
  {
    WithCategory(rt, err, GatewayTimeout, reason, FirstDetail(detail))
  }

  function NewGatewayTimeoutf(rt: seq<Token>, err: Option<Err>, formatted: string): (r: Err)
    ensures Categorised(r, rt, err, GatewayTimeout, formatted, NilDetail)
  {
    WithCategory(rt, err, GatewayTimeout, formatted, NilDetail)
  }

  function NewClientClose(rt: seq<Token>, err: Option<Err>, reason: string, detail: seq<Detail>): (r: Err)
    ensures Categorised(r, rt, err, ClientClosed, reason, if |detail| > 0 then detail[0] else NilDetail)
  {
    WithCategory(rt, err, ClientClosed, reason, FirstDetail(detail))
  }

  function NewClientClosef(rt: seq<Token>, err: Option<Err>, formatted: string): (r: Err)
    ensures Categorised(r, rt, err, ClientClosed, formatted, NilDetail)
  {
    WithCategory(rt, err, ClientClosed, formatted, NilDetail)
  }

  function NewAlreadyExists(rt: seq<Token>, err: Option<Err>, reason: string, detail: seq<Detail>): (r: Err)
    ensures Categorised(r, rt, err, AlreadyExists, reason, if |detail| > 0 then detail[0] else NilDetail)
  {
    WithCategory(rt, err, AlreadyExists, reason, FirstDetail(detail))
  }

  function NewAlreadyExistsf(rt: seq<Token>, err: Option<Err>, formatted: string): (r: Err)
    ensures Categorised(r, rt, err, AlreadyExists, formatted, NilDetail)
  {
    WithCategory(rt, err, AlreadyExists, formatted, NilDetail)
  }

  function NewInternalError(rt: seq<Token>, err: Option<Err>, reason: string, detail: seq<Detail>): (r: Err)
    ensures Categorised(r, rt, err, InternalError, reason, if |detail| > 0 then detail[0] else NilDetail)
  {
    WithCategory(rt, err, InternalError, reason, FirstDetail(detail))
  }

  function NewInternalErrorf(rt: seq<Token>, err: Option<Err>, formatted: string): (r: Err)
    ensures Categorised(r, rt, err, InternalError, formatted, NilDetail)
  {
    WithCategory(rt, err, InternalError, formatted, NilDetail)
  }

  /**
   * A convenience constructor whose cause has no stack to share records the
   * frames above its own, starting at its caller, as New does.
   */
  lemma ConvenienceRecordsCaller(rt: seq<Token>, err: Option<Err>, code: Code, reason: string, detail: Detail)
    requires |rt| >= 2 && !InheritsStack(err)
    ensures var s := WithCategory(rt, err, code, reason, detail).d.stack;
      0 < |s.frames| <= StacktraceMax && s.frames[0] == rt[1]
  {
    NewRecordsCaller(rt, Some(Status(code, reason, detail)));
  }

  // --------------------------------------------------------------- accessors

  /** The two summary shapes: the text of `Error()` is the JSON encoding of this tree. */
  datatype Message = Text(s: string) | Json(tree: Option<Summary>)

  /** Error(): "" for a nil receiver, otherwise the JSON text of format(). */
  function Error(d: Option<DefaultError>): (m: Message)
    ensures d.None? ==> m == Text("")
    ensures d.Some? ==> m.Json? && m.tree == Format(d)
  {
    if d.None? then Text("") else Json(Format(d))
  }

  /** Status(): bstatus.Unknown for a nil receiver, otherwise the stored status (nil-able). */
  function StatusOf(d: Option<DefaultError>): (s: Option<Status>)
    ensures d.None? ==> s == Some(Unknown)
    ensures d.Some? ==> s == d.value.status
  {
    if d.None? then Some(Unknown) else d.value.status
  }

  /** Stack(): never nil; the stored frames, or none for a nil receiver or a nil stack. */
  function Stack(d: Option<DefaultError>): (s: StackList)
    ensures s.List?
    ensures d.None? ==> s.frames == []
    ensures d.Some? && d.value.stack.NilList? ==> s.frames == []
    ensures d.Some? && d.value.stack.List? ==> s.frames == d.value.stack.frames
  {
    if d.None? || d.value.stack.NilList? || |d.value.stack.frames| == 0 then List([])
    else d.value.stack
  }

  /** Cause(): the wrapped error, nil for a nil receiver. */
  function Cause(d: Option<DefaultError>): (c: Option<Err>)
    ensures d.None? ==> c.None?
    ensures d.Some? ==> c == d.value.err
  {
    if d.None? then None else d.value.err
  }

  /** Unwrap(): the same error Cause() returns. */
  function Unwrap(d: Option<DefaultError>): (c: Option<Err>)
    ensures c == Cause(d)
    ensures d.None? ==> c.None?
  {
    if d.None? then None else d.value.err
  }

  // ------------------------------------------------------------------ format

  /** The value `Next` holds: JSON null, a nested summary (itself null when the
      cause's status is nil), or the plain `Error()` text of an opaque cause. */
  datatype Next = Null | Nested(summary: Option<Summary>) | Leaf(msg: string)

  datatype Summary = Summary(code: Code, reason: string, detail: Detail, next: Next)

  /** format(): nil for a nil receiver, otherwise the summary of a non-nil one. */
  function Format(d: Option<DefaultError>): (s: Option<Summary>)
    ensures d.None? ==> s.None?
    ensures d.Some? ==> s == FormatLink(d.value)
  {
    if d.None? then None else FormatLink(d.value)
  }

  /** format() on a non-nil receiver. */
  function FormatLink(d: DefaultError): (s: Option<Summary>)
    ensures s.None? <==> d.status.None?
    ensures s.Some? ==> (s.value.code == d.status.value.code
      && s.value.reason == d.status.value.reason
      && s.value.detail == d.status.value.detail)
    ensures s.Some? ==> (s.value.next.Null? <==> d.err.None?)
    ensures s.Some? ==> (s.value.next.Nested? <==> d.err.Some? && d.err.value.Structured?)
    ensures s.Some? && d.err.Some? && d.err.value.Opaque? ==> s.value.next == Leaf(d.err.value.msg)
    ensures s.Some? && s.value.next.Nested? ==>
      (s.value.next.summary.Some? <==> d.err.value.d.status.Some?)
  {
    if d.status.None? then None
    else
      var st := d.status.value;
      var next := match d.err
        case None => Null
        case Some(Structured(nd)) => Nested(FormatLink(nd))
        case Some(Opaque(msg, _)) => Leaf(msg);
      Some(Summary(st.code, st.reason, st.detail, next))
  }

  /** The structured links of a chain, outermost first, up to the first opaque cause or the end. */
  function Links(d: DefaultError): (ls: seq<DefaultError>)
    ensures |ls| >= 1 && ls[0] == d
  {
    [d] + match d.err
      case Some(Structured(nd)) => Links(nd)
      case _ => []
  }

  /** Every structured link of the chain has a status. */
  predicate Statused(d: DefaultError) {
    d.status.Some? &&
    match d.err
      case Some(Structured(nd)) => Statused(nd)
      case _ => true
  }

  /** How the structured part of a chain ends: with no cause, or with an opaque cause's text. */
  function Terminus(d: DefaultError): Next {
    match d.err
      case None => Null
      case Some(Structured(nd)) => Terminus(nd)
      case Some(Opaque(msg, _)) => Leaf(msg)
  }

  /** The status at each nesting level of a summary, outermost first. */
  function Levels(s: Summary): seq<Status> {
    [Status(s.code, s.reason, s.detail)] + match s.next
      case Nested(Some(t)) => Levels(t)
      case _ => []
  }

  /** The `next` value of the deepest nesting level. */
  function Innermost(s: Summary): Next {
    match s.next
      case Nested(Some(t)) => Innermost(t)
      case _ => s.next
  }

  /**
   * The summary tree mirrors the chain: one nesting level per structured link,
   * carrying that link's status, in chain order, ending in null or the text of
   * the first opaque cause.
   */
  lemma {:induction false} FormatMirrorsChain(d: DefaultError)
    requires Statused(d)
    ensures FormatLink(d).Some?
    ensures |Levels(FormatLink(d).value)| == |Links(d)|
    ensures forall i :: 0 <= i < |Links(d)| ==> Links(d)[i].status == Some(Levels(FormatLink(d).value)[i])
    ensures Innermost(FormatLink(d).value) == Terminus(d)
  {
    match d.err
    case Some(Structured(nd)) =>
      FormatMirrorsChain(nd);
      var s := FormatLink(d).value;
      assert s.next == Nested(FormatLink(nd));
      assert Levels(s) == [d.status.value] + Levels(FormatLink(nd).value);
      assert Links(d) == [d] + Links(nd);
    case _ =>
  }

  /** Two links: the example of a wrap with NewWithSkip(err, statusB, 0) around New(statusA). */
  lemma TwoLinkSummary(rt1: seq<Token>, rt2: seq<Token>, a: Status, b: Status)
    ensures var e1 := New(rt1, Some(a), []);
      var e2 := NewWithSkip(rt2, Some(Structured(e1)), Some(b), 0);
      && Format(Some(e2)) == Some(Summary(b.code, b.reason, b.detail,
                                         Nested(Some(Summary(a.code, a.reason, a.detail, Null)))))
      && Stack(Some(e2)) == Stack(Some(e1))
  {
  }

  // -------------------------------------------------------- MarshalLogObject

  /** A field written into a zap object encoder. */
  datatype Field =
    | IntField(key: string, n: int)
    | StringField(key: string, s: string)
    | ObjectField(key: string, obj: LogObject)
    | ReflectedField(key: string, value: Detail)

  /** The value of an object field: the fields a nested marshaler wrote, or a detail
      that marshals itself (its own fields are not part of this model). */
  datatype LogObject = Fields(fields: seq<Field>) | DetailObject(detail: string)

  /** A zapcore.ObjectEncoder, reduced to the fields written into it, in order. */
  class Encoder {
    var fields: seq<Field>

    constructor ()
      ensures fields == []
    {
      fields := [];
    }

    method AddInt(key: string, n: int)
      modifies this
      ensures fields == old(fields) + [IntField(key, n)]
    {
      fields := fields + [IntField(key, n)];
    }

    method AddString(key: string, s: string)
      modifies this
      ensures fields == old(fields) + [StringField(key, s)]
    {
      fields := fields + [StringField(key, s)];
    }

    method AddObject(key: string, obj: LogObject)
      modifies this
      ensures fields == old(fields) + [ObjectField(key, obj)]
    {
      fields := fields + [ObjectField(key, obj)];
    }

    method AddReflected(key: string, value: Detail)
      modifies this
      ensures fields == old(fields) + [ReflectedField(key, value)]
    {
      fields := fields + [ReflectedField(key, value)];
    }
  }

  function Keys(fs: seq<Field>): seq<string> {
    if fs == [] then [] else [fs[0].key] + Keys(fs[1..])
  }

  lemma KeysAppend(a: seq<Field>, b: seq<Field>)
    ensures Keys(a + b) == Keys(a) + Keys(b)
  {
    if a == [] {
      assert a + b == b;
    } else {
      assert (a + b)[0] == a[0] && (a + b)[1..] == a[1..] + b;
      KeysAppend(a[1..], b);
    }
  }

  /** How a detail is logged: not at all when nil, as an object when it marshals itself, else reflected. */
  function DetailFields(detail: Detail): seq<Field> {
    match detail
      case NilDetail => []
      case ObjectDetail(o) => [ObjectField("detail", DetailObject(o))]
      case ValueDetail(_) => [ReflectedField("detail", detail)]
  }

  /** The fields MarshalLogObject writes for one structured link and, nested, its causes. */
  function LogFields(d: DefaultError): (fs: seq<Field>)
    requires Statused(d)
    ensures Keys(fs) == ["code", "reason"]
      + (if d.status.value.detail.NilDetail? then [] else ["detail"])
      + (if d.err.None? then [] else ["next"])
    ensures fs[0] == IntField("code", d.status.value.code)
    ensures fs[1] == StringField("reason", d.status.value.reason)
  {
    var st := d.status.value;
    var head := [IntField("code", st.code), StringField("reason", st.reason)] + DetailFields(st.detail);
    var tail := match d.err
      case None => []
      case Some(Structured(nd)) => [ObjectField("next", Fields(LogFields(nd)))]
      case Some(Opaque(msg, _)) => [StringField("next", msg)];
    KeysAppend(head, tail);
    KeysAppend([IntField("code", st.code), StringField("reason", st.reason)], DetailFields(st.detail));
    head + tail
  }

  /** MarshalLogObject(enc): appends the link's fields to `enc`, a structured cause as a nested object. */
  method MarshalLogObject(d: DefaultError, enc: Encoder)
    requires Statused(d)
    modifies enc
    ensures enc.fields == old(enc.fields) + LogFields(d)
    decreases d
  {
    var status := d.status.value;
    ghost var before := enc.fields;
    enc.AddInt("code", status.code);
    enc.AddString("reason", status.reason);
    if !status.detail.NilDetail? {
      if status.detail.ObjectDetail? {
        enc.AddObject("detail", DetailObject(status.detail.obj));
      } else {
        enc.AddReflected("detail", status.detail);
      }
    }
    assert enc.fields == before + [IntField("code", status.code), StringField("reason", status.reason)]
      + DetailFields(status.detail);
    if d.err.None? {
      return;
    }
    match d.err.value
    case Structured(next) =>
      var sub := new Encoder();
      MarshalLogObject(next, sub);
      assert sub.fields == LogFields(next);
      enc.AddObject("next", Fields(sub.fields));
      assert LogFields(d) == [IntField("code", status.code), StringField("reason", status.reason)]
        + DetailFields(status.detail) + [ObjectField("next", Fields(LogFields(next)))];
    case Opaque(msg, _) =>
      enc.AddString("next", msg);
  }

  /** The log form of a summary tree: the fields a structured encoder would hold for it. */
  function SummaryFields(s: Summary): seq<Field> {
    [IntField("code", s.code), StringField("reason", s.reason)]
    + DetailFields(s.detail)
    + match s.next
      case Null => []
      case Nested(None) => []
      case Nested(Some(t)) => [ObjectField("next", Fields(SummaryFields(t)))]
      case Leaf(msg) => [StringField("next", msg)]
  }

  /** Logging a chain writes exactly what format() would hold, level by level. */
  lemma {:induction false} LogFieldsMirrorFormat(d: DefaultError)
    requires Statused(d)
    ensures FormatLink(d).Some? && LogFields(d) == SummaryFields(FormatLink(d).value)
  {
    match d.err
    case Some(Structured(nd)) =>
      LogFieldsMirrorFormat(nd);
    case _ =>
  }

  // ------------------------------------------------------------------ IsCode

  /** One step of the unwrap chain. */
  function UnwrapErr(e: Err): Option<Err> {
    match e
      case Structured(d) => d.err
      case Opaque(_, inner) => inner
  }

  /** The errors reached from `e` by repeated unwrapping, `e` first. */
  function Chain(e: Err): (c: seq<Err>)
    ensures |c| >= 1 && c[0] == e
  {
    [e] + match UnwrapErr(e)
      case None => []
      case Some(next) => Chain(next)
  }

  /** errors.As(err, &target) with a berror.Error target: the first structured link. */
  function FirstStructured(e: Err): Option<DefaultError> {
    match e
      case Structured(d) => Some(d)
      case Opaque(_, None) => None
      case Opaque(_, Some(inner)) => FirstStructured(inner)
  }

  /** Position `i` holds the first structured link of chain `c`. */
  predicate FirstStructuredAt(c: seq<Err>, i: int) {
    0 <= i < |c| && c[i].Structured? && forall j :: 0 <= j < i ==> c[j].Opaque?
  }

  /** IsCode reads the status of the first structured link, which must not be nil. */
  predicate CodeReady(err: Option<Err>) {
    err.None? || FirstStructured(err.value).None? || FirstStructured(err.value).value.status.Some?
  }

  /** IsCode(err, code). */
  function IsCode(err: Option<Err>, code: Code): (b: bool)
    requires CodeReady(err)
    ensures err.None? ==> !b
    ensures b ==> FirstStructured(err.value).Some?
  {
    if err.None? then false
    else
      match FirstStructured(err.value)
        case None => false
        case Some(e) => e.status.value.code == code
  }

  lemma {:induction false} FirstStructuredInChain(e: Err)
    ensures FirstStructured(e).None? ==> forall i :: 0 <= i < |Chain(e)| ==> Chain(e)[i].Opaque?
    ensures FirstStructured(e).Some? ==>
      exists i :: FirstStructuredAt(Chain(e), i) && Chain(e)[i].d == FirstStructured(e).value
  {
    match e
    case Structured(d) =>
      assert FirstStructuredAt(Chain(e), 0);
    case Opaque(_, None) =>
    case Opaque(_, Some(inner)) =>
      FirstStructuredInChain(inner);
      var c := Chain(e);
      assert c == [e] + Chain(inner);
      if FirstStructured(inner).Some? {
        var i :| FirstStructuredAt(Chain(inner), i) && Chain(inner)[i].d == FirstStructured(inner).value;
        assert c[i + 1] == Chain(inner)[i];
        assert FirstStructuredAt(c, i + 1);
      }
  }

  /** A chain has at most one first structured link. */
  lemma FirstStructuredAtUnique(c: seq<Err>, i: int, j: int)
    requires FirstStructuredAt(c, i) && FirstStructuredAt(c, j)
    ensures i == j
  {
  }

  /**
   * IsCode holds exactly when the chain has a structured link and the first
   * one carries `code`; any deeper link is never consulted.
   */
  lemma IsCodeFirstLink(err: Option<Err>, code: Code)
    requires CodeReady(err)
    ensures IsCode(err, code) <==>
      err.Some? && exists i :: (FirstStructuredAt(Chain(err.value), i)
        && Chain(err.value)[i].d.status.Some? && Chain(err.value)[i].d.status.value.code == code)
  {
    if err.Some? {
      var c := Chain(err.value);
      FirstStructuredInChain(err.value);
      if FirstStructured(err.value).Some? {
        var i :| FirstStructuredAt(c, i) && c[i].d == FirstStructured(err.value).value;
        forall j | FirstStructuredAt(c, j)
          ensures j == i
        {
          FirstStructuredAtUnique(c, i, j);
        }
      }
    }
  }

  /** Wrapping a structured error decides IsCode by the outer status, whatever the inner one. */
  lemma IsCodeSeesOutermost(rt: seq<Token>, inner: DefaultError, outer: Status, code: Code)
    ensures IsCode(Some(Structured(New(rt, Some(outer), [Some(Structured(inner))]))), code)
      <==> outer.code == code
  {
  }

  /** Opaque wrappers are transparent to IsCode. */
  lemma IsCodeThroughOpaque(msg: string, e: Err, code: Code)
    requires CodeReady(Some(e))
    ensures CodeReady(Some(Opaque(msg, Some(e))))
    ensures IsCode(Some(Opaque(msg, Some(e))), code) == IsCode(Some(e), code)
  {
  }

  // ---------------------------------------------------------- repeated wraps

  /** One wrapping site: the call stack inside New and the status it adds. */
  datatype Layer = Layer(rt: seq<Token>, status: Status)

  /** `base` wrapped by one New call per layer, the first layer innermost. */
  function WrapAll(base: DefaultError, layers: seq<Layer>): DefaultError
    decreases |layers|
  {
    if layers == [] then base
    else
      var last := layers[|layers| - 1];
      New(last.rt, Some(last.status), [Some(Structured(WrapAll(base, layers[..|layers| - 1])))])
  }

  /**
   * However often an error is wrapped, its stack stays that of the first
   * structured creation: the base's own, or the one the first wrap captured.
   */
  lemma {:induction false} WrapAllKeepsOriginStack(base: DefaultError, layers: seq<Layer>)
    ensures WrapAll(base, layers).stack ==
      if base.stack.List? || layers == [] then base.stack else TakeStack(layers[0].rt, 1)
    decreases |layers|
  {
    if |layers| > 1 {
      WrapAllKeepsOriginStack(base, layers[..|layers| - 1]);
    }
  }

  /** Each wrap adds one structured link, and IsCode then sees only the last status added. */
  lemma {:induction false} WrapAllDepth(base: DefaultError, layers: seq<Layer>, code: Code)
    ensures |Links(WrapAll(base, layers))| == |layers| + |Links(base)|
    ensures layers != [] ==>
      (IsCode(Some(Structured(WrapAll(base, layers))), code) <==> layers[|layers| - 1].status.code == code)
    decreases |layers|
  {
    if layers != [] {
      WrapAllDepth(base, layers[..|layers| - 1], code);
    }
  }
}
