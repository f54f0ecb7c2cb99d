/** How the login and register pages turn a rejected server answer into the list of
    error lines they show: the payload's `errors` array (or its `message`, or a fixed
    text) becomes a list of messages, the list is joined with ", " into the message
    of an `Error`, and the catch block splits that message on ", " again. */
module ErrorMessages {
  import opened Js
  import opened Text

  const Separator: string := ", "
  const Unexpected: string := "An unexpected error occurred"
  const UnknownError: string := "Unknown error"

  /** The message for one entry of `errors`: a string is kept, an object (or array)
      gives its first value, anything else gives 'Unknown error'. `null` is an object
      to `typeof`, and `Object.values(null)` throws. */
  function EntryMessage(e: JsValue): (r: Result<JsValue, Throwable>)
    ensures e.Str? ==> r == Success(e)
    ensures e.Obj? ==> r == Success(if e.fields == [] then Undefined else e.fields[0].1)
    ensures e.Arr? ==> r == Success(if e.items == [] then Undefined else e.items[0])
    ensures e.Bool? || e.Num? || e.Undefined? ==> r == Success(Str(UnknownError))
    ensures e.Null? ==> r.Failure?
  {
    if TypeOf(e) == "string" then Success(e)
    else if TypeOf(e) == "object" then FirstValue(e)
    else Success(Str(UnknownError))
  }

  /** `errors.map(entryMessage)`: stops at the first entry whose conversion throws. */
  function MapEntries(errors: seq<JsValue>): (r: Result<seq<JsValue>, Throwable>)
    ensures r.Success? <==> forall i :: 0 <= i < |errors| ==> EntryMessage(errors[i]).Success?
    ensures r.Success? ==> |r.value| == |errors|
    ensures r.Success? ==> forall i :: 0 <= i < |errors| ==> EntryMessage(errors[i]) == Success(r.value[i])
    decreases errors
  {
    if errors == [] then Success([])
    else match EntryMessage(errors[0])
      case Failure(t) => Failure(t)
      case Success(m) =>
        match MapEntries(errors[1..])
        case Failure(t) => Failure(t)
        case Success(ms) => Success([m] + ms)
  }

  /** The list of messages built from a server payload `data`. Reading `data.errors`
      throws when `data` is null or undefined. */
  function Messages(data: JsValue): (r: Result<seq<JsValue>, Throwable>)
  {
    match Get(data, "errors")
    case Failure(t) => Failure(t)
    case Success(errors) =>
      if Truthy(errors) && errors.Arr? then MapEntries(errors.items)
      else
        var message := OptionalGet(data, "message");
        if Truthy(message) then Success([message]) else Success([Str(Unexpected)])
  }

  /** What the page throws for a rejected answer: `new Error(messages.join(", "))`, or
      the TypeError met while building the list. */
  function ServerError(data: JsValue): (t: Throwable)
  {
    match Messages(data)
    case Success(msgs) => ErrorObj(JoinItems(msgs, Separator))
    case Failure(t) => t
  }

  /** The list the catch block stores: an `Error`'s message split on ", ", and the fixed
      text for anything else that was thrown. */
  function Displayed(t: Throwable): (lines: seq<string>)
    ensures |lines| >= 1
    ensures t.NonError? ==> lines == [Unexpected]
    ensures t.ErrorObj? ==> Join(lines, Separator) == t.message
  {
    match t
    case ErrorObj(m) => JoinSplit(m, Separator); Split(m, Separator)
    case NonError(_) => [Unexpected]
  }

  function Texts(msgs: seq<string>): (vs: seq<JsValue>)
    ensures |vs| == |msgs|
    ensures forall i :: 0 <= i < |msgs| ==> vs[i] == Str(msgs[i])
  {
    seq(|msgs|, i requires 0 <= i < |msgs| => Str(msgs[i]))
  }

  /** For string messages, the element-wise join of `Array.prototype.join` is the join of the strings. */
  lemma {:induction false} JoinItemsOfTexts(msgs: seq<string>, sep: string)
    ensures JoinItems(Texts(msgs), sep) == Join(msgs, sep)
    decreases msgs
  {
    if |msgs| > 1 {
      JoinItemsOfTexts(msgs[1..], sep);
      assert Texts(msgs)[1..] == Texts(msgs[1..]);
    }
  }

  /** An `errors` array takes precedence: once it is present, `message` plays no part,
      and every string entry gives its own message. */
  lemma ErrorsArrayTakesPrecedence(data: JsValue)
    requires !data.Null? && !data.Undefined?
    requires OptionalGet(data, "errors").Arr?
    ensures Messages(data) == MapEntries(OptionalGet(data, "errors").items)
  {
  }

  /** Without an `errors` array, a truthy `message` is the one message; without either,
      the one message is the fixed text. This holds for every payload that is not null or
      undefined: a string, number, boolean or array payload has neither property. */
  lemma MessageOrDefault(data: JsValue)
    requires !data.Null? && !data.Undefined?
    requires !OptionalGet(data, "errors").Arr?
    ensures Truthy(OptionalGet(data, "message")) ==> Messages(data) == Success([OptionalGet(data, "message")])
    ensures !Truthy(OptionalGet(data, "message")) ==> Messages(data) == Success([Str(Unexpected)])
  {
  }

  /** String entries are kept as they are. */
  lemma {:induction false} MapEntriesOfTexts(msgs: seq<string>)
    ensures MapEntries(Texts(msgs)) == Success(Texts(msgs))
    decreases msgs
  {
    if msgs != [] {
      var vs := Texts(msgs);
      assert vs[1..] == Texts(msgs[1..]);
      MapEntriesOfTexts(msgs[1..]);
      assert EntryMessage(vs[0]) == Success(vs[0]);
      assert vs == [vs[0]] + vs[1..];
    }
  }

  /** The shown list equals the server's string messages when there is at least one and
      none of them contains ", ". */
  lemma {:induction false} ShownErrorsRoundTrip(data: JsValue, msgs: seq<string>)
    requires OptionalGet(data, "errors") == Arr(Texts(msgs))
    requires msgs != []
    requires forall k :: 0 <= k < |msgs| ==> !Contains(msgs[k], Separator)
    ensures Displayed(ServerError(data)) == msgs
  {
    MapEntriesOfTexts(msgs);
    JoinItemsOfTexts(msgs, Separator);
    SplitJoinCommaSpace(msgs);
  }

  /** A truthy string `message` without ", " is shown as the single line. */
  lemma ShownMessage(data: JsValue, message: string)
    requires !data.Null? && !data.Undefined? && !OptionalGet(data, "errors").Arr?
    requires OptionalGet(data, "message") == Str(message) && message != ""
    requires !Contains(message, Separator)
    ensures Displayed(ServerError(data)) == [message]
  {
    assert JoinItems([Str(message)], Separator) == message;
    SplitJoinCommaSpace([message]);
  }

  /** An empty `errors` array shows one empty line. */
  lemma EmptyErrorsShowOneEmptyLine(data: JsValue)
    requires OptionalGet(data, "errors") == Arr([])
    ensures Displayed(ServerError(data)) == [""]
  {
    SplitJoinEmpty(Separator);
  }

  /** Neither `errors` nor a truthy `message`: the fixed text is shown. */
  lemma ShownDefault(data: JsValue)
    requires !data.Null? && !data.Undefined? && !OptionalGet(data, "errors").Arr?
    requires !Truthy(OptionalGet(data, "message"))
    ensures Displayed(ServerError(data)) == [Unexpected]
  {
    assert JoinItems([Str(Unexpected)], Separator) == Unexpected;
    NoCommaNoCommaSpace(Unexpected);
    SplitJoinCommaSpace([Unexpected]);
  }
}
