/**
 * The two message transforms of filters/: `MessageTypeFilter` keeps only messages of the
 * configured type(s), `MyTradeFilter` drops messages whose type is in its list. A message is
 * either absent (`null`/`undefined`) or present; a transform returns `null` (`None`), the same
 * message, or, after an exception it catches, nothing at all.
 */
module MessageFilters {
  import opened Common

  /** A feed message: its `type`, when it has one, and the fields no filter reads. */
  datatype Message = Message(msgType: Option<string>, fields: seq<(string, string)>)

  /** A `filterType` setting: one type name, or an array of them. */
  datatype FilterType = Single(name: string) | List(names: seq<string>)

  /** What `MyTradeFilter.transformMessage` ends with. */
  datatype Transformed =
    | Returned(value: Option<Message>)
      /** An exception was caught and logged; the method falls off its end. */
    | Undefined
      /** An exception was caught, and logging it threw again (no logger was configured). */
    | Thrown

  /** JavaScript truthiness of `msg.type`: present and not the empty string. */
  predicate HasType(m: Message)
  {
    m.msgType.Some? && m.msgType.value != ""
  }

  /** lodash `indexOf`: the first position of `t` in `names`, or -1. */
  function IndexOf(names: seq<string>, t: string): (i: int)
    ensures -1 <= i < |names|
    ensures i == -1 <==> t !in names
    ensures i != -1 ==> names[i] == t && forall j :: 0 <= j < i ==> names[j] != t
  {
    if |names| == 0 then -1
    else if names[0] == t then 0
    else
      var j := IndexOf(names[1..], t);
      if j == -1 then -1 else j + 1
  }

  /** The type names a `filterType` setting admits. */
  predicate Admits(filter: FilterType, t: string)
  {
    match filter
    case Single(name) => t == name
    case List(names) => t in names
  }

  /**
   * `MessageTypeFilter.transformMessage`: an absent message, one without a (non-empty) type, or
   * one whose type the setting does not name yields `null`; any other message comes back as is.
   * Nothing in it can throw, so its catch is never reached.
   */
  function TypeFilter(filter: FilterType, msg: Option<Message>): (r: Option<Message>)
    ensures r.None? || r == msg
    ensures r.Some? <==> msg.Some? && HasType(msg.value) && Admits(filter, msg.value.msgType.value)
  {
    match filter
    case List(names) =>
      if msg.None? || !HasType(msg.value) || IndexOf(names, msg.value.msgType.value) == -1 then None else msg
    case Single(name) =>
      if msg.None? || !HasType(msg.value) || msg.value.msgType.value != name then None else msg
  }

  /** Filtering what the filter let through lets it through again. */
  lemma TypeFilterIdempotent(filter: FilterType, msg: Option<Message>)
    ensures TypeFilter(filter, TypeFilter(filter, msg)) == TypeFilter(filter, msg)
  {
  }

  /** A string setting behaves as the one-element array of that string. */
  lemma SingleIsOneElementList(name: string, msg: Option<Message>)
    ensures TypeFilter(Single(name), msg) == TypeFilter(List([name]), msg)
  {
    if msg.Some? && HasType(msg.value) {
      assert msg.value.msgType.value in [name] <==> msg.value.msgType.value == name;
    }
  }

  /** Setting the empty type name lets nothing through, as the empty string is falsy. */
  lemma EmptyNameAdmitsNothing(msg: Option<Message>)
    ensures TypeFilter(Single(""), msg) == None
  {
  }

  /**
   * `MyTradeFilter.transformMessage`. With an array setting it reads `msg.type` unguarded, so an
   * absent message throws; the catch logs it (which throws again without a logger) and returns
   * nothing. A message whose type is in the array yields `null`. Every other message, and every
   * message when the setting is not an array, comes back as is.
   */
  function TradeFilter(filter: FilterType, msg: Option<Message>, hasLogger: bool): (r: Transformed)
    ensures r.Returned? ==> r.value.None? || r.value == msg
    ensures r.Returned? <==> filter.Single? || msg.Some?
    ensures filter.Single? ==> r == Returned(msg)
    ensures filter.List? ==> (r == Returned(None) <==>
      msg.Some? && msg.value.msgType.Some? && msg.value.msgType.value in filter.names)
    ensures r == Thrown <==> filter.List? && msg.None? && !hasLogger
  {
    match filter
    case List(names) =>
      if msg.None? then (if hasLogger then Undefined else Thrown)
      else if msg.value.msgType.Some? && IndexOf(names, msg.value.msgType.value) != -1 then Returned(None)
      else Returned(msg)
    case Single(_) => Returned(msg)
  }

  /**
   * For a message with a non-empty type, `MyTradeFilter` with an array drops exactly what
   * `MessageTypeFilter` with the same array keeps.
   */
  lemma TradeFilterComplementsTypeFilter(names: seq<string>, m: Message, hasLogger: bool)
    requires HasType(m)
    ensures TradeFilter(List(names), Some(m), hasLogger) == Returned(None) <==> TypeFilter(List(names), Some(m)) == Some(m)
    ensures TradeFilter(List(names), Some(m), hasLogger) == Returned(Some(m)) <==> TypeFilter(List(names), Some(m)) == None
  {
  }

  /** Passing a returned message through `MyTradeFilter` again returns it again. */
  lemma TradeFilterIdempotent(filter: FilterType, m: Message, hasLogger: bool)
    requires TradeFilter(filter, Some(m), hasLogger) == Returned(Some(m))
    ensures TradeFilter(filter, TradeFilter(filter, Some(m), hasLogger).value, hasLogger) == Returned(Some(m))
  {
  }
}
