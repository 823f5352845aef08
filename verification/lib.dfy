/**
 * The plugin's entry points: turning a raw Apple Event into a kind and an
 * optional list of strings (`parse_event`), and the single handler slot that
 * `listen` fills and the Objective-C trampoline `handle_event` dispatches into.
 *
 * The Objective-C objects are replaced by values. An event is a null handle or
 * a record of its class, its ID and its parameters keyed by keyword. A
 * parameter descriptor is nil, or a record of the answers the Apple Event
 * Manager gives to the plugin's questions: the string of each list item and
 * the string the descriptor itself coerces to, where `None` stands for a null
 * `UTF8String` pointer. Both answers are inputs: a list descriptor may or may
 * not coerce to a string, and a single value may or may not report items.
 */
module Lib {
  import opened Wrappers
  import opened Consts
  import opened AppleEvents

  /** The direct-object parameter of an event. */
  datatype Descriptor =
    | Absent    // no parameter under the keyword: a nil descriptor
    | Present(
        items: seq<Option<string>>,   // what items 1 to `numberOfItems` convert to, None when null
        text: Option<string>)         // what `stringValue` converts to, None when null

  /** An `NSAppleEventDescriptor` event as the plugin receives it. */
  datatype RawEvent =
    | NullEvent
    | Event(eventClass: u32, eventID: u32, params: map<u32, Descriptor>)

  /** What `parse_event` returns: the kind and, when there is one, the payload. */
  type Parsed = (AppleEvent, Option<seq<string>>)

  /** `paramDescriptorForKeyword:`. A missing parameter is a nil descriptor. */
  function ParamDescriptor(params: map<u32, Descriptor>, keyword: u32): Descriptor
  {
    if keyword in params then params[keyword] else Absent
  }

  /** `numberOfItems`; a nil descriptor answers 0. */
  function NumberOfItems(d: Descriptor): nat {
    if d.Present? then |d.items| else 0
  }

  /** `descriptorAtIndex:` then `stringValue` then `UTF8String`, with 1-based indices. */
  function ItemString(d: Descriptor, index: int): (s: Option<string>)
    requires 1 <= index <= NumberOfItems(d)
  {
    d.items[index - 1]
  }

  /** The item strings `descriptorAtIndex:` reads for indices 1 to `numberOfItems`. */
  function Items(d: Descriptor): (items: seq<Option<string>>)
    ensures |items| == NumberOfItems(d)
    ensures forall i :: 1 <= i <= |items| ==> items[i - 1] == ItemString(d, i)
  {
    if d.Present? then d.items else []
  }

  /** `stringValue` then `UTF8String` on the descriptor itself; null for a nil descriptor. */
  function StringValue(d: Descriptor): Option<string> {
    if d.Present? then d.text else None
  }

  /** The only event classes whose parameters are read: core and internet. */
  predicate ClassAccepted(eventClass: u32) {
    eventClass == EVENT_CLASS_CORE || eventClass == EVENT_CLASS_INTERNET
  }

  /** The strings of the non-null items, in list order. */
  function PresentPaths(items: seq<Option<string>>): (paths: seq<string>)
    ensures |paths| <= |items|
  {
    if items == [] then []
    else if items[0].Some? then [items[0].value] + PresentPaths(items[1..])
    else PresentPaths(items[1..])
  }

  /** `if docs.is_empty() { None } else { Some(docs) }`. */
  function NonEmpty(docs: seq<string>): (p: Option<seq<string>>)
  {
    if docs == [] then None else Some(docs)
  }

  /** The payload of a single-value event: a one-element list, or nothing when the string is null. */
  function SingleValue(s: Option<string>): (p: Option<seq<string>>)
  {
    if s.Some? then Some([s.value]) else None
  }

  /** What `parse_event` computes, stated on whole values. */
  function Parse(e: RawEvent): (r: Parsed)
    ensures e.NullEvent? ==> r == (Unknown(0), None)
    ensures e.Event? ==> r.0 == FromCode(e.eventID)
    ensures e.Event? && (r.0.IsUnknown() || !ClassAccepted(e.eventClass)) ==> r.1 == None
    ensures r.1.Some? ==> r.1.value != []
    ensures r.1.Some? && r.0 != OpenDocuments ==> |r.1.value| == 1
  {
    match e
    case NullEvent => (Unknown(0), None)
    case Event(eventClass, eventID, params) =>
      var kind := FromCode(eventID);
      if kind.IsUnknown() || !ClassAccepted(eventClass) then (kind, None)
      else
        var d := ParamDescriptor(params, KEY_DIRECT_OBJECT);
        if kind == OpenDocuments then (kind, NonEmpty(PresentPaths(Items(d))))
        else (kind, SingleValue(StringValue(d)))
  }

  // ---------------------------------------------------------------------
  // Properties of the document list.

  /** Filtering distributes over concatenation, so the kept paths keep list order. */
  lemma {:induction false} PresentPathsAppend(a: seq<Option<string>>, b: seq<Option<string>>)
    ensures PresentPaths(a + b) == PresentPaths(a) + PresentPaths(b)
  {
    if a == [] {
      assert a + b == b;
    } else {
      assert (a + b)[1..] == a[1..] + b;
      PresentPathsAppend(a[1..], b);
    }
  }

  /** A string is kept iff some item carries it. */
  lemma {:induction false} PresentPathsMembers(items: seq<Option<string>>, s: string)
    ensures s in PresentPaths(items) <==> Some(s) in items
  {
    if items != [] {
      PresentPathsMembers(items[1..], s);
      assert items == [items[0]] + items[1..];
    }
  }

  /** Exactly the null items are dropped: the count of kept paths is the count of non-null items. */
  lemma {:induction false} PresentPathsCount(items: seq<Option<string>>)
    ensures |PresentPaths(items)| + multiset(items)[None] == |items|
  {
    if items != [] {
      PresentPathsCount(items[1..]);
      assert items == [items[0]] + items[1..];
      assert multiset(items) == multiset{items[0]} + multiset(items[1..]);
    }
  }

  /** The list is empty iff every item is null (the zero-item list included). */
  lemma {:induction false} PresentPathsEmpty(items: seq<Option<string>>)
    ensures PresentPaths(items) == [] <==> forall i :: 0 <= i < |items| ==> items[i].None?
  {
    if items != [] {
      PresentPathsEmpty(items[1..]);
      if forall i :: 0 <= i < |items| ==> items[i].None? {
        assert forall i :: 0 <= i < |items[1..]| ==> items[1..][i] == items[i + 1];
      } else if items[0].None? {
        var i :| 0 <= i < |items| && items[i].Some?;
        assert items[1..][i - 1] == items[i];
      }
    }
  }

  // ---------------------------------------------------------------------
  // Properties of parse_event.

  /** The kind comes from the event ID alone; the event class never changes it. */
  lemma ParseKindIgnoresClass(c1: u32, c2: u32, id: u32, p1: map<u32, Descriptor>, p2: map<u32, Descriptor>)
    ensures Parse(Event(c1, id, p1)).0 == Parse(Event(c2, id, p2)).0 == FromCode(id)
  {
  }

  /**
   * An unknown kind or a foreign class is answered with `(kind, None)` whatever
   * the parameters hold: the direct object is never consulted.
   */
  lemma ParseRejectedIgnoresParams(c: u32, id: u32, p1: map<u32, Descriptor>, p2: map<u32, Descriptor>)
    requires FromCode(id).IsUnknown() || !ClassAccepted(c)
    ensures Parse(Event(c, id, p1)) == Parse(Event(c, id, p2)) == (FromCode(id), None)
  {
  }

  /**
   * For an accepted open-documents event, the payload holds exactly the
   * non-null strings among the direct object's items, in list order; it is
   * None iff every item is null or there are no items (a direct object that
   * is missing or not a list has none); otherwise it has at most as many
   * entries as there are items.
   */
  lemma OpenDocumentsPayload(c: u32, params: map<u32, Descriptor>)
    requires ClassAccepted(c)
    ensures var items := Items(ParamDescriptor(params, KEY_DIRECT_OBJECT));
            var r := Parse(Event(c, EVENT_OPEN_DOCUMENTS, params));
            && r.0 == OpenDocuments
            && (r.1.None? <==> forall i :: 0 <= i < |items| ==> items[i].None?)
            && (r.1.Some? ==>
                  && r.1.value == PresentPaths(items)
                  && |r.1.value| + multiset(items)[None] == |items|
                  && (forall s :: s in r.1.value <==> Some(s) in items))
  {
    var items := Items(ParamDescriptor(params, KEY_DIRECT_OBJECT));
    PresentPathsEmpty(items);
    PresentPathsCount(items);
    forall s {
      PresentPathsMembers(items, s);
    }
  }

  /**
   * For any other accepted kind the payload is the direct object's string as
   * a one-element list, or None when that string is null.
   */
  lemma SingleValuePayload(c: u32, id: u32, params: map<u32, Descriptor>)
    requires ClassAccepted(c) && id in KNOWN_EVENT_IDS && id != EVENT_OPEN_DOCUMENTS
    ensures Parse(Event(c, id, params)).1 ==
              match StringValue(ParamDescriptor(params, KEY_DIRECT_OBJECT))
              case None => None
              case Some(s) => Some([s])
  {
  }

  /** A core open-documents event listing "/a/b.txt", a null item and "/c/d.txt". */
  lemma OpenDocumentsExample(text: Option<string>)
    ensures Parse(Event(EVENT_CLASS_CORE, EVENT_OPEN_DOCUMENTS,
                        map[KEY_DIRECT_OBJECT := Present([Some("/a/b.txt"), None, Some("/c/d.txt")], text)]))
            == (OpenDocuments, Some(["/a/b.txt", "/c/d.txt"]))
  {
    var items := [Some("/a/b.txt"), None, Some("/c/d.txt")];
    var params := map[KEY_DIRECT_OBJECT := Present(items, text)];
    assert ParamDescriptor(params, KEY_DIRECT_OBJECT) == Present(items, text);
    assert Items(Present(items, text)) == items;
    assert FromCode(EVENT_OPEN_DOCUMENTS) == OpenDocuments;
    assert items[1..][1..] == [Some("/c/d.txt")];
    assert PresentPaths(items[1..][1..]) == ["/c/d.txt"];
    assert PresentPaths(items[1..]) == ["/c/d.txt"];
    assert PresentPaths(items) == ["/a/b.txt", "/c/d.txt"];
  }

  /** An unrecognised ID such as 0xDEADBEEF is kept and gets no payload. */
  lemma UnknownIdExample(c: u32, params: map<u32, Descriptor>)
    ensures Parse(Event(c, 0xDEADBEEF, params)) == (Unknown(0xDEADBEEF), None)
  {
  }

  // ---------------------------------------------------------------------
  // parse_event as the plugin runs it.

  /** The loop over the list's items: pushes each non-null string, skips the nulls. */
  method CollectDocuments(d: Descriptor) returns (docs: seq<string>)
    ensures docs == PresentPaths(Items(d))
  {
    var count := NumberOfItems(d);
    docs := [];
    for i := 0 to count
      invariant d.Present? ==> docs == PresentPaths(d.items[..i])
      invariant d.Absent? ==> docs == []
    {
      var path := ItemString(d, i + 1);
      if path.Some? {
        PresentPathsAppend(d.items[..i], [path]);
        assert d.items[..i + 1] == d.items[..i] + [path];
        docs := docs + [path.value];
      } else {
        PresentPathsAppend(d.items[..i], [path]);
        assert d.items[..i + 1] == d.items[..i] + [path];
      }
    }
    if d.Present? {
      assert d.items[..count] == d.items;
    }
  }

  /** `parse_event`: early exits, then the open-documents list or the single string. */
  method ParseEvent(e: RawEvent) returns (kind: AppleEvent, payload: Option<seq<string>>)
    ensures (kind, payload) == Parse(e)
  {
    if e.NullEvent? {
      return Unknown(0), None;
    }
    var eventClass := e.eventClass;
    var eventID := e.eventID;
    kind := FromCode(eventID);
    if kind.IsUnknown() || (eventClass != EVENT_CLASS_CORE && eventClass != EVENT_CLASS_INTERNET) {
      return kind, None;
    }
    var subevent := ParamDescriptor(e.params, KEY_DIRECT_OBJECT);
    if kind == OpenDocuments {
      var docs := CollectDocuments(subevent);
      payload := if docs == [] then None else Some(docs);
    } else {
      var cstr := StringValue(subevent);
      payload := if cstr.Some? then Some([cstr.value]) else None;
    }
  }

  // ---------------------------------------------------------------------
  // The handler slot.

  /** Identity of the closure an application passes to `listen`. */
  type HandlerId = nat

  /** One `setEventHandler:andSelector:forEventClass:andEventID:` call. */
  datatype Registration = Registration(eventClass: u32, eventID: u32)

  /** One invocation of the installed handler. */
  datatype Call = Call(handler: HandlerId, kind: AppleEvent, payload: seq<string>)

  /** The registrations one `listen` call issues, in order. GetURL is not among them. */
  function ListenRegistrations(): (rs: seq<Registration>)
    ensures |rs| == 6
    ensures forall r <- rs :: r.eventClass == EVENT_CLASS_CORE
    ensures forall r <- rs :: r.eventID in KNOWN_EVENT_IDS && r.eventID != EVENT_GET_URL
    ensures forall r <- rs :: r.eventID != EVENT_SHOW_PREFERENCES && r.eventID != EVENT_APPLICATION_DIED
    ensures forall i, j :: 0 <= i < j < |rs| ==> rs[i].eventID != rs[j].eventID
  {
    [ Registration(EVENT_CLASS_CORE, EVENT_OPEN_DOCUMENTS),
      Registration(EVENT_CLASS_CORE, EVENT_PRINT_DOCUMENTS),
      Registration(EVENT_CLASS_CORE, EVENT_OPEN_CONTENTS),
      Registration(EVENT_CLASS_CORE, EVENT_OPEN_APPLICATION),
      Registration(EVENT_CLASS_CORE, EVENT_REOPEN_APPLICATION),
      Registration(EVENT_CLASS_CORE, EVENT_QUIT_APPLICATION) ]
  }

  /** Every event the plugin registers for is classified as a named kind and passes the class check. */
  lemma RegisteredEventsReachPayload(r: Registration, params: map<u32, Descriptor>)
    requires r in ListenRegistrations()
    ensures !Parse(Event(r.eventClass, r.eventID, params)).0.IsUnknown()
    ensures ClassAccepted(r.eventClass)
  {
  }

  /** `n` rounds of registrations, one per `listen` call. */
  function Repeat(rs: seq<Registration>, n: nat): (all: seq<Registration>)
  {
    if n == 0 then [] else Repeat(rs, n - 1) + rs
  }

  /** The result type of `listen`. */
  datatype ListenResult = Ok | Err(reason: string)

  /**
   * The process-wide `HANDLER` cell with the Apple Event Manager's view of it:
   * the installed handler, the registrations issued so far and the handler
   * calls dispatched so far.
   */
  class Plugin {
    var handler: Option<HandlerId>
    /** The handler calls dispatched so far: what the installed closures observe. */
    var calls: seq<Call>
    /** The Apple Event Manager's side: every registration issued so far. */
    ghost var registrations: seq<Registration>
    /** The handlers passed to `listen`, oldest first. */
    ghost var installed: seq<HandlerId>

    /**
     * The slot holds the handler of the latest `listen` call, each call left
     * one round of registrations, and every dispatch reached a handler that
     * was passed to `listen`.
     */
    ghost predicate Valid()
      reads this
    {
      && registrations == Repeat(ListenRegistrations(), |installed|)
      && handler == (if installed == [] then None else Some(installed[|installed| - 1]))
      && (forall c <- calls :: c.handler in installed)
    }

    /** The empty cell at process start. */
    constructor ()
      ensures Valid()
      ensures handler == None && registrations == [] && calls == [] && installed == []
    {
      handler := None;
      calls := [];
      registrations := [];
      installed := [];
    }

    /** `listen`: installs `h` whether or not a handler was set, then registers for the six events. */
    method Listen(h: HandlerId) returns (r: ListenResult)
      requires Valid()
      modifies this
      ensures Valid()
      ensures r == Ok
      ensures handler == Some(h)
      ensures installed == old(installed) + [h]
      ensures registrations == old(registrations) + ListenRegistrations()
      ensures calls == old(calls)
    {
      match handler {
        case Some(_) => handler := Some(h);
        case None => handler := Some(h);
      }
      registrations := registrations + ListenRegistrations();
      installed := installed + [h];
      r := Ok;
    }

    /** `handle_event`: parses the event and calls the installed handler with the payload or an empty list. */
    method HandleEvent(e: RawEvent)
      requires Valid()
      requires handler.Some?
      modifies this`calls
      ensures Valid()
      ensures calls == old(calls) + [Call(handler.value, Parse(e).0, Parse(e).1.GetOr([]))]
    {
      var eventType, payload := ParseEvent(e);
      calls := calls + [Call(handler.value, eventType, payload.GetOr([]))];
    }
  }

  /**
   * Replace semantics: after two `listen` calls an event goes to the second
   * handler only, with the parsed kind and payload.
   */
  method ListenTwiceThenDispatch(h1: HandlerId, h2: HandlerId, e: RawEvent) returns (last: Call)
    ensures last == Call(h2, Parse(e).0, Parse(e).1.GetOr([]))
  {
    var plugin := new Plugin();
    var r1 := plugin.Listen(h1);
    var r2 := plugin.Listen(h2);
    assert r1 == r2 == Ok;
    plugin.HandleEvent(e);
    last := plugin.calls[|plugin.calls| - 1];
  }
}
