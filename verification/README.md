# tauri-plugin-apple-events, modelled in Dafny

The plugin turns a macOS Apple Event into a typed pair: an `AppleEvent` kind
and a list of strings. It also keeps one handler slot that the application
fills with `listen`. This model covers three things:

- **`consts.dfy`** (module `Consts`): the event-class and event-ID
  four-character codes and the direct-object keyword `'----'`. It also holds
  the big-endian packing of four ASCII characters into a `u32` and its inverse.
- **`apple_event.dfy`** (module `AppleEvents`): the nine-kind enum plus
  `Unknown(code)`, `is_unknown` and `From<u32>` (`FromCode`). The enum has
  all nine kinds, as when every Cargo feature is enabled. `CodeOf` reads the
  classifier's table backwards. It is the inverse the round-trip lemmas use.
  Rust's `kAEOpenDocuments` is `OpenDocuments` here, and likewise for the
  other kinds.
- **`lib.dfy`** (module `Lib`): `parse_event` and the handler slot.
  - `parse_event` is stated twice. `Parse` is a function over whole values.
    `ParseEvent` is a method that follows the source step by step, with the
    document loop in `CollectDocuments`. It is proved equal to `Parse`.
  - The Objective-C event becomes a value. A `RawEvent` is either `NullEvent`
    or `Event(eventClass, eventID, params)`, where `params` maps keywords to
    descriptors.
  - A `Descriptor` is `Absent` (a nil descriptor) or `Present(items, text)`.
    `items` holds what the list items 1 to `numberOfItems` convert to, and
    `text` holds what the descriptor itself converts to through `stringValue`.
    Each string is an `Option<string>`, and `None` stands for a null
    `UTF8String` pointer.
  - Both answers of a present descriptor are inputs to the model, because the
    Apple Event Manager decides them, not the plugin. For example, a list of
    files may or may not coerce to a string. A nil descriptor answers zero
    items and a null string, as messaging nil does in Objective-C.
  - The global `HANDLER` cell is the class `Plugin`. It has the handler slot
    and the list of handler calls dispatched so far. Ghost fields record the
    registrations issued with the Apple Event Manager and the handlers passed
    to `listen`.

`wrappers.dfy` holds `Option`, with `GetOr` for `unwrap_or_default`.

Three behaviours of the code that a reader might not expect, and which the model keeps:

- The code's `listen` issues its six registrations on every call, not only on
  the first. `Plugin.Listen` appends one full round per call.
- The code's `handle_event` unwraps the slot, so it panics when no handler is
  installed. It does not ignore the event. `Plugin.HandleEvent` therefore
  requires a handler.
- Only the event ID decides the kind. The event class only decides whether
  the payload is read.

## Model

| member | source | states |
|---|---|---|
| Consts.CodeTextOfFourCharCode | src/consts.rs:5-40 | unpacking the big-endian packing of four ASCII characters gives back those characters |
| Consts.FourCharCodeOfCodeText | src/consts.rs:5-40 | a word whose four bytes are ASCII is the packing of its own characters, so the packing is a bijection between codes and their text |
| Consts.ConstantsSpellTheirCodes | src/consts.rs:5-40 | each constant spells its Apple code: 'aevt', 'oapp', 'rapp', 'odoc', 'pdoc', 'ocon', 'quit', 'pref', 'obit', 'GURL' (twice); the direct-object keyword 0x2d2d2d2d is '----' |
| Consts.KnownIdsDistinctAndNonZero | src/consts.rs:8-40 | the nine event IDs are pairwise distinct and none of them is 0 |
| Consts.ClassConstants | src/consts.rs:6-40 | the core class differs from the internet class, and the internet class equals the GetURL event ID |
| AppleEvents.FromCode | src/apple_event.rs:39-53 | total on every u32; the result is unknown exactly when the ID is not one of the nine constants, and an unknown result carries the ID unchanged |
| AppleEvents.FromCodeKnownIds | src/apple_event.rs:42-50 | each of the nine constants maps to its own named kind |
| AppleEvents.CodeOf | src/apple_event.rs:42-51 | every named kind stands for one of the nine known IDs |
| AppleEvents.CodeOfFromCode | src/apple_event.rs:39-53 | the ID is recovered from its kind for every u32, and an `Unknown` from the classifier never carries a known ID |
| AppleEvents.FromCodeOfCode | src/apple_event.rs:39-53 | classifying a kind's ID gives back the kind exactly when the kind is not an `Unknown` holding a known ID |
| AppleEvents.FromCodeInjective | src/apple_event.rs:42-51 | two IDs classify to the same kind iff they are equal, so distinct known IDs give distinct kinds |
| AppleEvents.IsUnknownIff | src/apple_event.rs:30-36 | `is_unknown` holds exactly when the value is `Unknown(c)` for some code |
| AppleEvents.StructuralEquality | src/apple_event.rs:3-28 | two `Unknown`s are equal iff their codes are; a named kind never equals an `Unknown`; distinct named kinds have distinct IDs |
| Lib.Items | src/lib.rs:49-57 | the items the loop can read are exactly `numberOfItems` many, and item `i` is what the 1-based read at `i + 1` gives |
| Lib.PresentPaths | src/lib.rs:54-65 | the kept paths are never more than the items |
| Lib.Parse | src/lib.rs:30-87 | a null event gives `(Unknown(0), None)`; otherwise the kind is `FromCode(eventID)`; an unknown kind or a foreign class gets no payload; a payload is never empty, and only open-documents can carry more than one string |
| Lib.PresentPathsAppend | src/lib.rs:54-65 | filtering the null items distributes over concatenation, so the kept paths stay in list order |
| Lib.PresentPathsMembers | src/lib.rs:54-65 | a string is kept iff some item carries it |
| Lib.PresentPathsCount | src/lib.rs:54-65 | the number of kept paths plus the number of null items is the number of items |
| Lib.PresentPathsEmpty | src/lib.rs:54-65 | the kept list is empty iff every item is null, including when there are no items |
| Lib.ParseKindIgnoresClass | src/lib.rs:35-37 | the kind depends only on the event ID, never on the class or the parameters |
| Lib.ParseRejectedIgnoresParams | src/lib.rs:38-43 | for an unknown kind or a class that is neither core nor internet, the result is `(kind, None)` whatever the parameters hold |
| Lib.OpenDocumentsPayload | src/lib.rs:45-69 | for an accepted open-documents event: None iff every item is null or there are none; otherwise exactly the non-null item strings in order, as many as the non-null items |
| Lib.SingleValuePayload | src/lib.rs:70-84 | for any other accepted kind: `Some([s])` when the direct object's string is `s`, None when it is null |
| Lib.OpenDocumentsExample | src/lib.rs:47-69 | a core open-documents list of "/a/b.txt", a null item and "/c/d.txt" gives, whatever the list coerces to as a string, `(OpenDocuments, Some(["/a/b.txt", "/c/d.txt"]))` |
| Lib.UnknownIdExample | src/lib.rs:37-43 | the ID 0xDEADBEEF gives `(Unknown(0xDEADBEEF), None)` for any class and parameters |
| Lib.CollectDocuments | src/lib.rs:49-65 | the loop over items 1 to `numberOfItems` pushes exactly the non-null strings, in order |
| Lib.ParseEvent | src/lib.rs:30-87 | the step-by-step `parse_event` returns what `Parse` specifies |
| Lib.ListenRegistrations | src/lib.rs:147-184 | one `listen` issues six registrations, all under the core class, for six distinct known IDs; GetURL, ShowPreferences and ApplicationDied are never registered, so exactly open-documents, print-documents, open-contents, open-application, reopen-application and quit are |
| Lib.RegisteredEventsReachPayload | src/lib.rs:38-45 | every registered (class, ID) pair classifies as a named kind and passes the class check, so its payload is read |
| Lib.Plugin.constructor | src/lib.rs:24-27 | the slot starts empty, with no registrations and no calls |
| Lib.Plugin.Listen | src/lib.rs:123-187 | afterwards the slot holds the new handler, whether or not one was set; one round of six registrations is appended; the result is always `Ok` |
| Lib.Plugin.HandleEvent | src/lib.rs:99-103 | requires an installed handler; appends one call to it with the parsed kind and the payload, or an empty list when the payload is None |
| Lib.ListenTwiceThenDispatch | src/lib.rs:99-131 | after `listen(h1)` and `listen(h2)`, a dispatched event reaches `h2` with the parsed kind and payload |

## Left out

- The Objective-C runtime: `msg_send!`, `declare_class!`, `Handler::new` and
  `NSAppleEventManager`. Events and descriptors are values. The registrations
  are a ghost log.
- The Apple Event Manager's coercion rules are not part of this model. What
  `numberOfItems`, `descriptorAtIndex:` and `stringValue` answer for a present
  descriptor is a free input. The model does not relate a descriptor's items
  to its own string value.
- `OnceCell` and `Mutex`: the slot is a plain field. Lock poisoning (the
  second `unwrap` in `handle_event`) and concurrent dispatch are not modelled.
- `CStr::to_string_lossy`: strings reach the model already decoded, so lossy
  UTF-8 substitution is not modelled.
- `Box::into_raw`: `listen` leaks a new Objective-C handler object on every
  call. This is not modelled.
- `dbg!` tracing and the `Vec::with_capacity` hint have no effect on results.
- The reply event passed to `handle_event` is ignored by the source, so it is
  not modelled.
- Dead code: the commented-out `AlreadyExists` variant of `listen`, the
  commented-out `handle_docs` and the commented-out GetURL registration.
- The `#[cfg(feature = ...)]` gating: only the build with all features on is
  modelled, since `From<u32>` names every variant unconditionally.
- `count` is an `NSInteger`: a negative count would run the loop zero times.
  A list's length is never negative, so the model uses a `nat`.
- The handler closure is an opaque identity. Its own effects are not
  modelled, only the arguments it is called with.
