/**
 * The typed view of an Apple Event: nine named kinds and a fallback that keeps
 * the raw event ID. All nine kinds are present, as in a build with every
 * kind's feature enabled.
 */
module AppleEvents {
  import opened Consts

  datatype AppleEvent =
    | ApplicationDied     // kAEApplicationDied
    | OpenApplication     // kAEOpenApplication
    | OpenContents        // kAEOpenContents
    | OpenDocuments       // kAEOpenDocuments
    | PrintDocuments      // kAEPrintDocuments
    | QuitApplication     // kAEQuitApplication
    | ReopenApplication   // kAEReopenApplication
    | ShowPreferences     // kAEShowPreferences
    | GetURL              // kAEGetURL
    | Unknown(code: u32)  // any other event ID, as received from the system
  {
    /** `is_unknown`: the event is not one of the nine named kinds. */
    predicate IsUnknown() {
      match this
      case Unknown(_) => true
      case _ => false
    }
  }

  /** `From<u32>`: classifies an event ID. Total; unrecognised IDs are kept in `Unknown`. */
  function FromCode(v: u32): (e: AppleEvent)
    ensures e.IsUnknown() <==> v !in KNOWN_EVENT_IDS
    ensures e.Unknown? ==> e.code == v
  {
    match v
    case EVENT_OPEN_APPLICATION => OpenApplication
    case EVENT_REOPEN_APPLICATION => ReopenApplication
    case EVENT_OPEN_DOCUMENTS => OpenDocuments
    case EVENT_PRINT_DOCUMENTS => PrintDocuments
    case EVENT_OPEN_CONTENTS => OpenContents
    case EVENT_QUIT_APPLICATION => QuitApplication
    case EVENT_SHOW_PREFERENCES => ShowPreferences
    case EVENT_APPLICATION_DIED => ApplicationDied
    case EVENT_GET_URL => GetURL
    case _ => Unknown(v)
  }

  /**
   * The event ID a kind stands for: the classifier's table read backwards,
   * and the raw code for `Unknown`.
   */
  function CodeOf(e: AppleEvent): (v: u32)
    ensures !e.Unknown? ==> v in KNOWN_EVENT_IDS
  {
    match e
    case OpenApplication => EVENT_OPEN_APPLICATION
    case ReopenApplication => EVENT_REOPEN_APPLICATION
    case OpenDocuments => EVENT_OPEN_DOCUMENTS
    case PrintDocuments => EVENT_PRINT_DOCUMENTS
    case OpenContents => EVENT_OPEN_CONTENTS
    case QuitApplication => EVENT_QUIT_APPLICATION
    case ShowPreferences => EVENT_SHOW_PREFERENCES
    case ApplicationDied => EVENT_APPLICATION_DIED
    case GetURL => EVENT_GET_URL
    case Unknown(c) => c
  }

  /** A kind the classifier can produce: an `Unknown` never carries a known ID. */
  predicate IsCanonical(e: AppleEvent) {
    e.Unknown? ==> e.code !in KNOWN_EVENT_IDS
  }

  /** The classifier loses nothing: every ID is recovered from its kind, so `FromCode` is injective. */
  lemma CodeOfFromCode(v: u32)
    ensures CodeOf(FromCode(v)) == v
    ensures IsCanonical(FromCode(v))
  {
  }

  /** Every kind the classifier can produce comes from exactly the ID `CodeOf` gives it. */
  lemma FromCodeOfCode(e: AppleEvent)
    ensures FromCode(CodeOf(e)) == e <==> IsCanonical(e)
  {
  }

  /** `FromCode` is injective on all IDs, the nine known ones included. */
  lemma FromCodeInjective(v: u32, w: u32)
    ensures FromCode(v) == FromCode(w) <==> v == w
  {
  }

  /** Each of the nine constants maps to its own named kind. */
  lemma FromCodeKnownIds()
    ensures FromCode(EVENT_OPEN_APPLICATION) == OpenApplication
    ensures FromCode(EVENT_REOPEN_APPLICATION) == ReopenApplication
    ensures FromCode(EVENT_OPEN_DOCUMENTS) == OpenDocuments
    ensures FromCode(EVENT_PRINT_DOCUMENTS) == PrintDocuments
    ensures FromCode(EVENT_OPEN_CONTENTS) == OpenContents
    ensures FromCode(EVENT_QUIT_APPLICATION) == QuitApplication
    ensures FromCode(EVENT_SHOW_PREFERENCES) == ShowPreferences
    ensures FromCode(EVENT_APPLICATION_DIED) == ApplicationDied
    ensures FromCode(EVENT_GET_URL) == GetURL
  {
  }

  /** `is_unknown` holds exactly of the `Unknown` variant. */
  lemma IsUnknownIff(e: AppleEvent)
    ensures e.IsUnknown() <==> exists c :: e == Unknown(c)
  {
  }

  /** Equality is structural: two `Unknown`s are equal iff their codes are, and named kinds differ from all others. */
  lemma StructuralEquality(a: u32, b: u32, e: AppleEvent, f: AppleEvent)
    ensures Unknown(a) == Unknown(b) <==> a == b
    ensures !e.Unknown? ==> e != Unknown(a)
    ensures !e.Unknown? && !f.Unknown? && e != f ==> CodeOf(e) != CodeOf(f)
  {
  }
}
