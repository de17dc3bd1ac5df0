/** The per-session store `st.session_state` and the page controller that
    reads and writes it: each script run initialises the four slots, then runs
    the page chosen in the sidebar. */
module Session {
  import opened Wrappers
  import opened Text
  import opened Transcription
  import opened Generation

  /** The four keys the application keeps in the session store. */
  datatype Slot = Transcript | NotesText | QuizText | FlashText

  /** The sidebar's navigation choices. */
  datatype Page = Home | Notes | Quiz | Flashcards

  const NotesPrompt: string :=
    "Convert the following lecture into simple, student-friendly notes.\n"
    + "Use bullet points and small headings.\n"
    + "Avoid robotic or formal language.\n"
    + "Write like a helpful classmate explaining."

  const QuizPrompt: string :=
    "Create 5 multiple-choice questions from this lecture.\n"
    + "Include options and the correct answer for each.\n"
    + "Keep it simple and student-friendly."

  const FlashPrompt: string :=
    "Create short flashcards from this lecture.\n"
    + "Each flashcard should have a question and a short answer."

  /** The slot a page writes: Home writes the transcript, each generator page its artifact. */
  function PageSlot(page: Page): Slot
  {
    match page
    case Home => Transcript
    case Notes => NotesText
    case Quiz => QuizText
    case Flashcards => FlashText
  }

  /** The instruction a generator page puts in front of every window. */
  function PagePrompt(page: Page): string
    requires page != Home
  {
    match page
    case Notes => NotesPrompt
    case Quiz => QuizPrompt
    case Flashcards => FlashPrompt
  }

  /** What one run of a page puts on the screen, apart from fixed titles. */
  datatype View =
    | AwaitingUpload                        // Home, no file chosen
    | UnclearAudio                          // Home, the transcript came out empty
    | TranscriptReady(transcript: string)   // Home, success message and transcript
    | CouldNotProcess                       // Home, the engine raised
    | UploadFirst                           // a generator page with no transcript
    | ArtifactPane(transcriptPane: Option<string>, artifactPane: Option<string>)
      // a generator page: the transcript pane (Notes only) and the artifact pane when non-empty

  /** All four slots are present. */
  predicate Complete(slots: map<Slot, string>)
  {
    forall s: Slot :: s in slots
  }

  /** A map holding each of the four keys is complete. */
  lemma CompleteByCases(slots: map<Slot, string>)
    requires Transcript in slots && NotesText in slots && QuizText in slots && FlashText in slots
    ensures Complete(slots)
  {
    forall s: Slot ensures s in slots {
      match s
      case Transcript =>
      case NotesText =>
      case QuizText =>
      case FlashText =>
    }
  }

  function Lookup(slots: map<Slot, string>, s: Slot): string
  {
    if s in slots then slots[s] else ""
  }

  /** The store after the initialisation block: every absent slot is set to ""
      and every present one keeps its value. */
  function WithDefaults(slots: map<Slot, string>): (r: map<Slot, string>)
    ensures Complete(r)
    ensures forall s :: s in slots ==> r[s] == slots[s]
    ensures forall s :: s !in slots ==> r[s] == ""
  {
    var r := map[Transcript := Lookup(slots, Transcript),
                 NotesText := Lookup(slots, NotesText),
                 QuizText := Lookup(slots, QuizText),
                 FlashText := Lookup(slots, FlashText)];
    CompleteByCases(r);
    r
  }

  /** The Home page as a relation between the store before and after and what
      is shown. With no file chosen nothing happens. If the engine raises, the
      store is untouched and the "could not process" message shows. If it
      returns, the transcript slot is overwritten with the assembled text, the
      empty text giving the "unclear audio" message instead of the transcript. */
  predicate HomeSpec(before: map<Slot, string>, upload: Option<EngineResult>,
                     after: map<Slot, string>, view: View)
  {
    match upload
    case None => after == before && view == AwaitingUpload
    case Some(EngineError) => after == before && view == CouldNotProcess
    case Some(Segments(segments)) =>
      var t := Assemble(segments);
      && after == before[Transcript := t]
      && view == if t == "" then UnclearAudio else TranscriptReady(t)
  }

  /** The Notes, Quiz and Flashcards pages as a relation. Without a transcript
      only the warning shows and nothing changes. Otherwise pressing the page's
      button overwrites the page's own slot with the generated text; the
      artifact pane shows that slot when it is non-empty, and the Notes page
      also shows the transcript. */
  predicate ArtifactSpec(page: Page, pressed: bool, gen: Generator, before: map<Slot, string>,
                         after: map<Slot, string>, view: View)
    requires page != Home && Complete(before)
  {
    if before[Transcript] == "" then
      after == before && view == UploadFirst
    else
      && after == (if pressed
                   then before[PageSlot(page) := Generated(gen, PagePrompt(page), before[Transcript])]
                   else before)
      && view == ArtifactPane(if page == Notes then Some(before[Transcript]) else None,
                              if after[PageSlot(page)] != "" then Some(after[PageSlot(page)]) else None)
  }

  /** One script run as a relation: initialise the store, then the chosen page. */
  predicate RunSpec(page: Page, upload: Option<EngineResult>, pressed: bool, gen: Generator,
                    before: map<Slot, string>, after: map<Slot, string>, view: View)
  {
    var init := WithDefaults(before);
    if page == Home then HomeSpec(init, upload, after, view)
    else ArtifactSpec(page, pressed, gen, init, after, view)
  }

  /** A run changes at most the slot of its page, and every slot stays present. */
  lemma RunFrame(page: Page, upload: Option<EngineResult>, pressed: bool, gen: Generator,
                 before: map<Slot, string>, after: map<Slot, string>, view: View)
    requires RunSpec(page, upload, pressed, gen, before, after, view)
    ensures Complete(after)
    ensures forall s :: s != PageSlot(page) ==> after[s] == WithDefaults(before)[s]
  {
    var init := WithDefaults(before);
    if page == Home {
      match upload
      case None =>
        assert after == init;
      case Some(EngineError) =>
        assert after == init;
      case Some(Segments(segments)) =>
        assert after == init[Transcript := Assemble(segments)];
    } else if init[Transcript] != "" && pressed {
      assert after == init[PageSlot(page) := Generated(gen, PagePrompt(page), init[Transcript])];
    } else {
      assert after == init;
    }
  }

  /** While the transcript is empty, the Notes, Quiz and Flashcards pages show
      the warning and change nothing beyond initialisation. */
  lemma LockedWithoutTranscript(page: Page, upload: Option<EngineResult>, pressed: bool, gen: Generator,
                                before: map<Slot, string>, after: map<Slot, string>, view: View)
    requires page != Home && Lookup(before, Transcript) == ""
    requires RunSpec(page, upload, pressed, gen, before, after, view)
    ensures after == WithDefaults(before) && view == UploadFirst
  {
  }

  /** A failed transcription keeps the previous transcript, and so does a run
      of the Home page with no file chosen. */
  lemma FailedUploadKeepsTranscript(upload: Option<EngineResult>, before: map<Slot, string>,
                                    after: map<Slot, string>, view: View)
    requires upload == None || upload == Some(EngineError)
    requires HomeSpec(before, upload, after, view)
    ensures after == before
    ensures view == if upload == None then AwaitingUpload else CouldNotProcess
  {
  }

  /** After a successful transcription the generator pages are unlocked exactly
      when some segment text holds a non-whitespace character. */
  lemma UploadUnlocks(segments: seq<Segment>, before: map<Slot, string>,
                      after: map<Slot, string>, view: View)
    requires HomeSpec(before, Some(Segments(segments)), after, view)
    ensures Transcript in after
    ensures after[Transcript] != "" <==> exists i :: 0 <= i < |segments| && !AllSpace(segments[i].text)
    ensures view == UnclearAudio <==> after[Transcript] == ""
  {
    AssembleEmptyIff(segments);
  }

  /** One line of the initialisation block: set `key` to "" if it is absent. */
  function Defaulted(slots: map<Slot, string>, key: Slot): map<Slot, string>
  {
    if key in slots then slots else slots[key := ""]
  }

  /** The block's four lines, in the source's order, give WithDefaults. */
  lemma InitOrder(slots: map<Slot, string>)
    ensures Defaulted(Defaulted(Defaulted(Defaulted(slots, Transcript), QuizText), NotesText), FlashText)
            == WithDefaults(slots)
  {
    var r := Defaulted(Defaulted(Defaulted(Defaulted(slots, Transcript), QuizText), NotesText), FlashText);
    CompleteByCases(r);
    assert r.Keys == WithDefaults(slots).Keys;
  }

  /** Initialisation is idempotent: a second script run finds every slot set
      and changes nothing. */
  lemma WithDefaultsIdempotent(slots: map<Slot, string>)
    ensures WithDefaults(WithDefaults(slots)) == WithDefaults(slots)
  {
  }

  class SessionState {
    /** `st.session_state`, restricted to the application's four keys. */
    var slots: map<Slot, string>

    /** A new browser session: nothing stored yet. */
    constructor ()
      ensures slots == map[]
    {
      slots := map[];
    }

    ghost predicate Valid()
      reads this
    {
      Complete(slots)
    }

    /** `if key not in st.session_state: st.session_state.key = ""` */
    method SetDefault(key: Slot)
      modifies this
      ensures slots == Defaulted(old(slots), key)
    {
      if key !in slots {
        slots := slots[key := ""];
      }
    }

    /** The session-state block at the top of every run: each slot that is
        absent is set to "", in the source's order. */
    method InitDefaults()
      modifies this
      ensures Valid()
      ensures slots == WithDefaults(old(slots))
    {
      InitOrder(slots);
      SetDefault(Transcript);
      SetDefault(QuizText);
      SetDefault(NotesText);
      SetDefault(FlashText);
    }

    /** The Home page; see HomeSpec. */
    method HomePage(upload: Option<EngineResult>) returns (view: View)
      requires Valid()
      modifies this
      ensures Valid()
      ensures HomeSpec(old(slots), upload, slots, view)
    {
      match upload
      case None =>
        view := AwaitingUpload;
      case Some(result) =>
        match result
        case EngineError =>
          view := CouldNotProcess;
        case Segments(segments) =>
          var text := Join(Texts(segments), " ");
          slots := slots[Transcript := Strip(text)];
          if slots[Transcript] == "" {
            view := UnclearAudio;
          } else {
            view := TranscriptReady(slots[Transcript]);
          }
    }

    /** The Notes, Quiz and Flashcards pages; see ArtifactSpec. */
    method ArtifactPage(page: Page, pressed: bool, gen: Generator) returns (view: View)
      requires Valid() && page != Home
      modifies this
      ensures Valid()
      ensures ArtifactSpec(page, pressed, gen, old(slots), slots, view)
    {
      if slots[Transcript] == "" {
        view := UploadFirst;
        return;
      }
      if pressed {
        var out := GenerateWithPrompt(gen, PagePrompt(page), slots[Transcript]);
        slots := slots[PageSlot(page) := out];
      }
      var shown := slots[PageSlot(page)];
      view := ArtifactPane(if page == Notes then Some(slots[Transcript]) else None,
                           if shown != "" then Some(shown) else None);
    }

    /** One run of the script: initialise the store, then run the chosen page. */
    method Run(page: Page, upload: Option<EngineResult>, pressed: bool, gen: Generator) returns (view: View)
      modifies this
      ensures Valid()
      ensures RunSpec(page, upload, pressed, gen, old(slots), slots, view)
    {
      InitDefaults();
      if page == Home {
        view := HomePage(upload);
      } else {
        view := ArtifactPage(page, pressed, gen);
      }
    }
  }

  /** A segment of two spaces assembles to the empty transcript. */
  lemma BlankAudio()
    ensures Assemble([Segment("  ")]) == ""
  {
    AssembleEmptyIff([Segment("  ")]);
    assert AllSpace("  ");
  }

  /** A segment with the engine's usual leading space loses it. */
  lemma ClearAudio()
    ensures Assemble([Segment(" Hello class.")]) == "Hello class."
  {
    var raw, c := " Hello class.", "Hello class.";
    assert Texts([Segment(raw)]) == [raw];
    assert raw[1..] == c;
    assert IsSpace(raw[0]) && !IsSpace(c[0]) && !IsSpace(c[|c| - 1]);
    assert StripLeading(c) == c;
  }

  /** A fresh session uploads audio that transcribes to whitespace, then opens
      the Notes page and presses its button. */
  method BlankUploadStep(session: SessionState, gen: Generator) returns (upload: View, notes: View)
    requires session.slots == map[]
    modifies session
    ensures upload == UnclearAudio && notes == UploadFirst
    ensures session.slots == WithDefaults(map[])
  {
    BlankAudio();
    upload := session.Run(Home, Some(Segments([Segment("  ")])), false, gen);
    assert session.slots == WithDefaults(map[]);
    notes := session.Run(Notes, None, true, gen);
  }

  /** A clear upload stores its transcript. */
  method ClearUploadStep(session: SessionState, gen: Generator)
    requires session.slots == WithDefaults(map[])
    modifies session
    ensures session.Valid() && session.slots[Transcript] == "Hello class."
  {
    ClearAudio();
    var _ := session.Run(Home, Some(Segments([Segment(" Hello class.")])), false, gen);
  }

  /** Pressing "Generate Notes" on a one-window transcript stores the
      generator's answer for that window. */
  method NotesStep(session: SessionState, gen: Generator)
    requires session.Valid() && session.slots[Transcript] == "Hello class."
    modifies session
    ensures session.Valid() && session.slots[NotesText] == gen(NotesPrompt + "\n\n" + "Hello class.")
  {
    GeneratedSingleWindow(gen, NotesPrompt, "Hello class.");
    var _ := session.Run(Notes, None, true, gen);
  }

  /** An upload the engine fails on keeps the whole store. */
  method FailedUploadStep(session: SessionState, gen: Generator) returns (view: View)
    requires session.Valid()
    modifies session
    ensures view == CouldNotProcess && session.slots == old(session.slots)
  {
    view := session.Run(Home, Some(EngineError), false, gen);
  }

  /** A session walked through the pages: an upload that transcribes to
      whitespace leaves the Notes page locked; a clear upload unlocks it, and
      the notes are the generator's answer for the single window; a later
      upload the engine fails on keeps the earlier transcript and notes. */
  method Walkthrough(gen: Generator) returns (first: View, second: View, third: View, notes: string)
    ensures first == UnclearAudio && second == UploadFirst
    ensures third == CouldNotProcess
    ensures notes == gen(NotesPrompt + "\n\n" + "Hello class.")
  {
    var session := new SessionState();
    first, second := BlankUploadStep(session, gen);
    ClearUploadStep(session, gen);
    NotesStep(session, gen);
    third := FailedUploadStep(session, gen);
    notes := session.slots[NotesText];
  }
}
