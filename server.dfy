/** The request handlers of apps/backend/server.js: résumé upload with its
    filename parsing and type whitelist, the in-memory session store, the
    text turn (/tts) with its bookkeeping and fallbacks, and the speech turn
    (/sts). The language model, the document extractors, the summarizer and
    the canned-message helpers are outcomes passed in as parameters. */
module Server {
  import opened Wrappers
  import opened Messages
  import LipSync

  // ---------------------------------------------------------------------
  // Filename parsing (server.js:43-44)

  /** `name.split(sep).pop()`: the text after the last `sep`, or the whole
      name when it has none. */
  function AfterLast(name: string, sep: char): (r: string)
    ensures sep !in r
    ensures |r| <= |name| && r == name[|name| - |r|..]
    ensures |r| < |name| ==> name[|name| - |r| - 1] == sep
    ensures sep !in name ==> r == name
  {
    if name == [] then []
    else if name[|name| - 1] == sep then []
    else AfterLast(name[..|name| - 1], sep) + [name[|name| - 1]]
  }

  /** `name.split(sep)[0]`: the text before the first `sep`, or the whole
      name when it has none. */
  function BeforeFirst(name: string, sep: char): (r: string)
    ensures sep !in r
    ensures |r| <= |name| && r == name[..|r|]
    ensures |r| < |name| ==> name[|r|] == sep
    ensures sep !in name ==> r == name
  {
    if name == [] then []
    else if name[0] == sep then []
    else [name[0]] + BeforeFirst(name[1..], sep)
  }

  /** `originalname.split(".").pop()`: the dot-free tail of the name, which
      follows its last dot, or the whole name when it has no dot. */
  function FileType(originalname: string): (t: string)
    ensures '.' !in t && |t| <= |originalname| && t == originalname[|originalname| - |t|..]
    ensures '.' !in originalname <==> t == originalname
    ensures '.' in originalname ==> |t| < |originalname| && originalname[|originalname| - |t| - 1] == '.'
  {
    AfterLast(originalname, '.')
  }

  /** `originalname.split("_")[0]`: the underscore-free head of the name, which
      precedes its first underscore, or the whole name when it has none. */
  function UserName(originalname: string): (u: string)
    ensures '_' !in u && |u| <= |originalname| && u == originalname[..|u|]
    ensures '_' !in originalname <==> u == originalname
    ensures '_' in originalname ==> |u| < |originalname| && originalname[|u|] == '_'
  {
    BeforeFirst(originalname, '_')
  }

  /** The two text extractors: pdf-parse for pdf, mammoth for Word files. */
  datatype DocumentKind = Pdf | Word

  /** The type whitelist, compared exactly (case-sensitive). */
  function DocumentKindOf(fileType: string): (k: Option<DocumentKind>)
    ensures k.None? <==> fileType !in {"pdf", "docx", "doc"}
    ensures k == Some(Pdf) <==> fileType == "pdf"
  {
    if fileType == "pdf" then Some(Pdf)
    else if fileType == "docx" || fileType == "doc" then Some(Word)
    else None
  }

  /** The file type of `base.ext` is `ext` whenever `ext` has no dot,
      whatever dots `base` holds. */
  lemma {:induction false} FileTypeOfName(base: string, ext: string)
    requires '.' !in ext
    ensures FileType(base + "." + ext) == ext
  {
    var n := base + "." + ext;
    if ext != [] {
      var k := |ext| - 1;
      assert n[..|n| - 1] == base + "." + ext[..k];
      FileTypeOfName(base, ext[..k]);
      assert ext == ext[..k] + [ext[k]];
    }
  }

  /** The user name of `name_rest` is `name` whenever `name` has no
      underscore, whatever underscores `rest` holds. */
  lemma {:induction false} UserNameOfName(name: string, rest: string)
    requires '_' !in name
    ensures UserName(name + "_" + rest) == name
  {
    var n := name + "_" + rest;
    if name != [] {
      assert n[1..] == name[1..] + "_" + rest;
      UserNameOfName(name[1..], rest);
      assert name == [name[0]] + name[1..];
    }
  }

  /** Only the exact lower-case extensions pass: an upper-case one does not,
      a double extension is judged by its last part, and a file literally
      named `pdf` is accepted as a PDF. */
  lemma WhitelistIsExact()
    ensures DocumentKindOf(FileType("jane_cv.PDF")).None?
    ensures DocumentKindOf(FileType("jane_cv.tar.pdf")) == Some(Pdf)
    ensures DocumentKindOf(FileType("pdf")) == Some(Pdf)
  {
    UpperCaseRejected();
    DoubleExtensionJudgedByLast();
    assert '.' !in "pdf";
  }

  lemma UpperCaseRejected()
    ensures FileType("jane_cv.PDF") == "PDF"
  {
    assert "jane_cv" + "." + "PDF" == "jane_cv.PDF";
    FileTypeOfName("jane_cv", "PDF");
  }

  lemma DoubleExtensionJudgedByLast()
    ensures FileType("jane_cv.tar.pdf") == "pdf"
  {
    assert "jane_cv.tar" + "." + "pdf" == "jane_cv.tar.pdf";
    FileTypeOfName("jane_cv.tar", "pdf");
  }

  /** Only the first underscore counts. */
  lemma UserNameIsFirstPart()
    ensures UserName("jane_doe_cv.docx") == "jane"
  {
    assert "jane" + "_" + "doe_cv.docx" == "jane_doe_cv.docx";
    assert '_' !in "jane";
    UserNameOfName("jane", "doe_cv.docx");
  }

  // ---------------------------------------------------------------------
  // Sessions

  /** One entry of a session's turn log. */
  datatype Turn = Turn(role: string, content: string)

  datatype Session = Session(resumeSummary: string, firstGreeted: bool, sessionContext: seq<Turn>)

  const NoSummary: string := "No resume summary available."

  /** A session as an upload or a first /tts creates it. */
  function NewSession(resumeSummary: string): Session {
    Session(resumeSummary, false, [])
  }

  /** What the planner call did: threw, returned a value without
      `messages`, or returned a plan. */
  datatype PlannerOutcome =
    | PlannerThrew
    | PlannerReturnedNothing
    | PlannerReturned(messages: seq<MessagePlan>)

  /** The total length of the plan's texts. */
  function TextLength(ms: seq<MessagePlan>): nat {
    if ms == [] then 0 else |ms[0].text| + TextLength(ms[1..])
  }

  /** Where the k-th text starts in the joined string: after the k texts
      before it and one separator after each of them. */
  function Start(ms: seq<MessagePlan>, k: nat): nat
    requires k <= |ms|
  {
    TextLength(ms[..k]) + k
  }

  /** Dropping the first message moves every later start back by the first
      text and its separator. */
  lemma StartOfTail(ms: seq<MessagePlan>)
    requires ms != []
    ensures forall k :: 1 <= k <= |ms| ==> Start(ms, k) == |ms[0].text| + 1 + Start(ms[1..], k - 1)
  {
    forall k | 1 <= k <= |ms| ensures Start(ms, k) == |ms[0].text| + 1 + Start(ms[1..], k - 1) {
      assert ms[..k][1..] == ms[1..][..k - 1];
    }
  }

  /** `messages.map((m) => m.text).join(" ")`: every text sits at its own
      offset, a single space follows each text but the last, and nothing
      else is added. */
  function JoinTexts(ms: seq<MessagePlan>): (r: string)
    ensures ms == [] ==> r == ""
    ensures ms != [] ==> |r| == TextLength(ms) + |ms| - 1
    ensures forall k :: 0 <= k < |ms| ==>
      Start(ms, k) + |ms[k].text| <= |r| && r[Start(ms, k)..Start(ms, k) + |ms[k].text|] == ms[k].text
    ensures forall k :: 0 < k < |ms| ==> r[Start(ms, k) - 1] == ' '
  {
    if ms == [] then ""
    else if |ms| == 1 then
      assert ms[..0] == [];
      ms[0].text
    else
      StartOfTail(ms);
      assert ms[..0] == [];
      ms[0].text + " " + JoinTexts(ms[1..])
  }

  /** The bookkeeping of the /tts try block. When the planner returns a plan
      the greeting flag is set and exactly two turns are appended, the
      user's then the assistant's. When it returns no `messages`, reading
      them throws after the flag is set and the user turn is pushed. When
      the call itself throws, nothing changes. */
  function RecordTurn(s: Session, message: string, outcome: PlannerOutcome): (r: Session)
    ensures r.resumeSummary == s.resumeSummary
    ensures outcome.PlannerThrew? ==> r == s
    ensures !outcome.PlannerThrew? ==> r.firstGreeted
    ensures outcome.PlannerReturned? ==>
      && |r.sessionContext| == |s.sessionContext| + 2
      && r.sessionContext[..|s.sessionContext|] == s.sessionContext
      && r.sessionContext[|s.sessionContext|] == Turn("user", message)
      && r.sessionContext[|s.sessionContext| + 1] == Turn("ai", JoinTexts(outcome.messages))
    ensures outcome.PlannerReturnedNothing? ==>
      r.sessionContext == s.sessionContext + [Turn("user", message)]
  {
    match outcome
    case PlannerThrew => s
    case PlannerReturnedNothing =>
      s.(firstGreeted := true, sessionContext := s.sessionContext + [Turn("user", message)])
    case PlannerReturned(ms) =>
      s.(firstGreeted := true,
         sessionContext := s.sessionContext + [Turn("user", message), Turn("ai", JoinTexts(ms))])
  }

  /** The log reads user, assistant, user, assistant, ... */
  ghost predicate Alternating(log: seq<Turn>) {
    && |log| % 2 == 0
    && forall i :: 0 <= i < |log| ==> log[i].role == (if i % 2 == 0 then "user" else "ai")
  }

  /** A turn keeps the log alternating unless the planner returned no
      `messages`; that path leaves a user turn without its reply. */
  lemma RecordTurnAlternation(s: Session, message: string, outcome: PlannerOutcome)
    requires Alternating(s.sessionContext)
    ensures Alternating(RecordTurn(s, message, outcome).sessionContext) <==> !outcome.PlannerReturnedNothing?
  {
    var log, log' := s.sessionContext, RecordTurn(s, message, outcome).sessionContext;
    if outcome.PlannerReturned? {
      forall i | 0 <= i < |log'| ensures log'[i].role == (if i % 2 == 0 then "user" else "ai") {
        if i < |log| {
          assert log'[i] == log[i];
        }
      }
    }
  }

  /** The plan handed to lipSync: the planner's, or the default response
      when the planner threw or returned no `messages`. */
  function PlanFor(outcome: PlannerOutcome, defaultResponse: seq<MessagePlan>): (plan: seq<MessagePlan>)
    ensures outcome.PlannerReturned? ==> plan == outcome.messages
    ensures !outcome.PlannerReturned? ==> plan == defaultResponse
  {
    if outcome.PlannerReturned? then outcome.messages else defaultResponse
  }

  /** The session /tts works on: the stored one, or a new one without a
      résumé summary when the user is unknown. */
  function SessionOrNew(sessions: map<string, Session>, userName: string): (s: Session)
    ensures userName in sessions ==> s == sessions[userName]
    ensures userName !in sessions ==> s == NewSession(NoSummary)
  {
    if userName in sessions then sessions[userName] else NewSession(NoSummary)
  }

  /** Response bodies of /upload-resume. */
  datatype UploadResponse =
    | Uploaded(userName: string, resumeSummary: string)
    | UploadFailed(status: nat, error: string)

  /** The in-memory map from user name to session. */
  class SessionStore {
    var sessions: map<string, Session>

    constructor ()
      ensures sessions == map[]
    {
      sessions := map[];
    }

    /** POST /upload-resume. `file` is the uploaded file's original name
        (None when no file came), `extract` the outcome of the extractor
        for each kind (None when it throws), `summarize` the outcome of the
        summarizer on the extracted text. */
    method UploadResume(file: Option<string>, extract: DocumentKind -> Option<string>,
                        summarize: string -> Option<string>) returns (r: UploadResponse)
      modifies this
      ensures file.None? ==> r == UploadFailed(400, "No resume file uploaded.")
      ensures file.Some? && DocumentKindOf(FileType(file.value)).None? ==>
        r == UploadFailed(400, "Unsupported file type.")
      ensures file.Some? && DocumentKindOf(FileType(file.value)).Some? ==>
        var text := extract(DocumentKindOf(FileType(file.value)).value);
        if text.Some? && summarize(text.value).Some?
        then r == Uploaded(UserName(file.value), summarize(text.value).value)
        else r == UploadFailed(500, "Failed to process resume.")
      ensures r.Uploaded? ==> sessions == old(sessions)[r.userName := NewSession(r.resumeSummary)]
      ensures r.UploadFailed? ==> sessions == old(sessions)
    {
      if file.None? {
        return UploadFailed(400, "No resume file uploaded.");
      }
      var originalname := file.value;
      var fileType := FileType(originalname);
      var userName := UserName(originalname);
      var kind := DocumentKindOf(fileType);
      if kind.None? {
        return UploadFailed(400, "Unsupported file type.");
      }
      var rawText := extract(kind.value);
      if rawText.None? {
        return UploadFailed(500, "Failed to process resume.");
      }
      var resumeSummary := summarize(rawText.value);
      if resumeSummary.None? {
        return UploadFailed(500, "Failed to process resume.");
      }
      sessions := sessions[userName := NewSession(resumeSummary.value)];
      r := Uploaded(userName, resumeSummary.value);
    }

    /** POST /tts. `defaults` is what sendDefaultMessages returned for the
        message (None when falsy), `planner` what the planner call did,
        `defaultResponse` the canned plan, `o` the speech pipeline's
        collaborators. Returns the `messages` of the response. */
    method Tts(userName: string, message: string, defaults: Option<seq<AssembledMessage>>,
               planner: PlannerOutcome, defaultResponse: seq<MessagePlan>, o: LipSync.Oracles)
      returns (sent: seq<AssembledMessage>)
      modifies this
      ensures defaults.Some? ==> sent == defaults.value
      ensures defaults.Some? ==> sessions == old(sessions)[userName := SessionOrNew(old(sessions), userName)]
      ensures defaults.None? ==> sent == LipSync.LipSync(PlanFor(planner, defaultResponse), o)
      ensures defaults.None? ==>
        sessions == old(sessions)[userName := RecordTurn(SessionOrNew(old(sessions), userName), message, planner)]
    {
      var userSession := SessionFor(userName);
      if defaults.Some? {
        sent := defaults.value;
      } else {
        sessions := sessions[userName := RecordTurn(userSession, message, planner)];
        var plan := PlanFor(planner, defaultResponse);
        sent := LipSync.LipSync(plan, o);
      }
    }

    /** The session lookup at the start of /tts: an unknown user gets a new
        session without a résumé summary; a known user's session is kept. */
    method SessionFor(userName: string) returns (s: Session)
      modifies this
      ensures s == SessionOrNew(old(sessions), userName)
      ensures sessions == old(sessions)[userName := s]
    {
      if userName !in sessions {
        sessions := sessions[userName := NewSession(NoSummary)];
      }
      s := sessions[userName];
    }
  }

  /** POST /sts: the planner sees only the transcript and the client's
      history; the session store is neither read nor written. A planner that
      throws or returns no `messages` gives the default response. */
  function Sts(planner: PlannerOutcome, defaultResponse: seq<MessagePlan>, o: LipSync.Oracles): (sent: seq<AssembledMessage>)
    ensures planner.PlannerReturned? ==> sent == LipSync.LipSync(planner.messages, o)
    ensures !planner.PlannerReturned? ==> sent == LipSync.LipSync(defaultResponse, o)
  {
    LipSync.LipSync(PlanFor(planner, defaultResponse), o)
  }
}
