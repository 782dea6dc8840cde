/** The transcript endpoints: a saved transcript, a live one, and a live one whose
    older part is sealed on disk. */
module TranscriptService {
  import opened Wrappers
  import opened TranscriptModel
  import opened TranscriptIndex
  import opened TranscriptPage
  import opened TranscriptReader
  import opened TranscriptEntries
  import S = SealedHistory

  const INPUT_BYTE_LIMIT := 16 * 1024 * 1024
  const MAX_LIMIT := 200

  datatype ReadError = InvalidLimit | OutsideSession

  /** What loading a saved transcript comes to. A file that is missing, malformed or cannot
      be read is `NotLoaded`; one that leads out of the session's directory is an error. */
  datatype Load = Loaded(messages: seq<Message>) | TooLarge | NotLoaded | Escapes

  /** The sealed prefix of a live transcript: its records, how many non-system
      positions they cover, and how many bytes they occupy. */
  datatype ArchiveSource = ArchiveSource(archive: S.Archive<Message>, archivedCount: nat, prefixEndByte: nat)

  function IsSystem(m: LiveMessage): bool {
    m.role.System?
  }

  /** What is kept of a live list is what is not a system message. */
  lemma {:induction false} SystemLeftOut(messages: seq<LiveMessage>, m: LiveMessage)
    ensures m in S.NonSystem(messages, IsSystem) <==> m in messages && m.role != System
  {
    if |messages| > 0 { SystemLeftOut(messages[1..], m); }
  }

  /** What a read of a saved transcript answers, by the reference projection: the caller's
      authority is asked before the file is loaded and again after. */
  function SavedAnswer(r: Rules, authorized: bool, load: Load, stillAuthorized: bool, before: Option<string>, limit: nat): Result<Response, ReadError> {
    if !authorized then Ok(Unavailable(NoSavedTranscript))
    else
      match load
      case Escapes => Err(OutsideSession)
      case TooLarge => Ok(Unavailable(ExceedsViewerLimit))
      case NotLoaded => Ok(Unavailable(NoSavedTranscript))
      case Loaded(messages) =>
        if !stillAuthorized then Ok(Unavailable(NoSavedTranscript))
        else Ok(ReadProjected(r, ProjectEntries(r, messages), before, limit))
  }

  method ReadSaved(r: Rules, authorized: bool, load: Load, stillAuthorized: bool, before: Option<string>, limit: int)
    returns (res: Result<Response, ReadError>)
    ensures res == if 1 <= limit <= MAX_LIMIT then SavedAnswer(r, authorized, load, stillAuthorized, before, limit) else Err(InvalidLimit)
    ensures res.Ok? && load.Loaded? ==> PageShows(r, load.messages, res.value)
    ensures !authorized && 1 <= limit <= MAX_LIMIT ==> res == Ok(Unavailable(NoSavedTranscript))
  {
    if limit < 1 || limit > MAX_LIMIT { return Err(InvalidLimit); }
    if !authorized { return Ok(Unavailable(NoSavedTranscript)); }
    if load.Escapes? { return Err(OutsideSession); }
    if load.TooLarge? { return Ok(Unavailable(ExceedsViewerLimit)); }
    if load.NotLoaded? || !stillAuthorized { return Ok(Unavailable(NoSavedTranscript)); }
    var index := DescribeSavedMessages(load.messages);
    var materializer := new EntryMaterializer(r, index, Saved(load.messages));
    var page := ReadSelectedEntries(materializer, before, limit);
    res := Ok(page);
  }

  /** The records a sealed live transcript is read from: everything archived, then
      the dumped live messages beyond the archived positions. */
  function CombinedRecords(messages: seq<LiveMessage>, source: ArchiveSource): seq<Message> {
    source.archive.records + DumpAll(S.Drop(S.NonSystem(messages, IsSystem), source.archivedCount))
  }

  /** What a live transcript read answers, by the reference projection. A sealed
      prefix that is too large or cannot be verified is never partly shown. */
  function LiveAnswer(r: Rules, messages: seq<LiveMessage>, source: Option<ArchiveSource>, before: Option<string>, limit: nat): Response {
    match source
    case None => ReadProjected(r, ProjectEntries(r, DumpAll(S.NonSystem(messages, IsSystem))), before, limit)
    case Some(s) =>
      if s.prefixEndByte > INPUT_BYTE_LIMIT then Unavailable(ExceedsViewerLimit)
      else if !s.archive.intact then Unavailable(Changed)
      else ReadProjected(r, ProjectEntries(r, CombinedRecords(messages, s)), before, limit)
  }

  method ReadLive(r: Rules, messages: seq<LiveMessage>, source: Option<ArchiveSource>, before: Option<string>, limit: int)
    returns (res: Result<Response, ReadError>)
    ensures res == if 1 <= limit <= MAX_LIMIT then Ok(LiveAnswer(r, messages, source, before, limit)) else Err(InvalidLimit)
    ensures res.Ok? && source.None? ==> PageShows(r, DumpAll(S.NonSystem(messages, IsSystem)), res.value)
  {
    if limit < 1 || limit > MAX_LIMIT {
      return Err(InvalidLimit);
    }
    var page;
    if source.None? {
      var kept := S.NonSystem(messages, IsSystem);
      var index := DescribeLiveMessages(kept);
      var materializer := new EntryMaterializer(r, index, Live(kept));
      page := ReadSelectedEntries(materializer, before, limit);
    } else {
      page := ReadArchivedLive(r, messages, source.value, before, limit);
    }
    res := Ok(page);
  }

  method ReadArchivedLive(r: Rules, messages: seq<LiveMessage>, source: ArchiveSource, before: Option<string>, limit: nat)
    returns (page: Response)
    ensures page == LiveAnswer(r, messages, Some(source), before, limit)
    ensures if source.prefixEndByte > INPUT_BYTE_LIMIT then page == Unavailable(ExceedsViewerLimit)
            else if !source.archive.intact then page == Unavailable(Changed)
            else PageShows(r, CombinedRecords(messages, source), page)
  {
    if source.prefixEndByte > INPUT_BYTE_LIMIT {
      return Unavailable(ExceedsViewerLimit);
    }
    if !source.archive.intact {
      return Unavailable(Changed);
    }
    var tail := S.LiveTailAfterArchivedPrefix(messages, source.archivedCount, IsSystem);
    var combined := source.archive.records + DumpAll(S.NonSystem(tail, IsSystem));
    S.TailDropsSealed(messages, source.archivedCount, IsSystem);
    var index := DescribeSavedMessages(combined);
    var materializer := new EntryMaterializer(r, index, Saved(combined));
    page := ReadSelectedEntries(materializer, before, limit);
  }

  /** A live transcript and the same transcript once saved give the same answers,
      so cursors stay good across saving. */
  lemma LiveAgreesWithSaved(r: Rules, messages: seq<LiveMessage>, n: nat, prefixEndByte: nat, before: Option<string>, limit: nat)
    requires n <= |S.NonSystem(messages, IsSystem)| && prefixEndByte <= INPUT_BYTE_LIMIT
    ensures var dumped := DumpAll(S.NonSystem(messages, IsSystem));
            LiveAnswer(r, messages, Some(ArchiveSource(S.Archive(dumped[..n], true), n, prefixEndByte)), before, limit)
            == LiveAnswer(r, messages, None, before, limit)
  {
    DumpedInTwo(S.NonSystem(messages, IsSystem), n);
  }

  lemma DumpedInTwo(ms: seq<LiveMessage>, n: nat)
    requires n <= |ms|
    ensures DumpAll(ms)[..n] + DumpAll(ms[n..]) == DumpAll(ms)
  {
  }

  /** The two readers of one sealed conversation. Where the archive is intact and holds the
      records its descriptor counts, the messages the generator shows, system messages
      aside, are the records the transcript is read from. */
  lemma ReadersAgree(messages: seq<LiveMessage>, hydrated: seq<LiveMessage>, source: ArchiveSource)
    requires source.archive.records == DumpAll(hydrated) && source.archivedCount == |hydrated|
    requires forall m :: m in hydrated ==> !IsSystem(m)
    ensures DumpAll(S.NonSystem(S.SlotForSlot(messages, S.Take(hydrated, source.archivedCount), IsSystem), IsSystem))
         == CombinedRecords(messages, source)
  {
    assert S.Take(hydrated, source.archivedCount) == hydrated;
    S.GeneratorShows(messages, S.Archive(hydrated, true), |hydrated|, IsSystem);
    var tail := S.Drop(S.NonSystem(messages, IsSystem), |hydrated|);
    assert DumpAll(hydrated + tail) == DumpAll(hydrated) + DumpAll(tail);
  }

  lemma BrokenIsRefused(r: Rules, messages: seq<LiveMessage>, source: ArchiveSource, before: Option<string>, limit: nat)
    requires !source.archive.intact
    ensures LiveAnswer(r, messages, Some(source), before, limit).Unavailable?
  {
  }

  /** Where the archive breaks after some records they part: the generator shows those and
      goes on live after as many, the transcript reader refuses to show anything. */
  lemma BrokenReadersPart(r: Rules, messages: seq<LiveMessage>, hydrated: seq<LiveMessage>, source: ArchiveSource, before: Option<string>, limit: nat)
    requires source.archive.records == DumpAll(hydrated) && !source.archive.intact && |hydrated| <= source.archivedCount
    requires forall m :: m in hydrated ==> !IsSystem(m)
    ensures S.NonSystem(S.SlotForSlot(messages, S.Take(hydrated, source.archivedCount), IsSystem), IsSystem)
         == hydrated + S.Drop(S.NonSystem(messages, IsSystem), |hydrated|)
    ensures LiveAnswer(r, messages, Some(source), before, limit).Unavailable?
  {
    BrokenIsRefused(r, messages, source, before, limit);
    assert S.Take(hydrated, source.archivedCount) == hydrated;
    S.GeneratorShows(messages, S.Archive(hydrated, false), source.archivedCount, IsSystem);
  }
}
