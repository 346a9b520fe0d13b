/** The active print's thumbnail: a bounded retry ladder, generations, and where a path came from.

    A load asks Moonraker for metadata and then for an image; its callbacks come back later, in
    any order, each carrying the generation of its load. Failures climb a ladder of retries; the
    gcode's own header is the last resort. Only a completed fetch stops recovery. Every callback,
    timer and notification runs on the main thread, one at a time. */
module MediaRetry {
  import opened Wrappers

  datatype Origin = NoOrigin | PreSet | Fetched

  const PLACEHOLDER := "A:assets/images/benchy_thumbnail_white.png"
  const MAX_ATTEMPTS := 10
  const MAX_EMPTY_RETRIES := 2

  /** A load's file, and whether it was to skip the image because one was already shown for it. */
  datatype LoadRecord = LoadRecord(file: string, skip: bool)
  datatype Shown = Shown(file: string, path: string)
  datatype Retry = Retry(file: string, generation: nat)

  /** `attempts` counts the metadata loads started since the budget was last refunded. */
  datatype Ladder = Ladder(retries: nat, armed: Option<Retry>, attempts: nat)

  /** Header extraction: the file whose extraction found nothing, the one under way, and the files
      whose headers were asked for. */
  datatype Serve = Serve(failedFor: string, pendingFor: string, downloads: seq<string>)

  /** The generation is the number of loads and extraction contexts made so far. */
  datatype Media = Media(
    current: string, loadedFor: string, origin: Origin, shown: Shown, ladder: Ladder, serve: Serve,
    loads: seq<LoadRecord>, connected: bool, layers: bool)

  datatype Event =
    | Filename(effective: string)
    | SetPath(file: string, path: string)
    | ClearSource
    | ReleaseIdentity
    | Confirmed
    | Retrigger
    | Moved(destination: string)
    | TimerFires
    | MetadataOk(generation: nat, layerCount: bool, thumbnails: bool)
    | MetadataError(generation: nat)
    | HeaderOk(generation: nat)
    | HeaderError(generation: nat)
    | ImageOk(generation: nat, image: string)
    | ImageError(generation: nat)
    | ExtractError(generation: nat, permanent: bool)
    | Connect(on: bool)
    | LayersReset

  // ---------------------------------------------------------------- pieces

  function Generation(s: Media): nat { |s.loads| }

  /** The callback's load is the newest. */
  predicate Valid(s: Media, g: nat) { 0 < g == Generation(s) }

  function FileOf(s: Media, g: nat): string { if 0 < g <= |s.loads| then s.loads[g - 1].file else "" }

  predicate HasThumbnail(s: Media, file: string) {
    s.shown.path != "" && s.shown.path != PLACEHOLDER && file != "" && s.shown.file == file
  }

  function Cancel(l: Ladder): Ladder { l.(armed := None) }

  const REFUNDED: Ladder := Ladder(0, None, 0)

  function CleanSlate(v: Serve): Serve { v.(failedFor := "", pendingFor := "") }

  function Load(s: Media, file: string): Media {
    var skip := HasThumbnail(s, file);
    var o := s.(origin := if skip && s.origin != Fetched then PreSet else s.origin);
    if !s.connected then o
    else o.(serve := s.serve.(pendingFor := ""), loads := s.loads + [LoadRecord(file, skip)],
            ladder := s.ladder.(attempts := s.ladder.attempts + 1))
  }

  function SelfServe(s: Media, file: string): Media {
    if !s.connected || s.origin == Fetched || s.serve.pendingFor == file || s.serve.failedFor == file then s
    else s.(serve := s.serve.(pendingFor := file, downloads := s.serve.downloads + [file]))
  }

  function Schedule(s: Media, file: string, maxRetries: nat): Media {
    if file == "" || file != s.current || s.ladder.armed.Some? then s
    else if s.ladder.retries >= maxRetries then
      if s.serve.pendingFor == file then s
      else SelfServe(s.(loads := s.loads + [LoadRecord(file, false)]), file)
    else
      s.(ladder := s.ladder.(retries := s.ladder.retries + 1, armed := Some(Retry(file, Generation(s)))))
  }

  function Reload(s: Media): Media { Load(s.(ladder := REFUNDED), s.current) }

  // ---------------------------------------------------------------- events

  /** An empty name says the print ended, and keeps what is shown. */
  function OnFilename(s: Media, effective: string): Media {
    if effective == "" || effective == s.current then s
    else
      var n := s.(current := effective);
      if effective == s.loadedFor then n
      else
        var preset := HasThumbnail(s, effective);
        Load(n.(shown := if preset then s.shown else Shown(effective, PLACEHOLDER), ladder := REFUNDED,
                serve := CleanSlate(s.serve), origin := if preset then PreSet else NoOrigin), effective)
          .(loadedFor := effective)
  }

  function OnTimer(s: Media): Media {
    if s.ladder.armed.None? then s
    else
      var r := s.ladder.armed.value;
      var n := s.(ladder := Cancel(s.ladder));
      if r.file == "" || r.file != s.current || r.generation != Generation(s) || s.origin == Fetched then n
      else Load(n, r.file)
  }

  function OnMetadata(s: Media, g: nat, layerCount: bool, thumbnails: bool): Media {
    if !Valid(s, g) then s
    else
      var n := s.(layers := s.layers || layerCount);
      if s.loads[g - 1].skip || thumbnails then n
      else Schedule(SelfServe(n, FileOf(s, g)), FileOf(s, g), MAX_EMPTY_RETRIES)
  }

  function OnImage(s: Media, g: nat, image: string): Media {
    var n := if s.serve.pendingFor == FileOf(s, g) then s.(serve := s.serve.(pendingFor := "")) else s;
    if !Valid(s, g) then n
    else n.(shown := Shown(FileOf(s, g), image), origin := Fetched, ladder := REFUNDED,
            serve := n.serve.(failedFor := ""))
  }

  function OnExtractError(s: Media, g: nat, permanent: bool): Media {
    var f := FileOf(s, g);
    s.(serve := s.serve.(failedFor := if permanent then f else s.serve.failedFor,
                         pendingFor := if s.serve.pendingFor == f then "" else s.serve.pendingFor))
  }

  function Next(s: Media, e: Event): Media {
    match e
    case Filename(effective) => OnFilename(s, effective)
    case SetPath(file, path) =>
      s.(shown := Shown(file, if path == "" then PLACEHOLDER else path),
         origin := if path == "" then NoOrigin else PreSet)
    case ClearSource => s.(current := "", loadedFor := "", ladder := Cancel(s.ladder))
    case ReleaseIdentity => s.(current := "", loadedFor := "", ladder := REFUNDED, origin := NoOrigin)
    case Confirmed =>
      if s.current == "" || !s.connected || (s.layers && s.origin != NoOrigin) then s
      else Reload(s.(serve := CleanSlate(s.serve)))
    case Retrigger => if s.origin == Fetched || s.current == "" then s else Reload(s)
    case Moved(destination) =>
      if s.origin == Fetched || s.current == "" || destination == "" then s
      else Load(s.(ladder := REFUNDED), destination)
    case TimerFires => OnTimer(s)
    case MetadataOk(g, layerCount, thumbnails) => OnMetadata(s, g, layerCount, thumbnails)
    case MetadataError(g) =>
      if !Valid(s, g) then s else Schedule(SelfServe(s, FileOf(s, g)), FileOf(s, g), MAX_ATTEMPTS - 1)
    case HeaderOk(g) => if Valid(s, g) then s.(layers := true) else s
    case HeaderError(g) => if Valid(s, g) then Schedule(s, FileOf(s, g), MAX_ATTEMPTS - 1) else s
    case ImageOk(g, image) => OnImage(s, g, image)
    case ImageError(g) => if Valid(s, g) then Schedule(s, FileOf(s, g), MAX_ATTEMPTS - 1) else s
    case ExtractError(g, permanent) => OnExtractError(s, g, permanent)
    case Connect(on) => s.(connected := on)
    case LayersReset => s.(layers := false)
  }

  function Run(s: Media, es: seq<Event>): Media
    decreases |es|
  {
    if es == [] then s else Run(Next(s, es[0]), es[1..])
  }

  const BOOT: Media := Media("", "", NoOrigin, Shown("", PLACEHOLDER), REFUNDED, Serve("", "", []), [], false, false)

  // ---------------------------------------------------------------- the budget

  predicate LadderInv(l: Ladder) {
    l.retries < MAX_ATTEMPTS && l.attempts <= l.retries + (if l.armed.Some? then 0 else 1)
  }

  lemma ScheduleKeepsLadder(s: Media, file: string, maxRetries: nat)
    requires LadderInv(s.ladder) && maxRetries < MAX_ATTEMPTS
    ensures LadderInv(Schedule(s, file, maxRetries).ladder)
  {
  }

  lemma StepKeepsLadder(s: Media, e: Event)
    requires LadderInv(s.ladder)
    ensures LadderInv(Next(s, e).ladder)
  {
    match e
    case MetadataOk(g, layerCount, thumbnails) =>
      var n := s.(layers := s.layers || layerCount);
      ScheduleKeepsLadder(SelfServe(n, FileOf(s, g)), FileOf(s, g), MAX_EMPTY_RETRIES);
    case MetadataError(g) => ScheduleKeepsLadder(SelfServe(s, FileOf(s, g)), FileOf(s, g), MAX_ATTEMPTS - 1);
    case HeaderError(g) => ScheduleKeepsLadder(s, FileOf(s, g), MAX_ATTEMPTS - 1);
    case ImageError(g) => ScheduleKeepsLadder(s, FileOf(s, g), MAX_ATTEMPTS - 1);
    case _ =>
  }

  lemma {:induction false} RunKeepsLadder(s: Media, es: seq<Event>)
    requires LadderInv(s.ladder)
    ensures LadderInv(Run(s, es).ladder)
    decreases |es|
  {
    if es != [] {
      StepKeepsLadder(s, es[0]);
      RunKeepsLadder(Next(s, es[0]), es[1..]);
    }
  }

  /** At most ten loads are made between refunds of the budget, whatever fails and in whatever
      order the failures come in. */
  lemma AtMostTenAttempts(es: seq<Event>)
    ensures Run(BOOT, es).ladder.attempts <= MAX_ATTEMPTS
  {
    RunKeepsLadder(BOOT, es);
  }

  /** Events that give the budget back: a new file or none, a completed image, a confirmed print
      with something missing, and a notification while the image is not fetched. */
  predicate Refunds(s: Media, e: Event) {
    match e
    case Filename(f) => f != s.current && f != "" && f != s.loadedFor
    case ReleaseIdentity => true
    case Confirmed => s.current != "" && s.connected && !(s.layers && s.origin != NoOrigin)
    case Retrigger => s.origin != Fetched && s.current != ""
    case Moved(d) => s.origin != Fetched && s.current != "" && d != ""
    case ImageOk(g, _) => Valid(s, g)
    case _ => false
  }

  /** Apart from those, only a retry timer starts a load, and every load is counted: the count
      grows by one exactly when a timer fires for the current file and newest load, unfetched. */
  lemma OnlyTheTimerLoads(s: Media, e: Event)
    requires !Refunds(s, e)
    ensures var n := Next(s, e);
            n.ladder.attempts == s.ladder.attempts + (if e == TimerFires && Reloads(s) then 1 else 0)
  {
  }

  predicate Reloads(s: Media) {
    && s.ladder.armed.Some? && s.connected && s.origin != Fetched && s.current != ""
    && s.ladder.armed.value == Retry(s.current, Generation(s))
  }

  // ---------------------------------------------------------------- stale callbacks

  function GenerationOf(e: Event): Option<nat> {
    match e
    case MetadataOk(g, _, _) => Some(g)
    case MetadataError(g) => Some(g)
    case HeaderOk(g) => Some(g)
    case HeaderError(g) => Some(g)
    case ImageOk(g, _) => Some(g)
    case ImageError(g) => Some(g)
    case _ => None
  }

  /** A superseded load's callback publishes nothing, schedules nothing and claims nothing. */
  lemma StaleCallbacksPublishNothing(s: Media, e: Event)
    requires GenerationOf(e).Some? && !Valid(s, GenerationOf(e).value)
    ensures Next(s, e) == s.(serve := Next(s, e).serve)
    ensures !e.ImageOk? ==> Next(s, e) == s
  {
  }

  /** An image, not the placeholder, is shown for the file. */
  predicate ImageShown(s: Media, file: string) {
    file != "" && s.shown.file == file && s.shown.path !in {"", PLACEHOLDER}
  }

  /** The shown image changes only by a path handed over, the newest load's image, or the
      placeholder for a file that has none shown. */
  lemma ShownExactly(s: Media, e: Event)
    ensures Next(s, e).shown ==
            if e.SetPath? then Shown(e.file, if e.path == "" then PLACEHOLDER else e.path)
            else if e.ImageOk? && Valid(s, e.generation) then Shown(FileOf(s, e.generation), e.image)
            else if e.Filename? && Refunds(s, e) && !ImageShown(s, e.effective) then Shown(e.effective, PLACEHOLDER)
            else s.shown
  {
  }

  /** The newest load's fetch completes with no path at all. */
  predicate HandsNothing(s: Media, e: Event) { e.ImageOk? && Valid(s, e.generation) && e.image == "" }

  predicate NoneHandsNothing(s: Media, es: seq<Event>)
    decreases |es|
  {
    es == [] || (!HandsNothing(s, es[0]) && NoneHandsNothing(Next(s, es[0]), es[1..]))
  }

  /** The published path is something now and after every event. */
  predicate AlwaysShows(s: Media, es: seq<Event>)
    decreases |es|
  {
    s.shown.path != "" && (es == [] || AlwaysShows(Next(s, es[0]), es[1..]))
  }

  lemma {:induction false} ShowsExactly(s: Media, es: seq<Event>)
    requires s.shown.path != ""
    ensures AlwaysShows(s, es) <==> NoneHandsNothing(s, es)
    decreases |es|
  {
    if es != [] {
      var n := Next(s, es[0]);
      ShownExactly(s, es[0]);
      if n.shown.path != "" { ShowsExactly(n, es[1..]); }
    }
  }

  /** The published path is never empty, over any run, exactly if no fetch of a newest load
      completes with an empty one; an empty path set directly becomes the placeholder. */
  lemma NeverPublishesEmpty(es: seq<Event>)
    ensures AlwaysShows(BOOT, es) <==> NoneHandsNothing(BOOT, es)
  {
    ShowsExactly(BOOT, es);
  }

  // ---------------------------------------------------------------- what stops recovery

  /** Only a completed fetch claims one, and every path handed over withdraws the claim. */
  lemma FetchedExactly(s: Media, e: Event)
    ensures Next(s, e).origin == Fetched <==>
            (e.ImageOk? && Valid(s, e.generation))
            || (s.origin == Fetched && !e.SetPath? && e != ReleaseIdentity && !(e.Filename? && Refunds(s, e)))
  {
  }

  /** A notification starts a fresh load exactly unless the image was fetched or there is no
      file or connection; a pre-set path does not stop it. */
  lemma RetriggerLoadsExactly(s: Media)
    ensures var n := Next(s, Retrigger);
            n.loads != s.loads <==> s.origin != Fetched && s.current != "" && s.connected
    ensures var n := Next(s, Retrigger);
            n.loads != s.loads ==>
              n.loads == s.loads + [LoadRecord(s.current, ImageShown(s, s.current))]
              && n.ladder == Ladder(0, None, 1)
  {
  }

  // ---------------------------------------------------------------- nothing is superseded silently

  /** A pending retry is for the newest load and the current file; an extraction under way is for
      the newest load's file. */
  predicate FreshInv(s: Media) {
    && s.current == s.loadedFor
    && (s.ladder.armed.Some? ==>
          s.current != "" && s.ladder.armed.value == Retry(s.current, Generation(s)))
    && (s.serve.pendingFor != "" ==> s.loads != [] && s.serve.pendingFor == FileOf(s, Generation(s)))
  }

  lemma ScheduleKeepsFresh(s: Media, g: nat, maxRetries: nat)
    requires FreshInv(s) && Valid(s, g)
    ensures FreshInv(Schedule(s, FileOf(s, g), maxRetries))
  {
  }

  lemma SelfServeKeepsFresh(s: Media, g: nat)
    requires FreshInv(s) && Valid(s, g)
    ensures FreshInv(SelfServe(s, FileOf(s, g))) && SelfServe(s, FileOf(s, g)).loads == s.loads
    ensures SelfServe(s, FileOf(s, g)).ladder == s.ladder
  {
  }

  lemma MetadataKeepsFresh(s: Media, g: nat, maxRetries: nat)
    requires FreshInv(s) && Valid(s, g)
    ensures FreshInv(Schedule(SelfServe(s, FileOf(s, g)), FileOf(s, g), maxRetries))
  {
    SelfServeKeepsFresh(s, g);
    ScheduleKeepsFresh(SelfServe(s, FileOf(s, g)), g, maxRetries);
  }

  lemma CallbackKeepsFresh(s: Media, e: Event)
    requires FreshInv(s) && GenerationOf(e).Some? && Valid(s, GenerationOf(e).value) && !e.ImageOk?
    ensures FreshInv(Next(s, e))
  {
    var g := GenerationOf(e).value;
    match e
    case MetadataOk(_, layerCount, _) => MetadataKeepsFresh(s.(layers := s.layers || layerCount), g, MAX_EMPTY_RETRIES);
    case MetadataError(_) => MetadataKeepsFresh(s, g, MAX_ATTEMPTS - 1);
    case HeaderError(_) => ScheduleKeepsFresh(s, g, MAX_ATTEMPTS - 1);
    case ImageError(_) => ScheduleKeepsFresh(s, g, MAX_ATTEMPTS - 1);
    case HeaderOk(_) =>
  }

  lemma StepKeepsFresh(s: Media, e: Event)
    requires FreshInv(s)
    ensures FreshInv(Next(s, e))
  {
    if GenerationOf(e).Some? && !e.ImageOk? {
      if Valid(s, GenerationOf(e).value) { CallbackKeepsFresh(s, e); } else { StaleCallbacksPublishNothing(s, e); }
    }
  }

  lemma {:induction false} RunKeepsFresh(s: Media, es: seq<Event>)
    requires FreshInv(s)
    ensures FreshInv(Run(s, es))
    decreases |es|
  {
    if es != [] {
      StepKeepsFresh(s, es[0]);
      RunKeepsFresh(Next(s, es[0]), es[1..]);
    }
  }

  /** A retry that fires always belongs to the file and the load it was asked for, so it reloads
      exactly unless the image came in meanwhile or the connection went; and the success of an
      extraction marked as under way always publishes. */
  lemma NothingIsSupersededSilently(es: seq<Event>, image: string)
    ensures var s := Run(BOOT, es);
            && (s.ladder.armed.Some? ==> (Reloads(s) <==> s.origin != Fetched && s.connected))
            && (s.serve.pendingFor != "" ==>
                  Next(s, ImageOk(Generation(s), image)).shown == Shown(s.serve.pendingFor, image)
                  && Next(s, ImageOk(Generation(s), image)).origin == Fetched)
  {
    RunKeepsFresh(BOOT, es);
  }

  /** The failure of a load: its metadata, header or image, or metadata that lists no image where
      one was wanted. */
  predicate Failure(s: Media, e: Event) {
    match e
    case MetadataError(g) => Valid(s, g)
    case HeaderError(g) => Valid(s, g)
    case ImageError(g) => Valid(s, g)
    case MetadataOk(g, _, thumbnails) => Valid(s, g) && !thumbnails && !s.loads[g - 1].skip
    case _ => false
  }

  function Budget(e: Event): nat { if e.MetadataOk? then MAX_EMPTY_RETRIES else MAX_ATTEMPTS - 1 }

  predicate Arms(s: Media, e: Event) { s.ladder.armed.None? && Next(s, e).ladder.armed.Some? }

  lemma OnlyFailuresArm(s: Media, e: Event)
    requires s.ladder.armed.None? && !Failure(s, e)
    ensures Next(s, e).ladder.armed.None?
  {
  }

  lemma ScheduleArmsExactly(s: Media, file: string, maxRetries: nat)
    requires s.ladder.armed.None?
    ensures var n := Schedule(s, file, maxRetries);
            if file != "" && file == s.current && s.ladder.retries < maxRetries
            then n.ladder == s.ladder.(retries := s.ladder.retries + 1, armed := Some(Retry(file, Generation(s))))
            else n.ladder == s.ladder
  {
  }

  /** Over every event: a retry is armed exactly when the newest load fails for the file that is
      current, with budget left and none armed yet; it is then that file's and that load's. */
  lemma RetryIsArmedExactly(s: Media, e: Event)
    ensures Arms(s, e) <==>
            Failure(s, e) && s.ladder.armed.None? && s.ladder.retries < Budget(e)
            && s.current != "" && FileOf(s, Generation(s)) == s.current
    ensures Arms(s, e) ==> Next(s, e).ladder.armed == Some(Retry(s.current, Generation(s)))
                           && Next(s, e).ladder.retries == s.ladder.retries + 1
  {
    if s.ladder.armed.None? {
      if !Failure(s, e) {
        OnlyFailuresArm(s, e);
      } else {
        var f := FileOf(s, Generation(s));
        if e.MetadataOk? {
          ScheduleArmsExactly(SelfServe(s.(layers := s.layers || e.layerCount), f), f, MAX_EMPTY_RETRIES);
        } else if e.MetadataError? {
          ScheduleArmsExactly(SelfServe(s, f), f, MAX_ATTEMPTS - 1);
        } else {
          ScheduleArmsExactly(s, f, MAX_ATTEMPTS - 1);
        }
      }
    }
  }

  /** A file that moves is loaded from its destination once: a failure there finds the file no
      longer current and asks for no retry. */
  lemma MovedFilesAreTriedOnce(s: Media, destination: string)
    requires FreshInv(s) && s.origin != Fetched && s.current != "" && s.connected
    requires destination != "" && destination != s.current
    ensures var n := Next(s, Moved(destination));
            n.loads != s.loads && n.ladder.armed.None?
            && Next(n, MetadataError(Generation(n))).ladder == n.ladder
            && Next(n, ImageError(Generation(n))).ladder == n.ladder
  {
    var n := Next(s, Moved(destination));
    assert |n.loads| == |s.loads| + 1 && FileOf(n, Generation(n)) == destination;
  }

  // ---------------------------------------------------------------- what each thing changes by

  /** The file an event loads: a new one, the current one again, or the destination of a move. */
  function Loaded(s: Media, e: Event): Option<string> {
    match e
    case Filename(f) => if Refunds(s, e) then Some(f) else None
    case Confirmed => if Refunds(s, e) then Some(s.current) else None
    case Retrigger => if Refunds(s, e) then Some(s.current) else None
    case Moved(d) => if Refunds(s, e) then Some(d) else None
    case TimerFires =>
      if s.ladder.armed.Some? && s.current != "" && s.origin != Fetched
         && s.ladder.armed.value == Retry(s.current, Generation(s))
      then Some(s.current) else None
    case _ => None
  }

  /** The newest load fails and the ladder has no rung left, so the header is all there is. */
  predicate GivesUp(s: Media, e: Event) {
    && Failure(s, e) && s.ladder.armed.None? && s.ladder.retries >= Budget(e)
    && s.current != "" && FileOf(s, Generation(s)) == s.current
  }

  /** The header may be read: there is a connection, nothing was fetched, it is not being read and is
      not known to hold nothing. */
  predicate MayExtract(s: Media, file: string) {
    s.connected && s.origin != Fetched && s.serve.pendingFor != file && s.serve.failedFor != file
  }

  predicate MetadataFails(s: Media, e: Event) { Failure(s, e) && (e.MetadataOk? || e.MetadataError?) }

  /** An extraction begins: beside the retry when the metadata has nothing, and at the end of the
      ladder. */
  predicate Extracts(s: Media, e: Event) {
    (MetadataFails(s, e) || GivesUp(s, e)) && MayExtract(s, FileOf(s, Generation(s)))
  }

  /** Giving up supersedes the load unless an extraction is under way, which is waited for. */
  predicate Supersedes(s: Media, e: Event) {
    GivesUp(s, e) && s.serve.pendingFor != s.current && !(MetadataFails(s, e) && MayExtract(s, s.current))
  }

  function Extracting(v: Serve, file: string): Serve { Serve(v.failedFor, file, v.downloads + [file]) }

  lemma ScheduleChanges(s: Media, file: string, maxRetries: nat)
    ensures var n := Schedule(s, file, maxRetries);
            var up := file != "" && file == s.current && s.ladder.armed.None? && s.ladder.retries >= maxRetries;
            && n.loads == (if up && s.serve.pendingFor != file then s.loads + [LoadRecord(file, false)] else s.loads)
            && n.serve == (if up && MayExtract(s, file) then Extracting(s.serve, file) else s.serve)
            && n.origin == s.origin && n.layers == s.layers && n.shown == s.shown
            && n.current == s.current && n.loadedFor == s.loadedFor && n.connected == s.connected
  {
  }

  lemma FailureChanges(s: Media, e: Event)
    requires Failure(s, e)
    ensures var n := Next(s, e);
            && n.loads == (if Supersedes(s, e) then s.loads + [LoadRecord(s.current, false)] else s.loads)
            && n.serve == (if Extracts(s, e) then Extracting(s.serve, FileOf(s, Generation(s))) else s.serve)
            && n.layers == (s.layers || (e.MetadataOk? && e.layerCount))
            && n.origin == s.origin && n.shown == s.shown
            && n.current == s.current && n.loadedFor == s.loadedFor && n.connected == s.connected
  {
    var f := FileOf(s, Generation(s));
    if e.MetadataOk? {
      ScheduleChanges(SelfServe(s.(layers := s.layers || e.layerCount), f), f, MAX_EMPTY_RETRIES);
    } else if e.MetadataError? {
      ScheduleChanges(SelfServe(s, f), f, MAX_ATTEMPTS - 1);
    } else {
      ScheduleChanges(s, f, MAX_ATTEMPTS - 1);
    }
  }

  /** Loads are made by the events that load a file, with a connection, leaving the image out exactly
      if one is shown for the file; and by giving up. */
  lemma LoadsExactly(s: Media, e: Event)
    ensures Next(s, e).loads ==
            if Loaded(s, e).Some? && s.connected
            then s.loads + [LoadRecord(Loaded(s, e).value, ImageShown(s, Loaded(s, e).value))]
            else if Supersedes(s, e) then s.loads + [LoadRecord(s.current, false)]
            else s.loads
  {
    if Failure(s, e) { FailureChanges(s, e); }
  }

  /** The extraction under way changes by one beginning, a load made, a clean slate for a new file or a
      confirmed print, and the extraction's own end, good or bad. */
  lemma ExtractionExactly(s: Media, e: Event)
    ensures Next(s, e).serve.pendingFor ==
            if Extracts(s, e) then FileOf(s, Generation(s))
            else if Loaded(s, e).Some? && (s.connected || e.Filename? || e.Confirmed?) then ""
            else if (e.ImageOk? || e.ExtractError?) && s.serve.pendingFor == FileOf(s, e.generation) then ""
            else s.serve.pendingFor
  {
    if Failure(s, e) { FailureChanges(s, e); }
  }

  /** A header is asked for exactly as an extraction begins: once for each, and never while one of the
      file is under way. */
  lemma DownloadsExactly(s: Media, e: Event)
    ensures Next(s, e).serve.downloads ==
            s.serve.downloads + (if Extracts(s, e) then [FileOf(s, Generation(s))] else [])
    ensures Extracts(s, e) ==> s.serve.pendingFor != FileOf(s, Generation(s)) && s.origin != Fetched
  {
    if Failure(s, e) { FailureChanges(s, e); }
  }

  /** A header is known to hold nothing from a permanent failure on, until a new file, a confirmed
      print that loads again, or a completed fetch. */
  lemma KnownEmptyExactly(s: Media, e: Event)
    ensures Next(s, e).serve.failedFor ==
            if e.ExtractError? && e.permanent then FileOf(s, e.generation)
            else if (e.Filename? || e.Confirmed? || e.ImageOk?) && Refunds(s, e) then ""
            else s.serve.failedFor
  {
    if Failure(s, e) { FailureChanges(s, e); }
  }

  /** The origin changes by a completed fetch, a path set directly, a released identity, a new file,
      and a load that finds an image shown for its file. */
  lemma OriginExactly(s: Media, e: Event)
    ensures Next(s, e).origin ==
            if e.ImageOk? && Valid(s, e.generation) then Fetched
            else if e.SetPath? then (if e.path == "" then NoOrigin else PreSet)
            else if e == ReleaseIdentity then NoOrigin
            else if e.Filename? && Refunds(s, e) then (if ImageShown(s, e.effective) then PreSet else NoOrigin)
            else if Loaded(s, e).Some? && s.origin != Fetched && ImageShown(s, Loaded(s, e).value) then PreSet
            else s.origin
  {
    if Failure(s, e) { FailureChanges(s, e); }
  }

  /** The layer count is known from metadata or a header that states it, until it is reset. */
  lemma LayersExactly(s: Media, e: Event)
    ensures Next(s, e).layers ==
            (e != LayersReset
             && (s.layers || (e.HeaderOk? && Valid(s, e.generation))
                 || (e.MetadataOk? && Valid(s, e.generation) && e.layerCount)))
  {
    if Failure(s, e) { FailureChanges(s, e); }
  }

  /** The current file is the last one named, until it is released; loads follow it; the connection is
      what was last said of it. */
  lemma IdentityExactly(s: Media, e: Event)
    ensures var n := Next(s, e);
            && n.current == (if e.Filename? && e.effective != "" then e.effective
                             else if e in {ClearSource, ReleaseIdentity} then ""
                             else s.current)
            && n.loadedFor == (if e.Filename? && Refunds(s, e) then e.effective
                               else if e in {ClearSource, ReleaseIdentity} then ""
                               else s.loadedFor)
            && n.connected == (if e.Connect? then e.on else s.connected)
  {
    if Failure(s, e) { FailureChanges(s, e); }
  }

  /** The budget is given back by the events that refund it, and the retry armed goes with it, with
      the file or as it fires. */
  lemma LadderExactly(s: Media, e: Event)
    requires !Failure(s, e)
    ensures var l, made := Next(s, e).ladder, if Loaded(s, e).Some? && s.connected then 1 else 0;
            l == if Refunds(s, e) then Ladder(0, None, made)
                 else if e in {ClearSource, TimerFires}
                 then Ladder(s.ladder.retries, None, s.ladder.attempts + made)
                 else s.ladder
  {
  }

  // ---------------------------------------------------------------- the manager

  class Manager {
    var current: string
    var loadedFor: string
    var origin: Origin
    var shown: Shown
    var ladder: Ladder
    var failedFor: string
    var pendingFor: string
    var downloads: seq<string>
    var loads: seq<LoadRecord>
    var connected: bool
    var layers: bool

    ghost function View(): Media
      reads this
    {
      Media(current, loadedFor, origin, shown, ladder, Serve(failedFor, pendingFor, downloads), loads, connected,
            layers)
    }

    constructor ()
      ensures View() == BOOT
    {
      current, loadedFor, origin, shown, ladder := "", "", NoOrigin, Shown("", PLACEHOLDER), REFUNDED;
      failedFor, pendingFor, downloads, loads, connected, layers := "", "", [], [], false, false;
    }

    method SetThumbnailPath(file: string, path: string)
      modifies `shown, `origin
      ensures View() == Next(old(View()), SetPath(file, path))
    {
      shown := Shown(file, if path == "" then PLACEHOLDER else path);
      origin := if path == "" then NoOrigin else PreSet;
    }

    method CancelThumbnailRetry()
      modifies `ladder
      ensures ladder == Cancel(old(ladder))
    {
      ladder := ladder.(armed := None);
    }

    method LoadThumbnailForFile(file: string)
      modifies this
      ensures View() == Load(old(View()), file)
    {
      var skip := shown.path != "" && shown.path != PLACEHOLDER && file != "" && shown.file == file;
      if skip && origin != Fetched { origin := PreSet; }
      if !connected { return; }
      pendingFor := "";
      loads := loads + [LoadRecord(file, skip)];
      ladder := ladder.(attempts := ladder.attempts + 1);
    }

    method SelfServeFromGcode(file: string)
      modifies `pendingFor, `downloads
      ensures View() == SelfServe(old(View()), file)
    {
      if !connected || origin == Fetched || pendingFor == file || failedFor == file { return; }
      pendingFor := file;
      downloads := downloads + [file];
    }

    method ScheduleThumbnailRetry(file: string, maxRetries: nat)
      modifies this
      ensures View() == Schedule(old(View()), file, maxRetries)
    {
      if file == "" || file != current { return; }
      if ladder.armed.Some? { return; }
      if ladder.retries >= maxRetries {
        if pendingFor == file { return; }
        loads := loads + [LoadRecord(file, false)];
        SelfServeFromGcode(file);
        return;
      }
      ladder := ladder.(retries := ladder.retries + 1, armed := Some(Retry(file, |loads|)));
    }

    method ProcessFilename(effective: string)
      modifies this
      ensures View() == OnFilename(old(View()), effective)
    {
      if effective == "" || effective == current { return; }
      current := effective;
      if effective == loadedFor { return; }
      var preset := shown.path != "" && shown.path != PLACEHOLDER && shown.file == effective;
      if !preset { shown := Shown(effective, PLACEHOLDER); }
      ladder := REFUNDED;
      failedFor, pendingFor := "", "";
      origin := if preset then PreSet else NoOrigin;
      ghost var was := old(View());
      assert View() == was.(
        current := effective, shown := if preset then was.shown else Shown(effective, PLACEHOLDER),
        ladder := REFUNDED, serve := CleanSlate(was.serve), origin := if preset then PreSet else NoOrigin);
      LoadThumbnailForFile(effective);
      loadedFor := effective;
    }

    method RetryTimerFired()
      modifies this
      ensures View() == OnTimer(old(View()))
    {
      if ladder.armed.None? { return; }
      var r := ladder.armed.value;
      CancelThumbnailRetry();
      if r.file == "" || r.file != current { return; }
      if r.generation != |loads| { return; }
      if origin == Fetched { return; }
      LoadThumbnailForFile(r.file);
    }

    method RetriggerThumbnailLoad()
      modifies this
      ensures View() == Next(old(View()), Retrigger)
    {
      if origin == Fetched || current == "" { return; }
      ladder := REFUNDED;
      LoadThumbnailForFile(current);
    }

    method ImageArrived(g: nat, image: string)
      requires image != ""
      modifies this
      ensures View() == OnImage(old(View()), g, image)
      ensures old(shown.path) != "" ==> shown.path != ""
    {
      var file := if 0 < g <= |loads| then loads[g - 1].file else "";
      if pendingFor == file { pendingFor := ""; }
      if g == 0 || g != |loads| { return; }
      shown := Shown(file, image);
      origin := Fetched;
      ladder := REFUNDED;
      failedFor := "";
    }
  }
}
