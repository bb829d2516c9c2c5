/** The resumable survey of a venue's listing (_adaptive_survey in runtime/market_discovery.py). */
module Survey {
  import opened Wrappers

  datatype Page = Page(topics: seq<string>, hasMore: bool, nextOffset: int) {
    predicate Continues() { hasMore && topics != [] }
  }

  datatype Resume = Resume(cursors: map<string, int>, active: set<string>)

  // ----- the opinions on a page

  datatype Reply = ContinueDiscovery | ProcessFrontier | PauseAndResume | SourceExhausted

  function Stops(r: Option<Reply>): bool { r.Some? && !r.value.ContinueDiscovery? }

  datatype Next = ReadOn | OneMorePage | StopHere

  predicate Disagree(typed: Option<Reply>, llm: Option<Reply>) {
    typed.Some? && llm.Some? && Stops(typed) != Stops(llm)
  }

  /** What the two opinions on a page lead to; one disagreement is answered with one more page. */
  function AfterOpinions(typed: Option<Reply>, llm: Option<Reply>, probeUsed: bool): Next {
    if typed.Some? && llm.Some? then
      if Stops(typed) && Stops(llm) then StopHere
      else if Stops(typed) != Stops(llm) then (if probeUsed then StopHere else OneMorePage)
      else ReadOn
    else if Stops(typed) || Stops(llm) then StopHere
    else ReadOn
  }

  predicate AsksToStop(r: Option<Reply>) {
    r == Some(ProcessFrontier) || r == Some(PauseAndResume) || r == Some(SourceExhausted)
  }

  predicate AsksToGoOn(r: Option<Reply>) { r == Some(ContinueDiscovery) }

  /** What a survey reads, writes and is told, over all its rounds and in the order it happens. */
  datatype Event =
    | RoundBegan
    | TimeUp
    | PageRead(source: string, offset: int, page: Page)
    | SourceFailed(source: string)
    | Queued(topics: seq<string>)
    | Heard(typed: Option<Reply>, llm: Option<Reply>)
    | Saved(resume: Resume)
    | Cleared
    | Abandoned

  predicate IsRecord(e: Event) { e.Saved? || e.Cleared? }

  /** At least one opinion was given, and every opinion given asks to stop. */
  predicate AllAskToStop(e: Event) {
    && e.Heard? && (e.typed != None || e.llm != None)
    && (e.typed == None || AsksToStop(e.typed)) && (e.llm == None || AsksToStop(e.llm))
  }

  /** Both opinions were given; one asks to stop and the other to go on. */
  predicate PartWays(e: Event) {
    && e.Heard?
    && ((AsksToStop(e.typed) && AsksToGoOn(e.llm)) || (AsksToGoOn(e.typed) && AsksToStop(e.llm)))
  }

  /** Between `from` and `to` the time ran out, or the opinions asked to stop, or they parted ways twice. */
  predicate ToldToStop(log: seq<Event>, from: nat, to: nat)
    requires from <= to <= |log|
  {
    exists j :: from <= j < to
      && (log[j].TimeUp? || AllAskToStop(log[j])
          || (PartWays(log[j]) && exists i :: from <= i < j && PartWays(log[i])))
  }

  predicate SameRound(log: seq<Event>, j: nat, k: nat)
    requires j < k <= |log|
  {
    forall i :: j < i < k ==> log[i] != RoundBegan
  }

  // ----- reading a log

  /** The log up to the last time the record was written. */
  function Recorded(log: seq<Event>): (r: seq<Event>)
    ensures |r| <= |log| && r == log[..|r|]
    ensures r != [] ==> IsRecord(r[|r| - 1])
    ensures forall k :: |r| <= k < |log| ==> !IsRecord(log[k])
  {
    if log == [] || IsRecord(log[|log| - 1]) then log
    else
      var r := Recorded(log[..|log| - 1]);
      assert log[..|log| - 1][..|r|] == log[..|r|];
      r
  }

  /** Where `source` is to be read next: a cursor is clamped when a round loads it, and an exception that
      ends a round takes it back to the last record. */
  function Expected(log: seq<Event>, source: string): int
    decreases |log|
  {
    if log == [] then 0
    else
      var n := |log| - 1;
      match log[n]
      case RoundBegan => if Expected(log[..n], source) < 0 then 0 else Expected(log[..n], source)
      case PageRead(s, offset, page) =>
        if s != source then Expected(log[..n], source)
        else if page.Continues() then page.nextOffset
        else offset
      case Cleared => 0
      case Abandoned => Expected(Recorded(log[..n]), source)
      case _ => Expected(log[..n], source)
  }

  /** `source` was exhausted or failed, and the survey has not been restarted since. */
  function Done(log: seq<Event>, source: string): bool
    decreases |log|
  {
    if log == [] then false
    else
      var n := |log| - 1;
      match log[n]
      case PageRead(s, _, page) => if s == source then !page.Continues() else Done(log[..n], source)
      case SourceFailed(s) => s == source || Done(log[..n], source)
      case Cleared => false
      case Abandoned => Done(Recorded(log[..n]), source)
      case _ => Done(log[..n], source)
  }

  function Pending(log: seq<Event>, sources: seq<string>): set<string> {
    set s | s in sources && !Done(log, s)
  }

  function QueuedTopics(log: seq<Event>): set<string> {
    if log == [] then {}
    else
      var n := |log| - 1;
      QueuedTopics(log[..n]) + if log[n].Queued? then set t | t in log[n].topics else {}
  }

  /** The topics queued in the current round. */
  function QueuedThisRound(log: seq<Event>): (q: set<string>)
    ensures q <= QueuedTopics(log)
  {
    if log == [] then {}
    else
      var n := |log| - 1;
      match log[n]
      case RoundBegan => {}
      case Queued(topics) => QueuedThisRound(log[..n]) + set t | t in topics
      case _ => QueuedThisRound(log[..n])
  }

  /** The topics on the pages that the cursors have gone past. */
  function PassedTopics(log: seq<Event>): set<string>
    decreases |log|
  {
    if log == [] then {}
    else
      var n := |log| - 1;
      match log[n]
      case PageRead(_, _, page) => PassedTopics(log[..n]) + set t | t in page.topics
      case Abandoned => PassedTopics(Recorded(log[..n]))
      case _ => PassedTopics(log[..n])
  }

  /** A round has begun and has neither written its record nor been abandoned. */
  function InRound(log: seq<Event>): bool {
    if log == [] then false
    else
      var n := |log| - 1;
      match log[n]
      case RoundBegan => true
      case Saved(_) => false
      case Cleared => false
      case Abandoned => false
      case _ => InRound(log[..n])
  }

  function Reads(log: seq<Event>): nat {
    if log == [] then 0 else Reads(log[..|log| - 1]) + if log[|log| - 1].PageRead? then 1 else 0
  }

  function Failures(log: seq<Event>): nat {
    if log == [] then 0 else Failures(log[..|log| - 1]) + if log[|log| - 1].SourceFailed? then 1 else 0
  }

  function Disagreements(log: seq<Event>): nat {
    if log == [] then 0 else Disagreements(log[..|log| - 1]) + if Disagreement(log[|log| - 1]) then 1 else 0
  }

  predicate Disagreement(e: Event) { e.Heard? && Disagree(e.typed, e.llm) }

  /** The opinions have parted ways in the current round. */
  function Parted(log: seq<Event>): bool {
    if log == [] then false
    else
      var n := |log| - 1;
      match log[n]
      case RoundBegan => false
      case Heard(typed, llm) => Parted(log[..n]) || Disagree(typed, llm)
      case _ => Parted(log[..n])
  }

  /** The last page read in the current round still waits for its opinions. */
  function Unheard(log: seq<Event>): bool {
    if log == [] then false
    else
      var n := |log| - 1;
      match log[n]
      case RoundBegan => false
      case PageRead(_, _, _) => true
      case Heard(_, _) => false
      case _ => Unheard(log[..n])
  }

  /** The current round has run out of time or has been told to stop. */
  function Halted(log: seq<Event>): bool {
    if log == [] then false
    else
      var n := |log| - 1;
      match log[n]
      case RoundBegan => false
      case TimeUp => true
      case Heard(typed, llm) => Halted(log[..n]) || AfterOpinions(typed, llm, Parted(log[..n])) == StopHere
      case _ => Halted(log[..n])
  }

  /** A record is saved for exactly the unfinished sources, at their next offsets, after everything read was queued. */
  predicate RecordFits(log: seq<Event>, sources: seq<string>, r: Resume) {
    && r.active == Pending(log, sources)
    && r.active != {}
    && forall s :: s in r.active ==> s in r.cursors && r.cursors[s] == Expected(log, s)
  }

  ghost predicate EventFits(before: seq<Event>, sources: seq<string>, e: Event) {
    match e
    case PageRead(s, offset, _) =>
      && InRound(before) && !Halted(before) && !Unheard(before)
      && s in sources && offset == Expected(before, s) && !Done(before, s)
    case Queued(topics) =>
      && before != [] && before[|before| - 1].PageRead?
      && forall t :: t in topics <==> t in before[|before| - 1].page.topics && t !in QueuedThisRound(before)
    case Heard(_, _) => Unheard(before)
    case Saved(r) => RecordFits(before, sources, r) && PassedTopics(before) <= QueuedTopics(before)
    case Cleared => Pending(before, sources) == {} && PassedTopics(before) <= QueuedTopics(before)
    case _ => true
  }

  ghost predicate Faithful(log: seq<Event>, sources: seq<string>) {
    log == [] ||
    (Faithful(log[..|log| - 1], sources) && EventFits(log[..|log| - 1], sources, log[|log| - 1]))
  }

  predicate Settled(log: seq<Event>) {
    log != [] && IsRecord(log[|log| - 1])
  }

  /** No round is under way. */
  predicate Resting(log: seq<Event>) {
    log == [] || IsRecord(log[|log| - 1]) || log[|log| - 1].Abandoned?
  }

  /** These cursors and this set of sources may be kept: they continue the log. */
  ghost predicate Storable(log: seq<Event>, sources: seq<string>, cursors: map<string, int>, active: set<string>) {
    && Faithful(log, sources)
    && PassedTopics(log) <= QueuedTopics(log)
    && active == Pending(log, sources)
    && forall s :: s in active ==> s in cursors && cursors[s] == Expected(log, s)
  }

  /** What the stored record says about the log it was left by. */
  predicate Remembers(log: seq<Event>, sources: seq<string>, resume: Option<Resume>) {
    match resume
    case None => forall s :: s in sources ==> Expected(log, s) == 0 && !Done(log, s)
    case Some(r) => RecordFits(log, sources, r)
  }

  /** The record continues the log it was written under, and nothing that log had gone past is missing
      from the queue: whatever happens before the next record, a round can start again from here. */
  ghost predicate Recoverable(log: seq<Event>, sources: seq<string>, resume: Option<Resume>) {
    && Faithful(log, sources)
    && Remembers(Recorded(log), sources, resume)
    && PassedTopics(Recorded(log)) <= QueuedTopics(log)
  }

  // ----- the store and one round

  class SurveyStore {
    const sources: seq<string>
    var resume: Option<Resume>
    var log: seq<Event>

    /** Between rounds. */
    ghost predicate Valid()
      reads this
    {
      Recoverable(log, sources, resume) && Resting(log)
    }

    constructor (sources: seq<string>)
      ensures Valid() && this.sources == sources && log == [] && resume == None
    {
      this.sources, resume, log := sources, None, [];
    }

    method Note(e: Event)
      modifies this`log
      ensures log == old(log) + [e]
    {
      log := log + [e];
    }

    /** Keep the cursors of the unfinished sources, or forget everything when none is left. */
    method SaveResume(cursors: map<string, int>, active: set<string>)
      requires Storable(log, sources, cursors, active)
      modifies this
      ensures Valid()
      ensures log == old(log) + [if active == {} then Cleared else Saved(Resume(cursors, active))]
    {
      ghost var before := log;
      if active == {} {
        resume := None;
        log := log + [Cleared];
      } else {
        resume := Some(Resume(cursors, active));
        log := log + [Saved(Resume(cursors, active))];
      }
      AfterRecord(before, sources, cursors, active);
    }

    /** An exception has left the round: the record is as it was, and so is where the survey stands. */
    method Abandon(ghost start: Start)
      requires Faithful(log, sources) && resume == start.resume && Unrecorded(start, log)
      requires Recoverable(start.log, sources, start.resume)
      modifies this`log
      ensures Valid() && log == old(log) + [Abandoned]
    {
      AfterException(start, log, sources);
      log := log + [Abandoned];
    }
  }

  /** What a round finds when it starts. */
  datatype Start = Start(log: seq<Event>, resume: Option<Resume>)

  /** The log goes on from where the round started, without a record since. */
  predicate Unrecorded(start: Start, log: seq<Event>) {
    start.log <= log && forall k :: |start.log| <= k < |log| ==> !IsRecord(log[k])
  }

  lemma AfterRecord(log: seq<Event>, sources: seq<string>, cursors: map<string, int>, active: set<string>)
    requires Storable(log, sources, cursors, active)
    ensures var resume := if active == {} then None else Some(Resume(cursors, active));
            var after := log + [if active == {} then Cleared else Saved(Resume(cursors, active))];
            Recoverable(after, sources, resume) && after[..|after| - 1] == log
  {
    var e := if active == {} then Cleared else Saved(Resume(cursors, active));
    var after := log + [e];
    assert after[..|log|] == log;
    AppendFits(log, sources, e);
    if active == {} {
      assert forall s :: s in sources && !Done(log, s) ==> s in Pending(log, sources);
    } else {
      assert forall s :: Done(after, s) == Done(log, s) && Expected(after, s) == Expected(log, s);
      assert Pending(after, sources) == Pending(log, sources);
    }
  }

  lemma {:induction false} SameRecord(start: Start, log: seq<Event>)
    requires Unrecorded(start, log)
    ensures Recorded(log) == Recorded(start.log) && QueuedTopics(start.log) <= QueuedTopics(log)
    decreases |log|
  {
    if |log| > |start.log| {
      SameRecord(start, log[..|log| - 1]);
    } else {
      assert log == start.log;
    }
  }

  lemma AfterException(start: Start, log: seq<Event>, sources: seq<string>)
    requires Faithful(log, sources) && Unrecorded(start, log) && Recoverable(start.log, sources, start.resume)
    ensures Recoverable(log + [Abandoned], sources, start.resume)
  {
    var after := log + [Abandoned];
    assert after[..|log|] == log;
    AppendFits(log, sources, Abandoned);
    SameRecord(start, log);
  }

  /** Between rounds the survey stands where its last record left it. */
  lemma RestsAtRecord(log: seq<Event>, sources: seq<string>, resume: Option<Resume>)
    requires Recoverable(log, sources, resume) && Resting(log)
    ensures Remembers(log, sources, resume) && PassedTopics(log) <= QueuedTopics(log)
  {
    if log != [] && log[|log| - 1].Abandoned? {
      var kept := Recorded(log);
      assert forall s :: Done(log, s) == Done(kept, s) && Expected(log, s) == Expected(kept, s);
      assert Pending(log, sources) == Pending(kept, sources);
    }
  }

  /** Where an exception can leave a round after its page `n` was read. */
  datatype Point = Queueing | Screening | Judging | Saving

  /** Everything a round is told: the clock at each look, the listing at each call, the two opinions on each
      page, and where something raises. */
  datatype Outside = Outside(
    timeUp: nat -> bool, listing: (nat, string, int) -> Option<Page>, typed: nat -> Option<Reply>,
    llm: nat -> Option<Reply>, raises: (nat, Point) -> bool)

  predicate SomethingRaises(outside: Outside, n: nat) {
    || outside.raises(n, Queueing) || outside.raises(n, Screening)
    || outside.raises(n, Judging) || outside.raises(n, Saving)
  }

  /** The locals of one round; the last three count its failed listings, its disagreements and its looks at the clock. */
  datatype Round = Round(
    cursors: map<string, int>, active: set<string>, seen: set<string>, page: nat, probeUsed: bool, saved: bool,
    raised: bool, timeUp: bool, progressed: bool, failed: nat, disagreed: nat, looks: nat)

  function Fresh(topics: seq<string>, seen: set<string>): seq<string> {
    if topics == [] then []
    else (if topics[0] in seen then [] else [topics[0]]) + Fresh(topics[1..], seen)
  }

  lemma {:induction false} FreshIsNew(topics: seq<string>, seen: set<string>)
    ensures forall t :: t in Fresh(topics, seen) <==> t in topics && t !in seen
  {
    if topics != [] {
      FreshIsNew(topics[1..], seen);
      assert topics == [topics[0]] + topics[1..];
    }
  }

  /** While a round runs, its locals say what its log says. */
  ghost predicate InStep(log: seq<Event>, sources: seq<string>, r: Round) {
    && Storable(log, sources, r.cursors, r.active)
    && r.seen == QueuedThisRound(log)
    && InRound(log)
    && !Halted(log)
    && r.probeUsed == Parted(log)
  }

  /** What a round notes about the outside is what the outside said. */
  ghost predicate Told(outside: Outside, e: Event) {
    match e
    case PageRead(source, offset, page) => exists n: nat :: outside.listing(n, source, offset) == Some(page)
    case SourceFailed(source) => exists n: nat, offset: int :: outside.listing(n, source, offset) == None
    case Heard(typed, llm) => exists n: nat :: outside.typed(n) == typed && outside.llm(n) == llm
    case TimeUp => exists n: nat :: outside.timeUp(n)
    case _ => true
  }

  ghost predicate ToldSince(outside: Outside, from: nat, log: seq<Event>) {
    forall k :: from <= k < |log| ==> Told(outside, log[k])
  }

  /** The log since `start` is one round. */
  ghost predicate BeganAt(start: Start, log: seq<Event>) {
    && |start.log| < |log| && log[|start.log|] == RoundBegan
    && forall k :: |start.log| < k < |log| ==> log[k] != RoundBegan
  }

  /** The counters of a round agree with what it has added to the log since `start`. */
  ghost predicate Counted(outside: Outside, start: Start, log: seq<Event>, r: Round) {
    && start.log <= log
    && BeganAt(start, log)
    && ToldSince(outside, |start.log|, log)
    && Reads(log) == Reads(start.log) + r.page
    && Failures(log) == Failures(start.log) + r.failed
    && Disagreements(log) == Disagreements(start.log) + r.disagreed
  }

  /** The round is within its limits: every failure costs a source, and only the last disagreement is a second one. */
  predicate Bounded(r: Round, maxPages: nat, maxSources: nat) {
    && r.page <= maxPages
    && r.failed + |r.active| <= maxSources
    && Tolerated(r)
  }

  predicate Tolerated(r: Round) {
    r.disagreed <= (if r.probeUsed then 1 else 0) + (if r.saved || r.raised then 1 else 0)
  }

  /** The round has not written its record yet. */
  ghost predicate Unsaved(store: SurveyStore, start: Start)
    reads store
  {
    store.resume == start.resume && Unrecorded(start, store.log)
  }

  ghost predicate Running(store: SurveyStore, start: Start, r: Round)
    reads store
  {
    InStep(store.log, store.sources, r) && Unsaved(store, start) && !r.saved && !r.raised && !r.timeUp
  }

  /** The round is still running, or an exception is about to end it, or its outcome is stored. */
  ghost predicate RunningOrClosed(store: SurveyStore, start: Start, r: Round)
    reads store
  {
    if r.saved then
      && !r.raised && store.Valid() && Settled(store.log) && Halted(store.log)
      && (r.timeUp || r.active == {})
    else if r.raised then Faithful(store.log, store.sources) && Unsaved(store, start) && !r.timeUp
    else Running(store, start, r) && !Unheard(store.log)
  }

  lemma CountOneMore(outside: Outside, start: Start, log: seq<Event>, e: Event, r: Round, r': Round)
    requires Counted(outside, start, log, r)
    requires !e.RoundBegan? && (e.Queued? || IsRecord(e) || Told(outside, e))
    requires r'.page == r.page + if e.PageRead? then 1 else 0
    requires r'.failed == r.failed + if e.SourceFailed? then 1 else 0
    requires r'.disagreed == r.disagreed + if Disagreement(e) then 1 else 0
    ensures Counted(outside, start, log + [e], r')
  {
    assert (log + [e])[..|log|] == log;
  }

  lemma CountBegan(outside: Outside, start: Start, r: Round)
    requires r.page == r.failed == r.disagreed == 0
    ensures Counted(outside, start, start.log + [RoundBegan], r)
  {
    assert (start.log + [RoundBegan])[..|start.log|] == start.log;
  }

  lemma CountSame(outside: Outside, start: Start, log: seq<Event>, r: Round, r': Round)
    requires Counted(outside, start, log, r)
    requires r'.page == r.page && r'.failed == r.failed && r'.disagreed == r.disagreed
    ensures Counted(outside, start, log, r')
  {
  }

  lemma AppendFits(log: seq<Event>, sources: seq<string>, e: Event)
    requires Faithful(log, sources) && EventFits(log, sources, e)
    ensures Faithful(log + [e], sources)
  {
    assert (log + [e])[..|log|] == log;
  }

  /** A page read, its cursor moved, and every topic on it that is new handed to the queue: no record can
      be saved in between, and if queueing raises no record follows. */
  method TakePage(
    store: SurveyStore, source: string, page: Page, outside: Outside, r: Round, ghost start: Start)
    returns (r': Round)
    requires Running(store, start, r) && !Unheard(store.log) && Counted(outside, start, store.log, r)
    requires source in r.active && Told(outside, PageRead(source, r.cursors[source], page))
    modifies store`log
    ensures r'.raised <==> outside.raises(r.page + 1, Queueing)
    ensures if r'.raised then Faithful(store.log, store.sources) && Unsaved(store, start)
            else Running(store, start, r') && Unheard(store.log)
    ensures Counted(outside, start, store.log, r')
    ensures r' == r.(cursors := r'.cursors, active := r'.active, seen := r'.seen, page := r.page + 1,
                     progressed := true, raised := r'.raised)
    ensures r'.active == if page.Continues() then r.active else r.active - {source}
    ensures store.log == old(store.log) + [PageRead(source, r.cursors[source], page)]
              + if r'.raised then [] else [Queued(Fresh(page.topics, r.seen))]
  {
    hide Counted, Told, SomethingRaises;
    ghost var before := store.log;
    ghost var read := PageRead(source, r.cursors[source], page);
    AfterPage(before, store.sources, read, r.seen, r.active, r.cursors);
    store.Note(PageRead(source, r.cursors[source], page));
    var unseen := Fresh(page.topics, r.seen);
    var seen := r.seen + set t | t in page.topics;
    var active, cursors := r.active, r.cursors;
    if !page.hasMore || page.topics == [] {
      active := active - {source};
    } else {
      cursors := cursors[source := page.nextOffset];
    }
    r' := r.(cursors := cursors, active := active, seen := seen, page := r.page + 1, progressed := true);
    CountOneMore(outside, start, before, read, r, r');
    if outside.raises(r'.page, Queueing) {
      CountSame(outside, start, store.log, r', r'.(raised := true));
      r' := r'.(raised := true);
      return;
    }
    store.Note(Queued(unseen));
    CountOneMore(outside, start, before + [read], Queued(unseen), r', r');
  }

  lemma AfterPage(
    log: seq<Event>, sources: seq<string>, read: Event, seen: set<string>, active: set<string>,
    cursors: map<string, int>)
    requires Storable(log, sources, cursors, active) && seen == QueuedThisRound(log)
    requires InRound(log) && !Halted(log) && !Unheard(log)
    requires read.PageRead? && read.source in active
    requires read.offset == Expected(log, read.source)
    ensures var after := log + [read] + [Queued(Fresh(read.page.topics, seen))];
            && (if read.page.Continues() then
                  Storable(after, sources, cursors[read.source := read.page.nextOffset], active)
                else Storable(after, sources, cursors, active - {read.source}))
            && seen + (set t | t in read.page.topics) == QueuedThisRound(after)
            && InRound(after) && !Halted(after) && Unheard(after) && (Parted(after) <==> Parted(log))
    ensures Faithful(log + [read], sources)
  {
    var queued := Queued(Fresh(read.page.topics, seen));
    var mid := log + [read];
    var after := mid + [queued];
    AppendFits(log, sources, read);
    assert mid[..|log|] == log && after[..|mid|] == mid;
    FreshIsNew(read.page.topics, seen);
    AppendFits(mid, sources, queued);
    assert QueuedThisRound(after) == seen + set t | t in read.page.topics;
    assert forall s :: Done(after, s) == (if s == read.source then !read.page.Continues() else Done(log, s));
    assert forall s :: s != read.source ==> Expected(after, s) == Expected(log, s);
    assert read.page.Continues() ==> Expected(after, read.source) == read.page.nextOffset;
    assert Pending(after, sources) == if read.page.Continues() then active else active - {read.source};
    if read.page.Continues() {
      var moved := cursors[read.source := read.page.nextOffset];
      assert forall s :: s in active ==> s in moved && moved[s] == Expected(after, s);
      assert PassedTopics(after) <= QueuedTopics(after);
    }
  }

  lemma AfterFailure(log: seq<Event>, sources: seq<string>, source: string, r: Round)
    requires InStep(log, sources, r)
    ensures InStep(log + [SourceFailed(source)], sources, r.(active := r.active - {source}, failed := r.failed + 1))
    ensures Unheard(log + [SourceFailed(source)]) <==> Unheard(log)
  {
    var after := log + [SourceFailed(source)];
    assert after[..|log|] == log;
    AppendFits(log, sources, SourceFailed(source));
    assert forall s :: Done(after, s) == (s == source || Done(log, s));
    assert forall s :: Expected(after, s) == Expected(log, s);
  }

  lemma AfterRemark(log: seq<Event>, sources: seq<string>, e: Event, cursors: map<string, int>, active: set<string>)
    requires Storable(log, sources, cursors, active) && ((e.Heard? && Unheard(log)) || e.TimeUp?)
    ensures Storable(log + [e], sources, cursors, active) && QueuedThisRound(log + [e]) == QueuedThisRound(log)
    ensures Halted(log + [e]) <==>
              Halted(log) || e.TimeUp? || AfterOpinions(e.typed, e.llm, Parted(log)) == StopHere
    ensures Parted(log + [e]) <==> Parted(log) || Disagreement(e)
    ensures (e.Heard? ==> !Unheard(log + [e])) && (InRound(log + [e]) <==> InRound(log))
  {
    var after := log + [e];
    assert after[..|log|] == log;
    AppendFits(log, sources, e);
    assert forall s :: Done(after, s) == Done(log, s) && Expected(after, s) == Expected(log, s);
  }

  /** Start a round from the stored record, or from zero everywhere. */
  method Begin(store: SurveyStore, ghost outside: Outside, ghost start: Start) returns (r: Round)
    requires store.Valid() && start == Start(store.log, store.resume)
    modifies store`log
    ensures Running(store, start, r) && !Unheard(store.log)
    ensures store.log == old(store.log) + [RoundBegan] && Counted(outside, start, store.log, r)
    ensures r.page == r.failed == r.disagreed == 0 && !r.probeUsed
    ensures |r.active| <= |store.sources|
  {
    RestsAtRecord(store.log, store.sources, store.resume);
    var all := set s | s in store.sources;
    var stored := if store.resume.Some? then store.resume.value.cursors else map[];
    var storedActive := if store.resume.Some? then store.resume.value.active * all else {};
    var cursors := map s | s in all :: if s in stored && stored[s] > 0 then stored[s] else 0;
    var active := if storedActive == {} then all else storedActive;
    BeginInStep(store.log, store.sources, store.resume, cursors, active);
    PendingBound(store.log + [RoundBegan], store.sources);
    r := Round(cursors, active, {}, 0, false, false, false, false, false, 0, 0, 0);
    CountBegan(outside, start, r);
    store.Note(RoundBegan);
  }

  /** The cursor a round loads for `source`. */
  function Loaded(resume: Option<Resume>, source: string): int {
    if resume.Some? && source in resume.value.cursors && resume.value.cursors[source] > 0 then
      resume.value.cursors[source]
    else 0
  }

  lemma BeginInStep(
    log: seq<Event>, sources: seq<string>, resume: Option<Resume>, cursors: map<string, int>, active: set<string>)
    requires Faithful(log, sources) && PassedTopics(log) <= QueuedTopics(log) && Remembers(log, sources, resume)
    requires active == if resume.Some? then resume.value.active else set s | s in sources
    requires forall s :: s in sources ==> s in cursors && cursors[s] == Loaded(resume, s)
    ensures InStep(log + [RoundBegan], sources, Round(cursors, active, {}, 0, false, false, false, false, false, 0, 0, 0))
  {
    var after := log + [RoundBegan];
    assert after[..|log|] == log;
    AppendFits(log, sources, RoundBegan);
    assert forall s :: Done(after, s) == Done(log, s);
    assert forall s :: Expected(after, s) == if Expected(log, s) < 0 then 0 else Expected(log, s);
  }

  /** Write the cursors and the unfinished sources of a round, unless the write raises. */
  method Keep(store: SurveyStore, outside: Outside, r: Round, ghost start: Start) returns (r': Round)
    requires Storable(store.log, store.sources, r.cursors, r.active) && Unsaved(store, start)
    requires Counted(outside, start, store.log, r) && !r.saved && !r.raised
    modifies store
    ensures r' == if outside.raises(r.page, Saving) then r.(raised := true) else r.(saved := true)
    ensures Counted(outside, start, store.log, r') && (Halted(store.log) <==> Halted(old(store.log)))
    ensures r'.raised ==> store.log == old(store.log) && Faithful(store.log, store.sources) && Unsaved(store, start)
    ensures r'.saved ==>
              store.Valid() && Settled(store.log) && (store.log[|store.log| - 1] == Cleared <==> r.active == {})
  {
    ghost var before := store.log;
    if outside.raises(r.page, Saving) {
      r' := r.(raised := true);
      CountSame(outside, start, before, r, r');
      return;
    }
    store.SaveResume(r.cursors, r.active);
    assert store.log[..|store.log| - 1] == before;
    r' := r.(saved := true);
    CountOneMore(outside, start, before, store.log[|before|], r, r');
  }

  /** Save what is left because the time is up. */
  method StopForTime(store: SurveyStore, outside: Outside, r: Round, ghost start: Start) returns (r': Round)
    requires Running(store, start, r) && Counted(outside, start, store.log, r)
    requires Told(outside, TimeUp)
    modifies store
    ensures r' == r.(saved := r'.saved, raised := r'.raised, timeUp := r'.saved) && (r'.saved || r'.raised)
    ensures r'.raised ==> SomethingRaises(outside, r'.page)
    ensures RunningOrClosed(store, start, r') && Counted(outside, start, store.log, r')
  {
    AfterRemark(store.log, store.sources, TimeUp, r.cursors, r.active);
    CountOneMore(outside, start, store.log, TimeUp, r, r);
    store.Note(TimeUp);
    r' := Keep(store, outside, r, start);
    CountSame(outside, start, store.log, r', r'.(timeUp := r'.saved));
    r' := r'.(timeUp := r'.saved);
  }

  /** A listing that fails takes its source out of the round. */
  method DropSource(store: SurveyStore, source: string, ghost outside: Outside, r: Round, ghost start: Start)
    returns (r': Round)
    requires Running(store, start, r) && !Unheard(store.log) && Counted(outside, start, store.log, r)
    requires Told(outside, SourceFailed(source))
    modifies store`log
    ensures r' == r.(active := r.active - {source}, failed := r.failed + 1)
    ensures RunningOrClosed(store, start, r') && Counted(outside, start, store.log, r')
  {
    AfterFailure(store.log, store.sources, source, r);
    r' := r.(active := r.active - {source}, failed := r.failed + 1);
    CountOneMore(outside, start, store.log, SourceFailed(source), r, r');
    store.Note(SourceFailed(source));
  }

  /** Take note of two opinions. */
  method Hear(
    store: SurveyStore, typed: Option<Reply>, llm: Option<Reply>, ghost outside: Outside, r: Round,
    ghost start: Start)
    returns (r': Round)
    requires Running(store, start, r) && Unheard(store.log) && Counted(outside, start, store.log, r)
    requires Told(outside, Heard(typed, llm))
    modifies store`log
    ensures store.log == old(store.log) + [Heard(typed, llm)] && Unsaved(store, start)
    ensures Storable(store.log, store.sources, r'.cursors, r'.active) && Counted(outside, start, store.log, r')
    ensures Halted(store.log) <==> AfterOpinions(typed, llm, r.probeUsed) == StopHere
    ensures !Halted(store.log) ==> Running(store, start, r') && !Unheard(store.log)
    ensures r' == r.(probeUsed := r.probeUsed || Disagree(typed, llm),
                     disagreed := r.disagreed + if Disagree(typed, llm) then 1 else 0)
  {
    hide Counted, Told;
    AfterRemark(store.log, store.sources, Heard(typed, llm), r.cursors, r.active);
    r' := r;
    if Disagree(typed, llm) {
      r' := r.(probeUsed := true, disagreed := r.disagreed + 1);
    }
    CountOneMore(outside, start, store.log, Heard(typed, llm), r, r');
    store.Note(Heard(typed, llm));
  }

  /** Take note of two opinions; then stop, or read one more page, or read on. The round stops when every
      opinion given asks to, and when the two part ways for the second time. */
  method ActOnOpinions(
    store: SurveyStore, typed: Option<Reply>, llm: Option<Reply>, outside: Outside, r: Round, ghost start: Start)
    returns (r': Round)
    requires Running(store, start, r) && Unheard(store.log) && Counted(outside, start, store.log, r)
    requires Told(outside, Heard(typed, llm))
    modifies store
    ensures RunningOrClosed(store, start, r') && Counted(outside, start, store.log, r') && !r'.timeUp
    ensures r'.saved || r'.raised
       <==> || AllAskToStop(Heard(typed, llm))
            || (PartWays(Heard(typed, llm))
                && exists i :: |start.log| < i < |old(store.log)| && PartWays(old(store.log)[i]))
    ensures Tolerated(r) ==> Tolerated(r')
    ensures r'.raised ==> SomethingRaises(outside, r'.page)
    ensures r' == r.(active := if r'.saved then {} else r.active, saved := r'.saved, raised := r'.raised,
                     probeUsed := r.probeUsed || Disagree(typed, llm),
                     disagreed := r.disagreed + if Disagree(typed, llm) then 1 else 0)
  {
    RoundPartedExactly(outside, start, store.log, r);
    RunningMeans(store, start, r);
    StopHereExactly(Heard(typed, llm), r.probeUsed);
    hide Counted, Told, Running, AllAskToStop, PartWays, AfterOpinions, Storable, Unrecorded, Parted;
    r' := Hear(store, typed, llm, outside, r, start);
    if AfterOpinions(typed, llm, r.probeUsed) == StopHere {
      r' := Keep(store, outside, r', start);
      if r'.saved {
        CountSame(outside, start, store.log, r', r'.(active := {}));
        r' := r'.(active := {});
      }
    }
  }

  lemma {:induction false} PartedExactly(log: seq<Event>, b: nat, k: nat)
    requires b < k <= |log| && log[b] == RoundBegan && SameRound(log, b, k)
    ensures Parted(log[..k]) <==> exists i :: b < i < k && PartWays(log[i])
    decreases k
  {
    assert log[..k][..k - 1] == log[..k - 1] && log[..k][k - 1] == log[k - 1];
    if b < k - 1 {
      PartedExactly(log, b, k - 1);
    }
  }

  lemma {:induction false} HaltedExactly(log: seq<Event>, b: nat, k: nat)
    requires b < k <= |log| && log[b] == RoundBegan && SameRound(log, b, k)
    ensures Halted(log[..k]) <==> ToldToStop(log, b + 1, k)
    decreases k
  {
    assert log[..k][..k - 1] == log[..k - 1] && log[..k][k - 1] == log[k - 1];
    if b < k - 1 {
      HaltedExactly(log, b, k - 1);
      PartedExactly(log, b, k - 1);
      if log[k - 1].Heard? {
        StopHereExactly(log[k - 1], Parted(log[..k - 1]));
      }
      assert ToldToStop(log, b + 1, k) <==>
               ToldToStop(log, b + 1, k - 1) || log[k - 1].TimeUp? || AllAskToStop(log[k - 1])
               || (PartWays(log[k - 1]) && exists i :: b + 1 <= i < k - 1 && PartWays(log[i]));
    }
  }

  /** What two opinions lead to, in the words of the replies. */
  lemma StopHereExactly(e: Event, probeUsed: bool)
    requires e.Heard?
    ensures AfterOpinions(e.typed, e.llm, probeUsed) == StopHere <==> AllAskToStop(e) || (PartWays(e) && probeUsed)
    ensures AfterOpinions(e.typed, e.llm, probeUsed) == OneMorePage <==> PartWays(e) && !probeUsed
    ensures Disagree(e.typed, e.llm) <==> PartWays(e)
  {
  }

  lemma RoundPartedExactly(outside: Outside, start: Start, log: seq<Event>, r: Round)
    requires Counted(outside, start, log, r)
    ensures Parted(log) <==> exists i :: |start.log| < i < |log| && PartWays(log[i])
  {
    assert log[..|log|] == log;
    PartedExactly(log, |start.log|, |log|);
  }

  lemma RoundHaltedExactly(outside: Outside, start: Start, log: seq<Event>, r: Round)
    requires Counted(outside, start, log, r)
    ensures Halted(log) <==> ToldToStop(log, |start.log| + 1, |log|)
  {
    assert log[..|log|] == log;
    HaltedExactly(log, |start.log|, |log|);
  }

  lemma RunningMeans(store: SurveyStore, start: Start, r: Round)
    requires Running(store, start, r)
    ensures r.probeUsed == Parted(store.log) && !r.saved && !r.raised && !r.timeUp
  {
  }

  /** Looking at the clock changes nothing but the count of looks. */
  lemma LookedIsRunning(store: SurveyStore, start: Start, outside: Outside, r: Round)
    requires Running(store, start, r) && Counted(outside, start, store.log, r)
    ensures Running(store, start, r.(looks := r.looks + 1))
    ensures Counted(outside, start, store.log, r.(looks := r.looks + 1))
  {
  }

  lemma RaisedIsClosed(store: SurveyStore, start: Start, outside: Outside, r: Round)
    requires Running(store, start, r) && Counted(outside, start, store.log, r)
    ensures RunningOrClosed(store, start, r.(raised := true))
    ensures Counted(outside, start, store.log, r.(raised := true))
  {
  }

  /** Screen the page that was queued, look at the clock, and ask for opinions. */
  method JudgePage(store: SurveyStore, outside: Outside, r: Round, ghost start: Start) returns (r': Round)
    requires Running(store, start, r) && Unheard(store.log) && Counted(outside, start, store.log, r)
    modifies store
    ensures RunningOrClosed(store, start, r') && Counted(outside, start, store.log, r')
    ensures r'.page == r.page && r'.progressed == r.progressed && r'.failed == r.failed && r'.active <= r.active
    ensures r'.raised ==> SomethingRaises(outside, r'.page)
    ensures Tolerated(r) ==> Tolerated(r')
  {
    hide Counted, InStep, Unrecorded;
    if outside.raises(r.page, Screening) {
      RaisedIsClosed(store, start, outside, r);
      r' := r.(raised := true);
      return;
    }
    LookedIsRunning(store, start, outside, r);
    r' := r.(looks := r.looks + 1);
    if outside.timeUp(r'.looks) {
      r' := StopForTime(store, outside, r', start);
      return;
    }
    if outside.raises(r'.page, Judging) {
      RaisedIsClosed(store, start, outside, r');
      r' := r'.(raised := true);
      return;
    }
    r' := ActOnOpinions(store, outside.typed(r'.page), outside.llm(r'.page), outside, r', start);
  }

  /** Read the page that was listed, and judge it. */
  method ReadPage(store: SurveyStore, source: string, page: Page, outside: Outside, r: Round, ghost start: Start)
    returns (r': Round)
    requires Running(store, start, r) && !Unheard(store.log) && Counted(outside, start, store.log, r)
    requires source in r.active && Told(outside, PageRead(source, r.cursors[source], page))
    modifies store
    ensures RunningOrClosed(store, start, r') && Counted(outside, start, store.log, r')
    ensures r'.page == r.page + 1 && r'.progressed && r'.failed == r.failed && r'.active <= r.active
    ensures r'.raised ==> SomethingRaises(outside, r'.page)
    ensures Tolerated(r) ==> Tolerated(r')
  {
    hide Counted, Told, InStep, Unrecorded;
    r' := TakePage(store, source, page, outside, r, start);
    if !r'.raised {
      r' := JudgePage(store, outside, r', start);
    }
  }

  /** Look at one source: list it, and read its page if there is one. */
  method VisitSource(store: SurveyStore, source: string, outside: Outside, r: Round, ghost start: Start)
    returns (r': Round)
    requires Running(store, start, r) && !Unheard(store.log) && Counted(outside, start, store.log, r)
    requires source in r.active
    modifies store
    ensures RunningOrClosed(store, start, r') && Counted(outside, start, store.log, r')
    ensures r'.page == r.page || (r'.page == r.page + 1 && r'.progressed)
    ensures r'.page == r.page ==>
              r'.progressed == r.progressed && (r'.saved || r'.raised || source !in r'.active)
    ensures r'.active <= r.active && r'.failed + |r'.active| <= r.failed + |r.active|
    ensures r'.raised ==> SomethingRaises(outside, r'.page)
    ensures Tolerated(r) ==> Tolerated(r')
  {
    LookedIsRunning(store, start, outside, r);
    r' := r.(looks := r.looks + 1);
    if outside.timeUp(r.looks) {
      r' := StopForTime(store, outside, r', start);
      return;
    }
    var listed := outside.listing(r.looks, source, r.cursors[source]);
    if listed.None? {
      r' := DropSource(store, source, outside, r', start);
      return;
    }
    r' := ReadPage(store, source, listed.value, outside, r', start);
    FewerIsSmaller(r'.active, r.active);
  }

  /** Visit every source that is still active once. */
  method Sweep(
    store: SurveyStore, maxPages: nat, maxSources: nat, outside: Outside, r: Round, ghost start: Start)
    returns (r': Round)
    requires Running(store, start, r) && !Unheard(store.log) && Counted(outside, start, store.log, r)
    requires Bounded(r, maxPages, maxSources) && r.page < maxPages
    modifies store
    ensures RunningOrClosed(store, start, r') && Counted(outside, start, store.log, r')
    ensures Bounded(r', maxPages, maxSources)
    ensures !r'.saved && !r'.raised ==> r'.progressed || r'.active == {}
    ensures r.page <= r'.page && (r'.progressed ==> r'.page > r.page) && r'.active <= r.active
    ensures r'.raised ==> SomethingRaises(outside, r'.page)
  {
    r' := r.(progressed := false);
    CountSame(outside, start, store.log, r, r');
    var i := 0;
    while i < |store.sources|
      invariant 0 <= i <= |store.sources|
      invariant Running(store, start, r') && !Unheard(store.log) && Counted(outside, start, store.log, r')
      invariant Bounded(r', maxPages, maxSources)
      invariant r.page <= r'.page && (r'.progressed <==> r'.page > r.page) && r'.active <= r.active
      invariant !r'.progressed ==> forall k :: 0 <= k < i ==> store.sources[k] !in r'.active
    {
      hide Counted, InStep, Unrecorded;
      var source := store.sources[i];
      i := i + 1;
      if source !in r'.active || r'.page >= maxPages {
        continue;
      }
      r' := VisitSource(store, source, outside, r', start);
      if r'.saved || r'.raised {
        return;
      }
    }
    if !r'.progressed {
      NoneLeft(store.log, store.sources, r'.active);
    }
  }

  lemma NoneLeft(log: seq<Event>, sources: seq<string>, active: set<string>)
    requires active == Pending(log, sources) && forall k :: 0 <= k < |sources| ==> sources[k] !in active
    ensures active == {}
  {
  }

  /** One turn of the outer loop: look at the clock, then sweep. */
  method Turn(store: SurveyStore, maxPages: nat, outside: Outside, r: Round, ghost start: Start)
    returns (r': Round)
    requires Running(store, start, r) && !Unheard(store.log) && Counted(outside, start, store.log, r)
    requires Bounded(r, maxPages, |store.sources|) && r.page < maxPages
    modifies store
    ensures RunningOrClosed(store, start, r') && Counted(outside, start, store.log, r')
    ensures Bounded(r', maxPages, |store.sources|)
    ensures !r'.saved && !r'.raised ==> r'.progressed || r'.active == {}
    ensures r'.timeUp ==> r'.saved
    ensures !r'.timeUp && !r'.raised && r'.progressed ==> r'.page > r.page && |r'.active| <= |r.active|
    ensures r'.raised ==> SomethingRaises(outside, r'.page)
  {
    LookedIsRunning(store, start, outside, r);
    r' := r.(looks := r.looks + 1);
    if outside.timeUp(r.looks) {
      r' := StopForTime(store, outside, r', start);
      return;
    }
    r' := Sweep(store, maxPages, |store.sources|, outside, r', start);
    FewerIsSmaller(r'.active, r.active);
  }

  /** After the last page: the page limit keeps a record, and an empty set of sources clears it. */
  method Close(store: SurveyStore, maxPages: nat, outside: Outside, r: Round, ghost start: Start)
    returns (r': Round)
    requires RunningOrClosed(store, start, r) && Counted(outside, start, store.log, r) && !r.raised
    requires r.saved || r.active == {} || r.page >= maxPages
    modifies store
    ensures Counted(outside, start, store.log, r')
    ensures r' == r.(saved := r'.saved, raised := r'.raised) && (r'.saved <==> !r'.raised)
    ensures r'.raised ==> Faithful(store.log, store.sources) && Unsaved(store, start)
    ensures r'.raised ==> SomethingRaises(outside, r'.page)
    ensures r'.saved ==> store.Valid() && Settled(store.log)
    ensures r'.saved ==> Halted(store.log) || r.page >= maxPages || store.log[|store.log| - 1] == Cleared
  {
    hide Counted, Unrecorded;
    r' := r;
    if r.active != {} && !r.saved && r.page >= maxPages {
      r' := Keep(store, outside, r, start);
    } else if r.active == {} && !r.saved {
      r' := Keep(store, outside, r, start);
    }
  }

  /** The pages of a round, until it has a record to leave or an exception is about to end it. */
  method RunRound(store: SurveyStore, maxPages: nat, outside: Outside, ghost start: Start) returns (r: Round)
    requires store.Valid() && maxPages >= 1 && start == Start(store.log, store.resume)
    modifies store
    ensures Counted(outside, start, store.log, r) && Bounded(r, maxPages, |store.sources|)
    ensures r.saved <==> !r.raised
    ensures r.raised ==> Faithful(store.log, store.sources) && Unsaved(store, start)
    ensures r.raised ==> SomethingRaises(outside, r.page)
    ensures r.saved ==> store.Valid() && Settled(store.log)
    ensures r.saved ==> Halted(store.log) || r.page == maxPages || store.log[|store.log| - 1] == Cleared
  {
    hide SurveyStore.Valid, Running, Counted;
    r := Begin(store, outside, start);
    while r.active != {} && r.page < maxPages
      invariant RunningOrClosed(store, start, r) && !r.timeUp && !r.raised && Counted(outside, start, store.log, r)
      invariant Bounded(r, maxPages, |store.sources|)
      decreases maxPages - r.page + |r.active|
    {
      r := Turn(store, maxPages, outside, r, start);
      if r.timeUp || r.raised || !r.progressed {
        break;
      }
    }
    if !r.raised {
      r := Close(store, maxPages, outside, r, start);
    }
  }

  /** One round. It ends with a record for the unfinished sources, with a cleared one, or with an exception
      that leaves the record alone; and it stops short of its page limit with sources left only when the
      time is up, the opinions say so, or something raised. */
  method AdaptiveSurvey(store: SurveyStore, maxPages: nat, outside: Outside) returns (pages: nat, raised: bool)
    requires store.Valid() && maxPages >= 1
    modifies store
    ensures store.Valid() && old(store.log) <= store.log && store.log != []
    ensures raised ==> store.log[|store.log| - 1] == Abandoned && store.resume == old(store.resume)
    ensures raised ==> SomethingRaises(outside, pages)
    ensures !raised ==> Settled(store.log)
    ensures pages <= maxPages && Reads(store.log) == Reads(old(store.log)) + pages
    ensures Failures(store.log) <= Failures(old(store.log)) + |store.sources|
    ensures Disagreements(store.log) <= Disagreements(old(store.log)) + 2
    ensures !raised ==>
              || ToldToStop(store.log, |old(store.log)|, |store.log|)
              || pages == maxPages
              || store.log[|store.log| - 1] == Cleared
    ensures ToldSince(outside, |old(store.log)|, store.log)
  {
    hide Recoverable;
    ghost var start := Start(store.log, store.resume);
    var r := RunRound(store, maxPages, outside, start);
    pages, raised := r.page, r.raised;
    RoundHaltedExactly(outside, start, store.log, r);
    if raised {
      AbandonedCounts(outside, start, store.log, r);
      store.Abandon(start);
    }
  }

  lemma AbandonedCounts(outside: Outside, start: Start, log: seq<Event>, r: Round)
    requires Counted(outside, start, log, r)
    ensures Counted(outside, start, log + [Abandoned], r)
  {
    assert (log + [Abandoned])[..|log|] == log;
  }

  lemma {:induction false} PendingBound(log: seq<Event>, sources: seq<string>)
    ensures |Pending(log, sources)| <= |sources|
  {
    if sources != [] {
      var n := |sources| - 1;
      PendingBound(log, sources[..n]);
      assert sources == sources[..n] + [sources[n]];
      var rest := Pending(log, sources[..n]);
      if Done(log, sources[n]) {
        assert Pending(log, sources) == rest;
      } else {
        assert Pending(log, sources) == rest + {sources[n]};
      }
    } else {
      assert Pending(log, sources) == {};
    }
  }

  lemma {:induction false} FewerIsSmaller(a: set<string>, b: set<string>)
    requires a <= b
    ensures |a| <= |b|
  {
    if a != {} {
      var x :| x in a;
      FewerIsSmaller(a - {x}, b - {x});
    }
  }

  // ----- what a faithful history guarantees

  lemma {:induction false} EveryEventFits(log: seq<Event>, sources: seq<string>, k: nat)
    requires Faithful(log, sources) && k < |log|
    ensures EventFits(log[..k], sources, log[k])
  {
    var n := |log| - 1;
    if k < n {
      EveryEventFits(log[..n], sources, k);
      assert log[..n][..k] == log[..k];
    }
  }

  /** An exception ended the round that read the page at `j`, before any record was written. */
  predicate LostItsRound(log: seq<Event>, j: nat, k: nat)
    requires j < k <= |log|
  {
    exists a :: j < a < k && log[a] == Abandoned && forall i :: j < i < a ==> !IsRecord(log[i])
  }

  /** What an exception brings back: the log up to a record that came after `j`, and a shorter log. */
  lemma BackToRecord(log: seq<Event>, j: nat, k: nat) returns (m: nat)
    requires j < k - 1 < |log| && log[j].PageRead? && log[k - 1] == Abandoned && !LostItsRound(log, j, k)
    ensures j < m < k && Recorded(log[..k - 1]) == log[..m] && log[..k][..k - 1] == log[..k - 1]
    ensures IsRecord(log[m - 1]) && !LostItsRound(log, j, m)
  {
    var r := Recorded(log[..k - 1]);
    m := |r|;
    assert log[..k - 1][..m] == log[..m];
    forall i | m <= i < k - 1 ensures !IsRecord(log[i]) {
      assert log[..k - 1][i] == log[i];
    }
    assert r[m - 1] == log[m - 1];
  }

  lemma {:induction false} PassedTopicsCover(log: seq<Event>, j: nat, k: nat)
    requires j < k <= |log| && log[j].PageRead? && !LostItsRound(log, j, k)
    ensures forall t :: t in log[j].page.topics ==> t in PassedTopics(log[..k])
    decreases k
  {
    assert log[..k][..k - 1] == log[..k - 1] && log[..k][k - 1] == log[k - 1];
    if j < k - 1 {
      if log[k - 1] == Abandoned {
        var m := BackToRecord(log, j, k);
        PassedTopicsCover(log, j, m);
      } else {
        assert !LostItsRound(log, j, k - 1);
        PassedTopicsCover(log, j, k - 1);
      }
    }
  }

  /** Whatever a page showed has been queued before any later record could move a cursor past it, unless an
      exception ended its round. */
  lemma NoPageIsLost(store: SurveyStore, j: nat, k: nat, topic: string)
    requires store.Valid() && j < k < |store.log|
    requires store.log[j].PageRead? && IsRecord(store.log[k]) && topic in store.log[j].page.topics
    requires !LostItsRound(store.log, j, k)
    ensures topic in QueuedTopics(store.log[..k])
  {
    EveryEventFits(store.log, store.sources, k);
    PassedTopicsCover(store.log, j, k);
  }

  /** And if one did, every source stands again where the last record before the page left it: the page is
      read again before any record goes past it. */
  lemma AbandonedPageIsReadAgain(store: SurveyStore, j: nat, a: nat, source: string)
    requires store.Valid() && j < a < |store.log| && store.log[a] == Abandoned
    requires forall i :: j <= i < a ==> !IsRecord(store.log[i])
    ensures Expected(store.log[..a + 1], source) == Expected(Recorded(store.log[..j]), source)
    ensures Done(store.log[..a + 1], source) == Done(Recorded(store.log[..j]), source)
    ensures PassedTopics(store.log[..a + 1]) == PassedTopics(Recorded(store.log[..j]))
  {
    var log := store.log;
    assert log[..a + 1][..a] == log[..a] && log[..a][..j] == log[..j];
    SameRecord(Start(log[..j], None), log[..a]);
  }

  /** Nothing between `from` and `to` reads `source` or restarts the survey. */
  predicate Untouched(log: seq<Event>, source: string, from: nat, to: nat)
    requires from <= to <= |log|
  {
    forall i :: from <= i < to ==> log[i] != Cleared && !(log[i].PageRead? && log[i].source == source)
  }

  predicate RoundBetween(log: seq<Event>, j: nat, k: nat)
    requires j < k <= |log|
  {
    exists i :: j < i < k && log[i] == RoundBegan
  }

  function Clamped(x: int): int { if x < 0 then 0 else x }

  /** The offset the page read at `j` leads to, as a read at `k` finds it. */
  function NextAfter(log: seq<Event>, j: nat, k: nat): int
    requires j < k <= |log| && log[j].PageRead?
  {
    if RoundBetween(log, j, k) then Clamped(log[j].page.nextOffset) else log[j].page.nextOffset
  }

  predicate Stands(log: seq<Event>, source: string, j: nat, k: nat)
    requires j < k <= |log| && log[j].PageRead?
  {
    && (!log[j].page.Continues() ==> Done(log[..k], source))
    && (log[j].page.Continues() ==>
          && Clamped(Expected(log[..k], source)) == Clamped(log[j].page.nextOffset)
          && (InRound(log[..k]) ==> Expected(log[..k], source) == NextAfter(log, j, k)))
  }

  lemma StandsOneMore(log: seq<Event>, source: string, j: nat, k: nat)
    requires j < k < |log| && log[j].PageRead? && Untouched(log, source, j + 1, k + 1) && log[k] != Abandoned
    requires Stands(log, source, j, k)
    ensures Stands(log, source, j, k + 1)
  {
    assert log[..k + 1][..k] == log[..k];
    assert RoundBetween(log, j, k + 1) <==> RoundBetween(log, j, k) || log[k] == RoundBegan;
  }

  lemma {:induction false} CursorStands(log: seq<Event>, source: string, j: nat, k: nat)
    requires j < k <= |log| && log[j].PageRead? && log[j].source == source
    requires Untouched(log, source, j + 1, k) && !LostItsRound(log, j, k)
    ensures Stands(log, source, j, k)
    decreases k
  {
    if j == k - 1 {
      assert log[..k][..j] == log[..j];
    } else if log[k - 1] == Abandoned {
      var m := BackToRecord(log, j, k);
      CursorStands(log, source, j, m);
    } else {
      assert !LostItsRound(log, j, k - 1);
      CursorStands(log, source, j, k - 1);
      StandsOneMore(log, source, j, k - 1);
    }
  }

  /** Two successive reads of a source, in one round or in different ones: the second starts where the
      first said the next page is, and there is no second after the last page until a restart. */
  lemma ReadsFormChain(store: SurveyStore, source: string, j: nat, k: nat)
    requires store.Valid() && j < k < |store.log|
    requires store.log[j].PageRead? && store.log[j].source == source
    requires store.log[k].PageRead? && store.log[k].source == source
    requires Untouched(store.log, source, j + 1, k) && !LostItsRound(store.log, j, k)
    ensures store.log[j].page.hasMore && store.log[j].page.topics != []
    ensures store.log[k].offset == store.log[j].page.nextOffset
         || (RoundBetween(store.log, j, k) && store.log[j].page.nextOffset < 0 && store.log[k].offset == 0)
    ensures RoundBetween(store.log, j, k) ==> store.log[k].offset >= 0
  {
    EveryEventFits(store.log, store.sources, k);
    CursorStands(store.log, source, j, k);
  }

  lemma {:induction false} FreshCursorIsZero(log: seq<Event>, source: string, j: nat, k: nat)
    requires j <= k <= |log| && (j == 0 || log[j - 1] == Cleared) && Untouched(log, source, j, k)
    ensures Expected(log[..k], source) == 0
    decreases k
  {
    if k > 0 {
      assert log[..k][..k - 1] == log[..k - 1];
      if j < k && log[k - 1] == Abandoned {
        var m := |Recorded(log[..k - 1])|;
        assert log[..k - 1][..m] == log[..m];
        assert j > 0 ==> log[..k - 1][j - 1] == Cleared;
        FreshCursorIsZero(log, source, j, m);
      } else if j < k {
        FreshCursorIsZero(log, source, j, k - 1);
      }
    }
  }

  /** The first read of a source, at the very start or after a restart, is at offset zero. */
  lemma FirstReadIsAtZero(store: SurveyStore, source: string, j: nat, k: nat)
    requires store.Valid() && j <= k < |store.log| && (j == 0 || store.log[j - 1] == Cleared)
    requires Untouched(store.log, source, j, k) && store.log[k].PageRead? && store.log[k].source == source
    ensures store.log[k].offset == 0
  {
    EveryEventFits(store.log, store.sources, k);
    FreshCursorIsZero(store.log, source, j, k);
  }

  lemma {:induction false} RoundStateStands(log: seq<Event>, j: nat, k: nat)
    requires j < k <= |log| && SameRound(log, j, k)
    ensures Halted(log[..j + 1]) ==> Halted(log[..k])
    ensures Parted(log[..j + 1]) ==> Parted(log[..k])
    decreases k
  {
    if j + 1 < k {
      RoundStateStands(log, j, k - 1);
      assert log[..k][..k - 1] == log[..k - 1];
    }
  }

  /** No page is read in a round after its time is up, nor after opinions of which at least one was given
      and none asks to go on. */
  lemma StopIsHeeded(store: SurveyStore, j: nat, k: nat)
    requires store.Valid() && j < k < |store.log| && SameRound(store.log, j, k)
    requires store.log[j].TimeUp? || (store.log[j].Heard? && (store.log[j].typed != None || store.log[j].llm != None))
    requires store.log[j].Heard? ==>
               && store.log[j].typed in {None, Some(ProcessFrontier), Some(PauseAndResume), Some(SourceExhausted)}
               && store.log[j].llm in {None, Some(ProcessFrontier), Some(PauseAndResume), Some(SourceExhausted)}
    ensures !store.log[k].PageRead?
  {
    EveryEventFits(store.log, store.sources, k);
    RoundStateStands(store.log, j, k);
    assert store.log[..j + 1][..j] == store.log[..j];
  }

  lemma {:induction false} UnheardStands(log: seq<Event>, j: nat, k: nat)
    requires j < k <= |log| && SameRound(log, j, k) && log[j].PageRead?
    requires forall i :: j < i < k ==> !log[i].Heard?
    ensures Unheard(log[..k])
    decreases k
  {
    if j + 1 < k {
      UnheardStands(log, j, k - 1);
      assert log[..k][..k - 1] == log[..k - 1];
    }
  }

  /** Between two pages of a round the opinions on the first of them are heard. */
  lemma EveryPageIsHeard(store: SurveyStore, j: nat, k: nat)
    requires store.Valid() && j < k < |store.log| && SameRound(store.log, j, k)
    requires store.log[j].PageRead? && store.log[k].PageRead?
    ensures exists i :: j < i < k && store.log[i].Heard?
  {
    EveryEventFits(store.log, store.sources, k);
    if forall i :: j < i < k ==> !store.log[i].Heard? {
      UnheardStands(store.log, j, k);
      assert false;
    }
  }

  /** One disagreement is answered with one more page; after a second one the round reads no more. */
  lemma SecondDisagreementStops(store: SurveyStore, i: nat, j: nat, k: nat)
    requires store.Valid() && i < j < k < |store.log| && SameRound(store.log, i, k)
    requires PartWays(store.log[i]) && PartWays(store.log[j])
    ensures !store.log[k].PageRead?
  {
    EveryEventFits(store.log, store.sources, k);
    RoundStateStands(store.log, i, j);
    RoundStateStands(store.log, j, k);
    assert store.log[..i + 1][..i] == store.log[..i] && store.log[..j + 1][..j] == store.log[..j];
  }

  /** A record is dropped only when every source was exhausted or failed; a record that is kept names
      exactly those that were not, each with the offset its next read will use. */
  lemma RecordsAreExact(store: SurveyStore, k: nat)
    requires store.Valid() && k < |store.log|
    ensures store.log[k] == Cleared ==> forall s :: s in store.sources ==> Done(store.log[..k], s)
    ensures store.log[k].Saved? ==>
              && (exists s :: s in store.log[k].resume.active)
              && forall s :: s in store.log[k].resume.active <==> s in store.sources && !Done(store.log[..k], s)
    ensures store.log[k].Saved? ==>
              forall s :: s in store.log[k].resume.active ==>
                s in store.log[k].resume.cursors && store.log[k].resume.cursors[s] == Expected(store.log[..k], s)
  {
    EveryEventFits(store.log, store.sources, k);
    if store.log[k] == Cleared {
      assert forall s :: s in store.sources && !Done(store.log[..k], s) ==> s in Pending(store.log[..k], store.sources);
    }
  }

  /** Nothing between `from` and `to` reads or drops `source`, writes the record or ends the round. */
  predicate Quiet(log: seq<Event>, source: string, from: nat, to: nat)
    requires from <= to <= |log|
  {
    forall i :: from <= i < to ==>
      && !IsRecord(log[i]) && log[i] != RoundBegan && log[i] != Abandoned && log[i] != SourceFailed(source)
      && !(log[i].PageRead? && log[i].source == source)
  }

  lemma {:induction false} SourceStands(log: seq<Event>, source: string, j: nat, k: nat)
    requires j < k <= |log| && Quiet(log, source, j + 1, k)
    ensures Done(log[..k], source) == Done(log[..j + 1], source)
    ensures Expected(log[..k], source) == Expected(log[..j + 1], source)
    decreases k
  {
    if j + 1 < k {
      SourceStands(log, source, j, k - 1);
      assert log[..k][..k - 1] == log[..k - 1];
    }
  }

  /** A round's record is decided, for each source, by the last page read of it: the source is kept, at the
      page's next offset, exactly when the page had topics and promised more. */
  lemma RecordFollowsLastPage(store: SurveyStore, source: string, j: nat, k: nat)
    requires store.Valid() && j < k < |store.log| && Quiet(store.log, source, j + 1, k)
    requires store.log[j].PageRead? && store.log[j].source == source && IsRecord(store.log[k])
    ensures store.log[k].Saved? ==>
              (source in store.log[k].resume.active <==> store.log[j].page.hasMore && store.log[j].page.topics != [])
    ensures store.log[k].Saved? && source in store.log[k].resume.active ==>
              && source in store.log[k].resume.cursors
              && store.log[k].resume.cursors[source] == store.log[j].page.nextOffset
    ensures store.log[k] == Cleared ==> !(store.log[j].page.hasMore && store.log[j].page.topics != [])
  {
    EveryEventFits(store.log, store.sources, j);
    RecordsAreExact(store, k);
    SourceStands(store.log, source, j, k);
    assert store.log[..j + 1][..j] == store.log[..j];
  }

  /** A source whose listing failed is in no record of its round. */
  lemma FailedSourceIsDropped(store: SurveyStore, source: string, j: nat, k: nat)
    requires store.Valid() && j < k < |store.log| && Quiet(store.log, source, j + 1, k)
    requires store.log[j] == SourceFailed(source)
    ensures store.log[k].Saved? ==> source !in store.log[k].resume.active
    ensures !(store.log[k].PageRead? && store.log[k].source == source)
  {
    EveryEventFits(store.log, store.sources, k);
    SourceStands(store.log, source, j, k);
    assert store.log[..j + 1][..j] == store.log[..j];
  }

  lemma {:induction false} QueuedThisRoundIs(log: seq<Event>, b: nat, k: nat)
    requires b < k <= |log| && log[b] == RoundBegan && SameRound(log, b, k)
    ensures forall t :: t in QueuedThisRound(log[..k]) <==>
              exists i :: b < i < k && log[i].Queued? && t in log[i].topics
    decreases k
  {
    assert log[..k][..k - 1] == log[..k - 1] && log[..k][k - 1] == log[k - 1];
    if b < k - 1 {
      QueuedThisRoundIs(log, b, k - 1);
    }
  }

  /** What is handed to the queue is exactly what is new in the round on the page just read. */
  lemma QueueingIsExact(store: SurveyStore, b: nat, k: nat)
    requires store.Valid() && b < k < |store.log| && store.log[b] == RoundBegan && SameRound(store.log, b, k)
    requires store.log[k].Queued?
    ensures store.log[k - 1].PageRead?
    ensures forall t :: t in store.log[k].topics <==>
              && t in store.log[k - 1].page.topics
              && !(exists i :: b < i < k && store.log[i].Queued? && t in store.log[i].topics)
  {
    EveryEventFits(store.log, store.sources, k);
    QueuedThisRoundIs(store.log, b, k);
  }
}
