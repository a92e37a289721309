/**
  `ContextHistory` and the journal it writes through.  The live context is replaced at each
  epoch; the journal and `raw` only grow.  Recovering a session from its journal gives back
  the live context of the last epoch.
 */
module History {
  import opened Wrappers
  import opened Messages
  import opened Identities

  datatype JournalEntry =
    | MessageEntry(sequence: nat, message: Message)
    | EpochEntry(sequence: nat, base: seq<Message>, numbers: seq<nat>)
    | OtherEntry(sequence: nat)

  type Journal = seq<JournalEntry>

  predicate Increasing(journal: Journal) {
    && (forall i :: 0 <= i < |journal| ==> 0 < journal[i].sequence)
    && (forall i, j :: 0 <= i < j < |journal| ==> journal[i].sequence < journal[j].sequence)
  }

  function LastSequence(journal: Journal): nat {
    if journal == [] then 0 else journal[|journal| - 1].sequence
  }

  /** The messages of the journal, with the numbers they were recorded under. */
  function JournalSources(journal: Journal): (sources: seq<Source>)
    ensures forall i :: 0 <= i < |sources| ==> FromJournal(sources[i], journal)
  {
    if journal == [] then []
    else
      var n := |journal| - 1;
      var rest := JournalSources(journal[..n]);
      if journal[n].MessageEntry? then rest + [(journal[n].message, journal[n].sequence)] else rest
  }

  predicate FromJournal(source: Source, journal: Journal) {
    exists k :: 0 <= k < |journal| && journal[k] == MessageEntry(source.1, source.0)
  }

  lemma {:induction false} JournalSourcesIncrease(journal: Journal)
    requires Increasing(journal)
    ensures GoodSources(JournalSources(journal))
    ensures forall i, j :: 0 <= i < j < |JournalSources(journal)| ==>
              JournalSources(journal)[i].1 < JournalSources(journal)[j].1
  {
    if journal != [] {
      var n := |journal| - 1;
      JournalSourcesIncrease(journal[..n]);
      var rest := JournalSources(journal[..n]);
      forall i | 0 <= i < |rest| ensures rest[i].1 < journal[n].sequence {
        assert FromJournal(rest[i], journal[..n]);
      }
    }
  }

  // ---------------------------------------------------------------------------------
  // Recovery
  // ---------------------------------------------------------------------------------

  /** The entries recorded up to a sequence number (all of them for `None`). */
  function Through(journal: Journal, through: Option<nat>): Journal {
    if journal == [] then []
    else
      var n := |journal| - 1;
      Through(journal[..n], through)
        + if through.None? || journal[n].sequence <= through.value then [journal[n]] else []
  }

  /** The position of the latest epoch. */
  function LatestEpoch(journal: Journal): (position: Option<nat>)
    ensures position.Some? ==> position.value < |journal| && journal[position.value].EpochEntry?
  {
    if journal == [] then None
    else
      var n := |journal| - 1;
      if journal[n].EpochEntry? then Some(n) else LatestEpoch(journal[..n])
  }

  function MessagesAfter(journal: Journal, sequence: nat): seq<Message> {
    if journal == [] then []
    else
      var n := |journal| - 1;
      MessagesAfter(journal[..n], sequence)
        + if journal[n].MessageEntry? && journal[n].sequence > sequence then [journal[n].message] else []
  }

  function WithPrompt(messages: seq<Message>, prompt: string): seq<Message> {
    if messages != [] && messages[0].System? then [System(prompt)] + messages[1..] else messages
  }

  /** `recovery_messages` for a journal with an epoch; `None` stands for older journals. */
  function RecoveryMessages(journal: Journal, prompt: string, through: Option<nat>): Option<seq<Message>> {
    var entries := Through(journal, through);
    match LatestEpoch(entries)
    case None => None
    case Some(at) => Some(WithPrompt(entries[at].base, prompt) + MessagesAfter(entries, entries[at].sequence))
  }

  lemma {:induction false} ThroughPrefix(journal: Journal, n: nat, through: Option<nat>)
    requires Increasing(journal) && n <= |journal|
    requires through == None || (n > 0 && through == Some(LastSequence(journal[..n])))
    ensures through.None? ==> Through(journal, through) == journal
    ensures through.Some? ==> Through(journal, through) == journal[..n]
  {
    if journal != [] {
      var last := |journal| - 1;
      if through.None? {
        ThroughPrefix(journal[..last], 0, through);
      } else if n <= last {
        assert journal[..last][..n] == journal[..n];
        ThroughPrefix(journal[..last], n, through);
      } else {
        assert journal[..n] == journal;
        AllThrough(journal, through.value);
      }
    }
  }

  lemma {:induction false} AllThrough(journal: Journal, through: nat)
    requires forall i :: 0 <= i < |journal| ==> journal[i].sequence <= through
    ensures Through(journal, Some(through)) == journal
  {
    if journal != [] {
      AllThrough(journal[..|journal| - 1], through);
    }
  }

  /** The journal replays the context: the latest epoch's base, then what followed it. */
  ghost predicate Replays(journal: Journal, base: seq<Message>, messages: seq<Message>) {
    && |base| <= |messages| && messages[..|base|] == base
    && var at := LatestEpoch(journal);
       at.Some? && journal[at.value].base == base
       && MessagesAfter(journal, journal[at.value].sequence) == messages[|base|..]
  }

  lemma ReplaysMessage(journal: Journal, base: seq<Message>, messages: seq<Message>, entry: JournalEntry)
    requires Increasing(journal + [entry]) && Replays(journal, base, messages) && !entry.EpochEntry?
    ensures Replays(journal + [entry], base, if entry.MessageEntry? then messages + [entry.message] else messages)
  {
    var grown := journal + [entry];
    assert grown[..|journal|] == journal;
    var at := LatestEpoch(journal).value;
    assert grown[at].sequence < grown[|journal|].sequence;
  }

  lemma ReplaysEpoch(journal: Journal, base: seq<Message>, numbers: seq<nat>, sequence: nat)
    requires Increasing(journal + [EpochEntry(sequence, base, numbers)])
    ensures Replays(journal + [EpochEntry(sequence, base, numbers)], base, base)
  {
    var grown := journal + [EpochEntry(sequence, base, numbers)];
    assert grown[..|journal|] == journal;
    forall i | 0 <= i < |journal| ensures journal[i].sequence < sequence {
      assert grown[i] == journal[i] && grown[|journal|].sequence == sequence;
    }
    NothingAfter(journal, sequence);
  }

  lemma {:induction false} NothingAfter(journal: Journal, sequence: nat)
    requires forall i :: 0 <= i < |journal| ==> journal[i].sequence < sequence
    ensures MessagesAfter(journal, sequence) == []
  {
    if journal != [] {
      NothingAfter(journal[..|journal| - 1], sequence);
    }
  }

  /** However the journal grew since, reading it up to an earlier moment recovers the
      context of that moment, with the system prompt renewed. */
  lemma RecoveryIsExact(journal: Journal, n: nat, base: seq<Message>, messages: seq<Message>, prompt: string)
    requires Increasing(journal) && 0 < n <= |journal| && Replays(journal[..n], base, messages)
    ensures RecoveryMessages(journal, prompt, Some(LastSequence(journal[..n])))
         == Some(WithPrompt(base, prompt) + messages[|base|..])
    ensures n == |journal| ==>
              RecoveryMessages(journal, prompt, None) == Some(WithPrompt(base, prompt) + messages[|base|..])
  {
    ThroughPrefix(journal, n, Some(LastSequence(journal[..n])));
    ThroughPrefix(journal, 0, None);
    if n == |journal| {
      assert journal[..n] == journal;
    }
  }

  // ---------------------------------------------------------------------------------
  // Reusing identities
  // ---------------------------------------------------------------------------------

  function NumbersOf(message: Message, sources: seq<Source>): seq<nat> {
    if sources == [] then []
    else
      var last := |sources| - 1;
      NumbersOf(message, sources[..last]) + if sources[last].0 == message then [sources[last].1] else []
  }

  lemma {:induction false} NumbersAtPositions(message: Message, sources: seq<Source>)
    ensures |NumbersOf(message, sources)| == |PositionsOf(message, sources)|
    ensures forall k :: 0 <= k < |NumbersOf(message, sources)| ==>
              NumbersOf(message, sources)[k] == sources[PositionsOf(message, sources)[k]].1
  {
    if sources != [] {
      NumbersAtPositions(message, sources[..|sources| - 1]);
    }
  }

  ghost predicate Holds(pool: map<Message, seq<nat>>, sources: seq<Source>) {
    forall m :: Available(pool, m) == NumbersOf(m, sources)
  }

  lemma HoldsNext(pool: map<Message, seq<nat>>, sources: seq<Source>, n: nat)
    requires n < |sources| && Holds(pool, sources[..n])
    ensures var (message, sequence) := sources[n];
            Holds(pool[message := Available(pool, message) + [sequence]], sources[..n + 1])
  {
    assert sources[..n + 1][..n] == sources[..n];
    var (message, sequence) := sources[n];
    var more := pool[message := Available(pool, message) + [sequence]];
    forall m ensures Available(more, m) == NumbersOf(m, sources[..n + 1]) {
      assert Available(pool, m) == NumbersOf(m, sources[..n]);
    }
  }

  function Available(pool: map<Message, seq<nat>>, message: Message): seq<nat> {
    if message in pool then pool[message] else []
  }

  /** What is left for a message after `used` of its occurrences took a number. */
  function Left(numbers: seq<nat>, used: nat): seq<nat> {
    if used <= |numbers| then numbers[..|numbers| - used] else []
  }

  lemma LeftPop(numbers: seq<nat>, used: nat)
    ensures var left := Left(numbers, used);
            if used < |numbers| then
              left != [] && left[|left| - 1] == numbers[|numbers| - 1 - used] && Left(numbers, used + 1) == left[..|left| - 1]
            else left == [] && Left(numbers, used + 1) == []
  {
  }

  /** A dictionary of lists, filled in source order. */
  method Pool(sources: seq<Source>) returns (available: map<Message, seq<nat>>)
    ensures Holds(available, sources)
  {
    available := map[];
    for n := 0 to |sources|
      invariant Holds(available, sources[..n])
    {
      var (message, sequence) := sources[n];
      HoldsNext(available, sources, n);
      available := available[message := Available(available, message) + [sequence]];
    }
    assert sources[..|sources|] == sources;
  }

  /** The pool after the messages `used` each took one number. */
  ghost predicate Remains(pool: map<Message, seq<nat>>, sources: seq<Source>, used: multiset<Message>) {
    forall m :: Available(pool, m) == Left(NumbersOf(m, sources), used[m])
  }

  lemma NumberTaken(frozen: seq<Message>, i: nat, sources: seq<Source>)
    requires i < |frozen|
    ensures var numbers := NumbersOf(frozen[i], sources);
            var later := LaterCopies(frozen, i);
            SequenceOf(frozen, i, sources) == if later < |numbers| then numbers[|numbers| - 1 - later] else 0
  {
    NumbersAtPositions(frozen[i], sources);
  }

  lemma RemainsPop(pool: map<Message, seq<nat>>, sources: seq<Source>, used: multiset<Message>, item: Message)
    requires Remains(pool, sources, used)
    ensures var rest := Available(pool, item);
            Remains(if rest != [] then pool[item := rest[..|rest| - 1]] else pool, sources, used[item := used[item] + 1])
  {
    var more := used[item := used[item] + 1];
    LeftPop(NumbersOf(item, sources), used[item]);
    assert Available(pool, item) == Left(NumbersOf(item, sources), used[item]);
  }

  /** The pool after the messages from `i` on took their numbers. */
  ghost predicate RemainsFrom(pool: map<Message, seq<nat>>, sources: seq<Source>, frozen: seq<Message>, i: nat)
    requires i <= |frozen|
  {
    Remains(pool, sources, multiset(frozen[i..]))
  }

  lemma RemainsNext(pool: map<Message, seq<nat>>, sources: seq<Source>, frozen: seq<Message>, i: nat)
    requires i < |frozen| && RemainsFrom(pool, sources, frozen, i + 1)
    ensures var rest := Available(pool, frozen[i]);
            SequenceOf(frozen, i, sources) == if rest != [] then rest[|rest| - 1] else 0
    ensures var rest := Available(pool, frozen[i]);
            RemainsFrom(if rest != [] then pool[frozen[i] := rest[..|rest| - 1]] else pool, sources, frozen, i)
  {
    hide NumbersOf, Left, SequenceOf;
    var item := frozen[i];
    var used := multiset(frozen[i + 1..]);
    TailCount(frozen, i);
    RemainsPop(pool, sources, used, item);
    NumberTaken(frozen, i, sources);
    LeftPop(NumbersOf(item, sources), used[item]);
    assert Available(pool, item) == Left(NumbersOf(item, sources), used[item]);
  }

  lemma TailCount(frozen: seq<Message>, i: nat)
    requires i < |frozen|
    ensures var used := multiset(frozen[i + 1..]);
            multiset(frozen[i..]) == used[frozen[i] := used[frozen[i]] + 1] && LaterCopies(frozen, i) == used[frozen[i]]
  {
    assert frozen[i..] == [frozen[i]] + frozen[i + 1..];
  }

  /** `taken` lists the numbers of the last messages, last one first. */
  ghost predicate Taken(frozen: seq<Message>, sources: seq<Source>, taken: seq<nat>) {
    |taken| <= |frozen| && forall k :: 0 <= k < |taken| ==> taken[k] == SequenceOf(frozen, |frozen| - 1 - k, sources)
  }

  lemma TakenNext(frozen: seq<Message>, sources: seq<Source>, taken: seq<nat>, i: nat, number: nat)
    requires Taken(frozen, sources, taken) && |taken| < |frozen|
    requires i == |frozen| - 1 - |taken| && number == SequenceOf(frozen, i, sources)
    ensures Taken(frozen, sources, taken + [number])
  {
  }

  function Reversed<T>(s: seq<T>): seq<T> {
    seq(|s|, k requires 0 <= k < |s| => s[|s| - 1 - k])
  }

  lemma AllTaken(frozen: seq<Message>, sources: seq<Source>, taken: seq<nat>)
    requires Taken(frozen, sources, taken) && |taken| == |frozen|
    ensures Reversed(taken) == Assigned(frozen, sources)
  {
    forall i | 0 <= i < |frozen| ensures Reversed(taken)[i] == Assigned(frozen, sources)[i] {
      assert taken[|frozen| - 1 - i] == SequenceOf(frozen, i, sources);
    }
  }

  lemma NothingTaken(pool: map<Message, seq<nat>>, frozen: seq<Message>, sources: seq<Source>)
    requires Holds(pool, sources)
    ensures RemainsFrom(pool, sources, frozen, |frozen|) && Taken(frozen, sources, [])
  {
    assert frozen[|frozen|..] == [];
  }

  /** Popped from the end of the new context backwards. */
  method ReuseIdentities(frozen: seq<Message>, sources: seq<Source>) returns (sequences: seq<nat>)
    ensures sequences == Assigned(frozen, sources)
  {
    var available := Pool(sources);
    var taken: seq<nat> := [];
    var i := |frozen|;
    NothingTaken(available, frozen, sources);
    hide *;
    while i > 0
      invariant 0 <= i <= |frozen| && |taken| == |frozen| - i
      invariant RemainsFrom(available, sources, frozen, i)
      invariant Taken(frozen, sources, taken)
    {
      i := i - 1;
      var item := frozen[i];
      var rest := Available(available, item);
      RemainsNext(available, sources, frozen, i);
      var number := if rest != [] then rest[|rest| - 1] else 0;
      TakenNext(frozen, sources, taken, i, number);
      available := if rest != [] then available[item := rest[..|rest| - 1]] else available;
      taken := taken + [number];
    }
    AllTaken(frozen, sources, taken);
    sequences := Reversed(taken);
  }

  // ---------------------------------------------------------------------------------
  // What appending and starting an epoch keep
  // ---------------------------------------------------------------------------------

  datatype Epoch = Epoch(reason: string, contract: string, base: seq<Message>)

  /** What every operation keeps: numbers identify messages and are those the journal
      assigns, and the journal replays to the live context. */
  ghost predicate Sound(epoch: Option<Epoch>, messages: seq<Message>, sequences: seq<nat>, next: nat, journal: Option<Journal>) {
    && Identifies(messages, sequences)
    && (forall i :: 0 <= i < |sequences| ==> sequences[i] <= LastNumber(next, journal))
    && (journal.Some? ==>
         && Increasing(journal.value)
         && sequences == Assigned(messages, JournalSources(journal.value))
         && (epoch.Some? ==> Replays(journal.value, epoch.value.base, messages)))
  }

  function LastNumber(next: nat, journal: Option<Journal>): nat {
    if journal.Some? then LastSequence(journal.value) else next
  }

  /** The journal is only ever appended to. */
  predicate Extends(before: Option<Journal>, after: Option<Journal>) {
    before.Some? == after.Some? && (before.Some? ==> before.value <= after.value)
  }

  function SourcesOf(messages: seq<Message>, sequences: seq<nat>, journal: Option<Journal>): seq<Source>
    requires |messages| == |sequences|
  {
    if journal.Some? then JournalSources(journal.value) else Paired(messages, sequences)
  }

  /** An epoch as the raw log sees it: its base replaced what `at` messages had led to. */
  datatype EpochMark = EpochMark(at: nat, epoch: Epoch)

  function Latest(marks: seq<EpochMark>): Option<Epoch> {
    if marks == [] then None else Some(marks[|marks| - 1].epoch)
  }

  predicate MarksWithin(marks: seq<EpochMark>, raw: seq<Message>) {
    && (forall i :: 0 <= i < |marks| ==> marks[i].at <= |raw|)
    && (forall i, j :: 0 <= i < j < |marks| ==> marks[i].at <= marks[j].at)
  }

  /** The live context the log and its epochs lead to: the latest base, then all that was
      appended since. */
  function Live(raw: seq<Message>, marks: seq<EpochMark>): seq<Message>
    requires MarksWithin(marks, raw)
  {
    if marks == [] then raw else marks[|marks| - 1].epoch.base + raw[marks[|marks| - 1].at..]
  }

  lemma SameLength(epoch: Option<Epoch>, messages: seq<Message>, sequences: seq<nat>, next: nat, journal: Option<Journal>)
    requires Sound(epoch, messages, sequences, next, journal)
    ensures |messages| == |sequences|
  {
  }

  lemma AssignedBelow(messages: seq<Message>, journal: Journal)
    requires Increasing(journal)
    ensures forall i :: 0 <= i < |messages| ==> Assigned(messages, JournalSources(journal))[i] <= LastSequence(journal)
  {
    var sources := JournalSources(journal);
    forall i | 0 <= i < |messages| ensures SequenceOf(messages, i, sources) <= LastSequence(journal) {
      var p := SourceOf(messages, i, sources);
      if p.Some? {
        assert FromJournal(sources[p.value], journal);
      }
    }
  }

  function Recorded(journal: Option<Journal>, message: Message, sequence: nat): Option<Journal> {
    if journal.Some? then Some(journal.value + [MessageEntry(sequence, message)]) else None
  }

  lemma SoundParts(epoch: Option<Epoch>, messages: seq<Message>, sequences: seq<nat>, next: nat, journal: Option<Journal>)
    requires Sound(epoch, messages, sequences, next, journal)
    ensures Identifies(messages, sequences) && NumbersUpTo(sequences, LastNumber(next, journal))
    ensures journal.Some? ==> Increasing(journal.value) && sequences == Assigned(messages, JournalSources(journal.value))
    ensures journal.Some? && epoch.Some? ==> Replays(journal.value, epoch.value.base, messages)
  {
  }

  lemma SoundMade(epoch: Option<Epoch>, messages: seq<Message>, sequences: seq<nat>, next: nat, journal: Option<Journal>)
    requires Identifies(messages, sequences) && NumbersUpTo(sequences, LastNumber(next, journal))
    requires journal.Some? ==> Increasing(journal.value) && sequences == Assigned(messages, JournalSources(journal.value))
    requires journal.Some? && epoch.Some? ==> Replays(journal.value, epoch.value.base, messages)
    ensures Sound(epoch, messages, sequences, next, journal)
  {
  }

  predicate NumbersUpTo(sequences: seq<nat>, last: nat) {
    forall i :: 0 <= i < |sequences| ==> sequences[i] <= last
  }

  lemma NumbersMore(sequences: seq<nat>, sequence: nat)
    requires sequence > 0 && NumbersUpTo(sequences, sequence - 1)
    ensures NumbersUpTo(sequences + [sequence], sequence) && forall i :: 0 <= i < |sequences| ==> sequences[i] < sequence
  {
  }

  lemma AppendSound(epoch: Option<Epoch>, messages: seq<Message>, sequences: seq<nat>, next: nat, journal: Option<Journal>, message: Message)
    requires Sound(epoch, messages, sequences, next, journal)
    ensures var sequence := LastNumber(next, journal) + 1;
            Sound(epoch, messages + [message], sequences + [sequence], sequence, Recorded(journal, message, sequence))
  {
    var sequence := LastNumber(next, journal) + 1;
    var journal' := Recorded(journal, message, sequence);
    SoundParts(epoch, messages, sequences, next, journal);
    RecordedLast(journal, next, message);
    hide *;
    NumbersMore(sequences, sequence);
    IdentifiesAppend(messages, sequences, message, sequence);
    if journal.Some? {
      RecordedSound(epoch, messages, sequences, journal.value, message, sequence);
    }
    SoundMade(epoch, messages + [message], sequences + [sequence], sequence, journal');
  }

  lemma RecordedLast(journal: Option<Journal>, next: nat, message: Message)
    ensures var sequence := LastNumber(next, journal) + 1;
            && LastNumber(sequence, Recorded(journal, message, sequence)) == sequence
            && Recorded(journal, message, sequence).Some? == journal.Some?
            && (journal.Some? ==>
                  && Recorded(journal, message, sequence).value == journal.value + [MessageEntry(sequence, message)]
                  && sequence == LastSequence(journal.value) + 1)
  {
  }

  lemma RecordedSound(epoch: Option<Epoch>, messages: seq<Message>, sequences: seq<nat>, journal: Journal, message: Message, sequence: nat)
    requires Increasing(journal) && sequences == Assigned(messages, JournalSources(journal))
    requires epoch.Some? ==> Replays(journal, epoch.value.base, messages)
    requires sequence == LastSequence(journal) + 1
    ensures var grown := journal + [MessageEntry(sequence, message)];
            && Increasing(grown) && sequences + [sequence] == Assigned(messages + [message], JournalSources(grown))
            && (epoch.Some? ==> Replays(grown, epoch.value.base, messages + [message]))
  {
    hide *;
    var entry := MessageEntry(sequence, message);
    AssignedAppend(messages, JournalSources(journal), message, sequence);
    SourcesGrow(journal, entry);
    IncreasingMore(journal, entry);
    if epoch.Some? {
      ReplaysMessage(journal, epoch.value.base, messages, entry);
    }
  }

  lemma IncreasingMore(journal: Journal, entry: JournalEntry)
    requires Increasing(journal) && entry.sequence == LastSequence(journal) + 1
    ensures Increasing(journal + [entry]) && LastSequence(journal + [entry]) == entry.sequence
  {
  }

  lemma SourcesGrow(journal: Journal, entry: JournalEntry)
    ensures JournalSources(journal + [entry])
         == if entry.MessageEntry? then JournalSources(journal) + [(entry.message, entry.sequence)] else JournalSources(journal)
  {
    assert (journal + [entry])[..|journal|] == journal;
  }

  lemma IdentifiesAppend(messages: seq<Message>, sequences: seq<nat>, message: Message, sequence: nat)
    requires Identifies(messages, sequences)
    requires forall i :: 0 <= i < |sequences| ==> sequences[i] < sequence
    ensures Identifies(messages + [message], sequences + [sequence])
  {
  }

  lemma NoteSound(epoch: Option<Epoch>, messages: seq<Message>, sequences: seq<nat>, next: nat, journal: Journal)
    requires Sound(epoch, messages, sequences, next, Some(journal))
    ensures Sound(epoch, messages, sequences, next, Some(journal + [OtherEntry(LastSequence(journal) + 1)]))
  {
    var entry := OtherEntry(LastSequence(journal) + 1);
    assert (journal + [entry])[..|journal|] == journal;
    if epoch.Some? {
      ReplaysMessage(journal, epoch.value.base, messages, entry);
    }
  }

  lemma EpochSound(epoch: Option<Epoch>, messages: seq<Message>, sequences: seq<nat>, next: nat, journal: Option<Journal>,
                   reason: string, contract: string, base: seq<Message>)
    requires Sound(epoch, messages, sequences, next, journal)
    ensures var numbers := Assigned(base, SourcesOf(messages, sequences, journal));
            Sound(Some(Epoch(reason, contract, base)), base, numbers, next,
                  if journal.Some? then Some(journal.value + [EpochEntry(LastSequence(journal.value) + 1, base, numbers)]) else None)
  {
    var sources := SourcesOf(messages, sequences, journal);
    SourcesAreGood(epoch, messages, sequences, next, journal);
    AssignedIdentifies(base, sources);
    if journal.Some? {
      JournalEpoch(journal.value, base, reason, contract, next);
    } else {
      PairedBelow(base, messages, sequences, next);
    }
  }

  lemma JournalEpoch(journal: Journal, base: seq<Message>, reason: string, contract: string, next: nat)
    requires Increasing(journal) && Identifies(base, Assigned(base, JournalSources(journal)))
    ensures var numbers := Assigned(base, JournalSources(journal));
            Sound(Some(Epoch(reason, contract, base)), base, numbers, next,
                  Some(journal + [EpochEntry(LastSequence(journal) + 1, base, numbers)]))
  {
    hide Assigned, Identifies, JournalSources;
    var numbers := Assigned(base, JournalSources(journal));
    var entry := EpochEntry(LastSequence(journal) + 1, base, numbers);
    AssignedBelow(base, journal);
    IncreasingMore(journal, entry);
    SourcesGrow(journal, entry);
    ReplaysEpoch(journal, base, numbers, entry.sequence);
    hide Increasing, LastSequence, Replays;
    assert |numbers| == |base| by { AssignedLength(base, JournalSources(journal)); }
  }

  lemma AssignedLength(messages: seq<Message>, sources: seq<Source>)
    ensures |Assigned(messages, sources)| == |messages|
  {
  }

  lemma PairedBelow(base: seq<Message>, messages: seq<Message>, sequences: seq<nat>, next: nat)
    requires |messages| == |sequences| && forall i :: 0 <= i < |sequences| ==> sequences[i] <= next
    ensures forall i :: 0 <= i < |base| ==> Assigned(base, Paired(messages, sequences))[i] <= next
  {
    var sources := Paired(messages, sequences);
    forall i | 0 <= i < |base| ensures SequenceOf(base, i, sources) <= next {
      var p := SourceOf(base, i, sources);
    }
  }

  // ---------------------------------------------------------------------------------
  // Retained messages keep their identity
  // ---------------------------------------------------------------------------------

  lemma LiveNumbers(epoch: Option<Epoch>, messages: seq<Message>, sequences: seq<nat>, next: nat, journal: Option<Journal>)
    requires Sound(epoch, messages, sequences, next, journal)
    ensures sequences == Assigned(messages, SourcesOf(messages, sequences, journal))
  {
    if journal.None? {
      AssignedSelf(messages, sequences);
    }
  }

  /** A new context that ends in a filtered suffix of the old one keeps, duplicates
      included, exactly the numbers those messages had. */
  lemma RetainedKeepNumbers(epoch: Option<Epoch>, messages: seq<Message>, sequences: seq<nat>, next: nat, journal: Option<Journal>,
                            front: seq<Message>, from: nat, keep: Message -> bool)
    requires Sound(epoch, messages, sequences, next, journal) && from <= |messages|
    ensures Assigned(front + Kept(messages[from..], keep), SourcesOf(messages, sequences, journal))[|front|..]
         == KeptNumbers(messages[from..], sequences[from..], keep)
  {
    var sources := SourcesOf(messages, sequences, journal);
    LiveNumbers(epoch, messages, sequences, next, journal);
    AssignedSuffix(front, Kept(messages[from..], keep), sources);
    AssignedKept(messages[from..], keep, sources);
    assert messages == messages[..from] + messages[from..];
    AssignedSuffix(messages[..from], messages[from..], sources);
  }

  /** Where a kept message stands after filtering. */
  lemma {:induction false} KeptAt(messages: seq<Message>, numbers: seq<nat>, keep: Message -> bool, at: nat)
    requires |messages| == |numbers| && at < |messages| && keep(messages[at])
    ensures var place := |Kept(messages[..at], keep)|;
            && place < |Kept(messages, keep)| && Kept(messages, keep)[place] == messages[at]
            && place < |KeptNumbers(messages, numbers, keep)|
            && KeptNumbers(messages, numbers, keep)[place] == numbers[at]
    decreases |messages|
  {
    if at > 0 {
      KeptAt(messages[1..], numbers[1..], keep, at - 1);
      assert messages[..at][1..] == messages[1..][..at - 1];
    }
  }

  /** The one position that carries a retained message's number is that message's. */
  lemma AnchorStays(epoch: Option<Epoch>, messages: seq<Message>, sequences: seq<nat>, next: nat, journal: Option<Journal>,
                    front: seq<Message>, from: nat, keep: Message -> bool, anchor: nat, base: seq<Message>, numbers: seq<nat>)
    requires Sound(epoch, messages, sequences, next, journal)
    requires from <= anchor < |messages| && keep(messages[anchor]) && sequences[anchor] != 0
    requires base == front + Kept(messages[from..], keep)
    requires numbers == Assigned(base, SourcesOf(messages, sequences, journal))
    ensures Names(base, numbers, |front| + |Kept(messages[from..anchor], keep)|, messages[anchor], sequences[anchor])
  {
    hide *;
    SameLength(epoch, messages, sequences, next, journal);
    AnchorPlace(epoch, messages, sequences, next, journal, front, from, keep, anchor);
    ghost var sources := SourcesOf(messages, sequences, journal);
    SourcesAreGood(epoch, messages, sequences, next, journal);
    ghost var place := |front| + |Kept(messages[from..anchor], keep)|;
    AssignedIdentifies(base, sources);
    OnlyPlace(base, numbers, place);
  }

  /** `message` stands at `place`, and no other position carries its number. */
  predicate Names(messages: seq<Message>, numbers: seq<nat>, place: nat, message: Message, number: nat) {
    && |messages| == |numbers| && place < |messages| && messages[place] == message
    && forall i :: 0 <= i < |messages| ==> (numbers[i] == number <==> i == place)
  }

  lemma OnlyPlace(messages: seq<Message>, numbers: seq<nat>, place: nat)
    requires Identifies(messages, numbers) && place < |messages| && numbers[place] != 0
    ensures Names(messages, numbers, place, messages[place], numbers[place])
  {
  }

  lemma AnchorPlace(epoch: Option<Epoch>, messages: seq<Message>, sequences: seq<nat>, next: nat, journal: Option<Journal>,
                    front: seq<Message>, from: nat, keep: Message -> bool, anchor: nat)
    requires Sound(epoch, messages, sequences, next, journal)
    requires from <= anchor < |messages| && keep(messages[anchor])
    ensures var base := front + Kept(messages[from..], keep);
            var place := |front| + |Kept(messages[from..anchor], keep)|;
            && place < |base| && base[place] == messages[anchor]
            && Assigned(base, SourcesOf(messages, sequences, journal))[place] == sequences[anchor]
  {
    hide *;
    SameLength(epoch, messages, sequences, next, journal);
    var tail := messages[from..];
    var numbers := Assigned(front + Kept(tail, keep), SourcesOf(messages, sequences, journal));
    var place := |Kept(messages[from..anchor], keep)|;
    RetainedKeepNumbers(epoch, messages, sequences, next, journal, front, from, keep);
    KeptAt(tail, sequences[from..], keep, anchor - from);
    assert tail[..anchor - from] == messages[from..anchor];
    assert numbers[|front| + place] == numbers[|front|..][place];
  }

  lemma SourcesAreGood(epoch: Option<Epoch>, messages: seq<Message>, sequences: seq<nat>, next: nat, journal: Option<Journal>)
    requires Sound(epoch, messages, sequences, next, journal)
    ensures GoodSources(SourcesOf(messages, sequences, journal))
  {
    if journal.Some? {
      JournalSourcesIncrease(journal.value);
    } else {
      PairedIsGood(messages, sequences);
    }
  }

  // ---------------------------------------------------------------------------------
  // The class
  // ---------------------------------------------------------------------------------

  class ContextHistory {
    var epoch: Option<Epoch>
    var messages: seq<Message>
    var sequences: seq<nat>
    var nextSequence: nat
    var raw: seq<Message>
    /** `None` for a session that keeps no journal. */
    var journal: Option<Journal>
    /** Every epoch started so far. */
    ghost var marks: seq<EpochMark>

    constructor (journal: Option<Journal>)
      requires journal.Some? ==> Increasing(journal.value)
      ensures Valid() && messages == [] && raw == [] && this.journal == journal && epoch == None && marks == []
    {
      epoch, messages, sequences, nextSequence, raw := None, [], [], 0, [];
      this.journal := journal;
      marks := [];
    }

    ghost predicate Valid()
      reads this
    {
      && Sound(epoch, messages, sequences, nextSequence, journal)
      && epoch == Latest(marks) && MarksWithin(marks, raw) && messages == Live(raw, marks)
    }

    method Append(message: Message) returns (sequence: nat)
      requires Valid()
      modifies this
      ensures Valid()
      ensures messages == old(messages) + [message] && raw == old(raw) + [message]
      ensures sequences == old(sequences) + [sequence]
      ensures sequence == old(LastNumber(nextSequence, journal)) + 1
      ensures epoch == old(epoch) && marks == old(marks) && Extends(old(journal), journal)
    {
      hide Sound;
      AppendSound(epoch, messages, sequences, nextSequence, journal, message);
      sequence := nextSequence + 1;
      if journal.Some? {
        sequence := LastSequence(journal.value) + 1;
        journal := Some(journal.value + [MessageEntry(sequence, message)]);
      }
      nextSequence := sequence;
      messages := messages + [message];
      raw := raw + [message];
      sequences := sequences + [sequence];
    }

    /** Anything else another component records in the journal. */
    method Note()
      requires Valid() && journal.Some?
      modifies this`journal
      ensures Valid() && Extends(old(journal), journal)
    {
      NoteSound(epoch, messages, sequences, nextSequence, journal.value);
      journal := Some(journal.value + [OtherEntry(LastSequence(journal.value) + 1)]);
    }

    /** Refused for a base with unanswered calls, and then nothing changes. */
    method StartEpoch(reason: string, base: seq<Message>, contract: string) returns (started: bool)
      requires Valid()
      modifies this
      ensures Valid()
      ensures started == Closed(base)
      ensures !started ==> unchanged(this)
      ensures started ==> messages == base && sequences == Assigned(base, SourcesOf(old(messages), old(sequences), old(journal)))
      ensures started ==> epoch == Some(Epoch(reason, contract, base))
      ensures raw == old(raw) && Extends(old(journal), journal)
      ensures marks == old(marks) + if started then [EpochMark(|raw|, Epoch(reason, contract, base))] else []
    {
      hide Sound, Assigned;
      SameLength(epoch, messages, sequences, nextSequence, journal);
      started := ToolPairsClosed(base);
      if !started {
        return;
      }
      EpochSound(epoch, messages, sequences, nextSequence, journal, reason, contract, base);
      var numbers := ReuseIdentities(base, SourcesOf(messages, sequences, journal));
      if journal.Some? {
        journal := Some(journal.value + [EpochEntry(LastSequence(journal.value) + 1, base, numbers)]);
      }
      epoch := Some(Epoch(reason, contract, base));
      messages := base;
      sequences := numbers;
      marks := marks + [EpochMark(|raw|, epoch.value)];
    }
  }
}
