/**
  Which journal sequence number an epoch gives each retained message.  Equal messages are
  told apart by position: the i-th occurrence counted from the end of the new context takes
  the i-th latest source with the same content, and 0 when there is none left.
 */
module Identities {
  import opened Wrappers
  import opened Messages

  type Source = (Message, nat)

  /** The indices of the sources equal to `message`, in order. */
  function PositionsOf(message: Message, sources: seq<Source>): (positions: seq<nat>)
    ensures |positions| <= |sources|
    ensures forall k :: 0 <= k < |positions| ==> positions[k] < |sources| && sources[positions[k]].0 == message
    ensures forall j, k :: 0 <= j < k < |positions| ==> positions[j] < positions[k]
  {
    if sources == [] then []
    else
      var last := |sources| - 1;
      PositionsOf(message, sources[..last]) + if sources[last].0 == message then [last] else []
  }

  /** How often the message at `i` occurs again after `i`. */
  function LaterCopies(messages: seq<Message>, i: nat): nat
    requires i < |messages|
  {
    multiset(messages[i + 1..])[messages[i]]
  }

  function SourceOf(messages: seq<Message>, i: nat, sources: seq<Source>): (position: Option<nat>)
    requires i < |messages|
    ensures position.Some? ==> position.value < |sources| && sources[position.value].0 == messages[i]
  {
    var positions := PositionsOf(messages[i], sources);
    var later := LaterCopies(messages, i);
    if later < |positions| then Some(positions[|positions| - 1 - later]) else None
  }

  function SequenceOf(messages: seq<Message>, i: nat, sources: seq<Source>): nat
    requires i < |messages|
  {
    match SourceOf(messages, i, sources) case Some(p) => sources[p].1 case None => 0
  }

  function Assigned(messages: seq<Message>, sources: seq<Source>): (sequences: seq<nat>)
    ensures |sequences| == |messages|
    ensures forall i :: 0 <= i < |messages| ==> sequences[i] == SequenceOf(messages, i, sources)
  {
    seq(|messages|, i requires 0 <= i < |messages| => SequenceOf(messages, i, sources))
  }

  function Paired(messages: seq<Message>, sequences: seq<nat>): (sources: seq<Source>)
    requires |messages| == |sequences|
    ensures |sources| == |messages|
  {
    seq(|messages|, i requires 0 <= i < |messages| => (messages[i], sequences[i]))
  }

  // ---------------------------------------------------------------------------------
  // Distinct, equal to their sources, in order
  // ---------------------------------------------------------------------------------

  /** Numbers are unique, and grow along equal messages; 0 means "no source". */
  predicate Identifies(messages: seq<Message>, sequences: seq<nat>) {
    && |messages| == |sequences|
    && (forall i, j :: 0 <= i < j < |messages| && sequences[i] != 0 ==> sequences[i] != sequences[j])
    && (forall i, j :: 0 <= i < j < |messages| && messages[i] == messages[j] ==>
         sequences[i] == 0 || sequences[i] < sequences[j])
  }

  predicate GoodSources(sources: seq<Source>) {
    && (forall i, j :: 0 <= i < j < |sources| && sources[i].1 != 0 ==> sources[i].1 != sources[j].1)
    && (forall i, j :: 0 <= i < j < |sources| && sources[i].0 == sources[j].0 ==>
         sources[i].1 == 0 || sources[i].1 < sources[j].1)
  }

  lemma LaterCopiesDrop(messages: seq<Message>, i: nat, j: nat)
    requires i < j < |messages| && messages[i] == messages[j]
    ensures LaterCopies(messages, i) > LaterCopies(messages, j)
  {
    assert messages[i + 1..] == messages[i + 1..j] + [messages[j]] + messages[j + 1..];
  }

  lemma SourcesDiffer(messages: seq<Message>, i: nat, j: nat, sources: seq<Source>)
    requires i < j < |messages|
    requires SourceOf(messages, i, sources).Some?
    ensures messages[i] == messages[j] ==>
              SourceOf(messages, j, sources).Some?
              && SourceOf(messages, i, sources).value < SourceOf(messages, j, sources).value
    ensures SourceOf(messages, i, sources) != SourceOf(messages, j, sources)
  {
    if messages[i] == messages[j] {
      LaterCopiesDrop(messages, i, j);
    }
  }

  /** An epoch's numbers identify its messages. */
  lemma AssignedIdentifies(messages: seq<Message>, sources: seq<Source>)
    requires GoodSources(sources)
    ensures Identifies(messages, Assigned(messages, sources))
  {
    forall i, j | 0 <= i < j < |messages| && SequenceOf(messages, i, sources) != 0
      ensures SequenceOf(messages, i, sources) != SequenceOf(messages, j, sources)
      ensures messages[i] == messages[j] ==> SequenceOf(messages, i, sources) < SequenceOf(messages, j, sources)
    {
      SourcesDiffer(messages, i, j, sources);
      if SourceOf(messages, j, sources).Some? {
        var p, q := SourceOf(messages, i, sources).value, SourceOf(messages, j, sources).value;
        assert p != q;
      }
    }
  }

  /** Each number names a source with the same content. */
  lemma AssignedNames(messages: seq<Message>, sources: seq<Source>, i: nat)
    requires i < |messages| && Assigned(messages, sources)[i] != 0
    ensures (messages[i], Assigned(messages, sources)[i]) in sources
  {
    var p := SourceOf(messages, i, sources).value;
    assert sources[p] == (messages[i], sources[p].1);
  }

  lemma PairedIsGood(messages: seq<Message>, sequences: seq<nat>)
    requires Identifies(messages, sequences)
    ensures GoodSources(Paired(messages, sequences))
  {
  }

  // ---------------------------------------------------------------------------------
  // What is retained keeps its number
  // ---------------------------------------------------------------------------------

  /** Appending to the context and to the sources keeps every assignment. */
  lemma AssignedAppend(messages: seq<Message>, sources: seq<Source>, message: Message, sequence: nat)
    ensures Assigned(messages + [message], sources + [(message, sequence)]) == Assigned(messages, sources) + [sequence]
  {
    var more := messages + [message];
    var grown := sources + [(message, sequence)];
    assert grown[..|sources|] == sources;
    forall i | 0 <= i < |more|
      ensures SequenceOf(more, i, grown) == (Assigned(messages, sources) + [sequence])[i]
    {
      if i < |messages| {
        assert more[i + 1..] == messages[i + 1..] + [message];
        var positions := PositionsOf(messages[i], sources);
        assert PositionsOf(messages[i], grown) == positions + if message == messages[i] then [|sources|] else [];
      } else {
        assert more[i + 1..] == [];
      }
    }
  }

  /** The numbers of a suffix do not depend on what stands before it. */
  lemma AssignedSuffix(front: seq<Message>, back: seq<Message>, sources: seq<Source>)
    ensures Assigned(front + back, sources)[|front|..] == Assigned(back, sources)
  {
    forall i | 0 <= i < |back|
      ensures SequenceOf(front + back, |front| + i, sources) == SequenceOf(back, i, sources)
    {
      assert (front + back)[|front| + i + 1..] == back[i + 1..];
    }
  }

  /** Unjournalled contexts are their own sources: everything keeps its number. */
  lemma AssignedSelf(messages: seq<Message>, sequences: seq<nat>)
    requires |messages| == |sequences|
    ensures Assigned(messages, Paired(messages, sequences)) == sequences
  {
    var sources := Paired(messages, sequences);
    forall i | 0 <= i < |messages| ensures SourceOf(messages, i, sources) == Some(i) {
      SelfSource(messages, sequences, messages[i], |messages|, i);
      assert messages[i + 1..|messages|] == messages[i + 1..];
      assert sources[..|messages|] == sources;
    }
  }

  lemma {:induction false} SelfSource(messages: seq<Message>, sequences: seq<nat>, message: Message, n: nat, i: nat)
    requires |messages| == |sequences| && i < n <= |messages| && messages[i] == message
    ensures var positions := PositionsOf(message, Paired(messages, sequences)[..n]);
            var later := multiset(messages[i + 1..n])[message];
            later < |positions| && positions[|positions| - 1 - later] == i
    decreases n
  {
    var sources := Paired(messages, sequences);
    assert sources[..n][..n - 1] == sources[..n - 1];
    assert sources[n - 1].0 == messages[n - 1];
    hide Paired;
    if i < n - 1 {
      SelfSource(messages, sequences, message, n - 1, i);
      assert messages[i + 1..n] == messages[i + 1..n - 1] + [messages[n - 1]];
    } else {
      assert messages[i + 1..n] == [];
    }
  }

  /** The messages that `keep` accepts. */
  function Kept(messages: seq<Message>, keep: Message -> bool): seq<Message> {
    if messages == [] then []
    else (if keep(messages[0]) then [messages[0]] else []) + Kept(messages[1..], keep)
  }

  function KeptNumbers(messages: seq<Message>, sequences: seq<nat>, keep: Message -> bool): seq<nat>
    requires |messages| == |sequences|
  {
    if messages == [] then []
    else (if keep(messages[0]) then [sequences[0]] else []) + KeptNumbers(messages[1..], sequences[1..], keep)
  }

  lemma {:induction false} KeptCopies(messages: seq<Message>, keep: Message -> bool, message: Message)
    requires keep(message)
    ensures multiset(Kept(messages, keep))[message] == multiset(messages)[message]
    decreases |messages|
  {
    if messages != [] {
      KeptCopies(messages[1..], keep, message);
      assert messages == [messages[0]] + messages[1..];
    }
  }

  /** Dropping messages by their content leaves the numbers of the others alone. */
  lemma {:induction false} AssignedKept(messages: seq<Message>, keep: Message -> bool, sources: seq<Source>)
    ensures Assigned(Kept(messages, keep), sources) == KeptNumbers(messages, Assigned(messages, sources), keep)
    decreases |messages|
  {
    if messages != [] {
      var first, rest := messages[0], messages[1..];
      AssignedKept(rest, keep, sources);
      assert messages == [first] + rest;
      AssignedFirst(first, rest, sources);
      ghost var numbers := Assigned(messages, sources);
      ghost var others := Assigned(rest, sources);
      assert numbers[0] == FirstNumber(first, rest, sources) && numbers[1..] == others;
      if keep(first) {
        AssignedFirst(first, Kept(rest, keep), sources);
        KeptCopies(rest, keep, first);
        assert FirstNumber(first, Kept(rest, keep), sources) == numbers[0];
        assert Kept(messages, keep) == [first] + Kept(rest, keep);
        assert KeptNumbers(messages, numbers, keep) == [numbers[0]] + KeptNumbers(rest, others, keep);
      } else {
        assert Kept(messages, keep) == Kept(rest, keep);
        assert KeptNumbers(messages, numbers, keep) == KeptNumbers(rest, others, keep);
      }
    }
  }

  function FirstNumber(first: Message, rest: seq<Message>, sources: seq<Source>): nat {
    var positions := PositionsOf(first, sources);
    var later := multiset(rest)[first];
    if later < |positions| then sources[positions[|positions| - 1 - later]].1 else 0
  }

  lemma AssignedFirst(first: Message, rest: seq<Message>, sources: seq<Source>)
    ensures Assigned([first] + rest, sources) == [FirstNumber(first, rest, sources)] + Assigned(rest, sources)
  {
    var all := [first] + rest;
    AssignedSuffix([first], rest, sources);
    assert all[1..] == rest;
    var numbers := Assigned(all, sources);
    assert numbers == numbers[..1] + numbers[1..];
    assert numbers[0] == SequenceOf(all, 0, sources);
  }
}
