/** A sealed prefix on disk followed by the live tail in memory: the generator the
    visible conversation is rebuilt from, and the transcript reader's own tail. */
module SealedHistory {

  /** What iterating the archive does: it yields `records`, then either ends or,
      when the prefix is not intact, raises. */
  datatype Archive<M> = Archive(records: seq<M>, intact: bool)

  function NonSystem<M>(ms: seq<M>, isSystem: M -> bool): seq<M> {
    if |ms| == 0 then []
    else if isSystem(ms[0]) then NonSystem(ms[1..], isSystem)
    else [ms[0]] + NonSystem(ms[1..], isSystem)
  }

  function Take<M>(ms: seq<M>, n: nat): (r: seq<M>)
    ensures |r| <= n && r <= ms
  {
    if n <= |ms| then ms[..n] else ms
  }

  function Drop<M>(ms: seq<M>, n: nat): seq<M> {
    if n <= |ms| then ms[n..] else []
  }

  /** Replaces the non-system slots of `ms` by `records` for as long as there are
      any; records left over at the end follow. */
  function SlotForSlot<M>(ms: seq<M>, records: seq<M>, isSystem: M -> bool): seq<M> {
    if |ms| == 0 then records
    else if isSystem(ms[0]) || |records| == 0 then [ms[0]] + SlotForSlot(ms[1..], records, isSystem)
    else [records[0]] + SlotForSlot(ms[1..], records[1..], isSystem)
  }

  lemma {:induction false} NonSystemSnoc<M>(ms: seq<M>, i: nat, isSystem: M -> bool)
    requires i < |ms|
    ensures |NonSystem(ms[..i + 1], isSystem)| == |NonSystem(ms[..i], isSystem)| + if isSystem(ms[i]) then 0 else 1
    decreases i
  {
    var rest := ms[1..];
    assert ms[..i + 1][1..] == rest[..i];
    if i > 0 {
      assert ms[..i][1..] == rest[..i - 1] && rest[i - 1] == ms[i];
      NonSystemSnoc(rest, i - 1, isSystem);
    }
  }

  lemma {:induction false} SlotPrefixSnoc<M>(ms: seq<M>, i: nat, records: seq<M>, isSystem: M -> bool)
    requires i < |ms|
    ensures var used := |NonSystem(ms[..i], isSystem)|;
            SlotPrefix(ms[..i + 1], records, isSystem) ==
              SlotPrefix(ms[..i], records, isSystem) + [if isSystem(ms[i]) || used >= |records| then ms[i] else records[used]]
    decreases i
  {
    var rest := ms[1..];
    assert ms[..i + 1][1..] == rest[..i];
    if i > 0 {
      assert ms[..i][1..] == rest[..i - 1] && rest[i - 1] == ms[i];
      SlotPrefixSnoc(rest, i - 1, if isSystem(ms[0]) || |records| == 0 then records else records[1..], isSystem);
    }
  }

  /** The slots of `ms` alone, without leftovers. */
  function SlotPrefix<M>(ms: seq<M>, records: seq<M>, isSystem: M -> bool): seq<M> {
    if |ms| == 0 then []
    else if isSystem(ms[0]) || |records| == 0 then [ms[0]] + SlotPrefix(ms[1..], records, isSystem)
    else [records[0]] + SlotPrefix(ms[1..], records[1..], isSystem)
  }

  /** One more slot in front of slots and leftovers. */
  lemma SlotInFront<M>(m: M, slots: seq<M>, leftovers: seq<M>, whole: seq<M>, prefix: seq<M>)
    requires whole == [m] + (slots + leftovers) && prefix == [m] + slots
    ensures whole == prefix + leftovers
  {
  }

  lemma {:induction false} SlotsThenLeftovers<M>(ms: seq<M>, records: seq<M>, isSystem: M -> bool)
    ensures SlotForSlot(ms, records, isSystem) == SlotPrefix(ms, records, isSystem) + Drop(records, |NonSystem(ms, isSystem)|)
  {
    var whole, prefix := SlotForSlot(ms, records, isSystem), SlotPrefix(ms, records, isSystem);
    if |ms| == 0 {
      assert [] + records == records;
    } else if isSystem(ms[0]) || |records| == 0 {
      SlotsThenLeftovers(ms[1..], records, isSystem);
      SlotInFront(ms[0], SlotPrefix(ms[1..], records, isSystem), Drop(records, |NonSystem(ms[1..], isSystem)|), whole, prefix);
      if |records| == 0 { assert Drop(records, |NonSystem(ms, isSystem)|) == []; }
    } else {
      var front, rest, n := records[0], records[1..], |NonSystem(ms[1..], isSystem)|;
      SlotsThenLeftovers(ms[1..], rest, isSystem);
      SlotInFront(front, SlotPrefix(ms[1..], rest, isSystem), Drop(rest, n), whole, prefix);
      assert records == [front] + rest;
      DropHead(front, rest, n);
    }
  }

  /** What fills the slot of a message when `used` records have been shown. */
  function Slot<M>(m: M, used: nat, records: seq<M>, isSystem: M -> bool): M {
    if isSystem(m) || used >= |records| then m else records[used]
  }

  /** How many of the records are used up when `n` non-system messages have been seen. */
  function Used(n: nat, count: nat): nat {
    if n < count then n else count
  }

  /** The generator's first loop, slot for slot: `position` is the archive iterator, which
      is abandoned when it ends early or raises. */
  method FillSlots<M>(messages: seq<M>, archive: Archive<M>, archivedCount: nat, isSystem: M -> bool)
    returns (out: seq<M>, position: nat, remaining: nat, readable: bool)
    ensures var sealedRecords := Take(archive.records, archivedCount);
            && out == SlotPrefix(messages, sealedRecords, isSystem)
            && position == archivedCount - remaining == Used(|NonSystem(messages, isSystem)|, |sealedRecords|)
            && (!readable ==> position == |archive.records|)
  {
    position, remaining, readable := 0, archivedCount, true;
    ghost var sealedRecords := Take(archive.records, archivedCount);
    out := [];
    for i := 0 to |messages|
      invariant position == archivedCount - remaining == Used(|NonSystem(messages[..i], isSystem)|, |sealedRecords|)
      invariant !readable ==> position == |archive.records|
      invariant out == SlotPrefix(messages[..i], sealedRecords, isSystem)
    {
      NonSystemSnoc(messages, i, isSystem);
      SlotPrefixSnoc(messages, i, sealedRecords, isSystem);
      var message := messages[i];
      ghost var used := |NonSystem(messages[..i], isSystem)|;
      assert SlotPrefix(messages[..i + 1], sealedRecords, isSystem) == out + [Slot(message, used, sealedRecords, isSystem)];
      if !isSystem(message) && remaining > 0 && readable && position < |archive.records| {
        out := out + [archive.records[position]];
        position, remaining := position + 1, remaining - 1;
      } else {
        readable := readable && (isSystem(message) || remaining == 0);
        out := out + [message];
      }
    }
    assert messages[..|messages|] == messages;
  }

  /** The closing drain: what is left of the records, up to the count. */
  method DrainLeftovers<M>(archive: Archive<M>, position: nat, left: nat) returns (out: seq<M>)
    requires position <= |archive.records|
    ensures out == Take(archive.records[position..], left)
  {
    var remaining, drained := left, position;
    out := [];
    while drained < |archive.records|
      invariant position <= drained <= |archive.records|
      invariant out == Take(archive.records[position..drained], left) && remaining == left - |out|
    {
      if remaining > 0 {
        remaining := remaining - 1;
        out := out + [archive.records[drained]];
      }
      drained := drained + 1;
    }
    assert archive.records[position..drained] == archive.records[position..];
  }

  /** The generator: slot for slot, and then what is left, unless the archive broke. */
  method ArchivedThenLive<M>(messages: seq<M>, archive: Archive<M>, archivedCount: nat, isSystem: M -> bool)
    returns (out: seq<M>)
    ensures out == SlotForSlot(messages, Take(archive.records, archivedCount), isSystem)
  {
    ghost var sealedRecords := Take(archive.records, archivedCount);
    var position, remaining, readable;
    out, position, remaining, readable := FillSlots(messages, archive, archivedCount, isSystem);
    SlotsThenLeftovers(messages, sealedRecords, isSystem);
    Leftovers(archive.records, archivedCount, |NonSystem(messages, isSystem)|);
    if readable {
      var leftovers := DrainLeftovers(archive, position, remaining);
      out := out + leftovers;
    }
  }

  lemma Leftovers<M>(records: seq<M>, count: nat, n: nat)
    ensures var p := Used(n, |Take(records, count)|);
            p <= |records| && p <= count && Take(records[p..], count - p) == Drop(Take(records, count), n)
            && (p == |records| ==> Drop(Take(records, count), n) == [])
  {
  }

  /** The live messages after the first `count` non-system ones. */
  function LiveTail<M>(ms: seq<M>, count: nat, isSystem: M -> bool): seq<M> {
    if |ms| == 0 then []
    else if isSystem(ms[0]) then LiveTail(ms[1..], count, isSystem)
    else if count == 0 then ms
    else LiveTail(ms[1..], count - 1, isSystem)
  }

  method LiveTailAfterArchivedPrefix<M>(messages: seq<M>, archivedCount: nat, isSystem: M -> bool) returns (tail: seq<M>)
    ensures tail == LiveTail(messages, archivedCount, isSystem)
  {
    var consumed := 0;
    for index := 0 to |messages|
      invariant consumed <= archivedCount
      invariant LiveTail(messages, archivedCount, isSystem) == LiveTail(messages[index..], archivedCount - consumed, isSystem)
    {
      assert messages[index..][1..] == messages[index + 1..];
      if isSystem(messages[index]) {
        continue;
      }
      if consumed == archivedCount {
        return messages[index..];
      }
      consumed := consumed + 1;
    }
    return [];
  }

  lemma {:induction false} TailDropsSealed<M>(ms: seq<M>, count: nat, isSystem: M -> bool)
    ensures NonSystem(LiveTail(ms, count, isSystem), isSystem) == Drop(NonSystem(ms, isSystem), count)
  {
    if |ms| > 0 {
      if isSystem(ms[0]) {
        TailDropsSealed(ms[1..], count, isSystem);
      } else if count > 0 {
        TailDropsSealed(ms[1..], count - 1, isSystem);
        assert NonSystem(ms, isSystem)[1..] == NonSystem(ms[1..], isSystem);
      }
    }
  }

  lemma {:induction false} NonSystemOfRecords<M>(records: seq<M>, isSystem: M -> bool)
    requires forall m :: m in records ==> !isSystem(m)
    ensures NonSystem(records, isSystem) == records
  {
    if |records| > 0 { NonSystemOfRecords(records[1..], isSystem); }
  }

  lemma NonSystemHead<M>(m: M, rest: seq<M>, isSystem: M -> bool)
    ensures NonSystem([m] + rest, isSystem) == if isSystem(m) then NonSystem(rest, isSystem) else [m] + NonSystem(rest, isSystem)
  {
    assert ([m] + rest)[1..] == rest;
  }

  lemma DropHead<M>(m: M, rest: seq<M>, n: nat)
    ensures Drop([m] + rest, n + 1) == Drop(rest, n)
  {
    if n <= |rest| { assert ([m] + rest)[n + 1..] == rest[n..]; }
  }

  lemma JoinHead<M>(m: M, a: seq<M>, b: seq<M>)
    ensures [m] + (a + b) == ([m] + a) + b
  {
  }

  /** The rebuilt conversation, system messages aside: every sealed record that
      could be read, then the live messages from that position on. */
  lemma {:induction false} InterleavedContent<M>(ms: seq<M>, records: seq<M>, isSystem: M -> bool)
    requires forall m :: m in records ==> !isSystem(m)
    ensures NonSystem(SlotForSlot(ms, records, isSystem), isSystem) == records + Drop(NonSystem(ms, isSystem), |records|)
  {
    if |ms| == 0 {
      NonSystemOfRecords(records, isSystem);
      assert records + [] == records;
    } else if |records| == 0 {
      NoRecordsContent(ms, records, isSystem);
    } else if isSystem(ms[0]) {
      InterleavedContent(ms[1..], records, isSystem);
      NonSystemHead(ms[0], SlotForSlot(ms[1..], records, isSystem), isSystem);
    } else {
      var front, rest, live := records[0], records[1..], NonSystem(ms[1..], isSystem);
      assert records == [front] + rest;
      InterleavedContent(ms[1..], rest, isSystem);
      NonSystemHead(front, SlotForSlot(ms[1..], rest, isSystem), isSystem);
      DropHead(ms[0], live, |rest|);
      JoinHead(front, rest, Drop(live, |rest|));
    }
  }

  lemma {:induction false} NoRecords<M>(ms: seq<M>, records: seq<M>, isSystem: M -> bool)
    requires |records| == 0
    ensures SlotForSlot(ms, records, isSystem) == ms
  {
    if |ms| > 0 { NoRecords(ms[1..], records, isSystem); }
  }

  lemma NoRecordsContent<M>(ms: seq<M>, records: seq<M>, isSystem: M -> bool)
    requires |records| == 0
    ensures NonSystem(SlotForSlot(ms, records, isSystem), isSystem) == records + Drop(NonSystem(ms, isSystem), |records|)
  {
    NoRecords(ms, records, isSystem);
  }

  /** System messages keep their slots. */
  lemma {:induction false} SystemKeepsSlot<M>(ms: seq<M>, records: seq<M>, isSystem: M -> bool, i: nat)
    requires i < |ms| && isSystem(ms[i])
    ensures i < |SlotForSlot(ms, records, isSystem)| && SlotForSlot(ms, records, isSystem)[i] == ms[i]
  {
    if i > 0 {
      SystemKeepsSlot(ms[1..], if isSystem(ms[0]) || |records| == 0 then records else records[1..], isSystem, i - 1);
    }
  }

  /** What the generator shows of a sealed conversation, system messages aside, whether or
      not the archive broke on the way: the records that could be read, and from there on
      the live messages. */
  lemma GeneratorShows<M>(ms: seq<M>, archive: Archive<M>, archivedCount: nat, isSystem: M -> bool)
    requires forall m :: m in archive.records ==> !isSystem(m)
    ensures var shown := Take(archive.records, archivedCount);
            NonSystem(SlotForSlot(ms, shown, isSystem), isSystem) == shown + Drop(NonSystem(ms, isSystem), |shown|)
  {
    var shown := Take(archive.records, archivedCount);
    forall m | m in shown ensures m in archive.records {}
    InterleavedContent(ms, shown, isSystem);
  }

  /** Of an archive that holds what its descriptor counts, the generator shows the records
      followed by the live tail that the transcript reader takes after them. */
  lemma GeneratorMeetsTail<M>(ms: seq<M>, archive: Archive<M>, isSystem: M -> bool)
    requires forall m :: m in archive.records ==> !isSystem(m)
    ensures var n := |archive.records|;
            NonSystem(SlotForSlot(ms, Take(archive.records, n), isSystem), isSystem)
            == archive.records + NonSystem(LiveTail(ms, n, isSystem), isSystem)
  {
    var n := |archive.records|;
    assert Take(archive.records, n) == archive.records;
    GeneratorShows(ms, archive, n, isSystem);
    TailDropsSealed(ms, n, isSystem);
  }
}
