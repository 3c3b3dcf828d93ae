/** What every run of the cockpit keeps: a cycle reports what others wrote and nothing else. */
module CockpitRuns {
  import opened FlightVarTypes
  import opened CockpitModel

  function Count(events: seq<Event>, s: Source): nat {
    if events == [] then 0 else (if events[0].source == s then 1 else 0) + Count(events[1..], s)
  }

  lemma {:induction false} CountAppend(a: seq<Event>, b: seq<Event>, s: Source)
    ensures Count(a + b, s) == Count(a, s) + Count(b, s)
  {
    if a == [] {
      assert a + b == b;
    } else {
      assert (a + b)[1..] == a[1..] + b;
      CountAppend(a[1..], b, s);
    }
  }

  /** Clearing a flag changes nothing for a source that does not look at its byte. */
  lemma ClearedElsewhere(s: Source, t: Source, m: Image, other: Image)
    requires Placed(s) && Placed(t) && (s.Flag? ==> Apart(s, t))
    ensures Reports(t, Cleared(s, m, other), other) == Reports(t, m, other)
    ensures EventOf(t, Cleared(s, m, other)) == EventOf(t, m)
  {
    var m' := Cleared(s, m, other);
    if s.Flag? {
      assert Slice(m', t.at, Size(t)) == Slice(m, t.at, Size(t));
      assert t.Flag? ==> Slice(m', t.at, 1)[0] == m'[t.at - BASE] && Slice(m, t.at, 1)[0] == m[t.at - BASE];
    }
  }

  lemma {:induction false} PollOmits(table: seq<Source>, m: Image, other: Image, s: Source)
    requires AllPlaced(table) && s !in table
    ensures Count(Poll(table, m, other).0, s) == 0
    decreases |table|
  {
    hide Reports, Cleared;
    if table != [] {
      var head := if Reports(table[0], m, other) then [EventOf(table[0], m)] else [];
      var rest := Poll(table[1..], Cleared(table[0], m, other), other).0;
      PollOmits(table[1..], Cleared(table[0], m, other), other, s);
      CountAppend(head, rest, s);
      assert table[0] != s;
      assert Count(head, s) == 0;
    }
  }

  /** Each source is polled as if it were the only one: it gives one event if it has something to report
      and none otherwise. */
  lemma {:induction false} PollCounts(table: seq<Source>, m: Image, other: Image, k: nat)
    requires AllPlaced(table) && TableApart(table) && k < |table|
    ensures Count(Poll(table, m, other).0, table[k]) == if Reports(table[k], m, other) then 1 else 0
    decreases |table|
  {
    hide Reports, Cleared, EventOf;
    var s, rest := table[0], table[1..];
    var m' := Cleared(s, m, other);
    var head := if Reports(s, m, other) then [EventOf(s, m)] else [];
    CountAppend(head, Poll(rest, m', other).0, table[k]);
    HeadCounts(s, m, other, table[k]);
    if k == 0 {
      assert s !in rest;
      PollOmits(rest, m', other, s);
    } else {
      assert forall i, j :: 0 <= i < j < |rest| ==> rest[i] == table[i + 1] && rest[j] == table[j + 1];
      PollCounts(rest, m', other, k - 1);
      ClearedElsewhere(s, table[k], m, other);
    }
  }

  lemma HeadCounts(s: Source, m: Image, other: Image, t: Source)
    requires Placed(s)
    ensures var head := if Reports(s, m, other) then [EventOf(s, m)] else [];
            Count(head, t) == if Reports(s, m, other) && s == t then 1 else 0
  {
    hide Reports;
    assert [EventOf(s, m)][1..] == [];
  }

  ghost predicate HasFlag(table: seq<Source>, at: int) {
    exists i :: 0 <= i < |table| && table[i].Flag? && table[i].at == at
  }

  /** After polling every flag is zero and all other bytes are as they were. */
  lemma {:induction false} PollClears(table: seq<Source>, m: Image, other: Image, at: int)
    requires AllPlaced(table) && InImage(at, 1)
    ensures Poll(table, m, other).1[at - BASE] == if HasFlag(table, at) then 0 else m[at - BASE]
    decreases |table|
  {
    hide EventOf;
    if table != [] {
      var s, rest := table[0], table[1..];
      var m' := Cleared(s, m, other);
      PollClears(rest, m', other, at);
      assert HasFlag(table, at) <==> (s.Flag? && s.at == at) || HasFlag(rest, at) by {
        if HasFlag(rest, at) {
          var i :| 0 <= i < |rest| && rest[i].Flag? && rest[i].at == at;
          assert table[i + 1] == rest[i];
        }
        if HasFlag(table, at) {
          var i :| 0 <= i < |table| && table[i].Flag? && table[i].at == at;
          assert i > 0 ==> rest[i - 1] == table[i];
        }
      }
      assert m'[at - BASE] == if s.Flag? && s.at == at then 0 else m[at - BASE];
    }
  }

  lemma {:induction false} PollSplit(a: seq<Source>, b: seq<Source>, m: Image, other: Image)
    requires AllPlaced(a) && AllPlaced(b) && AllPlaced(a + b)
    ensures var (first, between) := Poll(a, m, other);
            var (second, after) := Poll(b, between, other);
            Poll(a + b, m, other) == (first + second, after)
    decreases |a|
  {
    hide Reports, Cleared, EventOf;
    if a == [] {
      assert a + b == b;
      assert [] + Poll(b, m, other).0 == Poll(b, m, other).0;
    } else {
      assert (a + b)[1..] == a[1..] + b;
      PollSplit(a[1..], b, Cleared(a[0], m, other), other);
      var head := if Reports(a[0], m, other) then [EventOf(a[0], m)] else [];
      var first := Poll(a[1..], Cleared(a[0], m, other), other).0;
      var second := Poll(b, Poll(a, m, other).1, other).0;
      assert head + (first + second) == head + first + second;
    }
  }

  lemma {:induction false} ApplyElsewhere(setters: seq<Setter>, m: Image, at: int)
    requires AllInImage(setters) && InImage(at, 1)
    requires forall k :: 0 <= k < |setters| ==> !(setters[k].at <= at < setters[k].at + |setters[k].bytes|)
    ensures Apply(setters, m)[at - BASE] == m[at - BASE]
    decreases |setters|
  {
    if setters != [] {
      ApplyElsewhere(setters[1..], Overwrite(m, setters[0].at, setters[0].bytes), at);
    }
  }

  /** After a cycle: the memory is the current image and no flag is set. */
  ghost predicate Settled(c: Cockpit) {
    && c.started && c.memory == c.current
    && forall i :: 0 <= i < |TABLE| && TABLE[i].Flag? ==> InImage(TABLE[i].at, 1) && c.memory[TABLE[i].at - BASE] == 0
  }

  lemma CycleSettles(c: Cockpit, f: Front)
    ensures Settled(Cycle(c, f).1)
  {
    TableIsPlaced();
    SettersAreInImage(f);
    var d := SyncDown(c);
    hide Poll, Apply, TABLE, Setters, FlagIndex;
    var polled := Poll(TABLE, d.current, d.other).1;
    forall i | 0 <= i < |TABLE| && TABLE[i].Flag?
      ensures InImage(TABLE[i].at, 1) && Cycle(c, f).1.memory[TABLE[i].at - BASE] == 0
    {
      var at := TABLE[i].at;
      PollClears(TABLE, d.current, d.other, at);
      assert HasFlag(TABLE, at);
      TableIndexed(i);
      forall k | 0 <= k < |Setters(f)| ensures !(Setters(f)[k].at <= at < Setters(f)[k].at + |Setters(f)[k].bytes|) {
        SettersSpareFlags(f, k);
      }
      ApplyElsewhere(Setters(f), polled, at);
      SyncMarkIsNoFlag();
    }
  }

  lemma SyncMarkIsNoFlag()
    ensures FlagIndex(SYNC_FLAG) == -1
  {
  }

  /** The events of a cycle, source by source. */
  lemma CycleCounts(c: Cockpit, f: Front, k: nat)
    requires k < |TABLE|
    ensures Placed(TABLE[k])
    ensures var d := SyncDown(c);
            Count(Cycle(c, f).0, TABLE[k]) == if Reports(TABLE[k], d.current, d.other) then 1 else 0
  {
    TableIsPlaced();
    SettersAreInImage(f);
    TableIsApart();
    hide Poll, Apply, TABLE, Setters, Reports, TableApart;
    PollCounts(TABLE, SyncDown(c).current, SyncDown(c).other, k);
  }

  lemma {:induction false} QuietPoll(table: seq<Source>, m: Image, other: Image)
    requires AllPlaced(table) && forall i :: 0 <= i < |table| ==> !Reports(table[i], m, other)
    ensures Poll(table, m, other) == ([], m)
    decreases |table|
  {
    hide Reports;
    if table != [] {
      QuietPoll(table[1..], m, other);
      assert Cleared(table[0], m, other) == m;
      assert Poll(table, m, other).0 == [] + [];
    }
  }

  /** No echo: after a cycle, whatever the front's state was and is, the next cycle reports nothing unless
      somebody else has written the memory. */
  lemma NoEcho(c: Cockpit, f: Front, g: Front)
    ensures Cycle(Cycle(c, f).1, g).0 == []
  {
    CycleSettles(c, f);
    var d := Cycle(c, f).1;
    TableIsPlaced();
    SettersAreInImage(g);
    hide Poll, Apply, TABLE, Setters, Cycle;
    QuietPoll(TABLE, d.memory, d.memory);
    QuietCycle(d, g);
  }

  lemma QuietCycle(d: Cockpit, g: Front)
    requires AllPlaced(TABLE) && Poll(TABLE, SyncDown(d).current, SyncDown(d).other) == ([], d.memory)
    ensures Cycle(d, g).0 == []
  {
    hide Poll, Apply, TABLE, Setters;
  }

  // ----- whole runs

  /** A flag as a latch of its own: whether it is set, and how many cycles found it set. */
  function Latch(m: Image, labels: seq<Label>, s: Source): (bool, nat)
    requires s.Flag? && Placed(s)
    decreases |labels|
  {
    if labels == [] then (m[s.at - BASE] != 0, 0)
    else
      var (set_, found) := Latch(m, labels[..|labels| - 1], s);
      match labels[|labels| - 1]
      case External(memory) => (memory[s.at - BASE] != 0, found)
      case Map(_) => (false, if set_ then found + 1 else found)
  }

  /** The memory as the last cycle left it. */
  ghost function LastSynced(m: Image, labels: seq<Label>): Option<Image>
    decreases |labels|
  {
    if labels == [] then None
    else if labels[|labels| - 1].Map? then Some(Run(m, labels).1.memory)
    else LastSynced(m, labels[..|labels| - 1])
  }

  lemma {:induction false} BuffersHoldLastSynced(m: Image, labels: seq<Label>)
    ensures var c := Run(m, labels).1;
            match LastSynced(m, labels) case None => !c.started case Some(image) => c.started && c.current == image
    decreases |labels|
  {
    hide Cycle;
    if labels != [] {
      BuffersHoldLastSynced(m, labels[..|labels| - 1]);
      match labels[|labels| - 1]
      case External(_) =>
      case Map(f) => CycleSettles(Run(m, labels[..|labels| - 1]).1, f);
    }
  }

  /** Flags are reported once: over a whole run each flag gives exactly one event for every cycle that
      finds it set, and a cycle leaves it unset, so that only somebody else can set it again. */
  lemma {:induction false} FlagsAreOneShot(m: Image, labels: seq<Label>, k: nat)
    requires k < |TABLE| && TABLE[k].Flag? && Placed(TABLE[k])
    ensures var (events, c) := Run(m, labels);
            var (set_, found) := Latch(m, labels, TABLE[k]);
            Count(events, TABLE[k]) == found && (set_ <==> c.memory[TABLE[k].at - BASE] != 0)
    decreases |labels|
  {
    hide TABLE, Cycle;
    if labels != [] {
      var front := labels[..|labels| - 1];
      FlagsAreOneShot(m, front, k);
      var (events, c) := Run(m, front);
      match labels[|labels| - 1]
      case External(_) =>
      case Map(f) =>
        CountAppend(events, Cycle(c, f).0, TABLE[k]);
        CycleCounts(c, f, k);
        CycleSettles(c, f);
    }
  }

  /** A watched value is reported by a cycle exactly when it is not what the last cycle left, that is when
      somebody else has changed it since; the first cycle reports none. */
  lemma WatchesReportForeignChanges(m: Image, labels: seq<Label>, f: Front, k: nat)
    requires k < |TABLE| && TABLE[k].Watch? && Placed(TABLE[k])
    ensures var s, c := TABLE[k], Run(m, labels).1;
            Count(Cycle(c, f).0, s) ==
            match LastSynced(m, labels)
            case None => 0
            case Some(left) => if Slice(c.memory, s.at, s.size) != Slice(left, s.at, s.size) then 1 else 0
  {
    hide TABLE, Cycle, Run;
    BuffersHoldLastSynced(m, labels);
    CycleCounts(Run(m, labels).1, f, k);
  }

  lemma {:induction false} ApplySets(setters: seq<Setter>, m: Image, k: nat)
    requires AllInImage(setters) && k < |setters|
    requires forall i :: k < i < |setters| ==>
               setters[i].at + |setters[i].bytes| <= setters[k].at
                   || setters[k].at + |setters[k].bytes| <= setters[i].at
    ensures Slice(Apply(setters, m), setters[k].at, |setters[k].bytes|) == setters[k].bytes
    decreases |setters|
  {
    var m', s := Overwrite(m, setters[0].at, setters[0].bytes), setters[k];
    if k > 0 {
      ApplySets(setters[1..], m', k - 1);
    } else {
      forall i | 0 <= i < |s.bytes| ensures Apply(setters, m)[s.at - BASE + i] == s.bytes[i] {
        ApplyElsewhere(setters[1..], m', s.at + i);
      }
    }
  }

  /** Which setter writes a byte, or -1. */
  function SetterIndex(b: int): int {
    if 0x562F <= b <= 0x5631 then b - 0x562F
    else if b == 0x5614 then 3
    else if 0x5617 <= b <= 0x5619 then b - 0x5617 + 4
    else if 0x5615 <= b <= 0x5616 then b - 0x5615 + 7
    else if 0x5632 <= b <= 0x5634 then b - 0x5632 + 9
    else if 0x5638 <= b <= 0x5653 then (b - 0x5638) / 4 + 12
    else if b == 0x561F then 19
    else if b == 0x561C then 20
    else if 0x560E <= b <= 0x5613 then b - 0x560E + 21
    else if 0x5623 <= b <= 0x5626 then b - 0x5623 + 27
    else -1
  }

  lemma SetterIndexed(f: Front, k: nat)
    requires k < |Setters(f)|
    ensures var s := Setters(f)[k];
            InImage(s.at, |s.bytes|) && |s.bytes| > 0 && s.at > SYNC_FLAG
            && forall b :: s.at <= b < s.at + |s.bytes| ==> SetterIndex(b) == k
  {
  }

  lemma SettersAreApart(f: Front, i: nat, k: nat)
    requires i < |Setters(f)| && k < |Setters(f)| && i != k
    ensures var s, t := Setters(f)[i], Setters(f)[k]; s.at + |s.bytes| <= t.at || t.at + |t.bytes| <= s.at
  {
    SetterIndexed(f, i);
    SetterIndexed(f, k);
    hide Setters, SetterIndex;
    assert SetterIndex(Setters(f)[i].at) == i && SetterIndex(Setters(f)[k].at) == k;
  }

  lemma MarkElsewhere(m: Image, at: int, size: nat)
    requires InImage(at, size) && at > SYNC_FLAG
    ensures Slice(Overwrite(m, SYNC_FLAG, [1]), at, size) == Slice(m, at, size)
  {
  }

  /** The cycle leaves the whole of the front's state in the memory, no part overwriting another. */
  lemma FrontIsShown(c: Cockpit, f: Front, k: nat)
    requires k < |Setters(f)|
    ensures var s := Setters(f)[k];
            InImage(s.at, |s.bytes|) && Slice(Cycle(c, f).1.memory, s.at, |s.bytes|) == s.bytes
  {
    TableIsPlaced();
    SettersAreInImage(f);
    SetterIndexed(f, k);
    hide Poll, Apply, TABLE, Setters, SetterIndex, Slice, Overwrite;
    var setters, d := Setters(f), SyncDown(c);
    forall i | k < i < |setters|
      ensures setters[i].at + |setters[i].bytes| <= setters[k].at || setters[k].at + |setters[k].bytes| <= setters[i].at
    {
      SettersAreApart(f, i, k);
    }
    var polled := Poll(TABLE, d.current, d.other).1;
    ApplySets(setters, polled, k);
    MarkElsewhere(Apply(setters, polled), setters[k].at, |setters[k].bytes|);
  }

  // ----- the flight path angle

  lemma NobodyWatchesFpa(i: nat)
    requires i < |TABLE|
    ensures Placed(TABLE[i]) && (TABLE[i].at + Size(TABLE[i]) <= 0x5650 || 0x5654 <= TABLE[i].at)
  {
  }

  /** The front's flight path angle is written where no source looks: when somebody else changes it there,
      and nothing else, no event tells. */
  lemma FpaChangesGoUnnoticed(c: Cockpit, m: Image, f: Front)
    requires Settled(c)
    requires forall i :: 0 <= i < SIZE && !(0x5650 <= BASE + i < 0x5654) ==> m[i] == c.memory[i]
    ensures Cycle(c.(memory := m), f).0 == []
  {
    var d := c.(memory := m);
    TableIsPlaced();
    hide Poll, Apply, TABLE, Setters, Cycle;
    forall i | 0 <= i < |TABLE| ensures !Reports(TABLE[i], m, c.memory) {
      NobodyWatchesFpa(i);
      var s := TABLE[i];
      assert Slice(m, s.at, Size(s)) == Slice(c.memory, s.at, Size(s));
      assert s.Flag? ==> m[s.at - BASE] == c.memory[s.at - BASE];
    }
    QuietPoll(TABLE, m, c.memory);
    QuietCycle(d, f);
  }
}
