/** The karma plugin: a ledger by channel, and its merge over all channels. */
module Karma {
  import opened Text
  import opened SiloMaps

  type Silos = SilosOf<string>

  /** What the karma expression captures: the thing, then two to six plus or minus signs. */
  datatype Match = Match(thing: string, instruction: string)

  predicate IsInstruction(s: string) {
    2 <= |s| <= 6 && ((forall c <- s :: c == '+') || (forall c <- s :: c == '-'))
  }

  function Delta(m: Match): int {
    if "+" <= m.instruction then |TrimPrefix(m.instruction, "+")| else -|TrimPrefix(m.instruction, "-")|
  }

  /** One point for the second sign and one for each further sign, up to five. */
  lemma DeltaSize(m: Match)
    requires IsInstruction(m.instruction)
    ensures Delta(m) == if m.instruction[0] == '+' then |m.instruction| - 1 else 1 - |m.instruction|
    ensures 1 <= Delta(m) <= 5 || -5 <= Delta(m) <= -1
  {
    assert m.instruction[0] in m.instruction;
  }

  /** The stored value of a thing: zero when it is missing or does not parse. */
  function Current(silos: Silos, channel: string, thing: string): int {
    match Lookup(silos, channel, thing)
    case None => 0
    case Some(raw) => (match Atoi(raw) case None => 0 case Some(n) => n)
  }

  function Credited(silos: Silos, channel: string, m: Match): Silos {
    Stored(silos, channel, m.thing, Itoa(Current(silos, channel, m.thing) + Delta(m)))
  }

  predicate IsSelf(user: string, m: Match) {
    TrimPrefix(m.thing, "@") == user
  }

  /** A match stops the recording if it is self-attribution or its put fails. */
  predicate Stops(user: string, matches: seq<Match>, puts: nat -> bool, i: nat)
    requires i < |matches|
  {
    IsSelf(user, matches[i]) || !puts(i)
  }

  /** The number of matches recorded before the stop. */
  function StopAt(user: string, matches: seq<Match>, puts: nat -> bool, from: nat): (n: nat)
    requires from <= |matches|
    ensures from <= n <= |matches|
    ensures forall i | from <= i < n :: !Stops(user, matches, puts, i)
    ensures n < |matches| ==> Stops(user, matches, puts, n)
    decreases |matches| - from
  {
    if from == |matches| || Stops(user, matches, puts, from) then from else StopAt(user, matches, puts, from + 1)
  }

  /** The store after the first n matches. */
  function Recorded(silos: Silos, channel: string, matches: seq<Match>, n: nat): Silos
    requires n <= |matches|
  {
    if n == 0 then silos else Credited(Recorded(silos, channel, matches, n - 1), channel, matches[n - 1])
  }

  datatype Line = Line(thing: string, delta: int, karma: int)

  datatype Reaction = SelfAttribution | Nothing | Report(lines: seq<Line>)

  /** The wrapped storer: its gets fail only for a missing key, its failed writes have no effect. */
  class Storer {
    var silos: Silos

    method GetSiloString(silo: string, key: string) returns (value: Option<string>)
      ensures value == Lookup(silos, silo, key)
    {
      value := Lookup(silos, silo, key);
    }

    method PutSiloString(silo: string, key: string, value: string, succeeds: bool)
      modifies this
      ensures silos == if succeeds then Stored(old(silos), silo, key, value) else old(silos)
    {
      if succeeds {
        silos := Stored(silos, silo, key, value);
      }
    }

    method DeleteSiloString(silo: string, key: string, succeeds: bool)
      modifies this
      ensures silos == if succeeds then Removed(old(silos), silo, key) else old(silos)
    {
      if succeeds {
        silos := Removed(silos, silo, key);
      }
    }
  }

  /** The report on a match: what it changes and the value it leaves. */
  function LineOf(silos: Silos, channel: string, m: Match): Line {
    Line(m.thing, Delta(m), Current(silos, channel, m.thing) + Delta(m))
  }

  /** The report on the first n matches: each with the value it left. */
  function LinesOf(silos: Silos, channel: string, matches: seq<Match>, n: nat): seq<Line>
    requires n <= |matches|
  {
    if n == 0 then []
    else
      LinesOf(silos, channel, matches, n - 1)
      + [LineOf(Recorded(silos, channel, matches, n - 1), channel, matches[n - 1])]
  }

  lemma StopAtStep(user: string, matches: seq<Match>, puts: nat -> bool, i: nat)
    requires i < |matches|
    ensures StopAt(user, matches, puts, i)
      == if Stops(user, matches, puts, i) then i else StopAt(user, matches, puts, i + 1)
  {
  }

  lemma RecordedStep(silos: Silos, channel: string, matches: seq<Match>, n: nat)
    requires n < |matches|
    ensures Recorded(silos, channel, matches, n + 1)
      == Credited(Recorded(silos, channel, matches, n), channel, matches[n])
  {
  }

  lemma LinesStep(silos: Silos, channel: string, matches: seq<Match>, n: nat)
    requires n < |matches|
    ensures LinesOf(silos, channel, matches, n + 1)
      == LinesOf(silos, channel, matches, n) + [LineOf(Recorded(silos, channel, matches, n), channel, matches[n])]
  {
  }

  /** The current value of a thing, zero when it cannot be read. */
  method ReadKarma(storer: Storer, channel: string, thing: string) returns (karma: int)
    ensures karma == Current(storer.silos, channel, thing)
  {
    var rawValue := storer.GetSiloString(channel, thing);
    if rawValue.None? {
      return 0;
    }
    var parsed := Atoi(rawValue.value);
    karma := if parsed.Some? then parsed.value else 0;
  }

  /** The part of a turn of the loop after the check for self-attribution. */
  method RecordOne(storer: Storer, channel: string, m: Match, succeeds: bool) returns (line: Line)
    modifies storer
    ensures storer.silos == if succeeds then Credited(old(storer.silos), channel, m) else old(storer.silos)
    ensures line == LineOf(old(storer.silos), channel, m)
  {
    var karma := ReadKarma(storer, channel, m.thing);
    if "+" <= m.instruction {
      karma := karma + |TrimPrefix(m.instruction, "+")|;
    } else {
      karma := karma - |TrimPrefix(m.instruction, "-")|;
    }
    line := Line(m.thing, Delta(m), karma);
    storer.PutSiloString(channel, m.thing, Itoa(karma), succeeds);
  }

  /** recordKarma: on every exit exactly the matches before the stop are recorded, and reported if there is none. */
  method RecordKarma(storer: Storer, channel: string, user: string, matches: seq<Match>, puts: nat -> bool)
    returns (reaction: Reaction)
    modifies storer
    ensures var n := StopAt(user, matches, puts, 0);
      && storer.silos == Recorded(old(storer.silos), channel, matches, n)
      && reaction == if n == |matches| then Report(LinesOf(old(storer.silos), channel, matches, n))
                     else if IsSelf(user, matches[n]) then SelfAttribution else Nothing
  {
    var lines: seq<Line> := [];
    for i := 0 to |matches|
      invariant StopAt(user, matches, puts, i) == StopAt(user, matches, puts, 0)
      invariant storer.silos == Recorded(old(storer.silos), channel, matches, i)
      invariant lines == LinesOf(old(storer.silos), channel, matches, i)
    {
      var m := matches[i];
      StopAtStep(user, matches, puts, i);
      RecordedStep(old(storer.silos), channel, matches, i);
      LinesStep(old(storer.silos), channel, matches, i);
      if TrimPrefix(m.thing, "@") == user {
        return SelfAttribution;
      }
      var line := RecordOne(storer, channel, m, puts(i));
      if !puts(i) {
        return Nothing;
      }
      lines := lines + [line];
    }
    reaction := Report(lines);
  }

  lemma RemovedFrame(silos: Silos, silo: string, key: string)
    ensures SiloOf(Removed(silos, silo, key), silo) == SiloOf(silos, silo) - {key}
    ensures Removed(silos, silo, key) - {silo} == silos - {silo}
    ensures NoEmptySilo(silos) ==> NoEmptySilo(Removed(silos, silo, key))
  {
  }

  /** One turn of the loop of a reset. */
  method ClearOne(storer: Storer, channel: string, thing: string, succeeds: bool)
    modifies storer
    ensures SiloOf(storer.silos, channel) == SiloOf(old(storer.silos), channel) - if succeeds then {thing} else {}
    ensures storer.silos - {channel} == old(storer.silos) - {channel}
    ensures NoEmptySilo(old(storer.silos)) ==> NoEmptySilo(storer.silos)
  {
    RemovedFrame(storer.silos, channel, thing);
    storer.DeleteSiloString(channel, thing, succeeds);
  }

  /** The entries whose deletes fail. */
  function Kept(entries: EntriesOf<string>, deletes: string -> bool): EntriesOf<string> {
    map thing | thing in entries && !deletes(thing) :: entries[thing]
  }

  /** The entries left when the deletes of these things are still to come. */
  function Left(entries: EntriesOf<string>, deletes: string -> bool, remaining: seq<string>): EntriesOf<string> {
    map thing | thing in entries && (thing in remaining || !deletes(thing)) :: entries[thing]
  }

  lemma LeftAfter(entries: EntriesOf<string>, deletes: string -> bool, remaining: seq<string>)
    requires remaining != [] && remaining[0] !in remaining[1..]
    ensures Left(entries, deletes, remaining[1..])
      == Left(entries, deletes, remaining) - if deletes(remaining[0]) then {remaining[0]} else {}
  {
    assert remaining == [remaining[0]] + remaining[1..];
  }

  predicate Distinct(things: seq<string>) {
    forall i, j | 0 <= i < j < |things| :: things[i] != things[j]
  }

  /** A possible order of the loop over a map: each key once. */
  ghost predicate Visits(order: seq<string>, entries: EntriesOf<string>) {
    Distinct(order) && forall thing :: thing in order <==> thing in entries
  }

  /** What a reset that visits the things in this order reports. */
  predicate ReportsCleared(order: seq<string>, deletes: string -> bool) {
    order == [] || deletes(order[|order| - 1])
  }

  /**
   clearChannelKarma: what cannot be deleted stays, and nothing else does. Only the outcome of the last delete is
   reported.
   */
  method ClearChannelKarma(storer: Storer, channel: string, order: seq<string>, deletes: string -> bool)
    returns (cleared: bool)
    requires Visits(order, SiloOf(storer.silos, channel))
    modifies storer
    ensures SiloOf(storer.silos, channel) == Kept(SiloOf(old(storer.silos), channel), deletes)
    ensures storer.silos - {channel} == old(storer.silos) - {channel}
    ensures NoEmptySilo(old(storer.silos)) ==>
      storer.silos == Filed(old(storer.silos), channel, Kept(SiloOf(old(storer.silos), channel), deletes))
    ensures cleared == ReportsCleared(order, deletes)
  {
    cleared := true;
    ghost var before := SiloOf(storer.silos, channel);
    for i := 0 to |order|
      invariant SiloOf(storer.silos, channel) == Left(before, deletes, order[i..])
      invariant storer.silos - {channel} == old(storer.silos) - {channel}
      invariant NoEmptySilo(old(storer.silos)) ==> NoEmptySilo(storer.silos)
      invariant cleared == ReportsCleared(order[..i], deletes)
    {
      assert order[i..][1..] == order[i + 1..];
      LeftAfter(before, deletes, order[i..]);
      ClearOne(storer, channel, order[i], deletes(order[i]));
      cleared := deletes(order[i]);
    }
    assert order[..|order|] == order;
    FiledIs(storer.silos, old(storer.silos), channel, Kept(before, deletes));
  }

  lemma FiledIs(silos: Silos, before: Silos, silo: string, entries: EntriesOf<string>)
    requires SiloOf(silos, silo) == entries && silos - {silo} == before - {silo}
    ensures NoEmptySilo(silos) ==> silos == Filed(before, silo, entries)
  {
    forall s
      ensures s in silos - {silo} <==> s in before - {silo}
      ensures s in silos && s in before && s != silo ==> silos[s] == before[s]
    {
      assert s in silos - {silo} && s in before - {silo} ==> (silos - {silo})[s] == (before - {silo})[s];
    }
  }

  /** The keys of a map in some order. */
  lemma SomeOrder(entries: EntriesOf<string>) returns (order: seq<string>)
    ensures Visits(order, entries)
  {
    order := [];
    var remaining := entries.Keys;
    while remaining != {}
      invariant remaining <= entries.Keys && Distinct(order)
      invariant forall thing :: thing in order <==> thing in entries && thing !in remaining
    {
      var thing :| thing in remaining;
      order := order + [thing];
      remaining := remaining - {thing};
    }
  }

  lemma OrderEndingIn(entries: EntriesOf<string>, last: string) returns (order: seq<string>)
    requires last in entries
    ensures Visits(order, entries) && order != [] && order[|order| - 1] == last
  {
    var rest := SomeOrder(entries - {last});
    order := rest + [last];
    assert last !in rest;
    assert forall thing :: thing in order <==> thing in rest || thing == last;
  }

  /** In whatever order it goes, a reset that reports success has cleared the channel. */
  ghost predicate ReportsHonestly(before: EntriesOf<string>, deletes: string -> bool) {
    forall order | Visits(order, before) :: ReportsCleared(order, deletes) ==> Kept(before, deletes) == map[]
  }

  /** The report can be trusted exactly when all deletes succeed or none does; an error is never reported wrongly. */
  lemma ClearReports(before: EntriesOf<string>, deletes: string -> bool)
    ensures ReportsHonestly(before, deletes) <==> Kept(before, deletes) == map[] || Kept(before, deletes) == before
    ensures Kept(before, deletes) == map[] ==> forall order | Visits(order, before) :: ReportsCleared(order, deletes)
  {
    var kept := Kept(before, deletes);
    assert forall t <- before :: !deletes(t) ==> t in kept;
    if kept != before && kept != map[] {
      var last :| last in before && deletes(last);
      var order := OrderEndingIn(before, last);
      assert ReportsCleared(order, deletes);
    }
    forall order | Visits(order, before) && order != []
      ensures order[|order| - 1] in before
    {
      assert order[|order| - 1] in order;
    }
    if kept == before {
      assert forall t <- before :: t in kept;
      NoneVisited(before);
    }
  }

  lemma NoneVisited(before: EntriesOf<string>)
    ensures forall order | Visits(order, before) && order == [] :: before == map[]
  {
    assert forall order | Visits(order, before) && order == [] :: forall thing <- before :: thing in order;
  }

  // ---- The ledger ----

  /** A reset says which things it deletes. */
  datatype Posting = Change(channel: string, thing: string, amount: int)
                   | Reset(channel: string, deletes: string -> bool)

  /** The sum of the changes of a thing since the last reset of its channel that deleted it. */
  function Total(history: seq<Posting>, channel: string, thing: string): int {
    if history == [] then 0
    else
      var before, last := history[..|history| - 1], history[|history| - 1];
      if last.channel != channel then Total(before, channel, thing)
      else if last.Reset? then if last.deletes(thing) then 0 else Total(before, channel, thing)
      else Total(before, channel, thing) + if last.thing == thing then last.amount else 0
  }

  predicate Mentioned(history: seq<Posting>, channel: string, thing: string) {
    history != [] &&
      var before, last := history[..|history| - 1], history[|history| - 1];
      if last.channel != channel then Mentioned(before, channel, thing)
      else if last.Reset? then !last.deletes(thing) && Mentioned(before, channel, thing)
      else last.thing == thing || Mentioned(before, channel, thing)
  }

  /** The store holds the ledger: the total of every thing changed since the last reset, and nothing else. */
  ghost predicate Balanced(history: seq<Posting>, silos: Silos) {
    && NoEmptySilo(silos)
    && forall channel, thing :: Lookup(silos, channel, thing)
         == if Mentioned(history, channel, thing) then Some(Itoa(Total(history, channel, thing))) else None
  }

  datatype Command = Record(channel: string, user: string, matches: seq<Match>, puts: nat -> bool)
                   | Clear(channel: string, deletes: string -> bool)

  function Executed(silos: Silos, command: Command): Silos {
    match command
    case Record(channel, user, matches, puts) =>
      Recorded(silos, channel, matches, StopAt(user, matches, puts, 0))
    case Clear(channel, deletes) => Filed(silos, channel, Kept(SiloOf(silos, channel), deletes))
  }

  function ExecutedAll(silos: Silos, commands: seq<Command>): Silos {
    if commands == [] then silos
    else Executed(ExecutedAll(silos, commands[..|commands| - 1]), commands[|commands| - 1])
  }

  function Changes(channel: string, matches: seq<Match>, n: nat): seq<Posting>
    requires n <= |matches|
  {
    if n == 0 then []
    else Changes(channel, matches, n - 1) + [Change(channel, matches[n - 1].thing, Delta(matches[n - 1]))]
  }

  /** The postings of a command: its matches before the stop, or a reset. */
  function Postings(command: Command): seq<Posting> {
    match command
    case Record(channel, user, matches, puts) => Changes(channel, matches, StopAt(user, matches, puts, 0))
    case Clear(channel, deletes) => [Reset(channel, deletes)]
  }

  function History(commands: seq<Command>): seq<Posting> {
    if commands == [] then [] else History(commands[..|commands| - 1]) + Postings(commands[|commands| - 1])
  }

  lemma CreditBalances(history: seq<Posting>, silos: Silos, channel: string, m: Match)
    requires Balanced(history, silos)
    ensures Balanced(history + [Change(channel, m.thing, Delta(m))], Credited(silos, channel, m))
  {
    var history' := history + [Change(channel, m.thing, Delta(m))];
    assert history'[..|history|] == history;
    assert Lookup(silos, channel, m.thing) == if Mentioned(history, channel, m.thing)
      then Some(Itoa(Total(history, channel, m.thing))) else None;
    AtoiItoa(Total(history, channel, m.thing));
    if !Mentioned(history, channel, m.thing) {
      UnmentionedTotal(history, channel, m.thing);
    }
    forall c, t
      ensures Lookup(Credited(silos, channel, m), c, t)
        == if Mentioned(history', c, t) then Some(Itoa(Total(history', c, t))) else None
    {
      assert Lookup(silos, c, t) == if Mentioned(history, c, t) then Some(Itoa(Total(history, c, t))) else None;
      StoredLookup(silos, channel, m.thing, Itoa(Total(history', channel, m.thing)), c, t);
    }
  }

  lemma StoredLookup(silos: Silos, silo: string, key: string, value: string, s: string, k: string)
    ensures Lookup(Stored(silos, silo, key, value), s, k)
      == if s == silo && k == key then Some(value) else Lookup(silos, s, k)
  {
    assert key in SiloOf(silos, silo)[key := value];
  }

  lemma {:induction false} UnmentionedTotal(history: seq<Posting>, channel: string, thing: string)
    requires !Mentioned(history, channel, thing)
    ensures Total(history, channel, thing) == 0
  {
    if history != [] {
      var before, last := history[..|history| - 1], history[|history| - 1];
      if last.channel != channel || last.Change? || !last.deletes(thing) {
        UnmentionedTotal(before, channel, thing);
      }
    }
  }

  lemma {:induction false} RecordBalances(history: seq<Posting>, silos: Silos, channel: string,
                                          matches: seq<Match>, n: nat)
    requires Balanced(history, silos) && n <= |matches|
    ensures Balanced(history + Changes(channel, matches, n), Recorded(silos, channel, matches, n))
  {
    if n == 0 {
      assert history + [] == history;
    } else {
      var last := matches[n - 1];
      RecordBalances(history, silos, channel, matches, n - 1);
      var before := history + Changes(channel, matches, n - 1);
      CreditBalances(before, Recorded(silos, channel, matches, n - 1), channel, last);
      assert history + Changes(channel, matches, n) == before + [Change(channel, last.thing, Delta(last))];
    }
  }

  lemma ClearBalances(history: seq<Posting>, silos: Silos, channel: string, deletes: string -> bool)
    requires Balanced(history, silos)
    ensures Balanced(history + [Reset(channel, deletes)], Executed(silos, Clear(channel, deletes)))
  {
    var history', silos' := history + [Reset(channel, deletes)], Executed(silos, Clear(channel, deletes));
    assert history'[..|history|] == history;
    forall c, t
      ensures Lookup(silos', c, t) == if Mentioned(history', c, t) then Some(Itoa(Total(history', c, t))) else None
    {
      assert Lookup(silos, c, t) == if Mentioned(history, c, t) then Some(Itoa(Total(history, c, t))) else None;
      ClearedLookup(silos, channel, deletes, c, t);
    }
  }

  lemma ClearedLookup(silos: Silos, channel: string, deletes: string -> bool, c: string, t: string)
    ensures Lookup(Executed(silos, Clear(channel, deletes)), c, t)
      == if c == channel && deletes(t) then None else Lookup(silos, c, t)
  {
    var kept := Kept(SiloOf(silos, channel), deletes);
    assert t in kept <==> t in SiloOf(silos, channel) && !deletes(t);
  }

  /**
   Over every run of record and reset commands each channel's value for a thing is the sum of the changes applied
   since that channel's last reset that deleted it.
   */
  lemma {:induction false} LedgerBalances(commands: seq<Command>)
    ensures Balanced(History(commands), ExecutedAll(map[], commands))
  {
    if commands != [] {
      var before, last := commands[..|commands| - 1], commands[|commands| - 1];
      LedgerBalances(before);
      match last {
        case Record(channel, user, matches, puts) =>
          RecordBalances(History(before), ExecutedAll(map[], before), channel, matches,
                         StopAt(user, matches, puts, 0));
        case Clear(channel, deletes) =>
          ClearBalances(History(before), ExecutedAll(map[], before), channel, deletes);
      }
    }
  }

  // ---- Merging the channels ----

  /** mergeKarma. */
  function MergeKarma(v1: string, v2: string): Option<string> {
    match (Atoi(v1), Atoi(v2))
    case (Some(n1), Some(n2)) => Some(Itoa(n1 + n2))
    case _ => None
  }

  /** The sum of a thing over a set of channels, which does not depend on their order. */
  ghost function SumOver(silos: Silos, thing: string, channels: set<string>): int {
    if channels == {} then 0
    else
      var c :| c in channels;
      Current(silos, c, thing) + SumOver(silos, thing, channels - {c})
  }

  lemma {:induction false} SumOverAny(silos: Silos, thing: string, channels: set<string>, c: string)
    requires c in channels
    ensures SumOver(silos, thing, channels) == Current(silos, c, thing) + SumOver(silos, thing, channels - {c})
    decreases |channels|
  {
    var d :| d in channels
      && SumOver(silos, thing, channels) == Current(silos, d, thing) + SumOver(silos, thing, channels - {d});
    if d != c {
      SumOverAny(silos, thing, channels - {d}, c);
      SumOverAny(silos, thing, channels - {c}, d);
      assert channels - {d} - {c} == channels - {c} - {d};
    }
  }

  predicate Parses(silos: Silos, channel: string, thing: string) {
    Lookup(silos, channel, thing).Some? && Atoi(Lookup(silos, channel, thing).value).Some?
  }

  function ChannelsWith(silos: Silos, thing: string): set<string> {
    set c | c in silos && thing in silos[c]
  }

  /** What the merge holds for a thing once some of its channels are merged: nothing, the raw value, or the sum. */
  ghost predicate Merged(silos: Silos, entries: EntriesOf<string>, thing: string, channels: set<string>) {
    && (thing in entries <==> channels != {})
    && (|channels| == 1 ==> forall c <- channels :: Lookup(silos, c, thing) == Some(entries[thing]))
    && (|channels| > 1 ==> (forall c <- channels :: Parses(silos, c, thing))
                           && Atoi(entries[thing]) == Some(SumOver(silos, thing, channels)))
  }

  /** A thing that is in several channels and does not parse in one of them. */
  ghost predicate Garbled(silos: Silos, thing: string) {
    |ChannelsWith(silos, thing)| > 1 && exists c <- ChannelsWith(silos, thing) :: !Parses(silos, c, thing)
  }

  lemma MergeSecond(silos: Silos, thing: string, d: string, c: string)
    requires d != c && {d, c} <= ChannelsWith(silos, thing)
    ensures var merged := MergeKarma(silos[d][thing], silos[c][thing]);
      if merged.None? then !Parses(silos, c, thing) || !Parses(silos, d, thing)
      else (Parses(silos, c, thing) && Parses(silos, d, thing)
            && Atoi(merged.value) == Some(SumOver(silos, thing, {d} + {c})))
  {
    SumOverAny(silos, thing, {d} + {c}, c);
    assert {d} + {c} - {c} == {d};
    SumOverAny(silos, thing, {d}, d);
    AtoiItoa(Current(silos, d, thing) + Current(silos, c, thing));
  }

  lemma MergeFurther(silos: Silos, thing: string, sum: string, channels: set<string>, c: string)
    requires c !in channels && c in ChannelsWith(silos, thing)
    requires Atoi(sum) == Some(SumOver(silos, thing, channels))
    ensures var merged := MergeKarma(sum, silos[c][thing]);
      if merged.None? then !Parses(silos, c, thing)
      else Parses(silos, c, thing) && Atoi(merged.value) == Some(SumOver(silos, thing, channels + {c}))
  {
    SumOverAny(silos, thing, channels + {c}, c);
    assert channels + {c} - {c} == channels;
    AtoiItoa(SumOver(silos, thing, channels) + Current(silos, c, thing));
  }

  lemma TwoOf(s: set<string>, c: string, d: string)
    requires c in s && d in s && c != d
    ensures |s| > 1
  {
    assert |s - {c}| == |s| - 1 && d in s - {c};
  }

  lemma MergeOne(silos: Silos, entries: EntriesOf<string>, thing: string, channels: set<string>, c: string)
    requires channels <= ChannelsWith(silos, thing) && c in ChannelsWith(silos, thing) - channels
    requires Merged(silos, entries, thing, channels)
    ensures var val := silos[c][thing];
      if thing !in entries then Merged(silos, entries[thing := val], thing, channels + {c})
      else
        var merged := MergeKarma(entries[thing], val);
        if merged.None? then Garbled(silos, thing)
        else Merged(silos, entries[thing := merged.value], thing, channels + {c})
  {
    if channels == {} {
      assert channels + {c} == {c};
    } else {
      var d :| d in channels;
      TwoOf(ChannelsWith(silos, thing), c, d);
      if |channels| == 1 {
        assert |channels - {d}| == 0;
        assert channels == {d};
        MergeSecond(silos, thing, d, c);
      } else {
        MergeFurther(silos, thing, entries[thing], channels, c);
      }
    }
  }

  /** The channels of a thing that are merged when these channels, and these things of one more, are not. */
  function DoneFor(silos: Silos, thing: string, channels: set<string>, channel: string, things: set<string>)
    : set<string>
  {
    ChannelsWith(silos, thing) - channels - if thing in things then {channel} else {}
  }

  ghost predicate AllMerged(silos: Silos, entries: EntriesOf<string>, channels: set<string>, channel: string,
                            things: set<string>)
  {
    forall thing :: Merged(silos, entries, thing, DoneFor(silos, thing, channels, channel, things))
  }

  lemma MergedElsewhere(silos: Silos, entries: EntriesOf<string>, thing: string, val: string,
                        t: string, channels: set<string>)
    requires t != thing && Merged(silos, entries, t, channels)
    ensures Merged(silos, entries[thing := val], t, channels)
  {
  }

  lemma MergedFrame(silos: Silos, entries: EntriesOf<string>, channels: set<string>, channel: string,
                    things: set<string>, thing: string, val: string)
    requires AllMerged(silos, entries, channels, channel, things)
    requires Merged(silos, entries[thing := val], thing, DoneFor(silos, thing, channels, channel, things - {thing}))
    ensures AllMerged(silos, entries[thing := val], channels, channel, things - {thing})
  {
    var done := things - {thing};
    forall t
      ensures Merged(silos, entries[thing := val], t, DoneFor(silos, t, channels, channel, done))
    {
      if t != thing {
        SameDone(silos, t, channels, channel, things, thing);
        assert Merged(silos, entries, t, DoneFor(silos, t, channels, channel, things));
        MergedElsewhere(silos, entries, thing, val, t, DoneFor(silos, t, channels, channel, things));
      }
    }
  }

  lemma SameDone(silos: Silos, t: string, channels: set<string>, channel: string, things: set<string>, thing: string)
    requires t != thing
    ensures DoneFor(silos, t, channels, channel, things - {thing}) == DoneFor(silos, t, channels, channel, things)
  {
  }

  lemma MergeThing(silos: Silos, entries: EntriesOf<string>, channels: set<string>, channel: string,
                   things: set<string>, thing: string)
    requires AllMerged(silos, entries, channels, channel, things)
    requires channel in silos && channel !in channels && thing in things && things <= silos[channel].Keys
    ensures var val := silos[channel][thing];
      if thing !in entries then AllMerged(silos, entries[thing := val], channels, channel, things - {thing})
      else
        var merged := MergeKarma(entries[thing], val);
        if merged.None? then Garbled(silos, thing)
        else AllMerged(silos, entries[thing := merged.value], channels, channel, things - {thing})
  {
    var val, done := silos[channel][thing], DoneFor(silos, thing, channels, channel, things);
    assert Merged(silos, entries, thing, done);
    MergeOne(silos, entries, thing, done, channel);
    assert done + {channel} == DoneFor(silos, thing, channels, channel, things - {thing});
    if thing !in entries {
      MergedFrame(silos, entries, channels, channel, things, thing, val);
    } else if MergeKarma(entries[thing], val).Some? {
      MergedFrame(silos, entries, channels, channel, things, thing, MergeKarma(entries[thing], val).value);
    }
  }

  lemma MergeEnds(silos: Silos, entries: EntriesOf<string>, channel: string, thing: string)
    requires AllMerged(silos, entries, {}, channel, {})
    ensures Merged(silos, entries, thing, ChannelsWith(silos, thing)) && !Garbled(silos, thing)
  {
    assert DoneFor(silos, thing, {}, channel, {}) == ChannelsWith(silos, thing);
    assert Merged(silos, entries, thing, DoneFor(silos, thing, {}, channel, {}));
  }

  lemma NextChannel(silos: Silos, entries: EntriesOf<string>, channels: set<string>, channel: string, before: string)
    requires channel in channels && channel in silos && AllMerged(silos, entries, channels, before, {})
    ensures AllMerged(silos, entries, channels - {channel}, channel, silos[channel].Keys)
  {
    forall t
      ensures Merged(silos, entries, t, DoneFor(silos, t, channels - {channel}, channel, silos[channel].Keys))
    {
      assert Merged(silos, entries, t, DoneFor(silos, t, channels, before, {}));
      assert DoneFor(silos, t, channels - {channel}, channel, silos[channel].Keys)
        == DoneFor(silos, t, channels, before, {});
    }
  }

  /**
   scanGlobalKarma: whatever the order of the maps, each thing's entry is its sum over the channels; the merge is an
   error exactly when a thing of several channels does not parse in one of them.
   */
  method ScanGlobalKarma(silos: Silos) returns (result: Option<EntriesOf<string>>)
    ensures result.None? <==> exists thing :: Garbled(silos, thing)
    ensures result.Some? ==> forall thing :: Merged(silos, result.value, thing, ChannelsWith(silos, thing))
  {
    var entries: EntriesOf<string> := map[];
    var channels := silos.Keys;
    var channel := "";
    while channels != {}
      invariant channels <= silos.Keys
      invariant AllMerged(silos, entries, channels, channel, {})
    {
      ghost var previous := channel;
      channel :| channel in channels;
      NextChannel(silos, entries, channels, channel, previous);
      channels := channels - {channel};
      var things := silos[channel].Keys;
      while things != {}
        invariant things <= silos[channel].Keys
        invariant AllMerged(silos, entries, channels, channel, things)
      {
        var thing :| thing in things;
        var val := silos[channel][thing];
        MergeThing(silos, entries, channels, channel, things, thing);
        if thing !in entries {
          entries := entries[thing := val];
        } else {
          var merged := MergeKarma(entries[thing], val);
          if merged.None? {
            return None;
          }
          entries := entries[thing := merged.value];
        }
        things := things - {thing};
      }
    }
    forall thing
      ensures Merged(silos, entries, thing, ChannelsWith(silos, thing)) && !Garbled(silos, thing)
    {
      MergeEnds(silos, entries, channel, thing);
    }
    result := Some(entries);
  }

  /** When every value parses, the merge is the per-thing sum over all channels. */
  lemma MergedIsSum(silos: Silos, entries: EntriesOf<string>, thing: string)
    requires Merged(silos, entries, thing, ChannelsWith(silos, thing))
    requires forall c <- ChannelsWith(silos, thing) :: Parses(silos, c, thing)
    ensures thing in entries <==> ChannelsWith(silos, thing) != {}
    ensures thing in entries ==> Atoi(entries[thing]) == Some(SumOver(silos, thing, ChannelsWith(silos, thing)))
  {
    var channels := ChannelsWith(silos, thing);
    if |channels| == 1 {
      var c :| c in channels;
      assert |channels - {c}| == 0;
      SumOverAny(silos, thing, channels, c);
    }
  }
}
