/** The ranked lists of the karma plugin, from the store to the answer. */
module Leaderboard {
  import opened Text
  import opened SiloMaps
  import opened Karma
  import opened Ranking

  const DEFAULT_ITEM_COUNT := 5

  /** The count captured by the ranker's expression, a possibly empty run of digits. */
  function ItemCount(rawCount: string): nat
    requires forall c <- rawCount :: IsDigit(c)
  {
    if rawCount == "" then DEFAULT_ITEM_COUNT
    else
      DigitsParse(rawCount);
      DigitsValue(rawCount).value
  }

  lemma {:induction false} DigitsParse(s: string)
    requires forall c <- s :: IsDigit(c)
    ensures DigitsValue(s).Some?
  {
    if s != "" {
      DigitsParse(s[..|s| - 1]);
      assert s[|s| - 1] in s;
    }
  }

  function Things(silos: Silos): set<string> {
    set c, t | c in silos && t in silos[c] :: t
  }

  /** The sum of each thing over the channels that have it. */
  ghost function Sums(silos: Silos): map<string, int> {
    map thing | thing in Things(silos) :: SumOver(silos, thing, ChannelsWith(silos, thing))
  }

  /** Every value stored in any channel parses. */
  ghost predicate AllStoredParse(silos: Silos) {
    forall c, t | Lookup(silos, c, t).Some? :: Parses(silos, c, t)
  }

  lemma GarbledDoesNotParse(silos: Silos, thing: string)
    requires Garbled(silos, thing)
    ensures !AllStoredParse(silos)
  {
    var c :| c in ChannelsWith(silos, thing) && !Parses(silos, c, thing);
    assert Lookup(silos, c, thing).Some?;
  }

  lemma EntryParses(silos: Silos, entries: EntriesOf<string>, thing: string)
    requires Merged(silos, entries, thing, ChannelsWith(silos, thing))
    ensures thing in entries ==>
      (Atoi(entries[thing]).Some? <==> forall c <- ChannelsWith(silos, thing) :: Parses(silos, c, thing))
  {
    var channels := ChannelsWith(silos, thing);
    if |channels| == 1 {
      var c :| c in channels;
      assert |channels - {c}| == 0;
      assert channels == {c};
    }
  }

  /** The merged values parse exactly when all stored ones do, and are then the sums. */
  lemma MergedParses(silos: Silos, entries: EntriesOf<string>)
    requires forall thing :: Merged(silos, entries, thing, ChannelsWith(silos, thing))
    ensures AllParse(entries) <==> AllStoredParse(silos)
    ensures AllParse(entries) ==> Parsed(entries) == Sums(silos)
  {
    if AllParse(entries) {
      forall c, t | Lookup(silos, c, t).Some?
        ensures Parses(silos, c, t)
      {
        assert Merged(silos, entries, t, ChannelsWith(silos, t)) && c in ChannelsWith(silos, t);
        EntryParses(silos, entries, t);
      }
      forall t
        ensures t in entries <==> t in Sums(silos)
        ensures t in entries ==> Atoi(entries[t]) == Some(Sums(silos)[t])
      {
        EntrySums(silos, entries, t);
      }
    }
    if AllStoredParse(silos) {
      forall t <- entries
        ensures Atoi(entries[t]).Some?
      {
        assert Merged(silos, entries, t, ChannelsWith(silos, t));
        EntryParses(silos, entries, t);
      }
    }
  }

  lemma EntrySums(silos: Silos, entries: EntriesOf<string>, t: string)
    requires Merged(silos, entries, t, ChannelsWith(silos, t)) && AllStoredParse(silos)
    ensures t in entries <==> t in Sums(silos)
    ensures t in entries ==> Atoi(entries[t]) == Some(Sums(silos)[t])
  {
    forall c <- ChannelsWith(silos, t)
      ensures Parses(silos, c, t)
    {
      assert Lookup(silos, c, t).Some?;
    }
    MergedIsSum(silos, entries, t);
    ThingsHaveChannels(silos, t);
  }

  lemma ThingsHaveChannels(silos: Silos, t: string)
    ensures t in Things(silos) <==> ChannelsWith(silos, t) != {}
  {
    if t in Things(silos) {
      var c :| c in silos && t in silos[c];
      assert c in ChannelsWith(silos, t);
    }
    if c :| c in ChannelsWith(silos, t) {
      assert t in Things(silos);
    }
  }

  /** The global list: an error exactly when some stored value does not parse, else the sums over channels, ranked. */
  method RankGlobally(silos: Silos, count: nat, top: bool) returns (results: Option<seq<Pair>>)
    ensures results.Some? <==> AllStoredParse(silos)
    ensures results.Some? ==> Ranks(top, Sums(silos), count, results.value)
  {
    var entries := ScanGlobalKarma(silos);
    if entries.None? {
      ghost var thing :| Garbled(silos, thing);
      GarbledDoesNotParse(silos, thing);
      return None;
    }
    MergedParses(silos, entries.value);
    results := GetRankedList(entries.value, count, top);
  }

  /** answerKarmaRankList: the list of a channel or of all, with the asked or the default count. */
  method AnswerKarmaRankList(silos: Silos, channel: string, rawCount: string, global: bool, top: bool)
    returns (results: Option<seq<Pair>>)
    requires forall c <- rawCount :: IsDigit(c)
    ensures results.Some? <==> if global then AllStoredParse(silos) else AllParse(SiloOf(silos, channel))
    ensures results.Some? ==>
      Ranks(top, if global then Sums(silos) else Parsed(SiloOf(silos, channel)), ItemCount(rawCount), results.value)
  {
    if global {
      results := RankGlobally(silos, ItemCount(rawCount), top);
    } else {
      results := GetRankedList(SiloOf(silos, channel), ItemCount(rawCount), top);
    }
  }

  // ---- After a run of the plugin's own commands ----

  /** What the ledger says of a channel: the totals of the things changed since its last reset. */
  ghost predicate IsLedgerOf(history: seq<Posting>, channel: string, values: map<string, int>) {
    forall thing :: (thing in values <==> Mentioned(history, channel, thing))
                    && (thing in values ==> values[thing] == Total(history, channel, thing))
  }

  /** All values parse, and they are the totals of the ledger, channel by channel. */
  ghost predicate ShowsLedger(history: seq<Posting>, silos: Silos) {
    && AllStoredParse(silos)
    && (forall channel :: AllParse(SiloOf(silos, channel))
                          && IsLedgerOf(history, channel, Parsed(SiloOf(silos, channel))))
    && (forall channel, thing :: Current(silos, channel, thing) == Total(history, channel, thing))
  }

  lemma BalancedParses(history: seq<Posting>, silos: Silos)
    requires Balanced(history, silos)
    ensures ShowsLedger(history, silos)
  {
    forall channel, thing
      ensures Lookup(silos, channel, thing).Some? <==> Mentioned(history, channel, thing)
      ensures Lookup(silos, channel, thing).Some? ==>
        Atoi(Lookup(silos, channel, thing).value) == Some(Total(history, channel, thing))
      ensures Lookup(silos, channel, thing).None? ==> Total(history, channel, thing) == 0
    {
      if !Mentioned(history, channel, thing) {
        UnmentionedTotal(history, channel, thing);
      }
      assert Lookup(silos, channel, thing) == if Mentioned(history, channel, thing)
        then Some(Itoa(Total(history, channel, thing))) else None;
      AtoiItoa(Total(history, channel, thing));
    }
    forall channel
      ensures AllParse(SiloOf(silos, channel)) && IsLedgerOf(history, channel, Parsed(SiloOf(silos, channel)))
    {
      LedgerOfSilo(history, silos, channel);
    }
  }

  lemma LedgerOfSilo(history: seq<Posting>, silos: Silos, channel: string)
    requires forall thing :: Lookup(silos, channel, thing).Some? <==> Mentioned(history, channel, thing)
    requires forall thing :: Lookup(silos, channel, thing).Some? ==>
      Atoi(Lookup(silos, channel, thing).value) == Some(Total(history, channel, thing))
    ensures AllParse(SiloOf(silos, channel)) && IsLedgerOf(history, channel, Parsed(SiloOf(silos, channel)))
  {
    var entries := SiloOf(silos, channel);
    forall thing
      ensures thing in entries <==> Lookup(silos, channel, thing).Some?
      ensures thing in entries ==> entries[thing] == Lookup(silos, channel, thing).value
    {
    }
  }

  /** Over every run of record and reset commands no list is an error, and each ranks what the ledger says. */
  lemma ListsNeverFail(commands: seq<Command>)
    ensures ShowsLedger(History(commands), ExecutedAll(map[], commands))
  {
    LedgerBalances(commands);
    BalancedParses(History(commands), ExecutedAll(map[], commands));
  }
}
