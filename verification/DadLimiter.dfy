/** The per-stream !dad limit. Each chatter's counter is a function of what happened
    to it since the channel's last go-live or go-offline; the bot's nested map is
    proved to hold exactly those functions. */
module DadLimiter {
  import opened Basics

  const PER_STREAM_LIMIT: nat := 5

  datatype Decision = Allow | Reject | Silent

  /** What can happen to one chatter's counter within a stream. */
  datatype Happening = Roll | Merge(persisted: int)

  function Decide(count: int): Decision {
    if count < PER_STREAM_LIMIT then Allow else if count == PER_STREAM_LIMIT then Reject else Silent
  }

  function Next(count: int, h: Happening): int {
    match h
    case Roll => if Decide(count) == Silent then count else count + 1
    case Merge(persisted) => if persisted > count then persisted else count
  }

  /** The counter after a history. */
  function Tally(history: seq<Happening>): int {
    if history == [] then 0 else Next(Tally(history[..|history| - 1]), history[|history| - 1])
  }

  /** The decisions given to the rolls of a history, in order. */
  function Decisions(history: seq<Happening>): seq<Decision> {
    if history == [] then []
    else
      var init := history[..|history| - 1];
      Decisions(init) + if history[|history| - 1].Roll? then [Decide(Tally(init))] else []
  }

  function Times(d: Decision, ds: seq<Decision>): nat {
    if ds == [] then 0 else Times(d, ds[..|ds| - 1]) + if ds[|ds| - 1] == d then 1 else 0
  }

  function Rank(d: Decision): nat {
    match d case Allow => 0 case Reject => 1 case Silent => 2
  }

  /** The counter never falls, and a decision only ever moves on. */
  lemma {:induction false} DecisionsAdvance(history: seq<Happening>)
    ensures var ds := Decisions(history);
            && (forall i, j :: 0 <= i < j < |ds| ==> Rank(ds[i]) <= Rank(ds[j]))
            && (forall i :: 0 <= i < |ds| ==> Rank(ds[i]) <= Rank(Decide(Tally(history))))
  {
    if history != [] {
      var init := history[..|history| - 1];
      DecisionsAdvance(init);
      assert Tally(init) <= Tally(history);
      assert Decisions(history) == Decisions(init) + if history[|history| - 1].Roll? then [Decide(Tally(init))] else [];
    }
  }

  lemma TimesSnoc(d: Decision, ds: seq<Decision>, last: Decision)
    ensures Times(d, ds + [last]) == Times(d, ds) + if last == d then 1 else 0
  {
    assert (ds + [last])[..|ds|] == ds;
  }

  /** Every served roll is in the counter, which stops serving at the limit. */
  lemma {:induction false} DecisionsCounted(history: seq<Happening>)
    ensures Times(Allow, Decisions(history)) <= PER_STREAM_LIMIT && Times(Allow, Decisions(history)) <= Tally(history)
    ensures Times(Reject, Decisions(history)) <= if Tally(history) > PER_STREAM_LIMIT then 1 else 0
  {
    if history != [] {
      var init, last := history[..|history| - 1], history[|history| - 1];
      DecisionsCounted(init);
      var ds, d := Decisions(init), Decide(Tally(init));
      TimesSnoc(Allow, ds, d);
      TimesSnoc(Reject, ds, d);
      assert Decisions(history) == if last.Roll? then ds + [d] else ds;
    }
  }

  /** Within one stream, rehydrations included: at most five served rolls, then at
      most one reject, then silence, and never back. */
  lemma {:induction false} FiveThenOneThenSilence(history: seq<Happening>)
    ensures var ds := Decisions(history);
            && Times(Allow, ds) <= 5 && Times(Reject, ds) <= 1
            && (forall i, j :: 0 <= i < j < |ds| ==> Rank(ds[i]) <= Rank(ds[j]))
  {
    DecisionsAdvance(history);
    DecisionsCounted(history);
  }

  /** Rolls alone: the first five are served, the sixth is rejected, the rest ignored. */
  lemma {:induction false} RollsAlone(history: seq<Happening>, i: nat)
    requires i < |history| && forall j :: 0 <= j < |history| ==> history[j].Roll?
    ensures Tally(history) == (if |history| < 6 then |history| else 6) && |Decisions(history)| == |history|
    ensures Decisions(history)[i] == if i < 5 then Allow else if i == 5 then Reject else Silent
  {
    var init := history[..|history| - 1];
    if init != [] {
      RollsAlone(init, if i < |init| then i else 0);
    }
  }

  type Usage = map<string, map<string, int>>

  /** A missing channel or chatter counts as zero. */
  function CountOf(usage: Usage, channel: string, chatter: string): int {
    if channel in usage && chatter in usage[channel] then usage[channel][chatter] else 0
  }

  class Limiter {
    var usage: Usage
    ghost var history: (string, string) -> seq<Happening>

    ghost predicate Valid()
      reads this
    {
      forall ch, c :: CountOf(usage, ch, c) == Tally(history(ch, c))
    }

    constructor ()
      ensures Valid() && usage == map[]
    {
      usage := map[];
      history := (ch, c) => [];
    }

    /** Records a roll and decides it, creating the channel's entry when missing. */
    method Check(channelName: string, chatterName: string) returns (d: Decision)
      requires Valid()
      modifies this
      ensures Valid()
      ensures var ch, c := ToLower(channelName), ToLower(chatterName);
              && d == Decide(Tally(old(history)(ch, c)))
              && (d == Allow <==> Tally(old(history)(ch, c)) < 5) && (d == Reject <==> Tally(old(history)(ch, c)) == 5)
              && history(ch, c) == old(history)(ch, c) + [Roll]
              && (forall x, y :: (x, y) != (ch, c) ==> history(x, y) == old(history)(x, y))
    {
      var channel, chatter := ToLower(channelName), ToLower(chatterName);
      ghost var before := history;
      var counts := if channel in usage then usage[channel] else map[];
      var n := if chatter in counts then counts[chatter] else 0;
      assert n == CountOf(usage, channel, chatter);
      usage := usage[channel := counts];
      if n < PER_STREAM_LIMIT {
        usage := usage[channel := counts[chatter := n + 1]];
        d := Allow;
      } else if n == PER_STREAM_LIMIT {
        usage := usage[channel := counts[chatter := n + 1]];
        d := Reject;
      } else {
        d := Silent;
      }
      history := (x, y) => if (x, y) == (channel, chatter) then before(x, y) + [Roll] else before(x, y);
      assert (before(channel, chatter) + [Roll])[..|before(channel, chatter)|] == before(channel, chatter);
    }

    /** Go-live: every chatter of the channel starts fresh. */
    method StartStream(channelName: string)
      requires Valid()
      modifies this
      ensures Valid()
      ensures forall x, y :: history(x, y) == if x == ToLower(channelName) then [] else old(history)(x, y)
    {
      var channel := ToLower(channelName);
      ghost var before := history;
      usage := usage[channel := map[]];
      history := (x, y) => if x == channel then [] else before(x, y);
    }

    /** Go-offline: the channel's counters are dropped. */
    method EndStream(channelName: string)
      requires Valid()
      modifies this
      ensures Valid() && ToLower(channelName) !in usage
      ensures forall x, y :: history(x, y) == if x == ToLower(channelName) then [] else old(history)(x, y)
    {
      var channel := ToLower(channelName);
      ghost var before := history;
      usage := usage - {channel};
      history := (x, y) => if x == channel then [] else before(x, y);
    }

    /** Merges persisted counts by maximum, chatter by chatter. */
    method Rehydrate(login: string, persisted: map<string, int>)
      requires Valid()
      modifies this
      ensures Valid()
      ensures forall x, y :: history(x, y) ==
                if x == ToLower(login) && y in persisted then old(history)(x, y) + [Merge(persisted[y])]
                else old(history)(x, y)
    {
      if persisted == map[] {
        return;
      }
      var channel := ToLower(login);
      ghost var before := history;
      var start := if channel in usage then usage[channel] else map[];
      var counts := start;
      var rest := persisted.Keys;
      while rest != {}
        invariant rest <= persisted.Keys
        invariant forall y :: y !in persisted || y in rest ==> (y in counts <==> y in start) && (y in counts ==> counts[y] == start[y])
        invariant forall y :: y in persisted && y !in rest ==>
                    var n := if y in start then start[y] else 0;
                    (if y in counts then counts[y] else 0) == if persisted[y] > n then persisted[y] else n
        decreases rest
      {
        var y :| y in rest;
        rest := rest - {y};
        if persisted[y] > if y in counts then counts[y] else 0 {
          counts := counts[y := persisted[y]];
        }
      }
      usage := usage[channel := counts];
      history := (x, y) => if x == channel && y in persisted then before(x, y) + [Merge(persisted[y])] else before(x, y);
      forall x, y | x == channel && y in persisted ensures CountOf(usage, x, y) == Tally(history(x, y)) {
        assert (before(x, y) + [Merge(persisted[y])])[..|before(x, y)|] == before(x, y);
      }
    }
  }
}
