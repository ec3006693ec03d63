/** Surviving a restart: the persisted roll table, the per-stream key minted on
    going live, and when a restart restores exactly the counters it lost. */
module DadPersistence {
  import opened Basics
  import opened DadLimiter

  /** Stream keys are fresh identifiers, numbered here in minting order. */
  type StreamKey = nat

  datatype User = User(isLive: bool, streamKey: Option<StreamKey>)

  datatype Row = Row(rollCount: int, streamKey: Option<StreamKey>)

  predicate KeyBelow(key: Option<StreamKey>, n: nat) {
    key.Some? ==> key.value < n
  }

  // ------------------------------------------------- the tables as objects

  /** The users and dad_usage tables of the database, keyed by Twitch id. */
  class Tables {
    var users: map<int, User>
    var rows: map<(int, string), Row>
    var minted: nat

    /** No stream key from the future is stored, and every row counts something. */
    ghost predicate Valid()
      reads this
    {
      && (forall id :: id in users ==> KeyBelow(users[id].streamKey, minted))
      && (forall k :: k in rows ==> rows[k].rollCount > 0 && KeyBelow(rows[k].streamKey, minted))
    }

    constructor (users: map<int, User>)
      requires forall id :: id in users ==> users[id].streamKey == None
      ensures Valid() && this.users == users && rows == map[]
    {
      this.users, rows, minted := users, map[], 0;
    }

    /** A new key is minted only when the channel was not already live. */
    method PutChannelState(id: int, isLive: bool) returns (ok: bool)
      requires Valid()
      modifies this`users, this`minted
      ensures Valid() && (ok <==> id in old(users))
      ensures !ok ==> users == old(users) && minted == old(minted)
      ensures ok ==> id in users && users == old(users)[id := users[id]] && users[id].isLive == isLive
      ensures ok ==> id in users && users[id].streamKey == if isLive && !old(users)[id].isLive then Some(old(minted)) else old(users)[id].streamKey
      ensures ok ==> minted == old(minted) + (if isLive && !old(users)[id].isLive then 1 else 0)
    {
      if id !in users {
        return false;
      }
      var user := users[id];
      var wasLive := user.isLive;
      user := user.(isLive := isLive);
      if isLive && !wasLive {
        user := user.(streamKey := Some(minted));
        minted := minted + 1;
      }
      users := users[id := user];
      ok := true;
    }

    /** The upsert: a row of an earlier stream restarts at one; no user, no row. */
    method IncrementRoll(id: int, chatter: string)
      requires Valid()
      modifies this`rows
      ensures Valid()
      ensures id !in users ==> rows == old(rows)
      ensures id in users ==>
                var k, key := (id, chatter), users[id].streamKey;
                rows == old(rows)[k := if k in old(rows) && old(rows)[k].streamKey == key
                                       then Row(old(rows)[k].rollCount + 1, key) else Row(1, key)]
    {
      if id !in users {
        return;
      }
      var key := users[id].streamKey;
      if (id, chatter) in rows && rows[(id, chatter)].streamKey == key {
        rows := rows[(id, chatter) := Row(rows[(id, chatter)].rollCount + 1, key)];
      } else {
        rows := rows[(id, chatter) := Row(1, key)];
      }
    }

    /** The rows stamped with the broadcaster's current key, collected by chatter. */
    method GetCurrentStreamUsage(id: int) returns (usage: map<string, int>)
      ensures forall c :: c in usage <==> id in users && (id, c) in rows && rows[(id, c)].streamKey == users[id].streamKey
      ensures forall c :: c in usage ==> usage[c] == rows[(id, c)].rollCount
    {
      usage := map[];
      var rest := rows.Keys;
      while rest != {}
        invariant rest <= rows.Keys
        invariant forall c :: c in usage <==>
                    id in users && (id, c) in rows && (id, c) !in rest && rows[(id, c)].streamKey == users[id].streamKey
        invariant forall c :: c in usage ==> usage[c] == rows[(id, c)].rollCount
        decreases rest
      {
        var k :| k in rest;
        rest := rest - {k};
        if k.0 == id && id in users && rows[k].streamKey == users[id].streamKey {
          usage := usage[k.1 := rows[k].rollCount];
        }
      }
    }
  }

  function WithState(u: User, isLive: bool, newKey: StreamKey): User {
    User(isLive, if isLive && !u.isLive then Some(newKey) else u.streamKey)
  }

  function RowOf(rows: map<(int, string), Row>, id: int, chatter: string): Option<Row> {
    if (id, chatter) in rows then Some(rows[(id, chatter)]) else None
  }

  function Bumped(row: Option<Row>, key: Option<StreamKey>): Row {
    if row.Some? && row.value.streamKey == key then Row(row.value.rollCount + 1, key) else Row(1, key)
  }

  // ------------------------------------------- the bot and the tables together

  /** What core-api reports for a chatter of the broadcaster's current stream. */
  function Stored(users: map<int, User>, rows: map<(int, string), Row>, id: int, chatter: string): int {
    if id in users && (id, chatter) in rows && rows[(id, chatter)].streamKey == users[id].streamKey
    then rows[(id, chatter)].rollCount else 0
  }

  /** Memory and database agree on every chatter of the channel. */
  ghost predicate InStep(usage: Usage, channel: string, users: map<int, User>, rows: map<(int, string), Row>, id: int) {
    forall c :: CountOf(usage, channel, c) == Stored(users, rows, id, c)
  }

  lemma BumpCountsOne(users: map<int, User>, rows: map<(int, string), Row>, id: int, chatter: string)
    requires id in users
    ensures var rows' := rows[(id, chatter) := Bumped(RowOf(rows, id, chatter), users[id].streamKey)];
            && Stored(users, rows', id, chatter) == Stored(users, rows, id, chatter) + 1
            && forall c :: c != chatter ==> Stored(users, rows', id, c) == Stored(users, rows, id, c)
  {
  }

  /** What the bot and the tables hold of one chatter of a channel. */
  function Seen(usage: Usage, channel: string, chatter: string,
                users: map<int, User>, rows: map<(int, string), Row>, minted: nat, id: int): Chatter
    requires id in users
  {
    Chatter(CountOf(usage, channel, chatter), users[id], RowOf(rows, id, chatter), minted)
  }

  /** One !dad in a channel whose Twitch id, if it is tracked, is `id`. The roll is
      counted whatever the database knows, and written through exactly when it counted
      and the broadcaster has a row; then agreement is kept. */
  method HandleRoll(bot: Limiter, tables: Tables, id: Option<int>, channel: string, chatter: string) returns (d: Decision)
    requires bot.Valid() && tables.Valid()
    modifies bot, tables`rows
    ensures bot.Valid() && tables.Valid()
    ensures d == Decide(old(CountOf(bot.usage, ToLower(channel), ToLower(chatter))))
    ensures forall x, y :: CountOf(bot.usage, x, y) ==
              if (x, y) == (ToLower(channel), ToLower(chatter)) then DadLimiter.Next(old(CountOf(bot.usage, x, y)), Roll)
              else old(CountOf(bot.usage, x, y))
    ensures tables.rows == if d == Silent || id == None || id.value !in tables.users then old(tables.rows)
                           else var k := (id.value, ToLower(chatter));
                                old(tables.rows)[k := Bumped(RowOf(old(tables.rows), k.0, k.1), tables.users[k.0].streamKey)]
    ensures id.Some? && id.value in tables.users ==>
              var ch, c := ToLower(channel), ToLower(chatter);
              Seen(bot.usage, ch, c, tables.users, tables.rows, tables.minted, id.value)
              == Apply(old(Seen(bot.usage, ch, c, tables.users, tables.rows, tables.minted, id.value)), RollDad)
    ensures id.Some? && id.value in tables.users
            && old(InStep(bot.usage, ToLower(channel), tables.users, tables.rows, id.value)) ==>
              InStep(bot.usage, ToLower(channel), tables.users, tables.rows, id.value)
  {
    ghost var ch, c := ToLower(channel), ToLower(chatter);
    ghost var before := bot.history;
    assert forall x, y :: CountOf(bot.usage, x, y) == Tally(before(x, y));
    d := bot.Check(channel, chatter);
    assert (before(ch, c) + [Roll])[..|before(ch, c)|] == before(ch, c);
    assert forall x, y :: CountOf(bot.usage, x, y) == Tally(bot.history(x, y));
    if d != Silent && id.Some? {
      if id.value in tables.users {
        BumpCountsOne(tables.users, tables.rows, id.value, ToLower(chatter));
      }
      tables.IncrementRoll(id.value, ToLower(chatter));
    }
  }

  /** The go-live webhook: the state update, then the counter reset, which happens
      even when the update finds no such channel. Memory and database agree afterwards
      exactly when the channel was not already live or nothing of the running stream
      had been persisted. */
  method HandleGoLive(bot: Limiter, tables: Tables, id: int, channel: string)
    requires bot.Valid() && tables.Valid()
    modifies bot, tables`users, tables`minted
    ensures bot.Valid() && tables.Valid()
    ensures forall c :: CountOf(bot.usage, ToLower(channel), c) == 0
    ensures id !in old(tables.users) ==> tables.users == old(tables.users)
    ensures id in old(tables.users) ==> id in tables.users && forall c ::
              Seen(bot.usage, ToLower(channel), c, tables.users, tables.rows, tables.minted, id)
              == Apply(old(Seen(bot.usage, ToLower(channel), c, tables.users, tables.rows, tables.minted, id)), GoLive)
    ensures InStep(bot.usage, ToLower(channel), tables.users, tables.rows, id) <==>
              old(id !in tables.users || !tables.users[id].isLive) || forall c :: Stored(old(tables.users), tables.rows, id, c) == 0
  {
    ghost var was := tables.users;
    var ok := tables.PutChannelState(id, true);
    bot.StartStream(channel);
    assert forall c :: CountOf(bot.usage, ToLower(channel), c) == Tally(bot.history(ToLower(channel), c)) == 0;
    if id !in was || !was[id].isLive {
      assert forall c :: Stored(tables.users, tables.rows, id, c) == 0;
    } else {
      assert forall c :: Stored(tables.users, tables.rows, id, c) == Stored(was, tables.rows, id, c);
    }
  }

  /** The go-offline webhook: the state update and the counters' end. */
  method HandleGoOffline(bot: Limiter, tables: Tables, id: int, channel: string)
    requires bot.Valid() && tables.Valid()
    modifies bot, tables`users, tables`minted
    ensures bot.Valid() && tables.Valid()
    ensures forall c :: CountOf(bot.usage, ToLower(channel), c) == 0
    ensures id in old(tables.users) ==> id in tables.users && !tables.users[id].isLive && forall c ::
              Seen(bot.usage, ToLower(channel), c, tables.users, tables.rows, tables.minted, id)
              == Apply(old(Seen(bot.usage, ToLower(channel), c, tables.users, tables.rows, tables.minted, id)), GoOffline)
  {
    var ok := tables.PutChannelState(id, false);
    bot.EndStream(channel);
    assert forall c :: CountOf(bot.usage, ToLower(channel), c) == Tally(bot.history(ToLower(channel), c)) == 0;
  }

  /** A restarted bot rehydrates a live channel from what the database reports, so
      it agrees with it, whatever its predecessor had counted; any other channel
      starts from nothing. */
  method RestartBot(tables: Tables, id: int, login: string) returns (bot: Limiter)
    requires tables.Valid()
    ensures bot.Valid() && fresh(bot)
    ensures id in tables.users ==> forall usage, c ::
              Seen(bot.usage, ToLower(login), c, tables.users, tables.rows, tables.minted, id)
              == Apply(Seen(usage, ToLower(login), c, tables.users, tables.rows, tables.minted, id), Restart)
    ensures if id in tables.users && tables.users[id].isLive
            then InStep(bot.usage, ToLower(login), tables.users, tables.rows, id)
            else bot.usage == map[]
  {
    bot := new Limiter();
    if id !in tables.users || !tables.users[id].isLive {
      return;
    }
    ghost var empty := bot.history;
    assert forall c :: CountOf(bot.usage, ToLower(login), c) == 0;
    var usage := tables.GetCurrentStreamUsage(id);
    bot.Rehydrate(login, usage);
    forall c ensures CountOf(bot.usage, ToLower(login), c) == Stored(tables.users, tables.rows, id, c) {
      var h := empty(ToLower(login), c);
      if c in usage {
        assert (h + [Merge(usage[c])])[..|h|] == h;
      }
    }
  }

  // ------------------------------------------- one chatter of one channel

  /** The bot's counter, the broadcaster's row and this chatter's persisted row;
      `minted` is the next fresh stream key. */
  datatype Chatter = Chatter(count: int, user: User, row: Option<Row>, minted: nat)

  datatype Event =
    | GoLive      // the go-live webhook: state update, then counter reset
    | GoOffline
    | RollDad     // one !dad, written through when it counted
    | Rehydrate   // persisted counts merged into the running bot's
    | Lose        // the bot is back without its memory, its rehydration still to come
    | Restart     // the same with a live channel rehydrated before anything else happens

  /** What core-api reports for this chatter's current stream. */
  function Persisted(s: Chatter): int {
    if s.row.Some? && s.row.value.streamKey == s.user.streamKey then s.row.value.rollCount else 0
  }

  function Apply(s: Chatter, e: Event): Chatter {
    match e
    case GoLive =>
      s.(count := 0, user := WithState(s.user, true, s.minted), minted := if s.user.isLive then s.minted else s.minted + 1)
    case GoOffline => s.(count := 0, user := WithState(s.user, false, s.minted))
    case RollDad =>
      if Decide(s.count) == Silent then s
      else s.(count := DadLimiter.Next(s.count, Roll), row := Some(Bumped(s.row, s.user.streamKey)))
    case Rehydrate => s.(count := DadLimiter.Next(s.count, Merge(Persisted(s))))
    case Lose => s.(count := 0)
    case Restart => s.(count := if s.user.isLive then DadLimiter.Next(0, Merge(Persisted(s))) else 0)
  }

  function After(s: Chatter, events: seq<Event>): Chatter {
    if events == [] then s else Apply(After(s, events[..|events| - 1]), events[|events| - 1])
  }

  /** No key from the future is stored anywhere, and counts are not negative. */
  ghost predicate KeysOk(s: Chatter) {
    && (s.user.streamKey.Some? ==> s.user.streamKey.value < s.minted)
    && (s.row.Some? ==> s.row.value.rollCount > 0 && (s.row.value.streamKey.Some? ==> s.row.value.streamKey.value < s.minted))
    && s.count >= 0
  }

  /** So it stays whatever happens. */
  lemma {:induction false} KeysOnRuns(s: Chatter, events: seq<Event>)
    requires KeysOk(s)
    ensures KeysOk(After(s, events))
  {
    if events != [] {
      KeysOnRuns(s, events[..|events| - 1]);
    }
  }

  /** Memory and database agree on a live channel. */
  predicate Agrees(s: Chatter) {
    s.user.isLive && s.count == Persisted(s)
  }

  predicate WithinStream(e: Event) {
    e.RollDad? || e.Rehydrate? || e.Restart?
  }

  /** Right after a go-live, memory and database agree exactly when the channel was
      offline or nothing was persisted for the running stream: a duplicate go-live
      webhook wipes the counters but keeps the stream key. */
  lemma GoLiveAgreesIff(s: Chatter)
    requires KeysOk(s)
    ensures Agrees(Apply(s, GoLive)) <==> !s.user.isLive || Persisted(s) == 0
  {
  }

  /** Once in step, memory and database stay in step through any rolls,
      rehydrations and restarts, and a restart restores exactly the lost count. */
  lemma {:induction false} StaysInStep(s: Chatter, events: seq<Event>)
    requires KeysOk(s) && Agrees(s)
    requires forall i :: 0 <= i < |events| ==> WithinStream(events[i])
    ensures KeysOk(After(s, events)) && Agrees(After(s, events))
    ensures Apply(After(s, events), Restart) == After(s, events)
  {
    KeysOnRuns(s, events);
    if events != [] {
      StaysInStep(s, events[..|events| - 1]);
    }
  }

  ghost predicate Merged(events: seq<Event>) {
    exists i :: 0 <= i < |events| && (events[i].Rehydrate? || events[i].Restart?)
  }

  /** A duplicate go-live leaves memory behind the database by what was persisted,
      through every roll, until the first merge brings it back in step. */
  lemma {:induction false} LagUntilMerged(s: Chatter, events: seq<Event>)
    requires KeysOk(s) && s.user.isLive && s.count < Persisted(s)
    requires forall i :: 0 <= i < |events| ==> WithinStream(events[i])
    ensures var t := After(s, events);
            KeysOk(t) && t.user.isLive && t.count <= Persisted(t) && (t.count == Persisted(t) <==> Merged(events))
  {
    KeysOnRuns(s, events);
    if events != [] {
      var init, last := events[..|events| - 1], events[|events| - 1];
      LagUntilMerged(s, init);
      assert Merged(init) ==> Merged(events) by {
        if Merged(init) {
          var i :| 0 <= i < |init| && (init[i].Rehydrate? || init[i].Restart?);
          assert events[i] == init[i];
        }
      }
    }
  }

  /** From a live channel's counter at zero: memory and database agree exactly when
      nothing was persisted or persisted counts have been merged since. */
  lemma RestartAfterWipeIff(s: Chatter, events: seq<Event>)
    requires KeysOk(s) && s.user.isLive && s.count == 0
    requires forall i :: 0 <= i < |events| ==> WithinStream(events[i])
    ensures var t := After(s, events);
            Apply(t, Restart) == t <==> Persisted(s) == 0 || Merged(events)
  {
    if Persisted(s) == 0 {
      StaysInStep(s, events);
    } else {
      LagUntilMerged(s, events);
    }
  }

  /** Exactly when a restart restores the counts. Take any moment of a stream:
      whatever state the go-live webhook found, and any rolls, rehydrations and
      restarts since. A restart there changes nothing if and only if the webhook was
      no duplicate, or found nothing persisted for the running stream, or persisted
      counts have been merged since. */
  lemma RestartRestoresIff(s: Chatter, events: seq<Event>)
    requires KeysOk(s)
    requires forall i :: 0 <= i < |events| ==> WithinStream(events[i])
    ensures var t := After(Apply(s, GoLive), events);
            Apply(t, Restart) == t <==> !s.user.isLive || Persisted(s) == 0 || Merged(events)
  {
    KeysOnRuns(s, [GoLive]);
    assert [GoLive][..0] == [];
    GoLiveAgreesIff(s);
    RestartAfterWipeIff(Apply(s, GoLive), events);
  }

  /** The same over a whole history of the channel that ends in this stream. */
  lemma RestartRestoresOnRuns(start: Chatter, before: seq<Event>, stream: seq<Event>)
    requires KeysOk(start)
    requires forall i :: 0 <= i < |stream| ==> WithinStream(stream[i])
    ensures var s, t := After(start, before), After(start, before + [GoLive] + stream);
            Apply(t, Restart) == t <==> !s.user.isLive || Persisted(s) == 0 || Merged(stream)
  {
    KeysOnRuns(start, before);
    AfterConcat(start, before + [GoLive], stream);
    assert (before + [GoLive])[..|before|] == before;
    RestartRestoresIff(After(start, before), stream);
  }

  lemma {:induction false} AfterConcat(s: Chatter, a: seq<Event>, b: seq<Event>)
    ensures After(s, a + b) == After(After(s, a), b)
  {
    if b == [] {
      assert a + b == a;
    } else {
      assert (a + b)[..|a + b| - 1] == a + b[..|b| - 1];
      AfterConcat(s, a, b[..|b| - 1]);
    }
  }

  // ------------------------------------------- rolls before the rehydration

  /** Rolls alone: counted up to one past the limit, each counted one persisted. */
  lemma {:induction false} RollsCount(s: Chatter, rolls: seq<Event>)
    requires KeysOk(s) && forall i :: 0 <= i < |rolls| ==> rolls[i].RollDad?
    ensures var t, top := After(s, rolls), PER_STREAM_LIMIT + 1;
            && KeysOk(t) && t.user == s.user
            && t.count == (if s.count >= top then s.count else if s.count + |rolls| <= top then s.count + |rolls| else top)
            && Persisted(t) == Persisted(s) + t.count - s.count
  {
    if rolls != [] {
      RollsCount(s, rolls[..|rolls| - 1]);
    }
  }

  /** A restart whose rehydration comes only after some rolls. The rolls are decided
      and persisted from zero, the merge brings memory and database back in step, and
      the count is the one an uninterrupted bot would have if and only if there were no
      such rolls, or nothing had been counted, or they stay within the limit. */
  lemma LateMergeIff(s: Chatter, rolls: seq<Event>)
    requires KeysOk(s) && Agrees(s)
    requires forall i :: 0 <= i < |rolls| ==> rolls[i].RollDad?
    ensures var merged := Apply(After(Apply(s, Lose), rolls), Rehydrate);
            && Agrees(merged)
            && (merged.count == After(s, rolls).count <==>
                  rolls == [] || s.count == 0 || s.count + |rolls| <= 6)
  {
    RollsCount(s, rolls);
    RollsCount(Apply(s, Lose), rolls);
  }

  /** A silenced chatter, a restart, and one roll before the rehydration: the roll is
      served again, and the merged count is one too high. */
  lemma LateMergeOvercounts()
    ensures var s := Chatter(6, User(true, Some(0)), Some(Row(6, Some(0))), 1);
            && KeysOk(s) && Agrees(s) && Decide(s.count) == Silent
            && Decide(Apply(s, Lose).count) == Allow
            && Apply(Apply(Apply(s, Lose), RollDad), Rehydrate).count == 7
  {
  }

  // ------------------------------------------- what chatters see

  /** The decisions given to the rolls of a history, whichever process gave them. */
  function DecisionsGiven(s: Chatter, events: seq<Event>): seq<Decision> {
    if events == [] then []
    else
      var init := events[..|events| - 1];
      DecisionsGiven(s, init) + if events[|events| - 1].RollDad? then [Decide(After(s, init).count)] else []
  }

  function RollsOf(events: seq<Event>): seq<Happening> {
    if events == [] then []
    else RollsOf(events[..|events| - 1]) + if events[|events| - 1].RollDad? then [Roll] else []
  }

  /** Restarts and rehydrations cannot be told from the decisions: they are those of a
      single process that only ever saw the rolls. */
  lemma {:induction false} RestartsInvisible(s: Chatter, events: seq<Event>)
    requires KeysOk(s) && Agrees(s) && s.count == 0
    requires forall i :: 0 <= i < |events| ==> WithinStream(events[i])
    ensures After(s, events).count == Tally(RollsOf(events)) && Agrees(After(s, events))
    ensures DecisionsGiven(s, events) == Decisions(RollsOf(events))
  {
    if events != [] {
      var init, h := events[..|events| - 1], RollsOf(events[..|events| - 1]);
      RestartsInvisible(s, init);
      StaysInStep(s, init);
      assert (h + [Roll])[..|h|] == h && h + [] == h;
      assert Decisions(h) + [] == Decisions(h);
    }
  }

  /** No fresh allotment after a restart: over a whole stream, restarts included, a
      chatter is given at most five allows, then at most one reject, then silence. */
  lemma NoFreshAllotment(s: Chatter, events: seq<Event>)
    requires KeysOk(s) && !s.user.isLive
    requires forall i :: 0 <= i < |events| ==> WithinStream(events[i])
    ensures var ds := DecisionsGiven(Apply(s, GoLive), events);
            && Times(Allow, ds) <= 5 && Times(Reject, ds) <= 1
            && forall i, j :: 0 <= i < j < |ds| ==> Rank(ds[i]) <= Rank(ds[j])
  {
    KeysOnRuns(s, [GoLive]);
    assert [GoLive][..0] == [];
    RestartsInvisible(Apply(s, GoLive), events);
    FiveThenOneThenSilence(RollsOf(events));
  }

  // ------------------------------------------- while the channel is offline

  predicate WhileOffline(e: Event) {
    e.RollDad? || e.Restart?
  }

  /** Every roll has been followed by a restart. */
  ghost predicate RollsForgotten(events: seq<Event>) {
    forall i :: 0 <= i < |events| && events[i].RollDad? ==> exists j :: i < j < |events| && events[j].Restart?
  }

  /** An offline channel is not rehydrated: a restart drops what was rolled since the
      last one, and so changes nothing exactly when that was nothing. */
  lemma {:induction false} OfflineRestartIff(s: Chatter, events: seq<Event>)
    requires KeysOk(s) && !s.user.isLive && s.count == 0
    requires forall i :: 0 <= i < |events| ==> WhileOffline(events[i])
    ensures var t := After(s, events);
            && !t.user.isLive && t.count >= 0
            && (t.count == 0 <==> RollsForgotten(events))
            && (Apply(t, Restart) == t <==> RollsForgotten(events))
  {
    if events != [] {
      var init, last := events[..|events| - 1], events[|events| - 1];
      OfflineRestartIff(s, init);
      if last.RollDad? {
        assert !RollsForgotten(events);
      } else {
        assert events[|events| - 1].Restart?;
      }
    }
  }

  /** A whole history that ends offline. */
  lemma OfflineRestartOnRuns(start: Chatter, before: seq<Event>, offline: seq<Event>)
    requires KeysOk(start)
    requires forall i :: 0 <= i < |offline| ==> WhileOffline(offline[i])
    ensures var t := After(start, before + [GoOffline] + offline);
            Apply(t, Restart) == t <==> RollsForgotten(offline)
  {
    KeysOnRuns(start, before + [GoOffline]);
    AfterConcat(start, before + [GoOffline], offline);
    assert (before + [GoOffline])[..|before|] == before;
    OfflineRestartIff(After(start, before + [GoOffline]), offline);
  }

  /** Counter-example for a duplicate go-live: one roll, the webhook again, and a
      restart brings back a count the running bot had forgotten. */
  lemma DuplicateGoLiveDisagrees()
    ensures var s := After(Chatter(0, User(false, None), None, 0), [GoLive, RollDad, GoLive]);
            s.count == 0 && Apply(s, Restart).count == 1
  {
    var start := Chatter(0, User(false, None), None, 0);
    assert [GoLive, RollDad, GoLive][..2] == [GoLive, RollDad];
    assert [GoLive, RollDad][..1] == [GoLive];
    assert [GoLive][..0] == [];
    assert After(start, [GoLive]) == Chatter(0, User(true, Some(0)), None, 1);
    assert After(start, [GoLive, RollDad]) == Chatter(1, User(true, Some(0)), Some(Row(1, Some(0))), 1);
  }
}
