/**
 * The data behind the analytics page: which logs feed each chart and what
 * each chart aggregates. Drawing, colours and the DOM are not modelled;
 * each chart is reduced to the series or table it would be given.
 */
module Analytics {
  import opened Wrappers
  import opened Js
  import opened Documents
  import opened Sorting
  import opened Dictionary
  import opened Db

  // ---------------------------------------------------------------------
  // Time windows (lines 94-119)
  // ---------------------------------------------------------------------

  const Day: int := 24 * 60 * 60 * 1000
  const Week: int := 7 * Day

  /** `Math.floor((today - logDate) / week)`: how many whole weeks ago. */
  function WeekIndex(now: int, ts: int): (w: int)
    ensures w * Week <= now - ts < (w + 1) * Week
  {
    (now - ts) / Week
  }

  /** `new Date(log.timestamp) >= thirtyDaysAgo`. */
  predicate WithinThirtyDays(now: int, ts: int) {
    ts >= now - 30 * Day
  }

  /**
   * The chart slot of a log stamped `ts`: slot `3 - index` for week indexes
   * 0 to 3, so the current week is the last slot; none otherwise.
   */
  function WeekSlot(now: int, ts: int): (slot: Option<nat>)
    ensures slot.Some? <==> now - 4 * Week < ts <= now
    ensures slot.Some? ==> slot.value <= 3 && slot.value == 3 - WeekIndex(now, ts)
    ensures slot.Some? ==> WithinThirtyDays(now, ts)
  {
    var w := WeekIndex(now, ts);
    if 0 <= w < 4 then Some(3 - w) else None
  }

  /** The member's own COFFEE logs. */
  predicate IsUserCoffee(e: LogEntry, userId: string) {
    e.userId == userId && e.kind == Coffee
  }

  /** The logs the weekly chart counts: the member's coffees of the last thirty days. */
  function RecentUserCoffees(logs: seq<LogEntry>, userId: string, now: int): seq<LogEntry> {
    Filter(logs, (e: LogEntry) => IsUserCoffee(e, userId) && WithinThirtyDays(now, e.timestamp))
  }

  // ---------------------------------------------------------------------
  // The weekly counters, as written and as intended (lines 105-126)
  // ---------------------------------------------------------------------

  /** A week counter as the chart code holds it: `{}` as it starts, NaN, or a number. */
  datatype Counter = EmptyObject | NaN | Number(n: int)

  /** `c++`: an object or NaN becomes NaN. */
  function Increment(c: Counter): Counter {
    match c
    case Number(n) => Number(n + 1)
    case _ => NaN
  }

  /** `c || 0`: NaN is falsy, an object is truthy. */
  function OrZero(c: Counter): Counter {
    if c.NaN? then Number(0) else c
  }

  /** The `forEach` over the logs, bumping the slot each one falls in. */
  function Tally(logs: seq<LogEntry>, now: int, counters: seq<Counter>): (r: seq<Counter>)
    requires |counters| == 4
    ensures |r| == 4
  {
    if logs == [] then counters
    else
      var next := match WeekSlot(now, logs[0].timestamp)
        case Some(k) => counters[k := Increment(counters[k])]
        case None => counters;
      Tally(logs[1..], now, next)
  }

  /** How many of `logs` fall in slot `k`. */
  function SlotCount(logs: seq<LogEntry>, now: int, k: nat): nat {
    if logs == [] then 0
    else (if WeekSlot(now, logs[0].timestamp) == Some(k) then 1 else 0) + SlotCount(logs[1..], now, k)
  }

  /**
   * The four values the chart is given for member `userId`, with counters
   * starting as `{}`, as written: the member's recent coffees are tallied.
   */
  function WeekSeriesAsWritten(logs: seq<LogEntry>, userId: string, now: int): (r: seq<Counter>)
    ensures |r| == 4
  {
    var t := Tally(RecentUserCoffees(logs, userId, now), now, [EmptyObject, EmptyObject, EmptyObject, EmptyObject]);
    [OrZero(t[0]), OrZero(t[1]), OrZero(t[2]), OrZero(t[3])]
  }

  /** The same four values with counters starting at 0, as evidently intended. */
  function WeekSeries(logs: seq<LogEntry>, userId: string, now: int): (r: seq<Counter>)
    ensures |r| == 4
  {
    var t := Tally(RecentUserCoffees(logs, userId, now), now, [Number(0), Number(0), Number(0), Number(0)]);
    [OrZero(t[0]), OrZero(t[1]), OrZero(t[2]), OrZero(t[3])]
  }

  /** Tallying onto numbers adds each slot's count. */
  lemma {:induction false} TallyAddsCounts(logs: seq<LogEntry>, now: int, counters: seq<Counter>, k: nat)
    requires |counters| == 4 && k < 4 && counters[k].Number?
    ensures Tally(logs, now, counters)[k] == Number(counters[k].n + SlotCount(logs, now, k))
  {
    if logs != [] {
      var next := match WeekSlot(now, logs[0].timestamp)
        case Some(j) => counters[j := Increment(counters[j])]
        case None => counters;
      TallyAddsCounts(logs[1..], now, next, k);
    }
  }

  /** Tallying onto `{}` leaves an untouched slot `{}` and turns a touched one into NaN. */
  lemma {:induction false} TallyOntoObjects(logs: seq<LogEntry>, now: int, counters: seq<Counter>, k: nat)
    requires |counters| == 4 && k < 4 && !counters[k].Number?
    ensures Tally(logs, now, counters)[k] == if SlotCount(logs, now, k) == 0 then counters[k] else NaN
  {
    if logs != [] {
      var next := match WeekSlot(now, logs[0].timestamp)
        case Some(j) => counters[j := Increment(counters[j])]
        case None => counters;
      TallyOntoObjects(logs[1..], now, next, k);
    }
  }

  /** With counters starting at 0 each week shows how many of the member's recent coffees fall in it. */
  lemma WeekSeriesCounts(logs: seq<LogEntry>, userId: string, now: int)
    ensures var mine := RecentUserCoffees(logs, userId, now);
            forall k | 0 <= k < 4 :: WeekSeries(logs, userId, now)[k] == Number(SlotCount(mine, now, k))
  {
    var mine := RecentUserCoffees(logs, userId, now);
    var start := [Number(0), Number(0), Number(0), Number(0)];
    forall k | 0 <= k < 4
      ensures WeekSeries(logs, userId, now)[k] == Number(SlotCount(mine, now, k))
    {
      TallyAddsCounts(mine, now, start, k);
    }
  }

  /** As written, a week never shows a count: `{}` when it holds no coffee, 0 when it holds some. */
  lemma WeekSeriesAsWrittenShowsNoCounts(logs: seq<LogEntry>, userId: string, now: int)
    ensures var mine := RecentUserCoffees(logs, userId, now);
            forall k | 0 <= k < 4 ::
              WeekSeriesAsWritten(logs, userId, now)[k] == if SlotCount(mine, now, k) == 0 then EmptyObject else Number(0)
  {
    var mine := RecentUserCoffees(logs, userId, now);
    var start := [EmptyObject, EmptyObject, EmptyObject, EmptyObject];
    forall k | 0 <= k < 4
      ensures WeekSeriesAsWritten(logs, userId, now)[k] == if SlotCount(mine, now, k) == 0 then EmptyObject else Number(0)
    {
      TallyOntoObjects(mine, now, start, k);
    }
  }

  /** One coffee of the member logged right now: this week shows 0 as written and 1 as intended. */
  lemma OneCoffeeThisWeek(e: LogEntry, now: int)
    requires e.kind == Coffee && e.timestamp == now
    ensures WeekSeriesAsWritten([e], e.userId, now)[3] == Number(0)
    ensures WeekSeries([e], e.userId, now)[3] == Number(1)
  {
    var mine := RecentUserCoffees([e], e.userId, now);
    assert mine == [e] by {
      assert [e][1..] == [];
    }
    assert WeekSlot(now, e.timestamp) == Some(3);
    assert SlotCount([e], now, 3) == 1 by {
      assert [e][1..] == [];
    }
    WeekSeriesAsWrittenShowsNoCounts([e], e.userId, now);
    WeekSeriesCounts([e], e.userId, now);
  }

  // ---------------------------------------------------------------------
  // Purchase categories (lines 339-356)
  // ---------------------------------------------------------------------

  datatype Category = CoffeeBeans | MilkCream | SugarSweetener | Supplies | Equipment | Other

  /** The keyword rules in the order they are tried; a message matching none is Other. */
  const Rules: seq<(Category, seq<string>)> := [
    (CoffeeBeans, ["coffee", "beans"]),
    (MilkCream, ["milk", "cream"]),
    (SugarSweetener, ["sugar", "sweetener"]),
    (Supplies, ["cup", "filter"]),
    (Equipment, ["machine", "equipment"])
  ]

  /** Some word of `words` occurs in `text`. */
  predicate MentionsAny(text: string, words: seq<string>) {
    exists w | w in words :: Includes(text, w)
  }

  /** `(log.message || 'Other').toLowerCase()`. */
  function CategoryText(message: string): string {
    ToLower(if message != "" then message else "Other")
  }

  /**
   * The position of the first rule whose keywords `text` mentions, or
   * `|rules|` when it mentions none.
   */
  function FirstMatch(text: string, rules: seq<(Category, seq<string>)>): (k: nat)
    ensures k <= |rules|
    ensures k < |rules| ==> MentionsAny(text, rules[k].1)
    ensures forall j | 0 <= j < k :: !MentionsAny(text, rules[j].1)
  {
    if rules == [] then 0
    else if MentionsAny(text, rules[0].1) then 0
    else 1 + FirstMatch(text, rules[1..])
  }

  /** The category of a group log: the first rule that matches, Other when none does. */
  function Categorize(message: string): Category {
    var k := FirstMatch(CategoryText(message), Rules);
    if k < |Rules| then Rules[k].0 else Other
  }

  /**
   * The category is that of the first rule whose keywords the lower-cased
   * message mentions, and Other exactly when it mentions none.
   */
  lemma CategorizeFirstMatch(message: string)
    ensures Categorize(message) == Other <==>
      forall k | 0 <= k < |Rules| :: !MentionsAny(CategoryText(message), Rules[k].1)
    ensures Categorize(message) != Other ==>
      exists k | 0 <= k < |Rules| ::
        && Rules[k].0 == Categorize(message)
        && MentionsAny(CategoryText(message), Rules[k].1)
        && forall j | 0 <= j < k :: !MentionsAny(CategoryText(message), Rules[j].1)
  {
    var k := FirstMatch(CategoryText(message), Rules);
    assert forall j | 0 <= j < |Rules| :: Rules[j].0 != Other;
  }

  /** The rule table tried in order is the `if` / `else if` chain over the keywords. */
  lemma RuleOrderSpelledOut(message: string)
    ensures var text := CategoryText(message);
      Categorize(message) ==
        if Includes(text, "coffee") || Includes(text, "beans") then CoffeeBeans
        else if Includes(text, "milk") || Includes(text, "cream") then MilkCream
        else if Includes(text, "sugar") || Includes(text, "sweetener") then SugarSweetener
        else if Includes(text, "cup") || Includes(text, "filter") then Supplies
        else if Includes(text, "machine") || Includes(text, "equipment") then Equipment
        else Other
  {
    var text := CategoryText(message);
    MentionsEither(text, "coffee", "beans");
    MentionsEither(text, "milk", "cream");
    MentionsEither(text, "sugar", "sweetener");
    MentionsEither(text, "cup", "filter");
    MentionsEither(text, "machine", "equipment");
    var rules := Rules;
    assert rules[0].1 == ["coffee", "beans"];
    rules := rules[1..];
    assert rules[0].1 == ["milk", "cream"];
    rules := rules[1..];
    assert rules[0].1 == ["sugar", "sweetener"];
    rules := rules[1..];
    assert rules[0].1 == ["cup", "filter"];
    rules := rules[1..];
    assert rules[0].1 == ["machine", "equipment"];
    assert rules[1..] == [];
  }

  /** A rule of two keywords matches when either keyword occurs. */
  lemma MentionsEither(text: string, a: string, b: string)
    ensures MentionsAny(text, [a, b]) <==> Includes(text, a) || Includes(text, b)
  {
    if Includes(text, a) {
      assert a in [a, b];
    }
    if Includes(text, b) {
      assert b in [a, b];
    }
  }

  /** The BEANS logs the app writes itself always count as Coffee Beans. */
  lemma BeansLogIsCoffeeBeans(figures: string)
    ensures Categorize(BeansMessage(figures)) == CoffeeBeans
  {
    var prefix := "\U{1FAD8} Coffee Beans: ";
    var message := BeansMessage(figures);
    assert message == prefix + figures;
    assert prefix[2..8] == "Coffee";
    assert message[2..8] == prefix[2..8];
    var text := CategoryText(message);
    assert forall i | 2 <= i < 8 :: text[i] == LowerChar(message[i]);
    assert text[2..8] == "coffee";
    assert OccursAt(text, "coffee", 2);
    assert "coffee" in Rules[0].1;
    assert MentionsAny(text, Rules[0].1);
  }

  /** The category of a log by its message. */
  function CategoryOf(e: LogEntry): Category {
    Categorize(e.message)
  }

  /** `Math.abs(log.amount)`. */
  function AbsAmount(e: LogEntry): real {
    Abs(e.amount)
  }

  /** The `categories` object after the `forEach`, keys in first-seen order. */
  function CategoryTotals(logs: seq<LogEntry>): Dict<Category, real> {
    SumBy(logs, CategoryOf, AbsAmount)
  }

  /** Every group log adds to exactly one category, so the totals add up to all the spending. */
  lemma CategoryTotalsSum(logs: seq<LogEntry>)
    ensures SumValues(CategoryTotals(logs)) == Total(logs, AbsAmount)
  {
    SumByTotal(logs, CategoryOf, AbsAmount);
  }

  /**
   * A category appears exactly when some log falls in it, once, holding the
   * spending of the logs that fall in it.
   */
  lemma CategoryTotalsGet(logs: seq<LogEntry>, c: Category)
    ensures GetOrZero(CategoryTotals(logs), c) == TotalWhere(logs, CategoryOf, AbsAmount, c)
    ensures HasKey(CategoryTotals(logs), c) <==> exists i | 0 <= i < |logs| :: Categorize(logs[i].message) == c
    ensures DistinctKeys(CategoryTotals(logs))
  {
    SumByGet(logs, CategoryOf, AbsAmount, c);
    SumByKeys(logs, CategoryOf, AbsAmount, c);
  }

  // ---------------------------------------------------------------------
  // Rankings (lines 177-187, 302-312)
  // ---------------------------------------------------------------------

  /** The `memberCoffeeCount` object: `$id` to `total_coffees`, the last member with an id winning. */
  function CoffeeCounts(ms: seq<Member>): map<string, int> {
    if ms == [] then map[]
    else CoffeeCounts(ms[..|ms| - 1])[ms[|ms| - 1].id := ms[|ms| - 1].totalCoffees]
  }

  /** Every member's id is counted, with the count of the last member holding that id. */
  lemma {:induction false} CoffeeCountsOf(ms: seq<Member>, i: nat)
    requires i < |ms|
    ensures ms[i].id in CoffeeCounts(ms)
    ensures (forall j | i < j < |ms| :: ms[j].id != ms[i].id) ==> CoffeeCounts(ms)[ms[i].id] == ms[i].totalCoffees
  {
    if i < |ms| - 1 {
      CoffeeCountsOf(ms[..|ms| - 1], i);
      assert ms[..|ms| - 1][i] == ms[i];
      assert forall j | i < j < |ms| - 1 :: ms[..|ms| - 1][j] == ms[j];
    }
  }

  /** Exactly the members' ids are counted. */
  lemma {:induction false} CoffeeCountsKeys(ms: seq<Member>, id: string)
    ensures id in CoffeeCounts(ms) <==> exists i | 0 <= i < |ms| :: ms[i].id == id
  {
    if ms != [] {
      var init := ms[..|ms| - 1];
      CoffeeCountsKeys(init, id);
      if id in CoffeeCounts(init) {
        var i :| 0 <= i < |init| && init[i].id == id;
        assert ms[i].id == id;
      }
      if exists i | 0 <= i < |ms| :: ms[i].id == id {
        var i :| 0 <= i < |ms| && ms[i].id == id;
        if i < |init| { assert init[i].id == id; }
      }
    }
  }

  /** The comparator's key: the member's entry in the counts. */
  function CountKey(counts: map<string, int>): Member -> real {
    (m: Member) => if m.id in counts then counts[m.id] as real else 0.0
  }

  /** The member's own coffee count as a sort key. */
  function CoffeesOf(m: Member): real {
    m.totalCoffees as real
  }

  /** The member's name and outstanding amount as one entry of `memberSpending`. */
  function EntryValue(e: (string, real)): real {
    e.1
  }

  /** The `memberSpending` object: name to `|balance|`, a later member with the same name overwriting. */
  function SpendingByName(ms: seq<Member>): Dict<string, real> {
    if ms == [] then []
    else
      var last := ms[|ms| - 1];
      Put(SpendingByName(ms[..|ms| - 1]), last.name, Abs(last.balance))
  }

  /** A member's name holds their `|balance|` when no later member has the same name. */
  lemma {:induction false} SpendingByNameOf(ms: seq<Member>, i: nat)
    requires i < |ms| && forall j | i < j < |ms| :: ms[j].name != ms[i].name
    ensures Get(SpendingByName(ms), ms[i].name) == Some(Abs(ms[i].balance))
  {
    var init := ms[..|ms| - 1];
    var last := ms[|ms| - 1];
    GetPut(SpendingByName(init), last.name, Abs(last.balance), ms[i].name);
    if i < |ms| - 1 {
      assert init[i] == ms[i];
      assert forall j | i < j < |init| :: init[j] == ms[j];
      SpendingByNameOf(init, i);
    }
  }

  /** The names are the keys, each once, so there are at most as many entries as members. */
  lemma {:induction false} SpendingByNameKeys(ms: seq<Member>, name: string)
    ensures HasKey(SpendingByName(ms), name) <==> exists i | 0 <= i < |ms| :: ms[i].name == name
    ensures DistinctKeys(SpendingByName(ms))
    ensures |SpendingByName(ms)| <= |ms|
  {
    if ms != [] {
      var init := ms[..|ms| - 1];
      var last := ms[|ms| - 1];
      var d := SpendingByName(init);
      SpendingByNameKeys(init, name);
      HasKeyPut(d, last.name, Abs(last.balance), name);
      DistinctKeysPut(d, last.name, Abs(last.balance));
      if HasKey(SpendingByName(ms), name) && last.name != name {
        var i :| 0 <= i < |init| && init[i].name == name;
        assert ms[i] == init[i];
      }
      if exists i | 0 <= i < |ms| :: ms[i].name == name {
        var i :| 0 <= i < |ms| && ms[i].name == name;
        if i < |init| {
          assert init[i] == ms[i];
        }
      }
    }
  }

  /** Top-k answers under two keys agreeing on every element are the same answers. */
  lemma IsTopSameKey<T>(all: seq<T>, key1: T -> real, key2: T -> real, k: nat, r: seq<T>)
    requires forall x | x in all :: key1(x) == key2(x)
    requires IsTop(all, key1, k, r)
    ensures IsTop(all, key2, k, r)
  {
    forall i | 0 <= i < |r| ensures r[i] in all {
      assert multiset(r)[r[i]] > 0;
    }
    forall x | x in multiset(all) - multiset(r)
      ensures forall i | 0 <= i < |r| :: key2(x) <= key2(r[i])
    {
      assert x in all;
    }
  }

  // ---------------------------------------------------------------------
  // Total spend and activity feed (lines 390, 426-431)
  // ---------------------------------------------------------------------

  /** `userLogs.reduce((sum, log) => sum + Math.abs(log.amount), 0)`. */
  function TotalSpent(logs: seq<LogEntry>, userId: string): (r: real)
    ensures r >= 0.0
    ensures (forall i | 0 <= i < |logs| :: !IsUserCoffee(logs[i], userId)) ==> r == 0.0
    ensures (exists i | 0 <= i < |logs| :: IsUserCoffee(logs[i], userId) && logs[i].amount != 0.0) ==> r > 0.0
  {
    if logs == [] then 0.0
    else (if IsUserCoffee(logs[0], userId) then Abs(logs[0].amount) else 0.0) + TotalSpent(logs[1..], userId)
  }

  /** Total spend is additive over a later log. */
  lemma {:induction false} TotalSpentAppend(logs: seq<LogEntry>, e: LogEntry, userId: string)
    ensures TotalSpent(logs + [e], userId) ==
            TotalSpent(logs, userId) + if IsUserCoffee(e, userId) then Abs(e.amount) else 0.0
  {
    if logs == [] {
      assert [] + [e] == [e];
      assert [e][1..] == [];
    } else {
      assert (logs + [e])[1..] == logs[1..] + [e];
      TotalSpentAppend(logs[1..], e, userId);
    }
  }

  /** Each coffee charged adds its price to the member's total spend, and nobody else's. */
  lemma ChargeAddsPrice(logs: seq<LogEntry>, m: Member, price: real, now: int, userId: string)
    ensures TotalSpent(logs + [CoffeeLog(m, price, now)], userId) ==
            TotalSpent(logs, userId) + if userId == m.id then Abs(price) else 0.0
  {
    TotalSpentAppend(logs, CoffeeLog(m, price, now), userId);
  }

  /** `this.allLogs.slice(0, 15)`. */
  function ActivityFeed(logs: seq<LogEntry>): seq<LogEntry> {
    Take(logs, 15)
  }

  /** Of the hundred newest logs, the feed shows the fifteen newest of all. */
  lemma ActivityFeedShowsNewest(all: seq<LogEntry>, fetched: seq<LogEntry>)
    requires IsNewest(all, 100, fetched)
    ensures IsNewest(all, 15, ActivityFeed(fetched))
  {
    TopOfTop(all, TimeKey, 100, fetched, 15);
  }

  // ---------------------------------------------------------------------
  // The page object
  // ---------------------------------------------------------------------

  class Dashboard {
    var userMember: Option<Member>
    var allMembers: array<Member>
    var allLogs: seq<LogEntry>
    var groupLogs: seq<LogEntry>

    constructor ()
      ensures userMember.None? && allMembers.Length == 0 && allLogs == [] && groupLogs == []
    {
      userMember := None;
      allMembers := new Member[0];
      allLogs := [];
      groupLogs := [];
    }

    /** `getAllLogs` (lines 48-59): the hundred newest logs, none when the listing fails. */
    method GetAllLogs(store: Store, readable: bool) returns (r: seq<LogEntry>)
      ensures readable ==> IsNewest(store.logs, 100, r)
      ensures !readable ==> r == []
    {
      if !readable {
        return [];
      }
      r := ListNewest(store.logs, 100);
    }

    /**
     * `init` (lines 8-45) for the session identity `sessionUid`: find the
     * linked member, and only then load the members and both log listings.
     */
    method Init(store: Store, sessionUid: string, logsReadable: bool) returns (linked: bool)
      modifies this
      ensures userMember == FirstLinked(store.members, sessionUid)
      ensures linked <==> userMember.Some?
      ensures !linked ==> allMembers == old(allMembers) && allLogs == old(allLogs) && groupLogs == old(groupLogs)
      ensures linked ==>
        && fresh(allMembers)
        && allMembers[..] == store.members
        && (logsReadable ==> IsNewest(store.logs, 100, allLogs))
        && (!logsReadable ==> allLogs == [])
        && IsNewest(GroupOnly(store.logs), 10, groupLogs)
        && forall i | 0 <= i < |groupLogs| :: IsGroupLog(groupLogs[i])
    {
      userMember := store.GetMemberByUid(sessionUid);
      if userMember.None? {
        return false;
      }
      var members := store.GetAllMembers();
      var copy := new Member[|members|](i requires 0 <= i < |members| => members[i]);
      assert copy[..] == store.members;
      var logs := GetAllLogs(store, logsReadable);
      var group := store.GetGroupLogs();
      allMembers, allLogs, groupLogs := copy, logs, group;
      return true;
    }

    /**
     * The group coffee chart (lines 177-187): count by `$id`, sort
     * `allMembers` itself by count, keep the first eight.
     */
    method GroupCoffeeRanking() returns (top: seq<Member>)
      modifies allMembers
      ensures multiset(allMembers[..]) == multiset(old(allMembers[..]))
      ensures SortedDesc(allMembers[..], CountKey(CoffeeCounts(old(allMembers[..]))))
      ensures top == Take(allMembers[..], 8)
      ensures IsTop(old(allMembers[..]), CountKey(CoffeeCounts(old(allMembers[..]))), 8, top)
      ensures UniqueIds(old(allMembers[..])) ==> IsTop(old(allMembers[..]), CoffeesOf, 8, top)
    {
      var counts: map<string, int> := map[];
      for i := 0 to allMembers.Length
        invariant counts == CoffeeCounts(allMembers[..i])
      {
        assert allMembers[..i + 1][..i] == allMembers[..i];
        counts := counts[allMembers[i].id := allMembers[i].totalCoffees];
      }
      assert allMembers[..allMembers.Length] == allMembers[..];
      ghost var before := allMembers[..];
      SortDescending(allMembers, CountKey(counts));
      top := Take(allMembers[..], 8);
      SortedPrefixIsTop(before, allMembers[..], CountKey(counts), 8);
      if UniqueIds(before) {
        forall x | x in before ensures CountKey(counts)(x) == CoffeesOf(x) {
          var i :| 0 <= i < |before| && before[i] == x;
          CoffeeCountsOf(before, i);
        }
        IsTopSameKey(before, CountKey(counts), CoffeesOf, 8, top);
      }
    }

    /**
     * The spending chart (lines 302-312): `|balance|` by name from the
     * members in their current order, the eight largest.
     */
    method SpendingRanking() returns (top: seq<(string, real)>)
      ensures IsTop(SpendingByName(allMembers[..]), EntryValue, 8, top)
    {
      var spending: Dict<string, real> := [];
      for i := 0 to allMembers.Length
        invariant spending == SpendingByName(allMembers[..i])
      {
        assert allMembers[..i + 1][..i] == allMembers[..i];
        spending := Put(spending, allMembers[i].name, Abs(allMembers[i].balance));
      }
      assert allMembers[..allMembers.Length] == allMembers[..];
      top := TopBy(spending, EntryValue, 8);
    }

    /** The purchase breakdown (lines 344-356): category totals over the group logs. */
    method PurchaseBreakdown() returns (categories: Dict<Category, real>)
      ensures categories == CategoryTotals(groupLogs)
    {
      categories := [];
      for i := 0 to |groupLogs|
        invariant categories == CategoryTotals(groupLogs[..i])
      {
        assert groupLogs[..i + 1][..i] == groupLogs[..i];
        var category := Categorize(groupLogs[i].message);
        categories := Accumulate(categories, category, Abs(groupLogs[i].amount));
      }
      assert groupLogs[..|groupLogs|] == groupLogs;
    }
  }
}
