/**
 * The ledger operations of the browser client: read-modify-write updates of
 * member documents and of the `main` configuration document, each followed
 * by one insert into the append-only log. Every store call is sequential;
 * a call on a document that does not exist throws, and so does a failed
 * receipt upload.
 */
module Db {
  import opened Wrappers
  import opened Js
  import opened Documents
  import opened Sorting

  // ---------------------------------------------------------------------
  // Configuration defaults (lines 115-134)
  // ---------------------------------------------------------------------

  /** What `getGlobalConfig` answers when the document cannot be read. */
  const Defaults := Config(0.0, 18.0, 0.50, 0.0278)

  /** `x || d` for a number: a zero is replaced by the default. */
  function OrDefault(x: real, d: real): real {
    if x != 0.0 then x else d
  }

  /**
   * The configuration as `getGlobalConfig` returns it: each falsy field of
   * the stored document replaced by its default, all defaults when there is
   * no document.
   */
  function Effective(doc: Option<Config>): (c: Config)
    ensures doc.None? ==> c == Defaults
    ensures c.groupFunds == (if doc.Some? then doc.value.groupFunds else 0.0)
    ensures c.gramsPerCup != 0.0 && c.pricePerCup != 0.0 && c.pricePerGram != 0.0
    ensures doc.Some? && doc.value.gramsPerCup != 0.0 ==> c.gramsPerCup == doc.value.gramsPerCup
    ensures doc.Some? && doc.value.pricePerCup != 0.0 ==> c.pricePerCup == doc.value.pricePerCup
    ensures doc.Some? && doc.value.pricePerGram != 0.0 ==> c.pricePerGram == doc.value.pricePerGram
    ensures doc.Some? && doc.value.gramsPerCup == 0.0 ==> c.gramsPerCup == Defaults.gramsPerCup
    ensures doc.Some? && doc.value.pricePerCup == 0.0 ==> c.pricePerCup == Defaults.pricePerCup
    ensures doc.Some? && doc.value.pricePerGram == 0.0 ==> c.pricePerGram == Defaults.pricePerGram
  {
    match doc
    case None => Defaults
    case Some(d) =>
      Config(
        OrDefault(d.groupFunds, Defaults.groupFunds),
        OrDefault(d.gramsPerCup, Defaults.gramsPerCup),
        OrDefault(d.pricePerCup, Defaults.pricePerCup),
        OrDefault(d.pricePerGram, Defaults.pricePerGram))
  }

  /** Defaulting twice changes nothing. */
  lemma EffectiveIdempotent(doc: Option<Config>)
    ensures Effective(Some(Effective(doc))) == Effective(doc)
  {
  }

  // ---------------------------------------------------------------------
  // Lookups
  // ---------------------------------------------------------------------

  /** The position of the document with `$id` `id` in a listing. */
  function IndexOf(ms: seq<Member>, id: string): (r: Option<nat>)
    ensures r.None? <==> forall j | 0 <= j < |ms| :: ms[j].id != id
    ensures r.Some? ==> r.value < |ms| && ms[r.value].id == id && forall j | 0 <= j < r.value :: ms[j].id != id
  {
    if ms == [] then None
    else if ms[0].id == id then Some(0)
    else
      match IndexOf(ms[1..], id)
      case None => None
      case Some(i) => Some(i + 1)
  }

  /** Rewriting a document without changing its `$id` leaves every lookup where it was. */
  lemma {:induction false} IndexOfUpdate(ms: seq<Member>, i: nat, m: Member, id: string)
    requires i < |ms| && m.id == ms[i].id
    ensures IndexOf(ms[i := m], id) == IndexOf(ms, id)
  {
    if i > 0 {
      assert ms[i := m][1..] == ms[1..][i - 1 := m];
      IndexOfUpdate(ms[1..], i - 1, m, id);
    }
  }

  /** The stored balance of member `id`, 0 when there is none. */
  function BalanceOf(ms: seq<Member>, id: string): real {
    match IndexOf(ms, id)
    case Some(i) => ms[i].balance
    case None => 0.0
  }

  /**
   * `getMemberByUid` (lines 3-13): the first listed member linked to `uid`,
   * `null` when there is none. An empty `uid` links nobody.
   */
  function FirstLinked(ms: seq<Member>, uid: string): (r: Option<Member>)
    ensures r.None? <==> uid == "" || forall j | 0 <= j < |ms| :: ms[j].appwriteUid != uid
    ensures r.Some? ==>
      r.value.appwriteUid == uid &&
      exists i | 0 <= i < |ms| :: ms[i] == r.value && forall j | 0 <= j < i :: ms[j].appwriteUid != uid
  {
    if uid == "" || ms == [] then None
    else if ms[0].appwriteUid == uid then Some(ms[0])
    else
      var r := FirstLinked(ms[1..], uid);
      assert forall j | 1 <= j < |ms| :: ms[j] == ms[1..][j - 1];
      assert r.Some? ==> exists i | 1 <= i < |ms| :: ms[i] == r.value && forall j | 0 <= j < i :: ms[j].appwriteUid != uid by {
        if r.Some? {
          var i :| 0 <= i < |ms[1..]| && ms[1..][i] == r.value && forall j | 0 <= j < i :: ms[1..][j].appwriteUid != uid;
          assert ms[i + 1] == r.value;
        }
      }
      r
  }

  // ---------------------------------------------------------------------
  // Log queries (lines 35-55)
  // ---------------------------------------------------------------------

  /** The log types `getGroupLogs` selects. */
  predicate IsGroupLog(e: LogEntry) {
    e.kind == Expense || e.kind == Beans
  }

  /** `Query.or([equal('type', 'EXPENSE'), equal('type', 'BEANS')])`. */
  function GroupOnly(logs: seq<LogEntry>): (r: seq<LogEntry>)
    ensures forall e :: multiset(r)[e] == if IsGroupLog(e) then multiset(logs)[e] else 0
    ensures forall i | 0 <= i < |r| :: IsGroupLog(r[i])
  {
    Filter(logs, IsGroupLog)
  }

  /**
   * `r` answers `orderDesc('timestamp'), limit(limit)` over `all`: as many
   * logs as the limit allows, newest first, drawn from `all`, and none left
   * out is newer than one kept.
   */
  ghost predicate IsNewest(all: seq<LogEntry>, limit: nat, r: seq<LogEntry>) {
    IsTop(all, TimeKey, limit, r)
  }

  /** The database's ordered, limited listing of log documents. */
  method ListNewest(all: seq<LogEntry>, limit: nat) returns (r: seq<LogEntry>)
    ensures IsNewest(all, limit, r)
    ensures |r| == Min(limit, |all|)
    ensures forall i, j | 0 <= i < j < |r| :: r[i].timestamp >= r[j].timestamp
    ensures forall e | e in multiset(all) - multiset(r) :: forall i | 0 <= i < |r| :: e.timestamp <= r[i].timestamp
  {
    r := TopBy(all, TimeKey, limit);
  }

  // ---------------------------------------------------------------------
  // Reconciliation: what the logs say the balances should be
  // ---------------------------------------------------------------------

  /** The log types that move the group pot. */
  predicate MovesGroupFunds(e: LogEntry) {
    e.kind == TopUp || e.kind == Expense || e.kind == Beans
  }

  /** The log types that move member `id`'s balance. */
  predicate MovesBalance(e: LogEntry, id: string) {
    (e.kind == Coffee || e.kind == TopUp) && e.userId == id
  }

  /** The total logged movement of the group pot. */
  function GroupFlow(logs: seq<LogEntry>): real {
    if logs == [] then 0.0
    else (if MovesGroupFunds(logs[0]) then logs[0].amount else 0.0) + GroupFlow(logs[1..])
  }

  /** The total logged movement of member `id`'s balance. */
  function MemberFlow(logs: seq<LogEntry>, id: string): real {
    if logs == [] then 0.0
    else (if MovesBalance(logs[0], id) then logs[0].amount else 0.0) + MemberFlow(logs[1..], id)
  }

  /** Appending one log moves the group total by that log's amount when it is a pot movement. */
  lemma {:induction false} GroupFlowAppend(logs: seq<LogEntry>, e: LogEntry)
    ensures GroupFlow(logs + [e]) == GroupFlow(logs) + if MovesGroupFunds(e) then e.amount else 0.0
  {
    if logs == [] {
      assert [] + [e] == [e];
      assert [e][1..] == [];
    } else {
      assert (logs + [e])[1..] == logs[1..] + [e];
      GroupFlowAppend(logs[1..], e);
    }
  }

  /** Appending one log moves member `id`'s total by that log's amount when it is theirs. */
  lemma {:induction false} MemberFlowAppend(logs: seq<LogEntry>, e: LogEntry, id: string)
    ensures MemberFlow(logs + [e], id) == MemberFlow(logs, id) + if MovesBalance(e, id) then e.amount else 0.0
  {
    if logs == [] {
      assert [] + [e] == [e];
      assert [e][1..] == [];
    } else {
      assert (logs + [e])[1..] == logs[1..] + [e];
      MemberFlowAppend(logs[1..], e, id);
    }
  }

  // ---------------------------------------------------------------------
  // The store
  // ---------------------------------------------------------------------

  /** Why a call throws. */
  datatype Failure = NoSuchDocument | UploadFailed

  /** A call returns the log document it created, or throws. */
  datatype Written = Written(entry: LogEntry) | Threw(failure: Failure)

  /** The optional receipt of an expense or bean purchase, and how its upload goes. */
  datatype Upload = NoFile | Uploaded(fileId: string) | UploadFails

  /** The `fileId` of the log when the upload did not throw. */
  function FileIdOf(u: Upload): Option<string> {
    match u
    case Uploaded(id) => Some(id)
    case _ => None
  }

  /** The author of group expenses and bean purchases. */
  const AdminId := "ADMIN"
  const SystemName := "System"

  /**
   * The message of a BEANS log; `figures` stands for the formatted grams,
   * price per kilogram and price per cup that follow the fixed prefix.
   */
  function BeansMessage(figures: string): string {
    "\U{1FAD8} Coffee Beans: " + figures
  }

  /** The COFFEE log written for a charge of `price` to the member snapshot `m`. */
  function CoffeeLog(m: Member, price: real, now: int): LogEntry {
    LogEntry(Coffee, -price, m.id, m.name, "", None, now)
  }

  class Store {
    /** The `members` collection, in listing order. */
    var members: seq<Member>
    /** The `main` document of `global_config`, if it exists. */
    var main: Option<Config>
    /** The `logs` collection, in insertion order. */
    var logs: seq<LogEntry>

    constructor (members: seq<Member>, main: Option<Config>, logs: seq<LogEntry>)
      ensures this.members == members && this.main == main && this.logs == logs
    {
      this.members := members;
      this.main := main;
      this.logs := logs;
    }

    /** `getMemberByUid`. */
    method GetMemberByUid(uid: string) returns (r: Option<Member>)
      ensures r == FirstLinked(members, uid)
    {
      r := FirstLinked(members, uid);
    }

    /** `getAllMembers` (lines 16-19). */
    method GetAllMembers() returns (r: seq<Member>)
      ensures r == members
    {
      r := members;
    }

    /** `getGlobalConfig` (lines 116-134). */
    method GetGlobalConfig() returns (c: Config)
      ensures c == Effective(main)
    {
      match main
      case None => c := Defaults;
      case Some(config) =>
        c := Config(
          OrDefault(config.groupFunds, 0.0),
          OrDefault(config.gramsPerCup, 18.0),
          OrDefault(config.pricePerCup, 0.50),
          OrDefault(config.pricePerGram, 0.0278));
    }

    /** `getLogs` (lines 35-41): the ten newest logs. */
    method GetLogs() returns (r: seq<LogEntry>)
      ensures IsNewest(logs, 10, r)
    {
      r := ListNewest(logs, 10);
    }

    /** `getGroupLogs` (lines 44-55): the ten newest EXPENSE or BEANS logs. */
    method GetGroupLogs() returns (r: seq<LogEntry>)
      ensures IsNewest(GroupOnly(logs), 10, r)
      ensures forall i | 0 <= i < |r| :: IsGroupLog(r[i])
    {
      r := ListNewest(GroupOnly(logs), 10);
      forall i | 0 <= i < |r| ensures IsGroupLog(r[i]) {
        assert multiset(r)[r[i]] > 0;
      }
    }

    /** `logAction` (lines 22-32): append one log document stamped `now`. */
    method LogAction(kind: LogType, amount: real, userId: string, userName: string, message: string,
                     fileId: Option<string>, now: int)
      returns (entry: LogEntry)
      modifies this
      ensures entry == LogEntry(kind, amount, userId, userName, message, fileId, now)
      ensures logs == old(logs) + [entry]
      ensures members == old(members) && main == old(main)
    {
      entry := LogEntry(kind, amount, userId, userName, message, fileId, now);
      logs := logs + [entry];
    }

    /**
     * `registerCoffee` (lines 58-68): charge `price` to the member, computing
     * the new balance and count from the snapshot `memberDoc`.
     */
    method RegisterCoffee(memberDoc: Member, price: real, now: int) returns (result: Written)
      modifies this
      ensures IndexOf(old(members), memberDoc.id).None? ==>
        result == Threw(NoSuchDocument) && members == old(members) && logs == old(logs)
      ensures IndexOf(old(members), memberDoc.id).Some? ==>
        var i := IndexOf(old(members), memberDoc.id).value;
        && members == old(members)[i := old(members)[i].(balance := memberDoc.balance - price,
                                                         totalCoffees := memberDoc.totalCoffees + 1)]
        && result == Written(CoffeeLog(memberDoc, price, now))
        && logs == old(logs) + [CoffeeLog(memberDoc, price, now)]
      ensures main == old(main)
      // the balance moves by the logged amount, plus how stale the snapshot was
      ensures result.Written? ==>
        && BalanceOf(members, memberDoc.id) - BalanceOf(old(members), memberDoc.id)
             == (memberDoc.balance - BalanceOf(old(members), memberDoc.id))
                + (MemberFlow(logs, memberDoc.id) - MemberFlow(old(logs), memberDoc.id))
        && GroupFlow(logs) == GroupFlow(old(logs))
    {
      var i := IndexOf(members, memberDoc.id);
      if i.None? {
        return Threw(NoSuchDocument);
      }
      var newBalance := memberDoc.balance - price;
      var newTotal := memberDoc.totalCoffees + 1;
      members := members[i.value := members[i.value].(balance := newBalance, totalCoffees := newTotal)];
      IndexOfUpdate(old(members), i.value, members[i.value], memberDoc.id);
      var entry := LogAction(Coffee, -price, memberDoc.id, memberDoc.name, "", None, now);
      MemberFlowAppend(old(logs), entry, memberDoc.id);
      GroupFlowAppend(old(logs), entry);
      return Written(entry);
    }

    /**
     * `registerCoffeeWithDynamicPrice` (lines 195-208): `registerCoffee` at
     * the configured price per cup (the source repeats its body).
     */
    method RegisterCoffeeWithDynamicPrice(memberDoc: Member, now: int) returns (result: Written)
      modifies this
      ensures var price := Effective(old(main)).pricePerCup;
        && (IndexOf(old(members), memberDoc.id).None? ==>
              result == Threw(NoSuchDocument) && members == old(members) && logs == old(logs))
        && (IndexOf(old(members), memberDoc.id).Some? ==>
              var i := IndexOf(old(members), memberDoc.id).value;
              && members == old(members)[i := old(members)[i].(balance := memberDoc.balance - price,
                                                               totalCoffees := memberDoc.totalCoffees + 1)]
              && result == Written(CoffeeLog(memberDoc, price, now))
              && logs == old(logs) + [CoffeeLog(memberDoc, price, now)])
      ensures main == old(main)
    {
      var config := GetGlobalConfig();
      var price := config.pricePerCup;
      result := RegisterCoffee(memberDoc, price, now);
    }

    /**
     * `addFunds` (lines 100-113): credit the member from the snapshot, then
     * raise the pot, then log. Without a `main` document the member has
     * already been credited when the call throws.
     */
    method AddFunds(memberDoc: Member, amount: real, message: string, adminName: string, now: int)
      returns (result: Written)
      modifies this
      ensures IndexOf(old(members), memberDoc.id).None? ==>
        result == Threw(NoSuchDocument) && members == old(members) && main == old(main) && logs == old(logs)
      ensures IndexOf(old(members), memberDoc.id).Some? ==>
        var i := IndexOf(old(members), memberDoc.id).value;
        && members == old(members)[i := old(members)[i].(balance := memberDoc.balance + amount)]
        && (old(main).None? ==> result == Threw(NoSuchDocument) && main == old(main) && logs == old(logs))
        && (old(main).Some? ==>
              var entry := LogEntry(TopUp, amount, memberDoc.id, memberDoc.name, message, None, now);
              && main == Some(old(main).value.(groupFunds := old(main).value.groupFunds + amount))
              && result == Written(entry)
              && logs == old(logs) + [entry])
      ensures result.Written? ==>
        && BalanceOf(members, memberDoc.id) - BalanceOf(old(members), memberDoc.id)
             == (memberDoc.balance - BalanceOf(old(members), memberDoc.id))
                + (MemberFlow(logs, memberDoc.id) - MemberFlow(old(logs), memberDoc.id))
        && main.Some? && old(main).Some?
        && main.value.groupFunds - old(main).value.groupFunds == GroupFlow(logs) - GroupFlow(old(logs))
    {
      var i := IndexOf(members, memberDoc.id);
      if i.None? {
        return Threw(NoSuchDocument);
      }
      members := members[i.value := members[i.value].(balance := memberDoc.balance + amount)];
      IndexOfUpdate(old(members), i.value, members[i.value], memberDoc.id);
      if main.None? {
        return Threw(NoSuchDocument);
      }
      var global := main.value;
      main := Some(global.(groupFunds := global.groupFunds + amount));
      var entry := LogAction(TopUp, amount, memberDoc.id, memberDoc.name, message, None, now);
      MemberFlowAppend(old(logs), entry, memberDoc.id);
      GroupFlowAppend(old(logs), entry);
      return Written(entry);
    }

    /**
     * `recordExpense` (lines 70-97): upload the receipt, lower the pot, and
     * log the expense as the system.
     */
    method RecordExpense(amount: real, message: string, file: Upload, now: int) returns (result: Written)
      modifies this
      ensures members == old(members)
      ensures file.UploadFails? ==> result == Threw(UploadFailed) && main == old(main) && logs == old(logs)
      ensures !file.UploadFails? && old(main).None? ==>
        result == Threw(NoSuchDocument) && main == old(main) && logs == old(logs)
      ensures !file.UploadFails? && old(main).Some? ==>
        var entry := LogEntry(Expense, -amount, AdminId, SystemName, message, FileIdOf(file), now);
        && main == Some(old(main).value.(groupFunds := old(main).value.groupFunds - amount))
        && result == Written(entry)
        && logs == old(logs) + [entry]
      ensures result.Written? ==>
        && main.Some? && old(main).Some?
        && main.value.groupFunds - old(main).value.groupFunds == GroupFlow(logs) - GroupFlow(old(logs))
        && forall id :: MemberFlow(logs, id) == MemberFlow(old(logs), id)
    {
      if file.UploadFails? {
        return Threw(UploadFailed);
      }
      var fileId := FileIdOf(file);
      if main.None? {
        return Threw(NoSuchDocument);
      }
      var global := main.value;
      main := Some(global.(groupFunds := global.groupFunds - amount));
      var entry := LogAction(Expense, -amount, AdminId, SystemName, message, fileId, now);
      GroupFlowAppend(old(logs), entry);
      forall id ensures MemberFlow(logs, id) == MemberFlow(old(logs), id) {
        MemberFlowAppend(old(logs), entry, id);
      }
      return Written(entry);
    }

    /**
     * `updateGramsPerCup` (lines 137-151): store the new grams per cup and
     * the price per cup it implies at the effective price per gram.
     */
    method UpdateGramsPerCup(gramsPerCup: real) returns (ok: bool)
      modifies this
      ensures ok <==> old(main).Some?
      ensures ok ==> main == Some(old(main).value.(gramsPerCup := gramsPerCup,
                                                   pricePerCup := Effective(old(main)).pricePerGram * gramsPerCup))
      ensures !ok ==> main == old(main)
      ensures members == old(members) && logs == old(logs)
    {
      var config := GetGlobalConfig();
      var newPricePerCup := config.pricePerGram * gramsPerCup;
      if main.None? {
        return false;
      }
      main := Some(main.value.(gramsPerCup := gramsPerCup, pricePerCup := newPricePerCup));
      return true;
    }

    /**
     * `recordCoffeeBeanPurchase` (lines 154-192): re-derive the price per
     * gram and per cup from the purchase, lower the pot, and log BEANS.
     */
    method RecordCoffeeBeanPurchase(amount: real, grams: real, file: Upload, figures: string, now: int)
      returns (result: Written)
      requires grams != 0.0
      modifies this
      ensures members == old(members)
      ensures file.UploadFails? ==> result == Threw(UploadFailed) && main == old(main) && logs == old(logs)
      ensures !file.UploadFails? && old(main).None? ==>
        result == Threw(NoSuchDocument) && main == old(main) && logs == old(logs)
      ensures !file.UploadFails? && old(main).Some? ==>
        var perGram := amount / grams;
        var entry := LogEntry(Beans, -amount, AdminId, SystemName, BeansMessage(figures), FileIdOf(file), now);
        && main == Some(old(main).value.(groupFunds := old(main).value.groupFunds - amount,
                                         pricePerCup := perGram * Effective(old(main)).gramsPerCup,
                                         pricePerGram := perGram))
        && result == Written(entry)
        && logs == old(logs) + [entry]
      ensures result.Written? ==>
        && main.Some? && old(main).Some?
        && main.value.groupFunds - old(main).value.groupFunds == GroupFlow(logs) - GroupFlow(old(logs))
        && forall id :: MemberFlow(logs, id) == MemberFlow(old(logs), id)
    {
      if file.UploadFails? {
        return Threw(UploadFailed);
      }
      var fileId := FileIdOf(file);
      var pricePerGram := amount / grams;
      var config := GetGlobalConfig();
      var pricePerCup := pricePerGram * config.gramsPerCup;
      if main.None? {
        return Threw(NoSuchDocument);
      }
      var global := main.value;
      main := Some(global.(groupFunds := global.groupFunds - amount,
                           pricePerCup := pricePerCup,
                           pricePerGram := pricePerGram));
      var entry := LogAction(Beans, -amount, AdminId, SystemName, BeansMessage(figures), fileId, now);
      GroupFlowAppend(old(logs), entry);
      forall id ensures MemberFlow(logs, id) == MemberFlow(old(logs), id) {
        MemberFlowAppend(old(logs), entry, id);
      }
      return Written(entry);
    }
  }

  // ---------------------------------------------------------------------
  // What callers can conclude
  // ---------------------------------------------------------------------

  /**
   * A bean purchase of 18.00 for 900 g at 18 g per cup sets the price per
   * gram to 0.02 and per cup to 0.36, and takes 18.00 from the pot.
   */
  method BeanPurchaseExample() returns (s: Store)
    ensures s.main == Some(Config(82.0, 18.0, 0.36, 0.02))
  {
    s := new Store([], Some(Config(100.0, 18.0, 0.50, 0.0278)), []);
    var result := s.RecordCoffeeBeanPurchase(18.0, 900.0, NoFile, "900g", 0);
  }

  /**
   * A coffee at the configured 0.50 per cup from a balance of 0.30 leaves
   * -0.20: the charge is the price per cup and nothing more.
   */
  method CoffeeAtConfiguredPrice() returns (s: Store, result: Written)
    ensures s.members == [Member("M1", "Ann", -0.20, 1, "")]
    ensures result == Written(LogEntry(Coffee, -0.50, "M1", "Ann", "", None, 0))
  {
    var m := Member("M1", "Ann", 0.30, 0, "");
    s := new Store([m], Some(Config(10.0, 18.0, 0.50, 0.0278)), []);
    result := s.RegisterCoffeeWithDynamicPrice(m, 0);
  }

  /**
   * Two coffees charged from the same stale snapshot are both logged but
   * charged once: the second write overwrites the first.
   */
  method StaleSnapshotLosesCharge(s: Store, doc: Member, price: real, now: int)
    requires IndexOf(s.members, doc.id).Some?
    modifies s
    ensures BalanceOf(s.members, doc.id) == doc.balance - price
    ensures s.logs == old(s.logs) + [CoffeeLog(doc, price, now), CoffeeLog(doc, price, now)]
  {
    var i := IndexOf(s.members, doc.id).value;
    var first := s.RegisterCoffee(doc, price, now);
    IndexOfUpdate(old(s.members), i, s.members[i], doc.id);
    var middle := s.members;
    var second := s.RegisterCoffee(doc, price, now);
    IndexOfUpdate(middle, i, s.members[i], doc.id);
  }
}
