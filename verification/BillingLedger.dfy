/** Billing entries, their reversals, and what both contribute to a period total in a display currency. */
module BillingLedger {
  import opened Common
  import opened Money
  import AmountText

  /******* Conversion *******/

  /** An exchange rate as an exact fraction. */
  datatype Rate = Rate(num: int, den: int)

  predicate Usable(rates: map<string, Rate>, currency: string) {
    currency in rates && rates[currency].num > 0 && rates[currency].den > 0
  }

  function RoundToInt64(n: int, d: int): Option<int>
    requires d > 0
  {
    if IsInt64(Round(n, d)) then Some(Round(n, d)) else None
  }

  /** roundRatToInt64, with truncating division and a correction of one. */
  method RoundRatio(n: int, d: int) returns (r: Option<int>)
    requires d > 0
    ensures r == RoundToInt64(n, d)
  {
    var quotient := Quotient(n, d);
    var remainder := n - quotient * d;
    if remainder < 0 { remainder := -remainder; }
    if 2 * remainder >= d {
      if n < 0 { quotient := quotient - 1; } else { quotient := quotient + 1; }
    }
    if !IsInt64(quotient) { return None; }
    return Some(quotient);
  }

  /** ConvertMicros between canonical currencies. */
  function Convert(amount: int, from: string, to: string, rates: map<string, Rate>): Option<int> {
    if from == to then Some(amount)
    else if !Usable(rates, from) || !Usable(rates, to) then None
    else
      Strictly(0, rates[to].den, rates[from].num);
      RoundToInt64(amount * (rates[to].num * rates[from].den), rates[to].den * rates[from].num)
  }

  /** Both rates are there and positive. */
  predicate Quoted(rates: map<string, Rate>, from: string, to: string) {
    && from in rates && to in rates
    && rates[from].num > 0 && rates[from].den > 0 && rates[to].num > 0 && rates[to].den > 0
  }

  /** An amount is multiplied by the rate it goes to and divided by the rate it comes from: the conversion is the one
      64-bit value nearest to that, halves away from zero, when both rates are quoted and there is one. */
  lemma ConvertIsNearest(amount: int, from: string, to: string, rates: map<string, Rate>, v: int)
    ensures from == to ==> Convert(amount, from, to, rates) == Some(amount)
    ensures from != to && !Quoted(rates, from, to) ==> Convert(amount, from, to, rates).None?
    ensures from != to && Quoted(rates, from, to) ==>
              var n, d := amount * (rates[to].num * rates[from].den), rates[to].den * rates[from].num;
              Convert(amount, from, to, rates) == Some(v) <==> IsInt64(v) && Nearest(n, v * d, d)
  {
    if from != to && Quoted(rates, from, to) {
      var n, d := amount * (rates[to].num * rates[from].den), rates[to].den * rates[from].num;
      Strictly(0, rates[to].den, rates[from].num);
      RoundIsNearest(n, d);
      if Nearest(n, v * d, d) { NearestIsUnique(n, d, v, Round(n, d)); }
    }
  }

  /** Negating the smallest 64-bit value gives itself. */
  function Negate(n: int): int { if n == MIN_INT64 then n else -n }

  /** Whenever an amount converts, its negation converts to exactly the negative, if and only if neither
      the amount nor its conversion is the smallest 64-bit value (or the smallest converts to zero). */
  lemma ReversalConverts(amount: int, from: string, to: string, rates: map<string, Rate>)
    requires IsInt64(amount) && Convert(amount, from, to, rates).Some?
    ensures var v := Convert(amount, from, to, rates).value;
            Convert(Negate(amount), from, to, rates) == Some(-v) <==>
              (if amount == MIN_INT64 then v == 0 else v != MIN_INT64)
  {
    if from != to {
      Strictly(0, rates[to].den, rates[from].num);
      var factor, d := rates[to].num * rates[from].den, rates[to].den * rates[from].num;
      RoundIsOdd(amount * factor, d);
      NegatedProduct(amount, factor);
    }
  }

  /******* The ledger *******/

  datatype Kind = BaseAccrual | TrafficReset | IPChange | OneTime | Adjustment | Reversal

  /** The unique key of an entry; only reversals have keys of the first form. */
  datatype EntryKey = ReversalKey(original: nat) | OtherKey(text: string)

  datatype Entry = Entry(
    key: EntryKey, client: string, kind: Kind, day: int, amount: int, currency: string,
    snapshot: Option<nat>, usd: Option<int>, reversalOf: Option<nat>)

  /** The position of the entry with a key. */
  function Find(entries: seq<Entry>, key: EntryKey): (r: Option<nat>)
    ensures r.Some? ==> r.value < |entries| && entries[r.value].key == key
    ensures r.None? ==> forall i :: 0 <= i < |entries| ==> entries[i].key != key
  {
    if entries == [] then None
    else if entries[|entries| - 1].key == key then Some(|entries| - 1)
    else Find(entries[..|entries| - 1], key)
  }

  function NegateOptional(v: Option<int>): Option<int> { if v.Some? then Some(Negate(v.value)) else None }

  function ReversalOf(entries: seq<Entry>, id: nat): Entry
    requires id < |entries|
  {
    var e := entries[id];
    Entry(ReversalKey(id), e.client, Reversal, e.day, Negate(e.amount), e.currency, e.snapshot, NegateOptional(e.usd),
          Some(id))
  }

  predicate EntryOk(entries: seq<Entry>, i: nat)
    requires i < |entries|
  {
    && IsInt64(entries[i].amount) && (!entries[i].kind.Reversal? ==> entries[i].amount >= 0)
    && (entries[i].kind.Reversal? <==> entries[i].key.ReversalKey?)
    && (entries[i].key.ReversalKey? ==>
          && entries[i].key.original < i && !entries[entries[i].key.original].kind.Reversal?
          && entries[i] == ReversalOf(entries, entries[i].key.original))
  }

  predicate LedgerOk(entries: seq<Entry>) {
    && (forall i :: 0 <= i < |entries| ==> EntryOk(entries, i))
    && (forall i, j :: 0 <= i < j < |entries| ==> entries[i].key != entries[j].key)
  }

  /** VoidEntry: the position of the reversal, written on first request. */
  datatype Voided = Voided(entries: seq<Entry>, reversal: Option<nat>)

  function Void(entries: seq<Entry>, id: nat, reason: string): Voided {
    if Blank(reason) || id >= |entries| || entries[id].kind.Reversal? then Voided(entries, None) else
    match Find(entries, ReversalKey(id))
    case Some(r) => Voided(entries, Some(r))
    case None => Voided(entries + [ReversalOf(entries, id)], Some(|entries|))
  }

  /** Voiding answers exactly for a visible reason and an entry that is no reversal: with the reversal it has, or with a
      new one of its client, day, currency, rates and negated amounts. */
  lemma VoidAnswers(entries: seq<Entry>, id: nat, reason: string)
    ensures var v := Void(entries, id, reason);
            && (v.reversal.Some? <==> !Blank(reason) && id < |entries| && !entries[id].kind.Reversal?)
            && (v.reversal.None? ==> v.entries == entries)
            && (v.reversal.Some? && (exists i :: 0 <= i < |entries| && entries[i].key == ReversalKey(id)) ==>
                  v.entries == entries && v.reversal.value < |entries|
                  && entries[v.reversal.value].key == ReversalKey(id))
            && (v.reversal.Some? && (forall i :: 0 <= i < |entries| ==> entries[i].key != ReversalKey(id)) ==>
                  && |v.entries| == |entries| + 1 && v.entries[..|entries|] == entries
                  && v.reversal == Some(|entries|)
                  && Mirrors(entries[id], v.entries[|entries|], id))
  {
  }

  /** The reversal has everything of its original but the key, the kind and the signs of the amounts. */
  predicate Mirrors(a: Entry, b: Entry, id: nat) {
    && b.key == ReversalKey(id) && b.kind == Reversal && b.reversalOf == Some(id)
    && b.client == a.client && b.day == a.day && b.currency == a.currency && b.snapshot == a.snapshot
    && (a.amount != MIN_INT64 ==> b.amount == -a.amount)
    && (b.usd.Some? <==> a.usd.Some?)
    && (a.usd.Some? && a.usd.value != MIN_INT64 ==> b.usd.value == -a.usd.value)
  }

  /** A new accrual or add-on entry; a known key answers with the stored one. */
  function Add(entries: seq<Entry>, e: Charge): seq<Entry> {
    if Find(entries, e.key).Some? then entries else entries + [e]
  }

  predicate Appendable(e: Entry) { e.key.OtherKey? && !e.kind.Reversal? && 0 <= e.amount <= MAX_INT64 }

  /** What anything but voiding may append: accruals, add-ons and one-time prices are never negative. */
  type Charge = e: Entry | Appendable(e)
    witness Entry(OtherKey(""), "", BaseAccrual, 0, 0, "", None, None, None)

  lemma AppendKeeps(entries: seq<Entry>, e: Entry)
    requires LedgerOk(entries) && Find(entries, e.key).None? && EntryOk(entries + [e], |entries|)
    ensures LedgerOk(entries + [e])
  {
    var more := entries + [e];
    forall i | 0 <= i < |more| ensures EntryOk(more, i) {
      if i < |entries| { assert EntryOk(entries, i); }
    }
  }

  lemma AddKeeps(entries: seq<Entry>, e: Charge)
    requires LedgerOk(entries)
    ensures LedgerOk(Add(entries, e))
  {
    if Find(entries, e.key).None? { AppendKeeps(entries, e); }
  }

  /** Voiding keeps the ledger: every reversal mirrors exactly one original, and no original has two. */
  lemma VoidKeeps(entries: seq<Entry>, id: nat, reason: string)
    requires LedgerOk(entries)
    ensures LedgerOk(Void(entries, id, reason).entries)
    ensures Void(entries, id, reason).reversal.Some? ==>
              var v := Void(entries, id, reason);
              v.reversal.value < |v.entries| && v.entries[v.reversal.value] == ReversalOf(v.entries, id)
  {
    var v := Void(entries, id, reason);
    if v.reversal.Some? {
      if v.entries == entries {
        assert EntryOk(entries, v.reversal.value);
      } else {
        assert EntryOk(entries, id);
        AppendKeeps(entries, ReversalOf(entries, id));
      }
    }
  }

  /******* Runs *******/

  datatype Operation = AddOp(charge: Charge) | VoidOp(id: nat, reason: string)

  /** The ledger after a list of operations. */
  function Run(ops: seq<Operation>): seq<Entry> {
    if ops == [] then [] else
    var entries := Run(ops[..|ops| - 1]);
    match ops[|ops| - 1]
    case AddOp(charge) => Add(entries, charge)
    case VoidOp(id, reason) => Void(entries, id, reason).entries
  }

  lemma {:induction false} EveryLedgerOk(ops: seq<Operation>)
    ensures LedgerOk(Run(ops))
  {
    if ops != [] {
      var entries := Run(ops[..|ops| - 1]);
      EveryLedgerOk(ops[..|ops| - 1]);
      match ops[|ops| - 1]
      case AddOp(charge) => AddKeeps(entries, charge);
      case VoidOp(id, reason) => VoidKeeps(entries, id, reason);
    }
  }

  /** In every run, no entry ever has two reversals, and a reversal is never reversed. */
  lemma AtMostOneReversal(ops: seq<Operation>, i: nat, j: nat)
    requires i < |Run(ops)| && j < |Run(ops)| && Run(ops)[i].kind.Reversal? && Run(ops)[j].kind.Reversal?
    ensures Run(ops)[i].reversalOf.Some? && Run(ops)[i].reversalOf.value < i
    ensures !Run(ops)[Run(ops)[i].reversalOf.value].kind.Reversal?
    ensures Run(ops)[i].reversalOf == Run(ops)[j].reversalOf ==> i == j
  {
    EveryLedgerOk(ops);
    assert EntryOk(Run(ops), i) && EntryOk(Run(ops), j);
  }

  /** In every run a reversal has the client, day, currency, rates and negated amount of its original. */
  lemma ReversalMirrors(ops: seq<Operation>, i: nat)
    requires i < |Run(ops)| && Run(ops)[i].kind.Reversal?
    ensures Run(ops)[i].reversalOf.Some? && Run(ops)[i].reversalOf.value < i
    ensures Run(ops)[i] == ReversalOf(Run(ops), Run(ops)[i].reversalOf.value)
  {
    EveryLedgerOk(ops);
    assert EntryOk(Run(ops), i);
  }

  /** Entries are only ever appended. */
  lemma {:induction false} EntriesStay(ops: seq<Operation>, n: nat)
    requires n <= |ops|
    ensures Run(ops[..n]) <= Run(ops)
  {
    if n == |ops| {
      assert ops[..n] == ops;
    } else {
      var front := ops[..|ops| - 1];
      assert front[..n] == ops[..n];
      EntriesStay(front, n);
    }
  }

  /** The add-on charges an operator can enter, each under its own key prefix. */
  datatype Addon = ResetAddon | IPChangeAddon | FeeAddon

  function KindOf(a: Addon): Kind {
    match a
    case ResetAddon => TrafficReset
    case IPChangeAddon => IPChange
    case FeeAddon => Adjustment
  }

  function AddonKey(a: Addon, client: string, idempotency: string): EntryKey {
    var prefix := match a
      case ResetAddon => "traffic-reset:"
      case IPChangeAddon => "ip-change:"
      case FeeAddon => "one-time-fee:";
    OtherKey(prefix + client + ":" + idempotency)
  }

  /** Keys of different kinds of add-on never meet, and for machines whose names have no colon, as generated ones do
      not, a key tells the machine and the caller's key apart. */
  lemma AddonKeysDistinct(a: Addon, b: Addon, client: string, other: string, k: string, l: string)
    requires ':' !in client && ':' !in other
    ensures AddonKey(a, client, k) == AddonKey(b, other, l) <==> a == b && client == other && k == l
  {
    if AddonKey(a, client, k) == AddonKey(b, other, l) {
      AddonKeySplits(a, client, k);
      AddonKeySplits(b, other, l);
      FirstColon(AddonName(a), AddonName(b), client + ":" + k, other + ":" + l);
      FirstColon(client, other, k, l);
    }
  }

  function AddonName(a: Addon): string {
    match a
    case ResetAddon => "traffic-reset"
    case IPChangeAddon => "ip-change"
    case FeeAddon => "one-time-fee"
  }

  lemma AddonKeySplits(a: Addon, client: string, k: string)
    ensures ':' !in AddonName(a) && AddonKey(a, client, k) == OtherKey(AddonName(a) + ":" + (client + ":" + k))
    ensures |AddonName(a)| == match a case ResetAddon => 13 case IPChangeAddon => 9 case FeeAddon => 12
  {
    match a
    case ResetAddon => assert "traffic-reset:" == "traffic-reset" + ":";
    case IPChangeAddon => assert "ip-change:" == "ip-change" + ":";
    case FeeAddon => assert "one-time-fee:" == "one-time-fee" + ":";
  }

  /** Texts without a colon are told apart by where the first colon is. */
  lemma FirstColon(a: string, b: string, rest: string, tail: string)
    requires ':' !in a && ':' !in b && a + ":" + rest == b + ":" + tail
    ensures a == b && rest == tail
  {
    var whole := a + ":" + rest;
    assert whole[|a|] == ':' && whole[|b|] == ':';
    assert a == whole[..|a|] == b && rest == whole[|a| + 1..] == tail;
  }

  /** What the exchange-rate lookup gives for an amount. */
  datatype Fx = Fx(snapshot: Option<nat>, usd: Option<int>)

  function AddonEntry(a: Addon, key: EntryKey, client: string, day: int, amount: int, currency: string, fx: Fx): Entry {
    Entry(key, client, KindOf(a), day, amount, currency, fx.snapshot, fx.usd, None)
  }

  predicate HasKey(entries: seq<Entry>, key: EntryKey) {
    exists i :: 0 <= i < |entries| && entries[i].key == key
  }

  /** The one entry with the key. */
  predicate Only(entries: seq<Entry>, key: EntryKey, at: nat) {
    at < |entries| && forall i :: 0 <= i < |entries| ==> (entries[i].key == key <==> i == at)
  }

  class Ledger {
    var entries: seq<Entry>

    ghost predicate Valid()
      reads this
    {
      LedgerOk(entries)
    }

    constructor ()
      ensures Valid() && entries == []
    {
      entries := [];
    }

    /** VoidEntry. */
    method VoidEntry(id: nat, reason: string) returns (reversal: Option<nat>)
      requires Valid()
      modifies this
      ensures Valid() && old(entries) <= entries
      ensures Voided(entries, reversal) == Void(old(entries), id, reason)
      ensures reversal.Some? ==> Only(entries, ReversalKey(id), reversal.value)
    {
      BlankTrimsToNothing(reason);
      VoidKeeps(entries, id, reason);
      var trimmed := TrimSpace(reason);
      if trimmed == "" { return None; }
      if id >= |entries| { return None; }
      var original := entries[id];
      if original.kind.Reversal? { return None; }
      var existing := Find(entries, ReversalKey(id));
      if existing.Some? { return existing; }
      var usd := original.usd;
      if usd.Some? { usd := Some(Negate(usd.value)); }
      entries := entries + [Entry(ReversalKey(id), original.client, Reversal, original.day, Negate(original.amount),
                                  original.currency, original.snapshot, usd, Some(id))];
      return Some(|entries| - 1);
    }

    /** Appends a charge once: an entry stored under its key before is the answer, and stays as it was. */
    method AddEntry(e: Charge) returns (at: nat)
      requires Valid()
      modifies this
      ensures Valid() && old(entries) <= entries && |entries| <= |old(entries)| + 1
      ensures Only(entries, e.key, at)
      ensures HasKey(old(entries), e.key) <==> entries == old(entries)
      ensures !HasKey(old(entries), e.key) ==> entries[at] == e
      ensures entries == Add(old(entries), e)
    {
      AddKeeps(entries, e);
      var existing := Find(entries, e.key);
      if existing.Some? { return existing.value; }
      entries := entries + [e];
      return |entries| - 1;
    }

    /** createAddonEntry: accepted exactly when it names a client and a key and its amount is a decimal that
        is not negative, and either the key is known, or the client and the currency are and the rates can
        be read. Sending it again changes nothing. */
    method CreateAddonEntry(addon: Addon, client: string, idempotency: string, amount: string, clientKnown: bool,
                            currency: Option<string>, day: int, fx: Option<Fx>)
      returns (r: Option<nat>)
      requires Valid()
      modifies this
      ensures Valid() && old(entries) <= entries
      ensures var key := AddonKey(addon, client, idempotency); var parsed := AmountText.Parse(amount);
              && (r.Some? <==> !Blank(client) && !Blank(idempotency) && parsed.Some? && parsed.value >= 0
                               && (HasKey(old(entries), key) || (clientKnown && currency.Some? && fx.Some?)))
              && (r.None? || HasKey(old(entries), key) ==> entries == old(entries))
              && (r.Some? ==> Only(entries, key, r.value))
              && (r.Some? && !HasKey(old(entries), key) ==>
                    entries[r.value] == AddonEntry(addon, key, client, day, parsed.value, currency.value, fx.value))
    {
      BlankTrimsToNothing(client);
      BlankTrimsToNothing(idempotency);
      if TrimSpace(client) == "" || TrimSpace(idempotency) == "" { return None; }
      var parsed := AmountText.ParseAmountMicros(amount);
      if parsed.None? || parsed.value < 0 { return None; }
      r := AppendAddon(addon, client, idempotency, parsed.value, clientKnown, currency, day, fx);
    }

    /** The transaction of createAddonEntry. */
    method AppendAddon(addon: Addon, client: string, idempotency: string, amount: int, clientKnown: bool,
                       currency: Option<string>, day: int, fx: Option<Fx>)
      returns (r: Option<nat>)
      requires Valid() && 0 <= amount <= MAX_INT64
      modifies this
      ensures Valid() && old(entries) <= entries
      ensures var key := AddonKey(addon, client, idempotency);
              && (r.Some? <==> HasKey(old(entries), key) || (clientKnown && currency.Some? && fx.Some?))
              && (r.None? || HasKey(old(entries), key) ==> entries == old(entries))
              && (r.Some? ==> Only(entries, key, r.value))
              && (r.Some? && !HasKey(old(entries), key) ==>
                    entries[r.value] == AddonEntry(addon, key, client, day, amount, currency.value, fx.value))
    {
      var key := AddonKey(addon, client, idempotency);
      var existing := Find(entries, key);
      if existing.Some? { return existing; }
      if !clientKnown || currency.None? || fx.None? { return None; }
      var at := AddEntry(AddonEntry(addon, key, client, day, amount, currency.value, fx.value));
      return Some(at);
    }
  }

  /******* Period totals *******/

  datatype Query = Query(currency: string, snapshots: map<nat, map<string, Rate>>, firstDay: int, lastDay: int,
                         clients: set<string>)

  /** convertedEntryAmount. */
  function Converted(e: Entry, q: Query): Option<int> {
    if e.currency == q.currency then Some(e.amount)
    else if e.snapshot.None? || e.snapshot.value !in q.snapshots || q.snapshots[e.snapshot.value] == map[] then None
    else Convert(e.amount, e.currency, q.currency, q.snapshots[e.snapshot.value])
  }

  /** An entry is shown in the display currency by the rates it was booked under, and as it is in its own. */
  lemma EntryShows(e: Entry, q: Query, v: int)
    ensures e.currency == q.currency ==> Converted(e, q) == Some(e.amount)
    ensures e.currency != q.currency && (e.snapshot.None? || e.snapshot.value !in q.snapshots) ==> Converted(e, q).None?
    ensures e.currency != q.currency && e.snapshot.Some? && e.snapshot.value in q.snapshots ==>
              var rates := q.snapshots[e.snapshot.value];
              && (!Quoted(rates, e.currency, q.currency) ==> Converted(e, q).None?)
              && (Quoted(rates, e.currency, q.currency) ==>
                    var n := e.amount * (rates[q.currency].num * rates[e.currency].den);
                    var d := rates[q.currency].den * rates[e.currency].num;
                    Converted(e, q) == Some(v) <==> IsInt64(v) && Nearest(n, v * d, d))
  {
    if e.currency != q.currency && e.snapshot.Some? && e.snapshot.value in q.snapshots {
      ConvertIsNearest(e.amount, e.currency, q.currency, q.snapshots[e.snapshot.value], v);
    }
  }

  predicate InPeriod(e: Entry, q: Query) {
    q.firstDay <= e.day <= q.lastDay && (q.clients == {} || e.client in q.clients)
  }

  /** A reversal counts in the category of what it reverses. */
  function Category(entries: seq<Entry>, e: Entry): Kind {
    if e.kind.Reversal? && e.reversalOf.Some? && e.reversalOf.value < |entries|
    then entries[e.reversalOf.value].kind
    else e.kind
  }

  /** What one entry adds to the total of a category. */
  function Contribution(entries: seq<Entry>, e: Entry, q: Query, category: Kind): int {
    if InPeriod(e, q) && Category(entries, e) == category && Converted(e, q).Some? then Converted(e, q).value else 0
  }

  function TotalOf(entries: seq<Entry>, n: nat, q: Query, category: Kind): int
    requires n <= |entries|
  {
    if n == 0 then 0 else TotalOf(entries, n - 1, q, category) + Contribution(entries, entries[n - 1], q, category)
  }

  /** The same, leaving one entry out. */
  function TotalWithout(entries: seq<Entry>, n: nat, skip: nat, q: Query, category: Kind): int
    requires n <= |entries|
  {
    if n == 0 then 0 else
    var added := if n - 1 == skip then 0 else Contribution(entries, entries[n - 1], q, category);
    TotalWithout(entries, n - 1, skip, q, category) + added
  }

  lemma {:induction false} LeaveOneOut(entries: seq<Entry>, n: nat, skip: nat, q: Query, category: Kind)
    requires n <= |entries|
    ensures TotalOf(entries, n, q, category) == TotalWithout(entries, n, skip, q, category) +
              (if skip < n then Contribution(entries, entries[skip], q, category) else 0)
  {
    if n > 0 { LeaveOneOut(entries, n - 1, skip, q, category); }
  }

  lemma {:induction false} AppendLeavesOthers(entries: seq<Entry>, e: Entry, n: nat, skip: nat, q: Query,
                                              category: Kind)
    requires n <= |entries| && LedgerOk(entries)
    ensures TotalWithout(entries + [e], n, skip, q, category) == TotalWithout(entries, n, skip, q, category)
  {
    if n > 0 {
      AppendLeavesOthers(entries, e, n - 1, skip, q, category);
      assert EntryOk(entries, n - 1);
    }
  }

  /** The exact conversion before it is checked to fit 64 bits. */
  function Exact(e: Entry, q: Query): Option<int> {
    if e.currency == q.currency then Some(e.amount)
    else if e.snapshot.None? || e.snapshot.value !in q.snapshots then None else
    var rates := q.snapshots[e.snapshot.value];
    if !Usable(rates, e.currency) || !Usable(rates, q.currency) then None else
    Strictly(0, rates[q.currency].den, rates[e.currency].num);
    Some(Round(e.amount * (rates[q.currency].num * rates[e.currency].den),
               rates[q.currency].den * rates[e.currency].num))
  }

  lemma ConvertedIsExact(e: Entry, q: Query)
    requires IsInt64(e.amount)
    ensures Converted(e, q) == (if Exact(e, q).Some? && IsInt64(Exact(e, q).value) then Exact(e, q) else None)
  {
  }

  /** The exact conversion is not the one value whose negation fits 64 bits while it does not. */
  predicate Cancels(e: Entry, q: Query) {
    Exact(e, q).None? || Exact(e, q).value != -MIN_INT64
  }

  lemma ExactReversal(entries: seq<Entry>, id: nat, q: Query)
    requires id < |entries| && 0 <= entries[id].amount
    ensures Exact(ReversalOf(entries, id), q) ==
              (if Exact(entries[id], q).Some? then Some(-Exact(entries[id], q).value) else None)
    ensures Exact(entries[id], q).Some? ==> Exact(entries[id], q).value >= 0
  {
    var e := entries[id];
    if e.currency != q.currency && e.snapshot.Some? && e.snapshot.value in q.snapshots {
      var rates := q.snapshots[e.snapshot.value];
      if Usable(rates, e.currency) && Usable(rates, q.currency) {
        var from, to := rates[e.currency], rates[q.currency];
        Strictly(0, to.den, from.num);
        Strictly(0, to.num, from.den);
        var factor, d := to.num * from.den, to.den * from.num;
        SignOf(e.amount, factor);
        RoundIsOdd(e.amount * factor, d);
        RoundIsNearest(e.amount * factor, d);
        NegatedProduct(e.amount, factor);
      }
    }
  }

  function Shown(e: Entry, q: Query): int { if Converted(e, q).Some? then Converted(e, q).value else 0 }

  /** A charge and its reversal add up to zero in a display currency if and only if they cancel. */
  lemma ReversalCancelsIff(entries: seq<Entry>, id: nat, q: Query)
    requires id < |entries| && 0 <= entries[id].amount <= MAX_INT64
    ensures Shown(entries[id], q) + Shown(ReversalOf(entries, id), q) == 0 <==> Cancels(entries[id], q)
  {
    ConvertedIsExact(entries[id], q);
    ConvertedIsExact(ReversalOf(entries, id), q);
    ExactReversal(entries, id, q);
  }

  /** The entry counts in this category of this total and does not cancel. */
  predicate Lingers(e: Entry, q: Query, category: Kind) {
    InPeriod(e, q) && category == e.kind && !Cancels(e, q)
  }

  lemma VoidCancels(entries: seq<Entry>, id: nat, reason: string, q: Query, category: Kind)
    requires !Blank(reason)
    requires LedgerOk(entries) && id < |entries| && !entries[id].kind.Reversal?
    requires Find(entries, ReversalKey(id)).None?
    ensures var after := Void(entries, id, reason).entries;
            TotalOf(after, |after|, q, category) == TotalWithout(entries, |entries|, id, q, category) <==>
              !Lingers(entries[id], q, category)
  {
    var r := ReversalOf(entries, id);
    var after := entries + [r];
    assert EntryOk(entries, id);
    LeaveOneOut(after, |entries|, id, q, category);
    AppendLeavesOthers(entries, r, |entries|, id, q, category);
    ReversalCancelsIff(entries, id, q);
    assert TotalOf(after, |after|, q, category) ==
           TotalOf(after, |entries|, q, category) + Contribution(after, r, q, category);
  }

  /** In every run, voiding an entry for the first time makes a category of a period total what it would be
      without the entry, if and only if the entry does not count there or cancels: the reversal has the
      same day, client and resolved category. */
  lemma VoidingContributesNothing(ops: seq<Operation>, id: nat, reason: string, q: Query, category: Kind)
    requires !Blank(reason) && id < |Run(ops)| && !Run(ops)[id].kind.Reversal?
    requires Find(Run(ops), ReversalKey(id)).None?
    ensures var after := Run(ops + [VoidOp(id, reason)]);
            TotalOf(after, |after|, q, category) == TotalWithout(Run(ops), |Run(ops)|, id, q, category) <==>
              !Lingers(Run(ops)[id], q, category)
  {
    EveryLedgerOk(ops);
    assert (ops + [VoidOp(id, reason)])[..|ops|] == ops;
    VoidCancels(Run(ops), id, reason, q, category);
  }

  /** Voiding it again changes nothing. */
  lemma VoidingTwiceIsOnce(ops: seq<Operation>, id: nat, reason: string)
    requires Find(Run(ops), ReversalKey(id)).Some?
    ensures Run(ops + [VoidOp(id, reason)]) == Run(ops)
  {
    assert (ops + [VoidOp(id, reason)])[..|ops|] == ops;
  }

  const HALF := 0x4000_0000_0000_0000

  /** A charge of half the 64-bit range, and a display currency worth half as much. */
  const WIDE := Entry(OtherKey("wide"), "c", Adjustment, 1, HALF, "A", Some(0), None, None)
  const DOUBLING := Query("B", map[0 := map["A" := Rate(1, 1), "B" := Rate(2, 1)]], 0, 2, {})

  lemma WideConverts(amount: int)
    ensures "A" != "B"
    ensures Convert(amount, "A", "B", map["A" := Rate(1, 1), "B" := Rate(2, 1)]) == RoundToInt64(amount * 2, 1)
    ensures Round(amount * 2, 1) == amount * 2
  {
    assert "A"[0] != "B"[0];
  }

  /** The failing input. The charge does not convert and shows as nothing, its reversal just fits, so after
      voiding the period total is the smallest 64-bit value instead of zero. */
  lemma VoidedChargeLingers()
    ensures !Cancels(WIDE, DOUBLING)
    ensures TotalOf(Run([AddOp(WIDE)]), 1, DOUBLING, Adjustment) == 0
    ensures |Run([AddOp(WIDE), VoidOp(0, "x")])| == 2
    ensures TotalOf(Run([AddOp(WIDE), VoidOp(0, "x")]), 2, DOUBLING, Adjustment) == MIN_INT64
  {
    VoidedRun(WIDE, "x");
    WideShows();
    TotalOfPair(WIDE, ReversalOf([WIDE], 0), DOUBLING, Adjustment);
  }

  lemma VoidedRun(e: Charge, reason: string)
    requires reason != [] && !IsSpace(reason[0])
    ensures Run([AddOp(e)]) == [e]
    ensures Run([AddOp(e), VoidOp(0, reason)]) == [e, ReversalOf([e], 0)]
  {
    var one, two := [AddOp(e)], [AddOp(e), VoidOp(0, reason)];
    assert one[..0] == [] && two[..1] == one;
    assert Run(one) == Add([], e);
    VoidOne(e, reason);
  }

  lemma VoidOne(e: Charge, reason: string)
    requires reason != [] && !IsSpace(reason[0])
    ensures Void([e], 0, reason).entries == [e, ReversalOf([e], 0)]
  {
    assert !Blank(reason);
    assert [e][..0] == [];
  }

  lemma WideShows()
    ensures Converted(WIDE, DOUBLING) == None && !Cancels(WIDE, DOUBLING)
    ensures Converted(ReversalOf([WIDE], 0), DOUBLING) == Some(MIN_INT64)
  {
    WideConverts(HALF);
    WideConverts(-HALF);
  }

  lemma TotalOfPair(a: Entry, b: Entry, q: Query, category: Kind)
    ensures TotalOf([a, b], 2, q, category)
         == Contribution([a, b], a, q, category) + Contribution([a, b], b, q, category)
  {
    assert TotalOf([a, b], 1, q, category) == Contribution([a, b], a, q, category);
  }

  /******* The accumulators *******/

  const RANGE := 0x1_0000_0000_0000_0000

  /** The 64-bit value of a sum. */
  function Wrap(n: int): (r: int)
    ensures IsInt64(r) && (IsInt64(n) ==> r == n)
  {
    (n - MIN_INT64) % RANGE + MIN_INT64
  }

  /** Wrapping at every addition is wrapping once at the end. */
  lemma WrapAdds(a: int, b: int)
    ensures Wrap(Wrap(a) + b) == Wrap(a + b)
  {
    var j := (a - MIN_INT64) / RANGE;
    var k := (Wrap(a) + b - MIN_INT64) / RANGE;
    assert a == Wrap(a) + j * RANGE && Wrap(a) + b == Wrap(Wrap(a) + b) + k * RANGE;
    Distribute(-k, j, RANGE);
    WrapIsUnique(a + b, Wrap(Wrap(a) + b), j + k);
  }

  /** The one 64-bit value that differs by whole ranges. */
  lemma WrapIsUnique(n: int, r: int, k: int)
    requires IsInt64(r) && n == r + k * RANGE
    ensures Wrap(n) == r
  {
    var j := (n - MIN_INT64) / RANGE;
    assert n == Wrap(n) + j * RANGE;
    if j < k { Strictly(j, k, RANGE); }
    if k < j { Strictly(k, j, RANGE); }
  }

  datatype Totals = Totals(base: int, extra: int, other: int, oneTime: int, total: int)

  /** Adds to the total and to the accumulator of the category. */
  function Book(t: Totals, category: Kind, amount: int): Totals {
    var u := t.(total := t.total + amount);
    match category
    case BaseAccrual => u.(base := t.base + amount)
    case OneTime => u.(base := t.base + amount)
    case TrafficReset => u.(extra := t.extra + amount)
    case IPChange => u.(other := t.other + amount)
    case Adjustment => u.(oneTime := t.oneTime + amount)
    case Reversal => u
  }

  function WrapAll(t: Totals): Totals {
    Totals(Wrap(t.base), Wrap(t.extra), Wrap(t.other), Wrap(t.oneTime), Wrap(t.total))
  }

  /** addCategory, in 64-bit arithmetic. */
  function AddCategory(t: Totals, category: Kind, amount: int): Totals {
    var u := t.(total := Wrap(t.total + amount));
    match category
    case BaseAccrual => u.(base := Wrap(t.base + amount))
    case OneTime => u.(base := Wrap(t.base + amount))
    case TrafficReset => u.(extra := Wrap(t.extra + amount))
    case IPChange => u.(other := Wrap(t.other + amount))
    case Adjustment => u.(oneTime := Wrap(t.oneTime + amount))
    case Reversal => u
  }

  lemma WrapBooks(t: Totals, category: Kind, amount: int)
    ensures AddCategory(WrapAll(t), category, amount) == WrapAll(Book(t, category, amount))
  {
    WrapAdds(t.total, amount);
    match category
    case BaseAccrual => WrapAdds(t.base, amount);
    case OneTime => WrapAdds(t.base, amount);
    case TrafficReset => WrapAdds(t.extra, amount);
    case IPChange => WrapAdds(t.other, amount);
    case Adjustment => WrapAdds(t.oneTime, amount);
    case Reversal =>
  }

  /** The exact totals of the first n entries by category. */
  function TotalsOf(entries: seq<Entry>, n: nat, q: Query): Totals
    requires n <= |entries|
  {
    var base := TotalOf(entries, n, q, BaseAccrual) + TotalOf(entries, n, q, OneTime);
    var extra, other := TotalOf(entries, n, q, TrafficReset), TotalOf(entries, n, q, IPChange);
    var oneTime := TotalOf(entries, n, q, Adjustment);
    Totals(base, extra, other, oneTime, base + extra + other + oneTime)
  }

  lemma TotalsStep(entries: seq<Entry>, n: nat, q: Query)
    requires LedgerOk(entries) && n < |entries|
    ensures var e := entries[n];
            TotalsOf(entries, n + 1, q) ==
              if InPeriod(e, q) && Converted(e, q).Some?
              then Book(TotalsOf(entries, n, q), Category(entries, e), Converted(e, q).value)
              else TotalsOf(entries, n, q)
  {
    assert EntryOk(entries, n);
  }

  /** An entry counts on every day of the period, the first and the last included, for every client of the query, and
      for all of them when it names none. */
  lemma PeriodIncludesItsEnds(e: Entry, q: Query)
    ensures InPeriod(e, q) <==>
              && !(e.day < q.firstDay) && !(e.day > q.lastDay)
              && (q.clients != {} ==> e.client in q.clients)
  {
  }

  /** An add-on is totalled in its own category and in no other: resets as extra, address changes as other, fees as
      one-time charges. */
  lemma AddonIsTotalledOnce(entries: seq<Entry>, a: Addon, key: EntryKey, client: string, day: int, amount: int,
                            currency: string, fx: Fx, q: Query)
    requires var e := AddonEntry(a, key, client, day, amount, currency, fx);
             LedgerOk(entries) && Appendable(e) && Find(entries, key).None?
    requires q.firstDay <= day <= q.lastDay && (q.clients == {} || client in q.clients) && currency == q.currency
    ensures var more := entries + [AddonEntry(a, key, client, day, amount, currency, fx)];
            var t := TotalsOf(entries, |entries|, q);
            TotalsOf(more, |more|, q) ==
              match a
              case ResetAddon => t.(extra := t.extra + amount, total := t.total + amount)
              case IPChangeAddon => t.(other := t.other + amount, total := t.total + amount)
              case FeeAddon => t.(oneTime := t.oneTime + amount, total := t.total + amount)
  {
    var e := AddonEntry(a, key, client, day, amount, currency, fx);
    var more := entries + [e];
    AddKeeps(entries, e);
    TotalsStep(more, |entries|, q);
    AppendLeavesTotals(entries, e, |entries|, q);
  }

  lemma AppendLeavesTotals(entries: seq<Entry>, e: Entry, n: nat, q: Query)
    requires n <= |entries| && LedgerOk(entries)
    ensures TotalsOf(entries + [e], n, q) == TotalsOf(entries, n, q)
  {
    forall category ensures TotalOf(entries + [e], n, q, category) == TotalOf(entries, n, q, category) {
      LeaveOneOut(entries, n, n, q, category);
      LeaveOneOut(entries + [e], n, n, q, category);
      AppendLeavesOthers(entries, e, n, n, q, category);
    }
  }

  /** The accumulators split the total of a well-formed ledger by category without loss: each is the exact
      sum of its categories as a 64-bit value, and so exact whenever that sum fits. */
  method SumPeriod(entries: seq<Entry>, q: Query) returns (t: Totals)
    requires LedgerOk(entries)
    ensures t == WrapAll(TotalsOf(entries, |entries|, q))
    ensures IsInt64(TotalsOf(entries, |entries|, q).total) ==> t.total == TotalsOf(entries, |entries|, q).total
  {
    t := Totals(0, 0, 0, 0, 0);
    for i := 0 to |entries|
      invariant t == WrapAll(TotalsOf(entries, i, q))
    {
      TotalsStep(entries, i, q);
      if InPeriod(entries[i], q) {
        var amount := Converted(entries[i], q);
        if amount.Some? {
          WrapBooks(TotalsOf(entries, i, q), Category(entries, entries[i]), amount.value);
          t := AddCategory(t, Category(entries, entries[i]), amount.value);
        }
      }
    }
  }
}
