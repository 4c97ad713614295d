/** After any writes by any ledgers the health file reads back, passes the independent validator,
    and never takes back what it reported. */
module HealthFileSafety {
  import opened Outcome
  import opened Sequences
  import opened CanonicalJson
  import opened HealthFile
  import CallLedger
  import CallLedgerSafety

  // ---------------------------------------------------------------- the two validators

  lemma {:induction false} LostIsDifference(es: seq<Named>)
    requires forall e :: e in es ==> ValidEntry(e.entry)
    ensures SumOf(es).persisted <= SumOf(es).accepted && LostSum(es) == SumOf(es).accepted - SumOf(es).persisted
    ensures !SumOf(es).degraded ==> LostSum(es) == 0
    decreases |es|
  {
    if es != [] {
      assert es[0] in es && forall e :: e in es[1..] ==> e in es;
      LostIsDifference(es[1..]);
    }
  }

  lemma TableAgrees(fields: map<string, Json>, es: seq<Named>)
    requires ValidEntry(JObject(fields)) && forall e :: e in es ==> ValidEntry(e.entry)
    ensures AggregateMatches(fields, es) <==>
      && CountOf(JObject(fields), "accepted_records") == SumOf(es).accepted
      && CountOf(JObject(fields), "persisted_records") == SumOf(es).persisted
      && CountOf(JObject(fields), "lost_records") == LostSum(es)
      && (IsDegraded(JObject(fields)) <==> SumOf(es).degraded || CountOf(JObject(fields), "lost_records") > 0)
  {
    LostIsDifference(es);
  }

  /** The ledger's reader and the independent validator accept the same files, except that an empty
      table of ledgers is read and not accepted. */
  lemma ValidatorsAgree(h: Health)
    ensures Checked(h) <==> Readable(Some(h)) && (h.Object? ==> h.ledgers != Table([]))
  {
    if h.Object? && h.ledgers.Table? && ValidEntry(JObject(h.fields)) && forall e :: e in h.ledgers.entries ==> ValidEntry(e.entry) {
      TableAgrees(h.fields, h.ledgers.entries);
    }
  }

  // ---------------------------------------------------------------- entries under their ids

  ghost predicate Unique(es: seq<Named>) {
    forall i, j :: 0 <= i < j < |es| ==> es[i].id != es[j].id
  }

  /** The keys of a JSON object are distinct. */
  ghost predicate WellKeyed(file: Option<Health>) {
    file.Some? && file.value.Object? && file.value.ledgers.Table? ==> Unique(file.value.ledgers.entries)
  }

  lemma {:induction false} EntryFound(es: seq<Named>, id: string)
    ensures EntryOf(es, id) != JNull ==> Named(id, EntryOf(es, id)) in es
    ensures forall e :: e in es && Unique(es) ==> EntryOf(es, e.id) == e.entry
    ensures !Listed(es, id) ==> EntryOf(es, id) == JNull
    decreases |es|
  {
    if es != [] {
      var rest := es[1..];
      EntryFound(rest, id);
      assert es == [es[0]] + rest;
      assert Unique(es) ==> Unique(rest) by {
        assert forall i :: 0 <= i < |rest| ==> rest[i] == es[i + 1];
      }
      forall e | e in es && Unique(es)
        ensures EntryOf(es, e.id) == e.entry
      {
        if e != es[0] {
          var i :| 0 <= i < |rest| && rest[i] == e;
          assert es[i + 1] == e && es[0].id != es[i + 1].id;
        }
      }
    }
  }

  lemma {:induction false} PutPuts(es: seq<Named>, id: string, entry: Json)
    requires Unique(es)
    ensures Unique(Put(es, id, entry))
    ensures forall e :: e in Put(es, id, entry) <==> e == Named(id, entry) || (e in es && e.id != id)
    decreases |es|
  {
    if es != [] {
      var rest := es[1..];
      assert es == [es[0]] + rest && forall i :: 0 <= i < |rest| ==> rest[i] == es[i + 1];
      assert forall e :: e in rest ==> e.id != es[0].id;
      PutPuts(rest, id, entry);
      if es[0].id != id {
        ConsUnique(es[0], Put(rest, id, entry));
      }
    }
  }

  lemma ConsUnique(e: Named, later: seq<Named>)
    requires Unique(later) && forall x :: x in later ==> x.id != e.id
    ensures Unique([e] + later)
  {
    assert forall i :: 0 <= i < |later| ==> later[i] in later;
  }

  lemma SortKeepsEntries(es: seq<Named>)
    requires Unique(es)
    ensures Unique(SortByRank(es, ById())) && forall e :: e in SortByRank(es, ById()) <==> e in es
  {
    var sorted := SortByRank(es, ById());
    SortOrders(es, ById());
    forall e: Named
      ensures e in sorted <==> e in es
    {
      assert e in multiset(sorted) <==> e in multiset(es);
    }
    forall i, j | 0 <= i < j < |sorted|
      ensures sorted[i].id != sorted[j].id
    {
      PermutationDistinct(es, sorted, i, j);
    }
  }

  lemma PermutationDistinct(es: seq<Named>, sorted: seq<Named>, i: nat, j: nat)
    requires Unique(es) && multiset(sorted) == multiset(es) && i < j < |sorted|
    ensures sorted[i].id != sorted[j].id
  {
    assert sorted[i] in multiset(es) && sorted[j] in multiset(es);
    var a :| 0 <= a < |es| && es[a] == sorted[i];
    var b :| 0 <= b < |es| && es[b] == sorted[j];
    if sorted[i] == sorted[j] {
      assert sorted == sorted[..j] + [sorted[j]] + sorted[j + 1..];
      assert sorted[..j][i] == sorted[i];
      assert multiset(sorted)[sorted[i]] >= 2;
      Once(es, sorted[i]);
    }
  }

  lemma {:induction false} Once(es: seq<Named>, e: Named)
    requires Unique(es)
    ensures multiset(es)[e] <= 1
  {
    if es != [] {
      assert es == Init(es) + [Last(es)];
      Once(Init(es), e);
      assert forall i :: 0 <= i < |es| - 1 ==> es[i] != es[|es| - 1];
    }
  }

  lemma {:induction false} SumOfInsert(x: Named, es: seq<Named>, rank: Named -> string)
    ensures SumOf(InsertByRank(x, es, rank)) == SumOf([x] + es)
    decreases |es|
  {
    assert ([x] + es)[1..] == es;
    if es != [] && !Before(rank(x), rank(es[0])) {
      SumOfInsert(x, es[1..], rank);
      assert ([x] + es[1..])[1..] == es[1..];
      assert ([es[0]] + InsertByRank(x, es[1..], rank))[1..] == InsertByRank(x, es[1..], rank);
    }
  }

  lemma {:induction false} SumOfSort(es: seq<Named>, rank: Named -> string)
    ensures SumOf(SortByRank(es, rank)) == SumOf(es)
  {
    if es != [] {
      SumOfSort(Init(es), rank);
      SumOfInsert(Last(es), SortByRank(Init(es), rank), rank);
      var sorted := SortByRank(Init(es), rank);
      assert ([Last(es)] + sorted)[1..] == sorted;
      SumSnoc(Init(es), Last(es));
      assert es == Init(es) + [Last(es)];
    }
  }

  // ---------------------------------------------------------------- one write

  lemma MergedFields(previous: Json, degraded: bool, accepted: nat, persisted: nat, error: Json)
    ensures var m := Merged(previous, degraded, accepted, persisted, error);
      var a, p := Max(accepted, CountOf(previous, "accepted_records")), Max(persisted, CountOf(previous, "persisted_records"));
      && m.JObject? && Field(m, "status") == StatusText(IsDegraded(previous) || degraded)
      && Field(m, "accepted_records") == JNumber(a) && Field(m, "persisted_records") == JNumber(p)
      && Field(m, "lost_records") == JNumber(a - p)
      && Has(m, "accepted_records") && Has(m, "persisted_records") && Has(m, "lost_records")
  {
  }

  /** A ledger's merged entry is valid, keeps what was reported, and includes the new report. */
  lemma MergedIsValid(previous: Json, w: Write)
    requires w.Honest() && (previous == JNull || ValidEntry(previous))
    ensures var m := Merged(previous, w.degraded, w.accepted, w.persisted, w.error);
      && ValidEntry(m) && Extends(previous, m)
      && w.accepted <= CountOf(m, "accepted_records") && w.persisted <= CountOf(m, "persisted_records")
      && (w.degraded ==> IsDegraded(m))
  {
    MergedFields(previous, w.degraded, w.accepted, w.persisted, w.error);
    assert "degraded"[0] != "healthy"[0];
    assert StatusText(true) != StatusText(false);
  }

  /** A later entry of a ledger: counts have not fallen, and degraded is sticky. */
  ghost predicate Extends(before: Json, after: Json) {
    && CountOf(before, "accepted_records") <= CountOf(after, "accepted_records")
    && CountOf(before, "persisted_records") <= CountOf(after, "persisted_records")
    && (IsDegraded(before) ==> IsDegraded(after))
  }

  lemma AggregateFields(es: seq<Named>, table: seq<Named>)
    ensures var fields := Aggregate(es, table).fields;
      && Field(JObject(fields), "schema") == JText(SCHEMA) && Field(JObject(fields), "status") == AggregateStatus(SumOf(es))
      && Field(JObject(fields), "accepted_records") == JNumber(SumOf(es).accepted)
      && Field(JObject(fields), "persisted_records") == JNumber(SumOf(es).persisted)
      && Field(JObject(fields), "lost_records") == JNumber(SumOf(es).accepted - SumOf(es).persisted)
      && Has(JObject(fields), "accepted_records") && Has(JObject(fields), "persisted_records") && Has(JObject(fields), "lost_records")
  {
  }

  lemma AggregateIsReadable(es: seq<Named>, table: seq<Named>)
    requires (forall e :: e in es ==> ValidEntry(e.entry)) && (forall e :: e in table ==> ValidEntry(e.entry)) && SumOf(table) == SumOf(es)
    ensures Readable(Some(Aggregate(es, table))) && Entries(Some(Aggregate(es, table))) == table
  {
    AggregateFields(es, table);
    LostIsDifference(es);
    assert "degraded"[0] != "healthy"[0];
  }

  /** The entries of the file before a write, as the writer sees them. */
  lemma EntriesAreGood(file: Option<Health>)
    requires Readable(file) && WellKeyed(file)
    ensures Unique(Entries(file)) && forall e :: e in Entries(file) ==> ValidEntry(e.entry)
  {
  }

  lemma WriteKeepsFile(file: Option<Health>, w: Write)
    requires Readable(file) && WellKeyed(file) && w.Honest()
    ensures var later := Some(Written(file, w));
      && Readable(later) && WellKeyed(later) && Checked(later.value)
      && (forall e :: e in Entries(later) <==>
            e == Named(w.id, Merged(EntryOf(Entries(file), w.id), w.degraded, w.accepted, w.persisted, w.error))
            || (e in Entries(file) && e.id != w.id))
  {
    EntriesAreGood(file);
    var before := Entries(file);
    var merged := Merged(EntryOf(before, w.id), w.degraded, w.accepted, w.persisted, w.error);
    EntryFound(before, w.id);
    MergedIsValid(EntryOf(before, w.id), w);
    PutPuts(before, w.id, merged);
    var es := Put(before, w.id, merged);
    SortKeepsEntries(es);
    SumOfSort(es, ById());
    AggregateIsReadable(es, SortByRank(es, ById()));
    ValidatorsAgree(Written(file, w));
    assert Named(w.id, merged) in SortByRank(es, ById());
  }

  // ---------------------------------------------------------------- any number of writes

  ghost predicate AllHonest(writes: seq<Write>) {
    forall w :: w in writes ==> w.Honest()
  }

  /** The file after the writes, in the order in which they held the lock. */
  ghost function AfterWrites(file: Option<Health>, writes: seq<Write>): Option<Health>
    requires Readable(file) && WellKeyed(file) && AllHonest(writes)
    ensures Readable(AfterWrites(file, writes)) && WellKeyed(AfterWrites(file, writes))
    decreases |writes|
  {
    if writes == [] then file
    else
      assert Last(writes) in writes && forall w :: w in Init(writes) ==> w in writes;
      WriteKeepsFile(AfterWrites(file, Init(writes)), Last(writes));
      Some(Written(AfterWrites(file, Init(writes)), Last(writes)))
  }

  /** After any writes by any ledgers, the file reads back without error, the validator accepts it
      once anything was written, and every entry that was there is still there: its counts have
      not fallen and it is degraded if it was. */
  lemma {:induction false} RoundTrip(file: Option<Health>, writes: seq<Write>)
    requires Readable(file) && WellKeyed(file) && AllHonest(writes)
    ensures var later := AfterWrites(file, writes);
      && Readable(later) && (writes != [] ==> later.Some? && Checked(later.value))
      && (forall e :: e in Entries(file) ==> Listed(Entries(later), e.id) && Extends(e.entry, EntryOf(Entries(later), e.id)))
    decreases |writes|
  {
    EntriesAreGood(file);
    if writes == [] {
      forall e | e in Entries(file)
        ensures Listed(Entries(file), e.id) && Extends(e.entry, EntryOf(Entries(file), e.id))
      {
        EntryFound(Entries(file), e.id);
      }
    } else {
      assert forall w :: w in Init(writes) ==> w in writes;
      assert Last(writes) in writes;
      RoundTrip(file, Init(writes));
      var middle := AfterWrites(file, Init(writes));
      WriteKeepsFile(middle, Last(writes));
      forall e | e in Entries(file)
        ensures Listed(Entries(AfterWrites(file, writes)), e.id)
        ensures Extends(e.entry, EntryOf(Entries(AfterWrites(file, writes)), e.id))
      {
        EntryStays(middle, Last(writes), AfterWrites(file, writes), e.id);
      }
    }
  }

  lemma OwnEntry(file: Option<Health>, w: Write, later: Option<Health>)
    requires Readable(file) && WellKeyed(file) && w.Honest() && later == Some(Written(file, w)) && Readable(later)
    ensures Listed(Entries(later), w.id)
    ensures EntryOf(Entries(later), w.id) == Merged(EntryOf(Entries(file), w.id), w.degraded, w.accepted, w.persisted, w.error)
  {
    WriteKeepsFile(file, w);
    EntriesAreGood(later);
    var e := Named(w.id, Merged(EntryOf(Entries(file), w.id), w.degraded, w.accepted, w.persisted, w.error));
    assert e in Entries(later);
    EntryFound(Entries(later), w.id);
    assert e.id == w.id;
  }

  lemma OtherEntry(file: Option<Health>, w: Write, later: Option<Health>, e: Named)
    requires Readable(file) && WellKeyed(file) && w.Honest() && later == Some(Written(file, w)) && Readable(later)
    requires e in Entries(file) && e.id != w.id
    ensures Listed(Entries(later), e.id) && EntryOf(Entries(later), e.id) == e.entry
  {
    WriteKeepsFile(file, w);
    EntriesAreGood(later);
    assert e in Entries(later);
    EntryFound(Entries(later), e.id);
  }

  /** One write keeps every entry or extends it. */
  lemma EntryStays(file: Option<Health>, w: Write, later: Option<Health>, id: string)
    requires Readable(file) && WellKeyed(file) && w.Honest() && Listed(Entries(file), id)
    requires later == Some(Written(file, w)) && Readable(later)
    ensures Listed(Entries(later), id) && Extends(EntryOf(Entries(file), id), EntryOf(Entries(later), id))
  {
    EntriesAreGood(file);
    var e :| e in Entries(file) && e.id == id;
    EntryFound(Entries(file), id);
    if id == w.id {
      OwnEntry(file, w, later);
      MergedIsValid(EntryOf(Entries(file), id), w);
    } else {
      OtherEntry(file, w, later, e);
    }
  }

  // ---------------------------------------------------------------- exactly what the entries say

  /** The greatest of an initial count and the counts in the writes under that id. */
  ghost predicate Greatest(n: nat, initial: nat, writes: seq<Write>, id: string, count: Write -> nat) {
    && initial <= n && (forall w :: w in writes && w.id == id ==> count(w) <= n)
    && (n == initial || exists w :: w in writes && w.id == id && count(w) == n)
  }

  ghost predicate SomeWrite(writes: seq<Write>, id: string) {
    exists w :: w in writes && w.id == id
  }

  ghost predicate SomeDegraded(writes: seq<Write>, id: string) {
    exists w :: w in writes && w.id == id && w.degraded
  }

  /** The last error a ledger named, or the one it had before. */
  function LastError(initial: Json, writes: seq<Write>, id: string): Json {
    if writes == [] then initial
    else if Last(writes).id == id && Truthy(Last(writes).error) then Last(writes).error
    else LastError(initial, Init(writes), id)
  }

  function Accepted(): Write -> nat {
    (w: Write) => w.accepted
  }

  function Persisted(): Write -> nat {
    (w: Write) => w.persisted
  }

  /** An entry is what its ledger's writes come to, and nobody else's. */
  ghost predicate SumsUp(before: Json, after: Json, writes: seq<Write>, id: string) {
    && Greatest(CountOf(after, "accepted_records"), CountOf(before, "accepted_records"), writes, id, Accepted())
    && Greatest(CountOf(after, "persisted_records"), CountOf(before, "persisted_records"), writes, id, Persisted())
    && (IsDegraded(after) <==> IsDegraded(before) || SomeDegraded(writes, id))
    && Field(after, "error_type") == LastError(Field(before, "error_type"), writes, id)
    && (!SomeWrite(writes, id) ==> after == before)
  }

  lemma GreatestSnoc(n: nat, initial: nat, writes: seq<Write>, w: Write, id: string, count: Write -> nat)
    requires Greatest(n, initial, writes, id, count)
    ensures Greatest(if w.id == id then Max(count(w), n) else n, initial, writes + [w], id, count)
  {
    assert w in writes + [w] && forall x :: x in writes ==> x in writes + [w];
    assert forall x :: x in writes + [w] ==> x in writes || x == w;
  }

  lemma SomeSnoc(writes: seq<Write>, w: Write, id: string)
    ensures SomeWrite(writes + [w], id) <==> SomeWrite(writes, id) || w.id == id
    ensures SomeDegraded(writes + [w], id) <==> SomeDegraded(writes, id) || (w.id == id && w.degraded)
  {
    assert w in writes + [w] && forall x :: x in writes ==> x in writes + [w];
    assert forall x :: x in writes + [w] ==> x in writes || x == w;
  }

  lemma MergedSumsUp(before: Json, middle: Json, writes: seq<Write>, w: Write)
    requires SumsUp(before, middle, writes, w.id)
    ensures SumsUp(before, Merged(middle, w.degraded, w.accepted, w.persisted, w.error), writes + [w], w.id)
  {
    MergedFields(middle, w.degraded, w.accepted, w.persisted, w.error);
    GreatestSnoc(CountOf(middle, "accepted_records"), CountOf(before, "accepted_records"), writes, w, w.id, Accepted());
    GreatestSnoc(CountOf(middle, "persisted_records"), CountOf(before, "persisted_records"), writes, w, w.id, Persisted());
    SomeSnoc(writes, w, w.id);
    Snoc(writes, w);
    assert "degraded"[0] != "healthy"[0];
  }

  lemma OthersSumUp(before: Json, after: Json, writes: seq<Write>, w: Write, id: string)
    requires SumsUp(before, after, writes, id) && w.id != id
    ensures SumsUp(before, after, writes + [w], id)
  {
    GreatestSnoc(CountOf(after, "accepted_records"), CountOf(before, "accepted_records"), writes, w, id, Accepted());
    GreatestSnoc(CountOf(after, "persisted_records"), CountOf(before, "persisted_records"), writes, w, id, Persisted());
    SomeSnoc(writes, w, id);
    Snoc(writes, w);
  }

  lemma UnlistedStays(file: Option<Health>, w: Write, later: Option<Health>, id: string)
    requires Readable(file) && WellKeyed(file) && w.Honest() && later == Some(Written(file, w)) && Readable(later)
    requires !Listed(Entries(file), id) && id != w.id
    ensures !Listed(Entries(later), id) && EntryOf(Entries(later), id) == EntryOf(Entries(file), id)
  {
    WriteKeepsFile(file, w);
    EntryFound(Entries(later), id);
    EntryFound(Entries(file), id);
  }

  /** One more write. */
  lemma WriteSumsUp(before: Json, middle: Option<Health>, writes: seq<Write>, w: Write, later: Option<Health>, id: string)
    requires Readable(middle) && WellKeyed(middle) && w.Honest() && later == Some(Written(middle, w)) && Readable(later)
    requires SumsUp(before, EntryOf(Entries(middle), id), writes, id)
    ensures SumsUp(before, EntryOf(Entries(later), id), writes + [w], id)
    ensures Listed(Entries(later), id) <==> Listed(Entries(middle), id) || w.id == id
  {
    if w.id == id {
      OwnEntry(middle, w, later);
      MergedSumsUp(before, EntryOf(Entries(middle), id), writes, w);
    } else {
      OtherStays(middle, w, later, id);
      OthersSumUp(before, EntryOf(Entries(middle), id), writes, w, id);
    }
  }

  /** After any writes by any ledgers, a ledger's entry holds the greatest counts it ever had or
      reported, is degraded exactly if it ever was or was reported so, and names its last error. */
  lemma {:induction false} EntriesAreExact(file: Option<Health>, writes: seq<Write>, id: string)
    requires Readable(file) && WellKeyed(file) && AllHonest(writes)
    ensures var later := AfterWrites(file, writes);
      && SumsUp(EntryOf(Entries(file), id), EntryOf(Entries(later), id), writes, id)
      && (Listed(Entries(later), id) <==> Listed(Entries(file), id) || SomeWrite(writes, id))
    decreases |writes|
  {
    if writes != [] {
      var earlier, w := Init(writes), Last(writes);
      assert writes == earlier + [w] && w in writes && forall x :: x in earlier ==> x in writes;
      EntriesAreExact(file, earlier, id);
      SomeSnoc(earlier, w, id);
      WriteSumsUp(EntryOf(Entries(file), id), AfterWrites(file, earlier), earlier, w, AfterWrites(file, writes), id);
    }
  }

  lemma OtherStays(file: Option<Health>, w: Write, later: Option<Health>, id: string)
    requires Readable(file) && WellKeyed(file) && w.Honest() && later == Some(Written(file, w)) && Readable(later)
    requires id != w.id
    ensures EntryOf(Entries(later), id) == EntryOf(Entries(file), id)
    ensures Listed(Entries(later), id) <==> Listed(Entries(file), id)
  {
    if Listed(Entries(file), id) {
      var e :| e in Entries(file) && e.id == id;
      EntriesAreGood(file);
      EntryFound(Entries(file), id);
      OtherEntry(file, w, later, e);
    } else {
      UnlistedStays(file, w, later, id);
    }
  }

  /** The totals of a file that was written are the sums over its entries. */
  lemma TotalsAreSums(file: Option<Health>, w: Write)
    requires Readable(file) && WellKeyed(file) && w.Honest()
    ensures var later := Written(file, w);
      && later.ledgers.Table?
      && Field(JObject(later.fields), "accepted_records") == JNumber(SumOf(later.ledgers.entries).accepted)
      && Field(JObject(later.fields), "persisted_records") == JNumber(SumOf(later.ledgers.entries).persisted)
      && Field(JObject(later.fields), "lost_records") == JNumber(LostSum(later.ledgers.entries))
  {
    WriteKeepsFile(file, w);
    LostIsDifference(Written(file, w).ledgers.entries);
  }

  /** Every report a call ledger makes is one the file accepts, under every interleaving. */
  lemma LedgerReportsAreHonest(capacity: int, steps: seq<CallLedger.Step>, r: CallLedger.Report, id: string,
                               error: Json)
    requires CallLedgerSafety.Feasible(CallLedger.FRESH, capacity, steps)
    requires r in CallLedgerSafety.Run(CallLedger.FRESH, capacity, steps).reports
    ensures Write(id, r.status.Degraded?, r.accepted, r.persisted, error).Honest()
  {
    CallLedgerSafety.NoSilentLoss(capacity, steps);
  }
}
