/** The health file that all call ledgers of a directory share: its writer and reader, and the
    independent validator of release evidence. */
module HealthFile {
  import opened Outcome
  import opened CanonicalJson

  const SCHEMA := "rincode.call-efficiency.ledger-health.v1"

  /** A ledger's entry under its id. */
  datatype Named = Named(id: string, entry: Json)

  /** The `ledgers` member: absent or null, of another type, or an object in the order of its keys. */
  datatype Member = Absent | Other | Table(entries: seq<Named>)

  /** The parsed file: its members other than `ledgers`, and that one. */
  datatype Health = NotAnObject | Object(fields: map<string, Json>, ledgers: Member)

  // ---------------------------------------------------------------- reading

  predicate HasCount(e: Json, key: string) {
    Has(e, key) && Field(e, key).JNumber? && 0 <= Field(e, key).n
  }

  function CountOf(e: Json, key: string): nat {
    if HasCount(e, key) then Field(e, key).n else 0
  }

  predicate HasStatus(e: Json) {
    Field(e, "status") == JText("healthy") || Field(e, "status") == JText("degraded")
  }

  predicate IsDegraded(e: Json) {
    Field(e, "status") == JText("degraded")
  }

  /** The reader's check of one entry. */
  predicate ValidEntry(e: Json) {
    && e.JObject? && HasStatus(e)
    && HasCount(e, "accepted_records") && HasCount(e, "persisted_records") && HasCount(e, "lost_records")
    && CountOf(e, "persisted_records") <= CountOf(e, "accepted_records")
    && CountOf(e, "lost_records") == CountOf(e, "accepted_records") - CountOf(e, "persisted_records")
    && (!IsDegraded(e) ==> CountOf(e, "lost_records") == 0)
  }

  datatype Sums = Sums(accepted: nat, persisted: nat, degraded: bool)

  function SumOf(es: seq<Named>): Sums {
    if es == [] then Sums(0, 0, false)
    else
      var s := SumOf(es[1..]);
      Sums(s.accepted + CountOf(es[0].entry, "accepted_records"), s.persisted + CountOf(es[0].entry, "persisted_records"),
           s.degraded || IsDegraded(es[0].entry))
  }

  predicate Truthy(j: Json) {
    match j
    case JNull => false
    case JFlag(b) => b
    case JNumber(n) => n != 0
    case JText(s) => s != ""
    case JList(items) => items != []
    case JObject(fields) => fields != map[]
  }

  function FirstError(es: seq<Named>): Json {
    if es == [] then JNull
    else if Truthy(Field(es[0].entry, "error_type")) then Field(es[0].entry, "error_type")
    else FirstError(es[1..])
  }

  function StatusText(degraded: bool): Json {
    JText(if degraded then "degraded" else "healthy")
  }

  function AggregateStatus(s: Sums): Json {
    StatusText(s.accepted - s.persisted > 0 || s.degraded)
  }

  /** The totals over all entries. */
  function Aggregate(es: seq<Named>, table: seq<Named>): Health {
    var s := SumOf(es);
    Object(map["schema" := JText(SCHEMA), "status" := AggregateStatus(s), "accepted_records" := JNumber(s.accepted),
               "persisted_records" := JNumber(s.persisted), "lost_records" := JNumber(s.accepted - s.persisted),
               "error_type" := FirstError(es)],
           Table(table))
  }

  predicate AggregateMatches(fields: map<string, Json>, es: seq<Named>) {
    var s := SumOf(es);
    var p := JObject(fields);
    && Field(p, "status") == AggregateStatus(s)
    && Field(p, "accepted_records") == JNumber(s.accepted)
    && Field(p, "persisted_records") == JNumber(s.persisted)
    && Field(p, "lost_records") == JNumber(s.accepted - s.persisted)
  }

  predicate Readable(file: Option<Health>) {
    match file
    case None => true
    case Some(NotAnObject) => false
    case Some(Object(fields, ledgers)) =>
      && Field(JObject(fields), "schema") == JText(SCHEMA) && ValidEntry(JObject(fields))
      && match ledgers
         case Absent => true
         case Other => false
         case Table(es) => (forall e :: e in es ==> ValidEntry(e.entry)) && AggregateMatches(fields, es)
  }

  /** The entries of a readable file; a file from before there were entries counts as one. */
  function Entries(file: Option<Health>): seq<Named>
    requires Readable(file)
  {
    match file
    case None => []
    case Some(Object(fields, Absent)) => [Named("legacy", JObject(fields))]
    case Some(Object(fields, Table(es))) => es
  }

  // ---------------------------------------------------------------- writing

  predicate Listed(es: seq<Named>, id: string) {
    exists e :: e in es && e.id == id
  }

  function EntryOf(es: seq<Named>, id: string): Json {
    if es == [] then JNull else if es[0].id == id then es[0].entry else EntryOf(es[1..], id)
  }

  function Put(es: seq<Named>, id: string, entry: Json): seq<Named> {
    if es == [] then [Named(id, entry)]
    else if es[0].id == id then [Named(id, entry)] + es[1..]
    else [es[0]] + Put(es[1..], id, entry)
  }

  function Max(a: nat, b: nat): nat {
    if a < b then b else a
  }

  /** A ledger's new entry: counts never fall and a degraded entry stays degraded. */
  function Merged(previous: Json, degraded: bool, accepted: nat, persisted: nat, error: Json): Json {
    var a, p := Max(accepted, CountOf(previous, "accepted_records")), Max(persisted, CountOf(previous, "persisted_records"));
    JObject(map["status" := StatusText(IsDegraded(previous) || degraded), "accepted_records" := JNumber(a),
                "persisted_records" := JNumber(p), "lost_records" := JNumber(a - p),
                "error_type" := if Truthy(error) then error else Field(previous, "error_type")])
  }

  /** One ledger's report: what `_write_health` is called with. */
  datatype Write = Write(id: string, degraded: bool, accepted: nat, persisted: nat, error: Json)
  {
    /** The ledger never reports more persisted than accepted, nor loss as healthy. */
    predicate Honest() {
      persisted <= accepted && (!degraded ==> persisted == accepted)
    }
  }

  function ById(): Named -> string {
    (e: Named) => e.id
  }

  /** The file is written with its keys sorted. */
  function Written(file: Option<Health>, w: Write): Health
    requires Readable(file)
  {
    var es := Put(Entries(file), w.id, Merged(EntryOf(Entries(file), w.id), w.degraded, w.accepted, w.persisted, w.error));
    Aggregate(es, SortByRank(es, ById()))
  }

  class SharedFile {
    var content: Option<Health>

    constructor (content: Option<Health>)
      ensures this.content == content
    {
      this.content := content;
    }

    /** A write under the file's lock; an unreadable file raises and is left alone. */
    method WriteHealth(w: Write) returns (ok: bool)
      modifies this
      ensures ok == Readable(old(content))
      ensures content == if ok then Some(Written(old(content), w)) else old(content)
    {
      if !Readable(content) {
        return false;
      }
      var entries := Entries(content);
      var previous := EntryOf(entries, w.id);
      var entry := Merged(previous, w.degraded, w.accepted, w.persisted, w.error);
      entries := Put(entries, w.id, entry);
      content := Some(Aggregate(entries, SortByRank(entries, ById())));
      return true;
    }
  }

  // ---------------------------------------------------------------- the evidence validator

  datatype Verdict = NoFile | Invalid | ReportsLoss | Fine

  method CheckEntry(e: Json) returns (ok: bool)
    ensures ok <==> ValidEntry(e)
  {
    if !e.JObject? || !HasStatus(e) {
      return false;
    }
    if !HasCount(e, "accepted_records") || !HasCount(e, "persisted_records") || !HasCount(e, "lost_records") {
      return false;
    }
    var accepted, persisted, lost := CountOf(e, "accepted_records"), CountOf(e, "persisted_records"), CountOf(e, "lost_records");
    if persisted > accepted || lost != accepted - persisted {
      return false;
    }
    return IsDegraded(e) || lost == 0;
  }

  /** What the evidence validator accepts. */
  predicate Checked(h: Health) {
    && h.Object? && Field(JObject(h.fields), "schema") == JText(SCHEMA) && ValidEntry(JObject(h.fields))
    && match h.ledgers
       case Absent => true
       case Other => false
       case Table(es) =>
         && es != [] && (forall e :: e in es ==> ValidEntry(e.entry))
         && CountOf(JObject(h.fields), "accepted_records") == SumOf(es).accepted
         && CountOf(JObject(h.fields), "persisted_records") == SumOf(es).persisted
         && CountOf(JObject(h.fields), "lost_records") == LostSum(es)
         && (IsDegraded(JObject(h.fields)) <==> SumOf(es).degraded || CountOf(JObject(h.fields), "lost_records") > 0)
  }

  function LostSum(es: seq<Named>): nat {
    if es == [] then 0 else LostSum(es[1..]) + CountOf(es[0].entry, "lost_records")
  }

  lemma {:induction false} SumSnoc(es: seq<Named>, e: Named)
    ensures SumOf(es + [e]) == Sums(SumOf(es).accepted + CountOf(e.entry, "accepted_records"),
                                    SumOf(es).persisted + CountOf(e.entry, "persisted_records"),
                                    SumOf(es).degraded || IsDegraded(e.entry))
    ensures LostSum(es + [e]) == LostSum(es) + CountOf(e.entry, "lost_records")
    decreases |es|
  {
    if es == [] {
      assert es + [e] == [e] && [e][1..] == [];
    } else {
      assert (es + [e])[1..] == es[1..] + [e];
      SumSnoc(es[1..], e);
    }
  }

  /** The loop over the entries: every one valid, and their counts added up. */
  method AddUp(es: seq<Named>) returns (ok: bool, accepted: nat, persisted: nat, lost: nat, degraded: bool)
    ensures ok <==> forall e :: e in es ==> ValidEntry(e.entry)
    ensures ok ==> Sums(accepted, persisted, degraded) == SumOf(es) && lost == LostSum(es)
  {
    ok, accepted, persisted, lost, degraded := true, 0, 0, 0, false;
    for i := 0 to |es|
      invariant forall e :: e in es[..i] ==> ValidEntry(e.entry)
      invariant Sums(accepted, persisted, degraded) == SumOf(es[..i]) && lost == LostSum(es[..i])
    {
      var entry := es[i].entry;
      assert es[i] in es && es[..i + 1] == es[..i] + [es[i]];
      var valid := CheckEntry(entry);
      if !valid {
        return false, 0, 0, 0, false;
      }
      SumSnoc(es[..i], es[i]);
      accepted := accepted + CountOf(entry, "accepted_records");
      persisted := persisted + CountOf(entry, "persisted_records");
      lost := lost + CountOf(entry, "lost_records");
      degraded := degraded || IsDegraded(entry);
    }
    assert es[..|es|] == es;
  }

  method CheckHealth(file: Option<Health>) returns (v: Verdict)
    ensures v == match file
                 case None => NoFile
                 case Some(h) =>
                   if !Checked(h) then Invalid
                   else if IsDegraded(JObject(h.fields)) then ReportsLoss else Fine
  {
    if file.None? {
      return NoFile;
    }
    var h := file.value;
    if h.NotAnObject? || Field(JObject(h.fields), "schema") != JText(SCHEMA) {
      return Invalid;
    }
    var payload := JObject(h.fields);
    var valid := CheckEntry(payload);
    if !valid || h.ledgers.Other? {
      return Invalid;
    }
    if h.ledgers.Table? {
      if h.ledgers.entries == [] {
        return Invalid;
      }
      var ok, accepted, persisted, lost, degraded := AddUp(h.ledgers.entries);
      if !ok || accepted != CountOf(payload, "accepted_records") || persisted != CountOf(payload, "persisted_records")
         || lost != CountOf(payload, "lost_records")
         || IsDegraded(payload) != (degraded || CountOf(payload, "lost_records") > 0)
      {
        return Invalid;
      }
    }
    return if IsDegraded(payload) then ReportsLoss else Fine;
  }
}
