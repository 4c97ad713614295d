/** JSON values, reading their fields, and ordering things by a digest of them. */
module CanonicalJson {
  import opened Sequences

  // ---------------------------------------------------------------- JSON and digests

  datatype Json = JNull | JFlag(b: bool) | JNumber(n: int) | JText(s: string) | JList(items: seq<Json>) | JObject(fields: map<string, Json>)

  /** The canonical digest, of which only its being a function of the JSON value is used. */
  type Digest = Json -> string

  predicate Before(a: string, b: string) {
    b != [] && (a == [] || a[0] < b[0] || (a[0] == b[0] && Before(a[1..], b[1..])))
  }

  function InsertByRank<T>(x: T, sorted: seq<T>, rank: T -> string): seq<T> {
    if sorted == [] || Before(rank(x), rank(sorted[0])) then [x] + sorted
    else [sorted[0]] + InsertByRank(x, sorted[1..], rank)
  }

  /** A stable sort by rising rank. */
  function SortByRank<T>(s: seq<T>, rank: T -> string): seq<T> {
    if s == [] then [] else InsertByRank(Last(s), SortByRank(Init(s), rank), rank)
  }

  // ---------------------------------------------------------------- fields

  predicate Has(j: Json, name: string) {
    j.JObject? && name in j.fields
  }

  /** A field, or null where the reader raises. */
  function Field(j: Json, name: string): Json {
    if Has(j, name) then j.fields[name] else JNull
  }

  predicate HasText(j: Json, name: string) {
    Has(j, name) && j.fields[name].JText?
  }

  predicate HasList(j: Json, name: string) {
    Has(j, name) && j.fields[name].JList?
  }

  function Text(j: Json, name: string): string {
    if HasText(j, name) then j.fields[name].s else ""
  }

  function Items(j: Json, name: string): seq<Json> {
    if HasList(j, name) then j.fields[name].items else []
  }

  // ---------------------------------------------------------------- what may enter a plan

  const FORBIDDEN_KEYS: set<string> := {
    "access_key", "access_token", "api_key", "authorization", "credential", "credentials", "created_at", "generated_at",
    "output_dir", "output_directory", "output_root", "password", "secret", "secret_key", "timestamp", "token"
  }

  /** Lower case as far as it can yield a letter of a forbidden key; a dash counts as an underscore. */
  function NormalChar(c: char): char {
    if 'A' <= c <= 'Z' then (c as int - 'A' as int + 'a' as int) as char
    else if c == '\U{212A}' then 'k'
    else if c == '-' then '_'
    else c
  }

  function NormalKey(key: string): string {
    seq(|key|, i requires 0 <= i < |key| => NormalChar(key[i]))
  }

  predicate Letter(c: char) {
    'a' <= c <= 'z' || 'A' <= c <= 'Z'
  }

  predicate AbsolutePath(s: string) {
    || (s != [] && s[0] == '/')
    || (|s| >= 3 && Letter(s[0]) && s[1] == ':' && (s[2] == '\\' || s[2] == '/'))
  }

  /** No object has a forbidden key, and no text is an absolute path. */
  predicate PlanValue(j: Json) {
    match j
    case JObject(fields) => forall k :: k in fields ==> NormalKey(k) !in FORBIDDEN_KEYS && PlanValue(fields[k])
    case JList(items) => forall i :: 0 <= i < |items| ==> PlanValue(items[i])
    case JText(s) => !AbsolutePath(s)
    case _ => true
  }

  /** `x` is the value itself or lies at that depth inside it. */
  ghost predicate Inside(x: Json, j: Json, depth: nat) {
    if depth == 0 then x == j
    else
      || (j.JObject? && exists k :: k in j.fields && Inside(x, j.fields[k], depth - 1))
      || (j.JList? && exists i :: 0 <= i < |j.items| && Inside(x, j.items[i], depth - 1))
  }

  /** A text that is no absolute path, or an object without a forbidden key. */
  predicate Plain(x: Json) {
    && (x.JText? ==> !AbsolutePath(x.s))
    && (x.JObject? ==> forall k :: k in x.fields ==> NormalKey(k) !in FORBIDDEN_KEYS)
  }

  lemma {:induction false} PlainInside(x: Json, j: Json, depth: nat)
    requires PlanValue(j) && Inside(x, j, depth)
    ensures Plain(x)
    decreases depth
  {
    if depth > 0 {
      match j
      case JObject(fields) =>
        var k :| k in fields && Inside(x, fields[k], depth - 1);
        PlainInside(x, fields[k], depth - 1);
      case JList(items) =>
        var i :| 0 <= i < |items| && Inside(x, items[i], depth - 1);
        PlainInside(x, items[i], depth - 1);
    }
  }

  ghost predicate PlainThroughout(j: Json) {
    forall x, depth: nat :: Inside(x, j, depth) ==> Plain(x)
  }

  lemma ThroughoutField(j: Json, k: string)
    requires PlainThroughout(j) && j.JObject? && k in j.fields
    ensures PlainThroughout(j.fields[k])
  {
    forall x, depth: nat | Inside(x, j.fields[k], depth)
      ensures Plain(x)
    {
      assert Inside(x, j, depth + 1);
    }
  }

  lemma ThroughoutItem(j: Json, i: nat)
    requires PlainThroughout(j) && j.JList? && i < |j.items|
    ensures PlainThroughout(j.items[i])
  {
    forall x, depth: nat | Inside(x, j.items[i], depth)
      ensures Plain(x)
    {
      assert Inside(x, j, depth + 1);
    }
  }

  /** A value may enter a plan exactly if nothing at any depth inside it is an absolute path or has
      a forbidden key. */
  lemma {:induction false} PlanValueExactly(j: Json)
    ensures PlanValue(j) <==> PlainThroughout(j)
  {
    if PlanValue(j) {
      forall x, depth: nat | Inside(x, j, depth)
        ensures Plain(x)
      {
        PlainInside(x, j, depth);
      }
    }
    if PlainThroughout(j) {
      assert Inside(j, j, 0);
      match j
      case JObject(fields) =>
        forall k | k in fields
          ensures NormalKey(k) !in FORBIDDEN_KEYS && PlanValue(fields[k])
        {
          ThroughoutField(j, k);
          PlanValueExactly(fields[k]);
        }
      case JList(items) =>
        forall i | 0 <= i < |items|
          ensures PlanValue(items[i])
        {
          ThroughoutItem(j, i);
          PlanValueExactly(items[i]);
        }
      case _ =>
    }
  }

  /** No forbidden key starts like this. */
  predicate HarmlessStart(a: char, b: char, c: char) {
    && !(a == 'a' && ((b == 'c' && c == 'c') || (b == 'p' && c == 'i') || (b == 'u' && c == 't')))
    && !(a == 'c' && b == 'r' && c == 'e') && !(a == 'g' && b == 'e' && c == 'n') && !(a == 'o' && b == 'u' && c == 't')
    && !(a == 'p' && b == 'a' && c == 's') && !(a == 's' && b == 'e' && c == 'c')
    && !(a == 't' && ((b == 'i' && c == 'm') || (b == 'o' && c == 'k')))
  }

  lemma ForbiddenStarts(key: string)
    requires key in FORBIDDEN_KEYS
    ensures |key| >= 3 && !HarmlessStart(key[0], key[1], key[2])
  {
  }

  /** A key with a harmless start is allowed. */
  lemma HarmlessKey(key: string)
    requires |key| >= 3 && HarmlessStart(NormalChar(key[0]), NormalChar(key[1]), NormalChar(key[2]))
    ensures NormalKey(key) !in FORBIDDEN_KEYS
  {
    var normal := NormalKey(key);
    if normal in FORBIDDEN_KEYS {
      ForbiddenStarts(normal);
      assert false;
    }
  }

  // ---------------------------------------------------------------- order

  lemma {:induction false} BeforeIsLinear(a: string, b: string, c: string)
    ensures !Before(a, a)
    ensures Before(a, b) ==> !Before(b, a)
    ensures !Before(b, a) && !Before(c, b) ==> !Before(c, a)
  {
    if a != [] && b != [] && c != [] {
      BeforeIsLinear(a[1..], b[1..], c[1..]);
    } else if a != [] && b != [] {
      BeforeIsLinear(a[1..], b[1..], []);
    }
    if a != [] {
      BeforeIsLinear(a[1..], [], []);
    }
  }

  ghost predicate Ordered<T>(s: seq<T>, rank: T -> string) {
    forall i, j :: 0 <= i < j < |s| ==> !Before(rank(s[j]), rank(s[i]))
  }

  lemma {:induction false} InsertKeepsMembers<T>(x: T, s: seq<T>, rank: T -> string)
    ensures multiset(InsertByRank(x, s, rank)) == multiset(s) + multiset{x}
    ensures forall y :: y in InsertByRank(x, s, rank) <==> y in s || y == x
  {
    if s != [] && !Before(rank(x), rank(s[0])) {
      InsertKeepsMembers(x, s[1..], rank);
      assert s == [s[0]] + s[1..];
    }
  }

  lemma InsertMember<T>(x: T, s: seq<T>, rank: T -> string, y: T)
    requires y in InsertByRank(x, s, rank)
    ensures y in s || y == x
  {
    InsertKeepsMembers(x, s, rank);
    assert y in multiset(InsertByRank(x, s, rank));
  }

  lemma ConsOrdered<T>(x: T, s: seq<T>, rank: T -> string)
    requires Ordered(s, rank) && forall y :: y in s ==> !Before(rank(y), rank(x))
    ensures Ordered([x] + s, rank)
  {
  }

  lemma {:induction false} InsertKeepsOrder<T>(x: T, s: seq<T>, rank: T -> string)
    requires Ordered(s, rank)
    ensures Ordered(InsertByRank(x, s, rank), rank)
  {
    if s == [] || Before(rank(x), rank(s[0])) {
      forall y | y in s
        ensures !Before(rank(y), rank(x))
      {
        BeforeIsLinear(rank(x), rank(s[0]), rank(y));
        var i :| 0 <= i < |s| && s[i] == y;
        BeforeIsLinear(rank(y), rank(y), rank(y));
      }
      ConsOrdered(x, s, rank);
    } else {
      assert forall i, j :: 0 <= i < j < |s[1..]| ==> s[1..][i] == s[i + 1] && s[1..][j] == s[j + 1];
      InsertKeepsOrder(x, s[1..], rank);
      InsertKeepsMembers(x, s[1..], rank);
      forall y | y in InsertByRank(x, s[1..], rank)
        ensures !Before(rank(y), rank(s[0]))
      {
        InsertMember(x, s[1..], rank, y);
        if y != x {
          var rest := s[1..];
          var i :| 0 <= i < |rest| && rest[i] == y;
          assert s[i + 1] == y;
        }
      }
      ConsOrdered(s[0], InsertByRank(x, s[1..], rank), rank);
    }
  }

  /** Sorting orders by rank and permutes. */
  lemma {:induction false} SortOrders<T>(s: seq<T>, rank: T -> string)
    ensures Ordered(SortByRank(s, rank), rank) && multiset(SortByRank(s, rank)) == multiset(s)
  {
    if s != [] {
      SortOrders(Init(s), rank);
      InsertKeepsOrder(Last(s), SortByRank(Init(s), rank), rank);
      InsertKeepsMembers(Last(s), SortByRank(Init(s), rank), rank);
      assert s == Init(s) + [Last(s)];
    }
  }
}
