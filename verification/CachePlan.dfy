/** The prompt-cache planner: it marks the tools, the system message and the last other messages
    for caching, within a budget of markers. */
module CachePlan {
  import opened Outcome
  import opened Sequences
  import opened CanonicalJson

  type Dict = map<string, Json>

  const CACHE_CONTROL := JObject(map["type" := JText("ephemeral")])

  const KEY := "cache_control"

  function Content(m: Dict): Json {
    if "content" in m then m["content"] else JNull
  }

  predicate IsSystem(m: Dict) {
    "role" in m && m["role"] == JText("system")
  }

  // ---------------------------------------------------------------- markers

  predicate Marked(block: Json) {
    block.JObject? && KEY in block.fields
  }

  function BlockValues(blocks: seq<Json>): seq<Json> {
    if blocks == [] then []
    else if Marked(Last(blocks)) then BlockValues(Init(blocks)) + [Last(blocks).fields[KEY]]
    else BlockValues(Init(blocks))
  }

  function MessageValues(m: Dict): seq<Json> {
    if Content(m).JList? then BlockValues(Content(m).items) else []
  }

  function MessagesValues(messages: seq<Dict>): seq<Json> {
    if messages == [] then [] else MessagesValues(Init(messages)) + MessageValues(Last(messages))
  }

  function ToolValues(tools: seq<Dict>): seq<Json> {
    if tools == [] then []
    else if KEY in Last(tools) then ToolValues(Init(tools)) + [Last(tools)[KEY]]
    else ToolValues(Init(tools))
  }

  /** Every marker of a request, messages first. */
  function CacheValues(messages: seq<Dict>, tools: Option<seq<Dict>>): seq<Json> {
    MessagesValues(messages) + if tools.Some? then ToolValues(tools.value) else []
  }

  predicate ValidCacheControl(messages: seq<Dict>, tools: Option<seq<Dict>>, maximum: int) {
    var values := CacheValues(messages, tools);
    values != [] && |values| <= maximum && forall v :: v in values ==> v == CACHE_CONTROL
  }

  // ---------------------------------------------------------------- marking

  function TextBlock(text: string): Dict {
    map["type" := JText("text"), "text" := JText(text)]
  }

  function WithMarker(block: Dict): Dict {
    block[KEY := CACHE_CONTROL]
  }

  /** Marks the last block of a message; a string becomes one text block. */
  function MarkTail(m: Dict): Dict {
    match Content(m)
    case JText(text) => m["content" := JList([JObject(WithMarker(TextBlock(text)))])]
    case JList(items) =>
      if items != [] && Last(items).JObject?
      then m["content" := JList(Init(items) + [JObject(WithMarker(Last(items).fields))])]
      else m
    case _ => m
  }

  /** The messages with those at the given places marked. */
  function MarkAt(messages: seq<Dict>, places: set<nat>): (r: seq<Dict>)
    ensures |r| == |messages|
  {
    seq(|messages|, i requires 0 <= i < |messages| => if i in places then MarkTail(messages[i]) else messages[i])
  }

  function MarkLast(tools: seq<Dict>): seq<Dict> {
    if tools == [] then [] else Init(tools) + [WithMarker(Last(tools))]
  }

  function NonSystem(messages: seq<Dict>): seq<nat> {
    if messages == [] then []
    else if IsSystem(Last(messages)) then NonSystem(Init(messages))
    else NonSystem(Init(messages)) + [|messages| - 1]
  }

  /** Where the slice `[-budget:]` of a list of length `n` starts. */
  function SliceStart(budget: int, n: nat): (start: nat)
    ensures start <= n
  {
    if 0 <= budget then (if budget <= n then n - budget else 0)
    else if -budget <= n then -budget else n
  }

  function LastSystem(messages: seq<Dict>): Option<nat> {
    if messages == [] then None
    else if IsSystem(Last(messages)) then Some(|messages| - 1)
    else LastSystem(Init(messages))
  }

  predicate HasTools(tools: Option<seq<Dict>>) {
    tools.Some? && tools.value != []
  }

  /** The budget that is left for the system message, and for the other messages. */
  function AfterTools(tools: Option<seq<Dict>>, maximum: int): int {
    if HasTools(tools) && maximum != 0 then maximum - 1 else maximum
  }

  function AfterSystem(messages: seq<Dict>, budget: int): int {
    if LastSystem(messages).Some? && budget != 0 then budget - 1 else budget
  }

  function Tail(messages: seq<Dict>, budget: int): seq<nat> {
    if budget == 0 then [] else NonSystem(messages)[SliceStart(budget, |NonSystem(messages)|)..]
  }

  function AsSet(s: seq<nat>): set<nat> {
    set i | i in s
  }

  function PlacesWithin(messages: seq<Dict>, budget: int): set<nat> {
    (if LastSystem(messages).Some? && budget != 0 then {LastSystem(messages).value} else {})
    + AsSet(Tail(messages, AfterSystem(messages, budget)))
  }

  /** Which messages the plan marks. */
  function Places(messages: seq<Dict>, tools: Option<seq<Dict>>, maximum: int): set<nat> {
    PlacesWithin(messages, AfterTools(tools, maximum))
  }

  function PlannedTools(tools: Option<seq<Dict>>, maximum: int): Option<seq<Dict>> {
    if HasTools(tools) && maximum != 0 then Some(MarkLast(tools.value)) else tools
  }

  /** The planned request; one that is marked already is left alone. */
  function Planned(messages: seq<Dict>, tools: Option<seq<Dict>>, maximum: int): (seq<Dict>, Option<seq<Dict>>) {
    if CacheValues(messages, tools) != [] then (messages, tools)
    else (MarkAt(messages, Places(messages, tools, maximum)), PlannedTools(tools, maximum))
  }

  method MarkOthers(ghost messages: seq<Dict>, ghost places: set<nat>, current: seq<Dict>,
                    budget: int) returns (marked: seq<Dict>)
    requires current == MarkAt(messages, places) && (forall i :: i in places && i < |messages| ==> IsSystem(messages[i])) && budget != 0
    ensures marked == MarkAt(messages, places + AsSet(Tail(messages, budget)))
  {
    MarkingKeepsRoles(messages, places);
    NonSystemAreOthers(messages);
    marked := current;
    var others := NonSystem(current);
    var tail := others[SliceStart(budget, |others|)..];
    for k := 0 to |tail|
      invariant marked == MarkAt(messages, places + AsSet(tail[..k]))
    {
      ghost var before := tail[..k];
      assert tail[..k + 1] == before + [tail[k]] && tail[k] in others && tail[k] !in before;
      marked := marked[tail[k] := MarkTail(marked[tail[k]])];
    }
    assert tail[..|tail|] == tail;
  }

  /** Spends the budget of markers on the tools, the system message and the last other messages. */
  method ApplyCachePlan(messages: seq<Dict>, tools: Option<seq<Dict>>, maximum: int)
    returns (newMessages: seq<Dict>, newTools: Option<seq<Dict>>)
    ensures (newMessages, newTools) == Planned(messages, tools, maximum)
  {
    newMessages, newTools := messages, tools;
    if CacheValues(messages, tools) != [] {
      return;
    }
    var budget := maximum;
    if HasTools(tools) && budget != 0 {
      newTools := Some(Init(tools.value) + [WithMarker(Last(tools.value))]);
      budget := budget - 1;
    }
    newMessages := MarkMessages(messages, budget);
    assert budget == AfterTools(tools, maximum);
  }

  method MarkMessages(messages: seq<Dict>, maximum: int) returns (marked: seq<Dict>)
    ensures marked == MarkAt(messages, PlacesWithin(messages, maximum))
  {
    marked := messages;
    var budget := maximum;
    ghost var places: set<nat> := {};
    var system := LastSystem(messages);
    LastSystemIsSystem(messages);
    if system.Some? && budget != 0 {
      marked := marked[system.value := MarkTail(marked[system.value])];
      places := {system.value};
      budget := budget - 1;
    }
    assert marked == MarkAt(messages, places);
    if budget != 0 {
      marked := MarkOthers(messages, places, marked, budget);
    } else {
      assert places + AsSet([]) == places;
    }
  }

  lemma {:induction false} LastSystemIsSystem(messages: seq<Dict>)
    ensures LastSystem(messages).Some? ==> LastSystem(messages).value < |messages| && IsSystem(messages[LastSystem(messages).value])
  {
    if messages != [] {
      LastSystemIsSystem(Init(messages));
    }
  }

  lemma MarkTailKeepsRole(m: Dict)
    ensures IsSystem(MarkTail(m)) == IsSystem(m)
  {
    assert "role"[0] != "content"[0];
  }

  lemma {:induction false} SameRolesSameOthers(messages: seq<Dict>, later: seq<Dict>)
    requires |messages| == |later| && forall i :: 0 <= i < |messages| ==> IsSystem(messages[i]) == IsSystem(later[i])
    ensures NonSystem(later) == NonSystem(messages)
    decreases |messages|
  {
    if messages != [] {
      SameRolesSameOthers(Init(messages), Init(later));
    }
  }

  lemma MarkingKeepsRoles(messages: seq<Dict>, places: set<nat>)
    ensures NonSystem(MarkAt(messages, places)) == NonSystem(messages)
  {
    forall i | 0 <= i < |messages|
      ensures IsSystem(messages[i]) == IsSystem(MarkAt(messages, places)[i])
    {
      MarkTailKeepsRole(messages[i]);
    }
    SameRolesSameOthers(messages, MarkAt(messages, places));
  }

  /** The other messages are listed once each, in order. */
  lemma {:induction false} NonSystemAreOthers(messages: seq<Dict>)
    ensures forall i :: i in NonSystem(messages) ==> i < |messages| && !IsSystem(messages[i])
    ensures forall j, k :: 0 <= j < k < |NonSystem(messages)| ==> NonSystem(messages)[j] < NonSystem(messages)[k]
  {
    if messages != [] {
      NonSystemAreOthers(Init(messages));
      var earlier := NonSystem(Init(messages));
      assert forall j :: 0 <= j < |earlier| ==> earlier[j] in earlier;
    }
  }

  // ---------------------------------------------------------------- stripping

  function Unmarked(block: Dict): Dict {
    map k <- block.Keys - {KEY} :: block[k]
  }

  function StripBlock(block: Json): Json {
    if block.JObject? then JObject(Unmarked(block.fields)) else block
  }

  function StripBlocks(blocks: seq<Json>): (r: seq<Json>)
    ensures |r| == |blocks|
  {
    seq(|blocks|, i requires 0 <= i < |blocks| => StripBlock(blocks[i]))
  }

  function StripMessage(m: Dict): Dict {
    if Content(m).JList? && exists b :: b in Content(m).items && Marked(b)
    then m["content" := JList(StripBlocks(Content(m).items))]
    else m
  }

  function StripMessages(messages: seq<Dict>): (r: seq<Dict>)
    ensures |r| == |messages|
  {
    seq(|messages|, i requires 0 <= i < |messages| => StripMessage(messages[i]))
  }

  function StripTools(tools: Option<seq<Dict>>): Option<seq<Dict>> {
    if tools.None? then None
    else Some(seq(|tools.value|, i requires 0 <= i < |tools.value| => Unmarked(tools.value[i])))
  }

  method StripCacheControl(messages: seq<Dict>, tools: Option<seq<Dict>>) returns (newMessages: seq<Dict>,
                           newTools: Option<seq<Dict>>)
    ensures newMessages == StripMessages(messages) && newTools == StripTools(tools)
  {
    newMessages := [];
    for i := 0 to |messages|
      invariant newMessages == StripMessages(messages[..i])
    {
      var m := messages[i];
      if !Content(m).JList? || !exists b :: b in Content(m).items && Marked(b) {
        newMessages := newMessages + [m];
      } else {
        newMessages := newMessages + [m["content" := JList(StripBlocks(Content(m).items))]];
      }
    }
    assert messages[..|messages|] == messages;
    newTools := StripTools(tools);
  }

  // ---------------------------------------------------------------- within budget

  /** Something in the message can carry a marker. */
  predicate Markable(m: Dict) {
    var content := Content(m);
    content.JText? || (content.JList? && content.items != [] && Last(content.items).JObject?)
  }

  /** Marking an unmarked message adds exactly one marker, or leaves it alone if it has nothing to
      mark. */
  lemma MarkedTailValues(m: Dict)
    requires MessageValues(m) == []
    ensures if Markable(m) then MessageValues(MarkTail(m)) == [CACHE_CONTROL] else MarkTail(m) == m
  {
    match Content(m)
    case JText(text) =>
      var block := JObject(WithMarker(TextBlock(text)));
      assert Content(MarkTail(m)) == JList([block]);
      assert Init([block]) == [] && Last([block]) == block && Marked(block);
      assert BlockValues([block]) == [] + [CACHE_CONTROL];
    case JList(items) =>
      if items != [] && Last(items).JObject? {
        var block := JObject(WithMarker(Last(items).fields));
        assert items == Init(items) + [Last(items)];
        Snoc(Init(items), block);
      }
    case _ =>
  }

  lemma {:induction false} UnmarkedMessages(messages: seq<Dict>)
    requires MessagesValues(messages) == []
    ensures forall i :: 0 <= i < |messages| ==> MessageValues(messages[i]) == []
    decreases |messages|
  {
    if messages != [] {
      UnmarkedInit(messages);
      UnmarkedMessages(Init(messages));
      assert forall i :: 0 <= i < |messages| - 1 ==> Init(messages)[i] == messages[i];
    }
  }

  /** The places at which a message can be marked. */
  function MarkableAt(messages: seq<Dict>, places: set<nat>): set<nat> {
    set i | i in places && i < |messages| && Markable(messages[i])
  }

  /** Marking places one marker at each markable one. */
  lemma {:induction false} MarkedValues(messages: seq<Dict>, places: set<nat>)
    requires MessagesValues(messages) == []
    ensures |MessagesValues(MarkAt(messages, places))| == |MarkableAt(messages, places)|
    ensures forall v :: v in MessagesValues(MarkAt(messages, places)) ==> v == CACHE_CONTROL
    decreases |messages|
  {
    if messages == [] {
      assert MarkableAt(messages, places) == {};
    } else {
      UnmarkedInit(messages);
      MarkedValues(Init(messages), places);
      var more := OneMoreMarked(messages, places);
      MarkableGrows(messages, places);
      OneMoreValue(MessagesValues(MarkAt(Init(messages), places)), more);
    }
  }

  lemma OneMoreValue(values: seq<Json>, more: seq<Json>)
    requires (forall v :: v in values ==> v == CACHE_CONTROL) && (more == [] || more == [CACHE_CONTROL])
    ensures forall v :: v in values + more ==> v == CACHE_CONTROL
  {
  }

  lemma MarkableGrows(messages: seq<Dict>, places: set<nat>)
    requires messages != []
    ensures |MarkableAt(messages, places)| == |MarkableAt(Init(messages), places)|
      + if |messages| - 1 in places && Markable(Last(messages)) then 1 else 0
  {
    var n := |messages| - 1;
    if n in places && Markable(Last(messages)) {
      assert MarkableAt(messages, places) == MarkableAt(Init(messages), places) + {n};
    } else {
      assert MarkableAt(messages, places) == MarkableAt(Init(messages), places);
    }
  }

  lemma UnmarkedInit(messages: seq<Dict>)
    requires messages != [] && MessagesValues(messages) == []
    ensures MessagesValues(Init(messages)) == [] && MessageValues(Last(messages)) == []
  {
    assert |MessagesValues(Init(messages))| + |MessageValues(Last(messages))| == 0;
  }

  lemma OneMoreMarked(messages: seq<Dict>, places: set<nat>) returns (more: seq<Json>)
    requires messages != [] && MessageValues(Last(messages)) == []
    ensures MessagesValues(MarkAt(messages, places)) == MessagesValues(MarkAt(Init(messages), places)) + more
    ensures more == if |messages| - 1 in places && Markable(Last(messages)) then [CACHE_CONTROL] else []
  {
    assert Init(MarkAt(messages, places)) == MarkAt(Init(messages), places);
    MarkedTailValues(Last(messages));
    more := MessageValues(Last(MarkAt(messages, places)));
  }

  lemma {:induction false} AsSetSize(s: seq<nat>)
    ensures |AsSet(s)| <= |s|
  {
    if s == [] {
      assert AsSet(s) == {};
    } else {
      AsSetSize(Init(s));
      assert s == Init(s) + [Last(s)];
      assert AsSet(s) == AsSet(Init(s)) + {Last(s)};
    }
  }

  /** The plan marks no more messages than the budget that the tools leave. */
  lemma PlacesWithinBudget(messages: seq<Dict>, tools: Option<seq<Dict>>, maximum: int)
    requires 0 <= maximum
    ensures |Places(messages, tools, maximum)| <= AfterTools(tools, maximum)
  {
    AsSetSize(Tail(messages, AfterSystem(messages, AfterTools(tools, maximum))));
  }

  lemma {:induction false} ToolValuesOfMarked(tools: seq<Dict>)
    requires ToolValues(tools) == [] && tools != []
    ensures ToolValues(MarkLast(tools)) == [CACHE_CONTROL]
  {
    Snoc(Init(tools), WithMarker(Last(tools)));
  }

  /** The number of markers the plan places on an unmarked request: one for the tools and one for
      each markable message among its places. */
  lemma PlanMarkerCount(messages: seq<Dict>, tools: Option<seq<Dict>>, maximum: int)
    requires CacheValues(messages, tools) == []
    ensures var (m, t) := Planned(messages, tools, maximum);
      && |CacheValues(m, t)|
         == (if HasTools(tools) && maximum != 0 then 1 else 0) + |MarkableAt(messages, Places(messages, tools, maximum))|
      && forall v :: v in CacheValues(m, t) ==> v == CACHE_CONTROL
  {
    MarkedValues(messages, Places(messages, tools, maximum));
    if HasTools(tools) && maximum != 0 {
      ToolValuesOfMarked(tools.value);
    }
  }

  lemma UnchangedIfNoneMarked(messages: seq<Dict>, places: set<nat>)
    requires MessagesValues(messages) == [] && MessagesValues(MarkAt(messages, places)) == []
    ensures MarkAt(messages, places) == messages
  {
    UnmarkedMessages(messages);
    UnmarkedMessages(MarkAt(messages, places));
    forall i | 0 <= i < |messages|
      ensures MarkAt(messages, places)[i] == messages[i]
    {
      MarkedTailValues(messages[i]);
    }
  }

  /** Planning a request again changes nothing. */
  lemma PlanIsIdempotent(messages: seq<Dict>, tools: Option<seq<Dict>>, maximum: int)
    ensures var (m, t) := Planned(messages, tools, maximum);
      Planned(m, t, maximum) == (m, t)
  {
    var (m, t) := Planned(messages, tools, maximum);
    if CacheValues(messages, tools) == [] && CacheValues(m, t) == [] {
      UnchangedIfNoneMarked(messages, Places(messages, tools, maximum));
      if HasTools(tools) && maximum != 0 {
        ToolValuesOfMarked(tools.value);
      }
    }
  }

  /** On an unmarked request the plan keeps to a budget that is not negative, and if it places any
      marker, the request is valid. */
  lemma PlanIsWithinBudget(messages: seq<Dict>, tools: Option<seq<Dict>>, maximum: int)
    requires CacheValues(messages, tools) == []
    ensures var (m, t) := Planned(messages, tools, maximum);
      && (|CacheValues(m, t)| <= maximum <==> 0 <= maximum)
      && (0 <= maximum && CacheValues(m, t) != [] ==> ValidCacheControl(m, t, maximum))
  {
    if 0 <= maximum {
      var places := Places(messages, tools, maximum);
      PlanMarkerCount(messages, tools, maximum);
      PlacesWithinBudget(messages, tools, maximum);
      SubsetSize(MarkableAt(messages, places), places);
    }
  }

  /** The plan places more markers than its budget, a negative one counting as none, exactly when
      the budget is negative and there are tools or a markable message among its places. */
  lemma PlanExceedsExactly(messages: seq<Dict>, tools: Option<seq<Dict>>, maximum: int)
    requires CacheValues(messages, tools) == []
    ensures var (m, t) := Planned(messages, tools, maximum);
      |CacheValues(m, t)| > (if maximum < 0 then 0 else maximum)
      <==> maximum < 0 && (HasTools(tools) || exists i :: i in MarkableAt(messages, Places(messages, tools, maximum)))
  {
    if maximum < 0 {
      PlanMarkerCount(messages, tools, maximum);
      var at := MarkableAt(messages, Places(messages, tools, maximum));
      if |at| > 0 {
        var i :| i in at;
      }
    } else {
      PlanIsWithinBudget(messages, tools, maximum);
    }
  }

  lemma {:induction false} OthersBefore(messages: seq<Dict>, i: nat)
    requires i < |messages| && !IsSystem(messages[i])
    ensures |NonSystem(messages[..i])| < |NonSystem(messages)| && NonSystem(messages)[|NonSystem(messages[..i])|] == i
    decreases |messages|
  {
    if i < |messages| - 1 {
      OthersBefore(Init(messages), i);
      assert Init(messages)[..i] == messages[..i];
    } else {
      assert messages[..i] == Init(messages);
    }
  }

  /** Which messages a negative budget marks: the last system message, and every other message
      but the first ones, of which it skips as many as the remaining budget is below zero. */
  lemma NegativeBudgetPlaces(messages: seq<Dict>, tools: Option<seq<Dict>>, maximum: int, i: nat)
    requires maximum < 0 && i < |messages|
    ensures i in Places(messages, tools, maximum) <==>
      if IsSystem(messages[i]) then LastSystem(messages) == Some(i)
      else |NonSystem(messages[..i])| >= -AfterSystem(messages, AfterTools(tools, maximum))
  {
    var others, budget := NonSystem(messages), AfterSystem(messages, AfterTools(tools, maximum));
    NonSystemAreOthers(messages);
    LastSystemIsSystem(messages);
    var start := SliceStart(budget, |others|);
    LaterAreInSlice(others, start);
    assert forall j :: j in others[start..] ==> j in others;
    if !IsSystem(messages[i]) {
      OthersBefore(messages, i);
      InSliceFrom(others, start, |NonSystem(messages[..i])|);
    }
  }

  /** In an increasing list, an element is in a suffix exactly when its position is. */
  lemma InSliceFrom(s: seq<nat>, start: nat, k: nat)
    requires (forall i, j :: 0 <= i < j < |s| ==> s[i] < s[j]) && start <= |s| && k < |s|
    ensures s[k] in s[start..] <==> start <= k
  {
    if s[k] in s[start..] {
      var m :| 0 <= m < |s[start..]| && s[start..][m] == s[k];
      assert s[start + m] == s[k];
    }
    LaterAreInSlice(s, start);
  }

  const USER_TEXT: Dict := map["role" := JText("user"), "content" := JText("text")]

  lemma {:induction false} UserTexts(messages: seq<Dict>)
    requires forall m :: m in messages ==> m == USER_TEXT
    ensures MessagesValues(messages) == [] && LastSystem(messages).None?
    ensures |NonSystem(messages)| == |messages|
  {
    if messages != [] {
      assert Last(messages) in messages && forall m :: m in Init(messages) ==> m in messages;
      UserTexts(Init(messages));
      assert "role"[0] != "content"[0] && "user"[0] != "system"[0];
    }
  }

  lemma {:induction false} UpTo(low: nat, high: nat) returns (s: set<nat>)
    requires low <= high
    ensures |s| == high - low && forall i :: i in s <==> low <= i < high
  {
    if low == high {
      s := {};
    } else {
      s := UpTo(low, high - 1);
      s := s + {high - 1};
    }
  }

  /** A negative budget bounds nothing: whatever it is, some unmarked request gets any number of
      markers. */
  lemma NegativeBudgetIsUnbounded(maximum: int, n: nat) returns (messages: seq<Dict>)
    requires maximum < 0
    ensures CacheValues(messages, None) == []
    ensures var (m, t) := Planned(messages, None, maximum);
      |CacheValues(m, t)| == n
  {
    messages := seq(n - maximum, _ => USER_TEXT);
    UserTexts(messages);
    PlanMarkerCount(messages, None, maximum);
    var at := MarkableAt(messages, Places(messages, None, maximum));
    var expected := UpTo(-maximum, n - maximum);
    forall i: nat
      ensures i in at <==> i in expected
    {
      if i < |messages| {
        assert messages[..i] == seq(i, _ => USER_TEXT);
        UserTexts(messages[..i]);
        assert "role"[0] != "content"[0] && "user"[0] != "system"[0];
        NegativeBudgetPlaces(messages, None, maximum, i);
      }
    }
    assert at == expected;
  }

  // ---------------------------------------------------------------- where the markers are

  /** The same block, with the marker. */
  predicate GainsMarker(before: Json, after: Json) {
    && before.JObject? && after.JObject?
    && KEY in after.fields && after.fields[KEY] == CACHE_CONTROL
    && after.fields.Keys == before.fields.Keys + {KEY}
    && forall k :: k in before.fields && k != KEY ==> after.fields[k] == before.fields[k]
  }

  /** The last block of the content gained the marker, and nothing else in the message changed; a
      string counts as one text block. */
  ghost predicate TailMarked(before: Dict, after: Dict) {
    && (forall k :: k != "content" ==> (k in after <==> k in before) && (k in before ==> after[k] == before[k]))
    && "content" in after && after["content"].JList?
    && var blocks := if Content(before).JText? then [JObject(TextBlock(Content(before).s))] else Items(JObject(before), "content");
       var marked := after["content"].items;
       && blocks != [] && |marked| == |blocks| && Init(marked) == Init(blocks)
       && GainsMarker(Last(blocks), Last(marked))
  }

  lemma MarkedTail(m: Dict)
    requires Markable(m)
    ensures TailMarked(m, MarkTail(m))
  {
    match Content(m)
    case JText(text) =>
      assert MarkTail(m)["content"].items == [JObject(WithMarker(TextBlock(text)))];
    case JList(items) =>
      var block := JObject(WithMarker(Last(items).fields));
      assert items == Init(items) + [Last(items)];
      Snoc(Init(items), block);
  }

  /** Where an unmarked request is marked: the last block of each markable message among its
      places, and the last tool; every other message, block and tool stays what it was. */
  lemma PlanMarksTails(messages: seq<Dict>, tools: Option<seq<Dict>>, maximum: int)
    requires CacheValues(messages, tools) == []
    ensures var (m, t) := Planned(messages, tools, maximum);
      && |m| == |messages|
      && (forall i :: 0 <= i < |messages| ==>
            if i in Places(messages, tools, maximum) && Markable(messages[i]) then TailMarked(messages[i], m[i]) else m[i] == messages[i])
      && (if HasTools(tools) && maximum != 0
          then && t.Some? && |t.value| == |tools.value| && Init(t.value) == Init(tools.value)
               && GainsMarker(JObject(Last(tools.value)), JObject(Last(t.value)))
          else t == tools)
  {
    UnmarkedMessages(messages);
    var (m, t) := Planned(messages, tools, maximum);
    forall i | 0 <= i < |messages|
      ensures if i in Places(messages, tools, maximum) && Markable(messages[i]) then TailMarked(messages[i], m[i]) else m[i] == messages[i]
    {
      if Markable(messages[i]) {
        MarkedTail(messages[i]);
      } else {
        MarkedTailValues(messages[i]);
      }
    }
    if HasTools(tools) && maximum != 0 {
      Snoc(Init(tools.value), WithMarker(Last(tools.value)));
    }
  }

  // ---------------------------------------------------------------- stripping restores

  /** The same message, except that a string may have become one text block. */
  predicate SameUpToText(before: Dict, after: Dict) {
    after == before || (Content(before).JText? && after == before["content" := JList([JObject(TextBlock(Content(before).s))])])
  }

  lemma UnmarkMarked(block: Dict)
    requires KEY !in block
    ensures Unmarked(WithMarker(block)) == block
  {
  }

  lemma {:induction false} NoBlockMarked(blocks: seq<Json>)
    ensures BlockValues(blocks) == [] <==> forall b :: b in blocks ==> !Marked(b)
  {
    if blocks != [] {
      NoBlockMarked(Init(blocks));
      assert blocks == Init(blocks) + [Last(blocks)];
    }
  }

  lemma StripUnmarkedBlock(b: Json)
    requires !Marked(b)
    ensures StripBlock(b) == b
  {
    if b.JObject? {
      assert Unmarked(b.fields) == b.fields;
    }
  }

  lemma StripMarkedText(m: Dict, text: string)
    requires Content(m) == JText(text)
    ensures StripMessage(MarkTail(m)) == m["content" := JList([JObject(TextBlock(text))])]
  {
    var block := JObject(WithMarker(TextBlock(text)));
    assert KEY[0] != "type"[0] && |KEY| != |"text"|;
    UnmarkMarked(TextBlock(text));
    var marked := MarkTail(m);
    assert Content(marked) == JList([block]) && block in Content(marked).items && Marked(block);
    assert StripBlocks([block]) == [JObject(TextBlock(text))];
  }

  lemma StripMarkedList(m: Dict, items: seq<Json>)
    requires Content(m) == JList(items) && items != [] && Last(items).JObject? && BlockValues(items) == []
    ensures StripMessage(MarkTail(m)) == m
  {
    NoBlockMarked(items);
    assert Last(items) in items;
    UnmarkMarked(Last(items).fields);
    var block := JObject(WithMarker(Last(items).fields));
    var marked := Init(items) + [block];
    assert Content(MarkTail(m)) == JList(marked) && block in marked && Marked(block);
    forall i | 0 <= i < |items|
      ensures StripBlocks(marked)[i] == items[i]
    {
      if i < |items| - 1 {
        assert items[i] in items;
        StripUnmarkedBlock(items[i]);
      }
    }
    assert StripBlocks(marked) == items;
    assert m["content" := JList(items)] == m;
  }

  /** Stripping what the plan marked gives the message back, up to a string becoming a block. */
  lemma StripMarkedMessage(m: Dict)
    requires MessageValues(m) == []
    ensures SameUpToText(m, StripMessage(MarkTail(m))) && StripMessage(m) == m
  {
    match Content(m)
    case JText(text) => StripMarkedText(m, text);
    case JList(items) =>
      NoBlockMarked(items);
      if items != [] && Last(items).JObject? {
        StripMarkedList(m, items);
      }
    case _ =>
  }

  lemma {:induction false} UnmarkedTools(tools: seq<Dict>)
    requires ToolValues(tools) == []
    ensures forall i :: 0 <= i < |tools| ==> KEY !in tools[i] && Unmarked(tools[i]) == tools[i]
  {
    if tools != [] {
      UnmarkedTools(Init(tools));
      assert forall k :: k in Last(tools) ==> k != KEY;
    }
  }

  lemma StripMarkedTools(tools: seq<Dict>, maximum: int)
    requires ToolValues(tools) == []
    ensures StripTools(PlannedTools(Some(tools), maximum)) == Some(tools)
  {
    UnmarkedTools(tools);
    if tools != [] {
      UnmarkMarked(Last(tools));
    }
    assert StripTools(PlannedTools(Some(tools), maximum)).value == tools;
  }

  /** Stripping a planned request restores its tools, and its messages up to strings that became
      one text block. */
  lemma StripRestores(messages: seq<Dict>, tools: Option<seq<Dict>>, maximum: int)
    requires CacheValues(messages, tools) == []
    ensures var (m, t) := Planned(messages, tools, maximum);
      && |StripMessages(m)| == |messages| && (forall i :: 0 <= i < |messages| ==> SameUpToText(messages[i], StripMessages(m)[i]))
      && StripTools(t) == tools
  {
    UnmarkedMessages(messages);
    forall i | 0 <= i < |messages|
      ensures SameUpToText(messages[i], StripMessages(MarkAt(messages, Places(messages, tools, maximum)))[i])
    {
      StripMarkedMessage(messages[i]);
    }
    if tools.Some? {
      StripMarkedTools(tools.value, maximum);
    }
  }

  // ---------------------------------------------------------------- which messages are marked

  lemma {:induction false} LastSystemIsLast(messages: seq<Dict>, i: nat)
    requires i < |messages| && IsSystem(messages[i])
    ensures LastSystem(messages).Some? && i <= LastSystem(messages).value
  {
    if i < |messages| - 1 {
      LastSystemIsLast(Init(messages), i);
    }
  }

  lemma {:induction false} OthersAreListed(messages: seq<Dict>, i: nat)
    requires i < |messages| && !IsSystem(messages[i])
    ensures i in NonSystem(messages)
  {
    if i < |messages| - 1 {
      OthersAreListed(Init(messages), i);
    }
  }

  /** With a budget for messages, the plan marks the last system message and as many of the last
      other messages as the budget then allows: an unmarked one precedes every marked one. */
  lemma PlanMarksTheLast(messages: seq<Dict>, tools: Option<seq<Dict>>, maximum: int, i: nat)
    requires 0 < AfterTools(tools, maximum) && i < |messages|
    ensures IsSystem(messages[i]) ==>
      (i in Places(messages, tools, maximum) <==> forall j :: i < j < |messages| ==> !IsSystem(messages[j]))
    ensures !IsSystem(messages[i]) && i !in Places(messages, tools, maximum) ==>
      && (forall j :: j in Places(messages, tools, maximum) && j < |messages| && !IsSystem(messages[j]) ==> i < j)
      && |Tail(messages, AfterSystem(messages, AfterTools(tools, maximum)))| == AfterSystem(messages, AfterTools(tools, maximum))
  {
    var budget := AfterTools(tools, maximum);
    var rest := AfterSystem(messages, budget);
    var others := NonSystem(messages);
    LastSystemIsSystem(messages);
    NonSystemAreOthers(messages);
    if IsSystem(messages[i]) {
      LastSystemIsLast(messages, i);
      forall j | i < j < |messages| && IsSystem(messages[j])
        ensures j <= LastSystem(messages).value
      {
        LastSystemIsLast(messages, j);
      }
    } else {
      OthersAreListed(messages, i);
      assert i in Tail(messages, rest) ==> i in AsSet(Tail(messages, rest));
      if i !in Places(messages, tools, maximum) {
        TailSplits(messages, rest, i);
      }
    }
  }

  lemma LaterAreInSlice(s: seq<nat>, start: nat)
    requires start <= |s|
    ensures forall m :: start <= m < |s| ==> s[m] in s[start..]
  {
    forall m | start <= m < |s|
      ensures s[m] in s[start..]
    {
      assert s[start..][m - start] == s[m];
    }
  }

  lemma TailSplits(messages: seq<Dict>, budget: int, i: nat)
    requires 0 <= budget && i in NonSystem(messages) && i !in Tail(messages, budget)
    ensures |Tail(messages, budget)| == budget && forall j :: j in Tail(messages, budget) ==> i < j
  {
    var others, start := NonSystem(messages), SliceStart(budget, |NonSystem(messages)|);
    NonSystemAreOthers(messages);
    var k :| 0 <= k < |others| && others[k] == i;
    if budget > 0 {
      assert Tail(messages, budget) == others[start..];
      LaterAreInSlice(others, start);
      forall j | j in others[start..]
        ensures i < j
      {
        var m :| 0 <= m < |others[start..]| && others[start..][m] == j;
        assert others[start + m] == j;
      }
    }
  }
}
