/** Token accounting over Codex session logs (`codex/usage.rs`).

    A session file is a sequence of lines; each line arrives already parsed, `None`
    standing for a line that could not be read or is not JSON. RFC 3339 parsing and
    calendar formatting are the `Chrono` oracle. Costs are floating point and are not
    modelled. */
module CodexUsage {
  import opened Wrappers
  import opened Json
  import opened Text
  import opened Lists

  const I64_LIMIT: nat := 0x8000_0000_0000_0000

  /** Calendar services the code takes from chrono. */
  datatype Chrono = Chrono(
    /** `DateTime::parse_from_rfc3339(s).timestamp()`: seconds since the epoch. */
    rfc3339: string -> Option<int>,
    /** `NaiveDate::parse_from_str(s, "%Y-%m-%d")`, as a day number. */
    parseDate: string -> Option<int>,
    /** `NaiveDateTime::from_timestamp_opt(t, 0).date()`, as a day number. */
    dayOf: int -> Option<int>,
    /** The same date formatted `%Y-%m-%d`. */
    dayLabel: int -> Option<string>,
    /** The same instant formatted `%Y-%m-%dT%H:%M:%S`. */
    timeLabel: int -> Option<string>)

  /** `i64 as u64`: the two's complement bit pattern read as unsigned. */
  function ToU64(t: int): (r: nat)
    ensures r < U64_LIMIT
    ensures 0 <= t < U64_LIMIT ==> r == t
  {
    t % U64_LIMIT
  }

  /** `u64 as i64`. */
  function ToI64(x: nat): (r: int)
    ensures -(I64_LIMIT as int) <= r < I64_LIMIT
  {
    var b := x % U64_LIMIT;
    if b < I64_LIMIT then b else b - U64_LIMIT
  }

  /** A timestamp stored as `u64` reads back as the same `i64`. */
  lemma TimestampRoundTrip(t: int)
    requires -(I64_LIMIT as int) <= t < I64_LIMIT
    ensures ToI64(ToU64(t)) == t
  {
  }

  datatype Tokens = Tokens(input: nat, output: nat, cached: nat)

  const Zero := Tokens(0, 0, 0)

  function Add(a: Tokens, b: Tokens): (r: Tokens)
    ensures r.input - a.input == b.input && r.output - a.output == b.output
    ensures r.cached - a.cached == b.cached
  {
    Tokens(a.input + b.input, a.output + b.output, a.cached + b.cached)
  }

  predicate Le(a: Tokens, b: Tokens) {
    a.input <= b.input && a.output <= b.output && a.cached <= b.cached
  }

  /** One parsed session (`CodexSessionUsage` without its cost). */
  datatype Session = Session(
    sessionId: string,
    projectPath: string,
    model: string,
    tokens: Tokens,
    createdAt: nat,
    updatedAt: nat,
    firstMessage: Option<string>)

  // ---------------------------------------------------------------------------
  // Reading one event
  // ---------------------------------------------------------------------------

  /** `event["type"].as_str().unwrap_or("")`. */
  function EventType(e: Json): string {
    AsStr(Index(e, "type")).GetOr("")
  }

  /** `m.get(key).and_then(as_u64)`, an absent or non-integer value counting 0. */
  function Field(m: map<string, Json>, key: string): (r: nat)
    ensures key in m && m[key].JInt? && 0 <= m[key].i < U64_LIMIT ==> r == m[key].i
    ensures !(key in m && m[key].JInt? && 0 <= m[key].i < U64_LIMIT) ==> r == 0
    ensures r > 0 ==> key in m && m[key] == JInt(r)
  {
    if key in m then AsU64(m[key]).GetOr(0) else 0
  }

  /** `cached_input_tokens`, or `cached_tokens` only when the former key is absent. */
  function Cached(m: map<string, Json>): nat {
    if "cached_input_tokens" in m then Field(m, "cached_input_tokens")
    else Field(m, "cached_tokens")
  }

  function ObjField(m: map<string, Json>, key: string): (r: Option<map<string, Json>>)
    ensures r.Some? <==> key in m && m[key].JObj?
  {
    if key in m && m[key].JObj? then Some(m[key].fields) else None
  }

  /** The model an event names, if it is of a kind that names one. */
  function ModelField(line: Option<Json>): Option<string> {
    match line
    case None => None
    case Some(e) =>
      var t := EventType(e);
      if t == "session_meta" || t == "model_selected" || t == "turn_context"
      then AsStr(Index(Index(e, "payload"), "model"))
      else None
  }

  /** A turn's `usage` object added as is. */
  function TurnCompleted(e: Json): Tokens {
    var u := Index(e, "usage");
    if u.JObj? then
      Tokens(Field(u.fields, "input_tokens"), Field(u.fields, "output_tokens"),
             Field(u.fields, "cached_input_tokens"))
    else Zero
  }

  /** A legacy `token_count` event's `payload.info` added as is. */
  function TokenCount(e: Json): Tokens {
    var p := Index(e, "payload");
    if p.JObj? && ObjField(p.fields, "info").Some? then
      var info := ObjField(p.fields, "info").value;
      Tokens(Field(info, "input_tokens"), Field(info, "output_tokens"), Cached(info))
    else Zero
  }

  function Usage(m: map<string, Json>): Tokens {
    Tokens(Field(m, "input_tokens"), Field(m, "output_tokens"), Cached(m))
  }

  /** What a cumulative counter contributes given the previous report of it: the
      growth, or the whole value when there was no report or the counter went back. */
  function Delta(prev: Option<nat>, cur: nat): nat {
    match prev
    case Some(p) => if cur >= p then cur - p else cur
    case None => cur
  }

  function DeltaTokens(prev: Option<Tokens>, cur: Tokens): Tokens {
    match prev
    case None => cur
    case Some(p) =>
      Tokens(Delta(Some(p.input), cur.input), Delta(Some(p.output), cur.output),
             Delta(Some(p.cached), cur.cached))
  }

  /** Tokens an event adds, and the last cumulative report after it. The three
      `last_total_*` options of the source are always set together, so they are one
      `Option<Tokens>` here. */
  datatype UsageUpdate = UsageUpdate(added: Tokens, lastTotal: Option<Tokens>)

  /** The `event_msg` / `token_count` format: `last_token_usage` when it is an object,
      otherwise the growth of `total_token_usage`. */
  function EventMsg(e: Json, lastTotal: Option<Tokens>): UsageUpdate {
    var p := Index(e, "payload");
    if p.JObj? && GetStr(p, "type") == Some("token_count") && ObjField(p.fields, "info").Some? then
      var info := ObjField(p.fields, "info").value;
      match ObjField(info, "last_token_usage")
      case Some(last) => UsageUpdate(Usage(last), lastTotal)
      case None =>
        match ObjField(info, "total_token_usage")
        case Some(total) => UsageUpdate(DeltaTokens(lastTotal, Usage(total)), Some(Usage(total)))
        case None => UsageUpdate(Zero, lastTotal)
    else UsageUpdate(Zero, lastTotal)
  }

  function EventUsage(e: Json, lastTotal: Option<Tokens>): UsageUpdate {
    var t := EventType(e);
    if t == "turn.completed" then UsageUpdate(TurnCompleted(e), lastTotal)
    else if t == "token_count" then UsageUpdate(TokenCount(e), lastTotal)
    else if t == "event_msg" then EventMsg(e, lastTotal)
    else UsageUpdate(Zero, lastTotal)
  }

  /** A user text that may serve as the session's first message. */
  predicate Eligible(text: string) {
    !Contains(text, "<environment_context>") && !Contains(text, "# AGENTS.md") && !IsBlank(text)
  }

  /** The text of an `input_text` content item. */
  function ItemText(item: Json): Option<string> {
    if AsStr(Index(item, "type")) == Some("input_text") then AsStr(Index(item, "text")) else None
  }

  predicate EligibleItem(item: Json) {
    ItemText(item).Some? && Eligible(ItemText(item).value)
  }

  /** The text of the first eligible content item. */
  function FirstEligibleText(items: seq<Json>): (r: Option<string>)
    ensures r.None? <==> forall k :: 0 <= k < |items| ==> !EligibleItem(items[k])
    ensures r.Some? ==> exists k :: 0 <= k < |items| && EligibleItem(items[k]) && ItemText(items[k]) == r &&
                                    forall j :: 0 <= j < k ==> !EligibleItem(items[j])
  {
    if items == [] then None
    else if EligibleItem(items[0]) then ItemText(items[0])
    else
      var r := FirstEligibleText(items[1..]);
      assert forall k :: 1 <= k < |items| ==> items[k] == items[1..][k - 1];
      if r.Some? then
        var k' :| 0 <= k' < |items[1..]| && EligibleItem(items[1..][k']) && ItemText(items[1..][k']) == r &&
                  forall j :: 0 <= j < k' ==> !EligibleItem(items[1..][j]);
        assert EligibleItem(items[k' + 1]) && ItemText(items[k' + 1]) == r;
        r
      else r
  }

  /** The content array of a user `response_item`, if the event is one. */
  function UserContent(e: Json): Option<seq<Json>> {
    var p := Index(e, "payload");
    if EventType(e) == "response_item" && p.JObj? && GetStr(p, "role") == Some("user") &&
       "content" in p.fields && p.fields["content"].JArr?
    then Some(p.fields["content"].items)
    else None
  }

  function FirstMessageAfter(e: Json, firstMessage: Option<string>): Option<string> {
    if firstMessage.Some? then firstMessage
    else match UserContent(e)
      case Some(items) => FirstEligibleText(items)
      case None => None
  }

  function TimestampAfter(e: Json, last: Option<string>): Option<string> {
    if AsStr(Index(e, "timestamp")).Some? then AsStr(Index(e, "timestamp")) else last
  }

  // ---------------------------------------------------------------------------
  // The line loop
  // ---------------------------------------------------------------------------

  /** The loop's variables. */
  datatype Acc = Acc(
    tokens: Tokens,
    model: string,
    firstMessage: Option<string>,
    lastTimestamp: Option<string>,
    lastTotal: Option<Tokens>)

  const Initial := Acc(Zero, "unknown", None, None, None)

  function Step(acc: Acc, line: Option<Json>): Acc {
    match line
    case None => acc
    case Some(e) =>
      var u := EventUsage(e, acc.lastTotal);
      Acc(Add(acc.tokens, u.added), ModelField(line).GetOr(acc.model),
          FirstMessageAfter(e, acc.firstMessage), TimestampAfter(e, acc.lastTimestamp), u.lastTotal)
  }

  function Fold(acc: Acc, lines: seq<Option<Json>>): Acc
    decreases |lines|
  {
    if lines == [] then acc else Step(Fold(acc, lines[..|lines| - 1]), lines[|lines| - 1])
  }

  lemma FoldSnoc(acc: Acc, lines: seq<Option<Json>>, line: Option<Json>)
    ensures Fold(acc, lines + [line]) == Step(Fold(acc, lines), line)
  {
    assert (lines + [line])[..|lines|] == lines;
  }

  /** What the header line yields. */
  datatype Meta = Meta(sessionId: string, createdAt: nat, cwd: string)

  /** The first line must be a `session_meta` record with a string id and an RFC 3339
      timestamp; `cwd` defaults to the empty string. */
  function ReadMeta(first: Option<Json>, chrono: Chrono): Option<Meta> {
    match first
    case None => None
    case Some(m) =>
      var p := Index(m, "payload");
      if AsStr(Index(m, "type")) != Some("session_meta") then None
      else match AsStr(Index(p, "id"))
        case None => None
        case Some(id) =>
          match AsStr(Index(p, "timestamp"))
          case None => None
          case Some(ts) =>
            match chrono.rfc3339(ts)
            case None => None
            case Some(secs) => Some(Meta(id, ToU64(secs), AsStr(Index(p, "cwd")).GetOr("")))
  }

  /** The last timestamp seen if it parses, otherwise the creation time. */
  function UpdatedAt(last: Option<string>, createdAt: nat, chrono: Chrono): nat {
    match last
    case Some(ts) => (match chrono.rfc3339(ts) case Some(t) => ToU64(t) case None => createdAt)
    case None => createdAt
  }

  /** `parse_session_for_usage`: the header, then every further line through Step. */
  function ParseSession(lines: seq<Option<Json>>, chrono: Chrono): Option<Session> {
    if lines == [] then None
    else match ReadMeta(lines[0], chrono)
      case None => None
      case Some(meta) =>
        var acc := Fold(Initial, lines[1..]);
        Some(Session(meta.sessionId, meta.cwd, acc.model, acc.tokens, meta.createdAt,
                     UpdatedAt(acc.lastTimestamp, meta.createdAt, chrono), acc.firstMessage))
  }

  /** The search through a user message's content items, stopping at the first
      eligible text. */
  method FindFirstMessage(items: seq<Json>) returns (r: Option<string>)
    ensures r == FirstEligibleText(items)
  {
    var i := 0;
    while i < |items|
      invariant 0 <= i <= |items|
      invariant FirstEligibleText(items) == FirstEligibleText(items[i..])
    {
      assert items[i..][1..] == items[i + 1..];
      if EligibleItem(items[i]) {
        return ItemText(items[i]);
      }
      i := i + 1;
    }
    return None;
  }

  method ParseSessionForUsage(lines: seq<Option<Json>>, chrono: Chrono) returns (r: Option<Session>)
    ensures r == ParseSession(lines, chrono)
  {
    if lines == [] {
      return None;
    }
    var meta := ReadMeta(lines[0], chrono);
    if meta.None? {
      return None;
    }
    var tokens := Zero;
    var model := "unknown";
    var firstMessage: Option<string> := None;
    var lastTimestamp: Option<string> := None;
    var lastTotal: Option<Tokens> := None;
    var i := 1;
    while i < |lines|
      invariant 1 <= i <= |lines|
      invariant Acc(tokens, model, firstMessage, lastTimestamp, lastTotal) == Fold(Initial, lines[1..i])
    {
      FoldSnoc(Initial, lines[1..i], lines[i]);
      assert lines[1..i + 1] == lines[1..i] + [lines[i]];
      if lines[i].Some? {
        var e := lines[i].value;
        lastTimestamp := TimestampAfter(e, lastTimestamp);
        model := ModelField(lines[i]).GetOr(model);
        var u := EventUsage(e, lastTotal);
        tokens := Add(tokens, u.added);
        lastTotal := u.lastTotal;
        if firstMessage.None? && UserContent(e).Some? {
          firstMessage := FindFirstMessage(UserContent(e).value);
        }
      }
      i := i + 1;
    }
    assert lines[1..i] == lines[1..];
    var updatedAt := UpdatedAt(lastTimestamp, meta.value.createdAt, chrono);
    return Some(Session(meta.value.sessionId, meta.value.cwd, model, tokens, meta.value.createdAt,
                        updatedAt, firstMessage));
  }

  // ---------------------------------------------------------------------------
  // Properties of the parse
  // ---------------------------------------------------------------------------

  /** A session exists exactly when the header is a well-formed `session_meta`; the
      session's id and creation time come from it. */
  lemma ParseNeedsSessionMeta(lines: seq<Option<Json>>, chrono: Chrono)
    ensures ParseSession(lines, chrono).Some? <==>
      (|lines| > 0 && lines[0].Some? &&
       Index(lines[0].value, "type") == JStr("session_meta") &&
       Index(Index(lines[0].value, "payload"), "id").JStr? &&
       Index(Index(lines[0].value, "payload"), "timestamp").JStr? &&
       chrono.rfc3339(Index(Index(lines[0].value, "payload"), "timestamp").s).Some?)
    ensures ParseSession(lines, chrono).Some? ==>
      (ParseSession(lines, chrono).value.sessionId == Index(Index(lines[0].value, "payload"), "id").s &&
       ParseSession(lines, chrono).value.createdAt ==
         ToU64(chrono.rfc3339(Index(Index(lines[0].value, "payload"), "timestamp").s).value))
  {
  }

  /** The session's totals and model are those the loop reached over the lines after
      the header; the header line itself is not fed to the loop. */
  lemma ParseFoldsBody(lines: seq<Option<Json>>, chrono: Chrono)
    requires ParseSession(lines, chrono).Some?
    ensures ParseSession(lines, chrono).value.tokens == Fold(Initial, lines[1..]).tokens
    ensures ParseSession(lines, chrono).value.model == Fold(Initial, lines[1..]).model
    ensures ParseSession(lines, chrono).value.firstMessage == Fold(Initial, lines[1..]).firstMessage
  {
  }

  /** Counters only grow. */
  lemma {:induction false} TokensNeverDecrease(acc: Acc, lines: seq<Option<Json>>)
    ensures Le(acc.tokens, Fold(acc, lines).tokens)
    decreases |lines|
  {
    if lines != [] {
      TokensNeverDecrease(acc, lines[..|lines| - 1]);
    }
  }

  /** `turn.completed` adds whichever of its usage fields are unsigned integers. */
  lemma TurnCompletedAdds(acc: Acc, e: Json)
    requires EventType(e) == "turn.completed" && Index(e, "usage").JObj?
    ensures Step(acc, Some(e)).tokens ==
      Add(acc.tokens, Tokens(Field(Index(e, "usage").fields, "input_tokens"),
                             Field(Index(e, "usage").fields, "output_tokens"),
                             Field(Index(e, "usage").fields, "cached_input_tokens")))
    ensures Step(acc, Some(e)).lastTotal == acc.lastTotal
  {
  }

  /** A legacy `token_count` falls back to `cached_tokens` only when
      `cached_input_tokens` is absent. */
  lemma TokenCountCachedFallback(acc: Acc, e: Json, info: map<string, Json>)
    requires EventType(e) == "token_count" && Index(e, "payload").JObj?
    requires ObjField(Index(e, "payload").fields, "info") == Some(info)
    ensures Step(acc, Some(e)).tokens.cached == acc.tokens.cached +
      (if "cached_input_tokens" in info then Field(info, "cached_input_tokens")
       else Field(info, "cached_tokens"))
    ensures Step(acc, Some(e)).tokens.input == acc.tokens.input + Field(info, "input_tokens")
  {
  }

  /** An `event_msg` token count whose `info` has a `last_token_usage` object adds it,
      missing fields as 0, and leaves the cumulative baseline alone. */
  lemma LastUsagePreferred(acc: Acc, e: Json, info: map<string, Json>, last: map<string, Json>)
    requires EventType(e) == "event_msg" && Index(e, "payload").JObj?
    requires GetStr(Index(e, "payload"), "type") == Some("token_count")
    requires ObjField(Index(e, "payload").fields, "info") == Some(info)
    requires ObjField(info, "last_token_usage") == Some(last)
    ensures Step(acc, Some(e)).tokens == Add(acc.tokens, Usage(last))
    ensures Step(acc, Some(e)).lastTotal == acc.lastTotal
  {
  }

  /** Without `last_token_usage`, `total_token_usage` adds its growth since the last
      report (all of it after none or after a decrease) and becomes the new baseline. */
  lemma TotalUsageDelta(acc: Acc, e: Json, info: map<string, Json>, total: map<string, Json>)
    requires EventType(e) == "event_msg" && Index(e, "payload").JObj?
    requires GetStr(Index(e, "payload"), "type") == Some("token_count")
    requires ObjField(Index(e, "payload").fields, "info") == Some(info)
    requires ObjField(info, "last_token_usage").None?
    requires ObjField(info, "total_token_usage") == Some(total)
    ensures Step(acc, Some(e)).lastTotal == Some(Usage(total))
    ensures acc.lastTotal.None? ==> Step(acc, Some(e)).tokens == Add(acc.tokens, Usage(total))
    ensures acc.lastTotal.Some? && acc.lastTotal.value.input <= Usage(total).input ==>
      Step(acc, Some(e)).tokens.input == acc.tokens.input + Usage(total).input - acc.lastTotal.value.input
    ensures acc.lastTotal.Some? && Usage(total).input < acc.lastTotal.value.input ==>
      Step(acc, Some(e)).tokens.input == acc.tokens.input + Usage(total).input
    ensures acc.lastTotal.Some? && acc.lastTotal.value.output <= Usage(total).output ==>
      Step(acc, Some(e)).tokens.output == acc.tokens.output + Usage(total).output - acc.lastTotal.value.output
    ensures acc.lastTotal.Some? && Usage(total).output < acc.lastTotal.value.output ==>
      Step(acc, Some(e)).tokens.output == acc.tokens.output + Usage(total).output
    ensures acc.lastTotal.Some? && acc.lastTotal.value.cached <= Usage(total).cached ==>
      Step(acc, Some(e)).tokens.cached == acc.tokens.cached + Usage(total).cached - acc.lastTotal.value.cached
    ensures acc.lastTotal.Some? && Usage(total).cached < acc.lastTotal.value.cached ==>
      Step(acc, Some(e)).tokens.cached == acc.tokens.cached + Usage(total).cached
  {
  }

  /** An `event_msg` carrying the cumulative report `t` and nothing else. */
  function TotalReport(t: Tokens): Json {
    JObj(map["type" := JStr("event_msg"),
             "payload" := JObj(map["type" := JStr("token_count"),
                                   "info" := JObj(map["total_token_usage" := UsageJson(t)])])])
  }

  function UsageJson(t: Tokens): Json {
    JObj(map["input_tokens" := JInt(t.input), "output_tokens" := JInt(t.output),
             "cached_input_tokens" := JInt(t.cached)])
  }

  predicate Fits(t: Tokens) {
    t.input < U64_LIMIT && t.output < U64_LIMIT && t.cached < U64_LIMIT
  }

  lemma UsageOfJson(t: Tokens)
    requires Fits(t)
    ensures UsageJson(t).JObj? && Usage(UsageJson(t).fields) == t
  {
    var m := UsageJson(t).fields;
    assert "cached_input_tokens" in m && m["cached_input_tokens"] == JInt(t.cached);
    assert m["input_tokens"] == JInt(t.input);
    assert m["output_tokens"] == JInt(t.output);
  }

  lemma StepTotalReport(acc: Acc, t: Tokens)
    requires Fits(t)
    ensures Step(acc, Some(TotalReport(t))).tokens == Add(acc.tokens, DeltaTokens(acc.lastTotal, t))
    ensures Step(acc, Some(TotalReport(t))).lastTotal == Some(t)
  {
    var e := TotalReport(t);
    var p := Index(e, "payload");
    assert EventType(e) == "event_msg";
    assert p.JObj? && GetStr(p, "type") == Some("token_count");
    var info := ObjField(p.fields, "info").value;
    assert info == map["total_token_usage" := UsageJson(t)];
    assert ObjField(info, "last_token_usage").None?;
    UsageOfJson(t);
    assert EventUsage(e, acc.lastTotal) == UsageUpdate(DeltaTokens(acc.lastTotal, t), Some(t));
  }

  function Reports(ts: seq<Tokens>): (r: seq<Option<Json>>)
    ensures |r| == |ts|
  {
    seq(|ts|, i requires 0 <= i < |ts| => Some(TotalReport(ts[i])))
  }

  function Baseline(lastTotal: Option<Tokens>): Tokens {
    lastTotal.GetOr(Zero)
  }

  /** Cumulative reports that never go back add up to exactly the growth from the
      baseline to the final report: with no earlier report, the final cumulative value. */
  lemma {:induction false} CumulativeReportsAddFinal(acc: Acc, ts: seq<Tokens>)
    requires |ts| > 0 && forall i :: 0 <= i < |ts| ==> Fits(ts[i])
    requires Le(Baseline(acc.lastTotal), ts[0])
    requires forall i :: 0 < i < |ts| ==> Le(ts[i - 1], ts[i])
    ensures Fold(acc, Reports(ts)).lastTotal == Some(Last(ts))
    ensures Le(Baseline(acc.lastTotal), Last(ts))
    ensures Fold(acc, Reports(ts)).tokens.input == acc.tokens.input + Last(ts).input - Baseline(acc.lastTotal).input
    ensures Fold(acc, Reports(ts)).tokens.output == acc.tokens.output + Last(ts).output - Baseline(acc.lastTotal).output
    ensures Fold(acc, Reports(ts)).tokens.cached == acc.tokens.cached + Last(ts).cached - Baseline(acc.lastTotal).cached
    decreases |ts|
  {
    var n := |ts|;
    var t := ts[n - 1];
    assert Reports(ts) == Reports(ts[..n - 1]) + [Some(TotalReport(t))];
    FoldSnoc(acc, Reports(ts[..n - 1]), Some(TotalReport(t)));
    var prev := Fold(acc, Reports(ts[..n - 1]));
    StepTotalReport(prev, t);
    if n > 1 {
      CumulativeReportsAddFinal(acc, ts[..n - 1]);
      assert Last(ts[..n - 1]) == ts[n - 2];
      assert prev.lastTotal == Some(ts[n - 2]);
      assert Le(ts[n - 2], t);
    } else {
      assert Reports(ts[..0]) == [];
      assert prev == acc;
    }
  }

  /** Without `last_token_usage`, `total_token_usage` makes a session's count the
      final cumulative value. */
  lemma CumulativeSessionTotal(ts: seq<Tokens>)
    requires |ts| > 0 && forall i :: 0 <= i < |ts| ==> Fits(ts[i])
    requires forall i :: 0 < i < |ts| ==> Le(ts[i - 1], ts[i])
    ensures Fold(Initial, Reports(ts)).tokens == Last(ts)
  {
    CumulativeReportsAddFinal(Initial, ts);
  }

  /** The model is the last one named by a `session_meta`, `model_selected` or
      `turn_context` event. */
  lemma {:induction false} ModelIsLastNamed(acc: Acc, lines: seq<Option<Json>>, k: nat)
    requires k < |lines| && ModelField(lines[k]).Some?
    requires forall j :: k < j < |lines| ==> ModelField(lines[j]).None?
    ensures Fold(acc, lines).model == ModelField(lines[k]).value
    decreases |lines|
  {
    if k < |lines| - 1 {
      ModelIsLastNamed(acc, lines[..|lines| - 1], k);
    }
  }

  /** With no event naming a model, the model stays what it was ("unknown" at the start). */
  lemma {:induction false} ModelUnchangedWithoutNaming(acc: Acc, lines: seq<Option<Json>>)
    requires forall j :: 0 <= j < |lines| ==> ModelField(lines[j]).None?
    ensures Fold(acc, lines).model == acc.model
    decreases |lines|
  {
    if lines != [] {
      ModelUnchangedWithoutNaming(acc, lines[..|lines| - 1]);
    }
  }

  /** Once found, the first message never changes. */
  lemma {:induction false} FirstMessageSetOnce(acc: Acc, lines: seq<Option<Json>>)
    requires acc.firstMessage.Some?
    ensures Fold(acc, lines).firstMessage == acc.firstMessage
    decreases |lines|
  {
    if lines != [] {
      FirstMessageSetOnce(acc, lines[..|lines| - 1]);
    }
  }

  /** A first message is always an eligible user text. */
  lemma {:induction false} FirstMessageEligible(lines: seq<Option<Json>>)
    ensures Fold(Initial, lines).firstMessage.Some? ==> Eligible(Fold(Initial, lines).firstMessage.value)
    decreases |lines|
  {
    if lines != [] {
      FirstMessageEligible(lines[..|lines| - 1]);
      var prev := Fold(Initial, lines[..|lines| - 1]);
      var line := lines[|lines| - 1];
      if line.Some? && prev.firstMessage.None? {
        match UserContent(line.value)
        case Some(items) =>
          var r := FirstEligibleText(items);
          if r.Some? {
            var k :| 0 <= k < |items| && EligibleItem(items[k]) && ItemText(items[k]) == r &&
                     forall j :: 0 <= j < k ==> !EligibleItem(items[j]);
          }
        case None =>
      }
    }
  }

  // ---------------------------------------------------------------------------
  // Aggregation (`get_codex_usage_stats`)
  // ---------------------------------------------------------------------------

  datatype ModelUsage = ModelUsage(
    model: string, totalTokens: nat, inputTokens: nat, outputTokens: nat,
    cacheCreationTokens: nat, cacheReadTokens: nat, sessionCount: nat)

  datatype DailyUsage = DailyUsage(date: string, totalTokens: nat, modelsUsed: seq<string>)

  datatype ProjectUsage = ProjectUsage(
    projectPath: string, projectName: string, totalTokens: nat, sessionCount: nat, lastUsed: string)

  datatype UsageStats = UsageStats(
    totalTokens: nat, totalInputTokens: nat, totalOutputTokens: nat, totalCachedInputTokens: nat,
    totalSessions: nat, byModel: seq<ModelUsage>, byDate: seq<DailyUsage>,
    byProject: seq<ProjectUsage>, sessions: seq<Session>)

  /** The session's creation day, if chrono can represent its timestamp. */
  function CreatedDay(s: Session, chrono: Chrono): Option<int> {
    chrono.dayOf(ToI64(s.createdAt))
  }

  predicate InRange(s: Session, start: int, end: int, chrono: Chrono) {
    CreatedDay(s, chrono).Some? && start <= CreatedDay(s, chrono).value <= end
  }

  function FilterByDate(ss: seq<Session>, start: int, end: int, chrono: Chrono): (r: seq<Session>)
    ensures |r| <= |ss|
    decreases |ss|
  {
    if ss == [] then []
    else
      var s := ss[|ss| - 1];
      FilterByDate(ss[..|ss| - 1], start, end, chrono) + (if InRange(s, start, end, chrono) then [s] else [])
  }

  /** The sessions the statistics cover: all of them unless both bounds are given. */
  function SelectSessions(all: seq<Session>, startDate: Option<string>, endDate: Option<string>,
                          chrono: Chrono): Result<seq<Session>> {
    if startDate.Some? && endDate.Some? then
      match chrono.parseDate(startDate.value)
      case None => Err("Invalid start date")
      case Some(start) =>
        match chrono.parseDate(endDate.value)
        case None => Err("Invalid end date")
        case Some(end) => Ok(FilterByDate(all, start, end, chrono))
    else Ok(all)
  }

  /** The filter keeps exactly the sessions created on a day within both bounds. */
  lemma {:induction false} FilterInclusive(ss: seq<Session>, start: int, end: int, chrono: Chrono, s: Session)
    ensures s in FilterByDate(ss, start, end, chrono) <==> s in ss && InRange(s, start, end, chrono)
    decreases |ss|
  {
    if ss != [] {
      FilterInclusive(ss[..|ss| - 1], start, end, chrono, s);
      assert ss == ss[..|ss| - 1] + [ss[|ss| - 1]];
    }
  }

  lemma SelectSessionsErrors(all: seq<Session>, startDate: Option<string>, endDate: Option<string>, chrono: Chrono)
    ensures SelectSessions(all, startDate, endDate, chrono).Err? <==>
      startDate.Some? && endDate.Some? &&
      (chrono.parseDate(startDate.value).None? || chrono.parseDate(endDate.value).None?)
    ensures startDate.None? || endDate.None? ==> SelectSessions(all, startDate, endDate, chrono) == Ok(all)
  {
  }

  function SumIn(g: seq<Session>): nat
    decreases |g|
  {
    if g == [] then 0 else SumIn(g[..|g| - 1]) + g[|g| - 1].tokens.input
  }

  function SumOut(g: seq<Session>): nat
    decreases |g|
  {
    if g == [] then 0 else SumOut(g[..|g| - 1]) + g[|g| - 1].tokens.output
  }

  function SumCached(g: seq<Session>): nat
    decreases |g|
  {
    if g == [] then 0 else SumCached(g[..|g| - 1]) + g[|g| - 1].tokens.cached
  }

  lemma SumsSnoc(g: seq<Session>, s: Session)
    ensures SumIn(g + [s]) == SumIn(g) + s.tokens.input
    ensures SumOut(g + [s]) == SumOut(g) + s.tokens.output
    ensures SumCached(g + [s]) == SumCached(g) + s.tokens.cached
  {
    assert (g + [s])[..|g|] == g;
  }

  function Models(ss: seq<Session>): (r: seq<string>)
    ensures |r| == |ss|
  {
    seq(|ss|, i requires 0 <= i < |ss| => ss[i].model)
  }

  function DayKey(s: Session, chrono: Chrono): string {
    chrono.dayLabel(ToI64(s.createdAt)).GetOr("unknown")
  }

  function DayKeys(ss: seq<Session>, chrono: Chrono): (r: seq<string>)
    ensures |r| == |ss|
  {
    seq(|ss|, i requires 0 <= i < |ss| => DayKey(ss[i], chrono))
  }

  function Paths(ss: seq<Session>): (r: seq<string>)
    ensures |r| == |ss|
  {
    seq(|ss|, i requires 0 <= i < |ss| => ss[i].projectPath)
  }

  lemma KeysSnoc(ss: seq<Session>, s: Session, chrono: Chrono)
    ensures Models(ss + [s]) == Models(ss) + [s.model]
    ensures DayKeys(ss + [s], chrono) == DayKeys(ss, chrono) + [DayKey(s, chrono)]
    ensures Paths(ss + [s]) == Paths(ss) + [s.projectPath]
  {
  }

  /** Per-model statistics. */

  function WithModel(ss: seq<Session>, m: string): seq<Session>
    decreases |ss|
  {
    if ss == [] then []
    else var s := ss[|ss| - 1]; WithModel(ss[..|ss| - 1], m) + (if s.model == m then [s] else [])
  }

  /** The entry for model `m`: sums over its sessions, `total_tokens` their input plus
      output, cache creation never counted. */
  function ModelEntry(ss: seq<Session>, m: string): ModelUsage {
    var g := WithModel(ss, m);
    ModelUsage(m, SumIn(g) + SumOut(g), SumIn(g), SumOut(g), 0, SumCached(g), |g|)
  }

  lemma {:induction false} WithModelAbsent(ss: seq<Session>, m: string)
    requires m !in Models(ss)
    ensures WithModel(ss, m) == []
    decreases |ss|
  {
    if ss != [] {
      assert Models(ss[..|ss| - 1]) == Models(ss)[..|ss| - 1];
      WithModelAbsent(ss[..|ss| - 1], m);
      assert ss[|ss| - 1].model == Models(ss)[|ss| - 1];
    }
  }

  ghost predicate ModelStatsFor(ss: seq<Session>, keys: seq<string>, stats: map<string, ModelUsage>) {
    && keys == Dedup(Models(ss))
    && (forall k :: k in stats <==> k in keys)
    && (forall k :: k in stats ==> stats[k] == ModelEntry(ss, k))
  }

  /** `model_stats.entry(model).or_insert(..)` followed by the in-place updates. */
  method AddToModelStats(ghost ss: seq<Session>, s: Session, keys: seq<string>, stats: map<string, ModelUsage>)
    returns (keys': seq<string>, stats': map<string, ModelUsage>)
    requires ModelStatsFor(ss, keys, stats)
    ensures ModelStatsFor(ss + [s], keys', stats')
  {
    ModelStored(ss, s.model, keys, stats);
    var entry := ModelUsage(s.model, 0, 0, 0, 0, 0, 0);
    if s.model in stats {
      entry := stats[s.model];
      keys' := keys;
    } else {
      keys' := keys + [s.model];
    }
    var input := entry.inputTokens + s.tokens.input;
    var output := entry.outputTokens + s.tokens.output;
    entry := entry.(inputTokens := input, outputTokens := output,
                    cacheReadTokens := entry.cacheReadTokens + s.tokens.cached,
                    totalTokens := input + output, sessionCount := entry.sessionCount + 1);
    ModelEntrySnoc(ss, s, s.model);
    assert entry == ModelEntry(ss + [s], s.model);
    stats' := stats[s.model := entry];
    ModelStatsStep(ss, s, keys, stats);
  }

  /** What the table holds for model `m`: its entry, or an all-zero entry when the
      model has no session yet. */
  lemma ModelStored(ss: seq<Session>, m: string, keys: seq<string>, stats: map<string, ModelUsage>)
    requires ModelStatsFor(ss, keys, stats)
    ensures m in stats <==> m in keys
    ensures ModelEntry(ss, m) == if m in stats then stats[m] else ModelUsage(m, 0, 0, 0, 0, 0, 0)
  {
    if m !in stats {
      DedupMember(Models(ss), m);
      WithModelAbsent(ss, m);
    }
  }

  /** The per-model table after one more session: its model's entry recomputed and
      the model appended to the keys if new. */
  lemma ModelStatsStep(ss: seq<Session>, s: Session, keys: seq<string>, stats: map<string, ModelUsage>)
    requires ModelStatsFor(ss, keys, stats)
    ensures ModelStatsFor(ss + [s], AddNew(keys, s.model), stats[s.model := ModelEntry(ss + [s], s.model)])
  {
    ModelKeysSnoc(ss, s);
    var stats' := stats[s.model := ModelEntry(ss + [s], s.model)];
    forall k | k in stats' && k != s.model
      ensures stats'[k] == ModelEntry(ss + [s], k)
    {
      ModelEntrySnoc(ss, s, k);
    }
  }

  function SessionCountSum(entries: seq<ModelUsage>): nat
    decreases |entries|
  {
    if entries == [] then 0
    else SessionCountSum(entries[..|entries| - 1]) + entries[|entries| - 1].sessionCount
  }

  function ModelEntries(ss: seq<Session>, keys: seq<string>): (r: seq<ModelUsage>)
    ensures |r| == |keys|
    ensures forall j :: 0 <= j < |keys| ==> r[j] == ModelEntry(ss, keys[j])
  {
    seq(|keys|, j requires 0 <= j < |keys| => ModelEntry(ss, keys[j]))
  }

  /** One more session adds one to exactly the entry of its model, if that is listed. */
  lemma {:induction false} SessionCountStep(ss: seq<Session>, s: Session, keys: seq<string>)
    requires NoDup(keys)
    ensures SessionCountSum(ModelEntries(ss + [s], keys)) ==
            SessionCountSum(ModelEntries(ss, keys)) + (if s.model in keys then 1 else 0)
    decreases |keys|
  {
    assert (ss + [s])[..|ss|] == ss;
    if keys != [] {
      var init := keys[..|keys| - 1];
      var k := keys[|keys| - 1];
      assert ModelEntries(ss + [s], keys)[..|init|] == ModelEntries(ss + [s], init);
      assert ModelEntries(ss, keys)[..|init|] == ModelEntries(ss, init);
      assert NoDup(init);
      SessionCountStep(ss, s, init);
      assert s.model in keys <==> s.model in init || s.model == k;
      assert s.model == k ==> s.model !in init;
    }
  }

  lemma SessionCountAppend(ss: seq<Session>, keys: seq<string>, k: string)
    ensures SessionCountSum(ModelEntries(ss, keys + [k])) ==
            SessionCountSum(ModelEntries(ss, keys)) + |WithModel(ss, k)|
  {
    var es := ModelEntries(ss, keys + [k]);
    assert es[..|keys|] == ModelEntries(ss, keys) by {
      forall j | 0 <= j < |keys|
        ensures es[..|keys|][j] == ModelEntries(ss, keys)[j]
      {
        assert (keys + [k])[j] == keys[j];
      }
    }
    assert es[|keys|].sessionCount == |WithModel(ss, k)| by {
      assert (keys + [k])[|keys|] == k;
    }
  }

  /** The per-model session counts add up to the number of sessions. */
  lemma {:induction false} ModelCountsSumToSessions(ss: seq<Session>)
    ensures SessionCountSum(ModelEntries(ss, Dedup(Models(ss)))) == |ss|
    decreases |ss|
  {
    if ss == [] {
      assert Dedup(Models(ss)) == [];
    } else {
      var init := ss[..|ss| - 1];
      var s := ss[|ss| - 1];
      assert ss == init + [s];
      ModelCountsSumToSessions(init);
      var keys0 := Dedup(Models(init));
      ModelKeysSnoc(init, s);
      DedupIntoSpec([], Models(init));
      SessionCountStep(init, s, keys0);
      if s.model !in keys0 {
        NewModelCountsOne(init, s, keys0);
      }
    }
  }

  lemma ModelKeysSnoc(init: seq<Session>, s: Session)
    ensures Dedup(Models(init + [s])) == AddNew(Dedup(Models(init)), s.model)
    ensures s.model !in Dedup(Models(init)) ==> s.model !in Models(init)
  {
    KeysSnoc(init, s, Chrono(_ => None, _ => None, _ => None, _ => None, _ => None));
    DedupIntoSnoc([], Models(init), s.model);
    DedupIntoElems([], Models(init));
    assert s.model in Models(init) ==> s.model in Elems(Models(init));
  }

  lemma NewModelCountsOne(init: seq<Session>, s: Session, keys0: seq<string>)
    requires keys0 == Dedup(Models(init)) && s.model !in keys0
    ensures SessionCountSum(ModelEntries(init + [s], keys0 + [s.model])) ==
            SessionCountSum(ModelEntries(init + [s], keys0)) + 1
  {
    ModelKeysSnoc(init, s);
    SessionCountAppend(init + [s], keys0, s.model);
    WithModelAbsent(init, s.model);
    WithModelSnoc(init, s, s.model);
  }

  /** One more session changes only its own model's entry. */
  lemma ModelEntrySnoc(ss: seq<Session>, s: Session, m: string)
    ensures m != s.model ==> ModelEntry(ss + [s], m) == ModelEntry(ss, m)
    ensures m == s.model ==>
      var e := ModelEntry(ss, m);
      ModelEntry(ss + [s], m) ==
        ModelUsage(m, (e.inputTokens + s.tokens.input) + (e.outputTokens + s.tokens.output),
                   e.inputTokens + s.tokens.input, e.outputTokens + s.tokens.output, 0,
                   e.cacheReadTokens + s.tokens.cached, e.sessionCount + 1)
  {
    if m != s.model {
      WithModelSnocOther(ss, s, m);
    } else {
      WithModelSnocSame(ss, s);
      var g := WithModel(ss, m);
      SumsSnoc(g, s);
      assert |g + [s]| == |g| + 1;
    }
  }

  lemma WithModelSnocOther(ss: seq<Session>, s: Session, m: string)
    requires m != s.model
    ensures WithModel(ss + [s], m) == WithModel(ss, m)
  {
    assert (ss + [s])[..|ss|] == ss;
  }

  lemma WithModelSnocSame(ss: seq<Session>, s: Session)
    ensures WithModel(ss + [s], s.model) == WithModel(ss, s.model) + [s]
  {
    assert (ss + [s])[..|ss|] == ss;
  }

  lemma WithModelSnoc(ss: seq<Session>, s: Session, m: string)
    ensures WithModel(ss + [s], m) == WithModel(ss, m) + (if s.model == m then [s] else [])
  {
    assert (ss + [s])[..|ss|] == ss;
  }

  /** Per-day statistics. */

  function OnDay(ss: seq<Session>, d: string, chrono: Chrono): seq<Session>
    decreases |ss|
  {
    if ss == [] then []
    else var s := ss[|ss| - 1]; OnDay(ss[..|ss| - 1], d, chrono) + (if DayKey(s, chrono) == d then [s] else [])
  }

  /** The entry for day `d`: input plus output over its sessions, and each model used
      that day once, in order of first use. */
  function DailyEntry(ss: seq<Session>, d: string, chrono: Chrono): DailyUsage {
    var g := OnDay(ss, d, chrono);
    DailyUsage(d, SumIn(g) + SumOut(g), Dedup(Models(g)))
  }

  function DailyEntries(ss: seq<Session>, keys: seq<string>, chrono: Chrono): (r: seq<DailyUsage>)
    ensures |r| == |keys|
    ensures forall j :: 0 <= j < |keys| ==> r[j] == DailyEntry(ss, keys[j], chrono)
  {
    seq(|keys|, j requires 0 <= j < |keys| => DailyEntry(ss, keys[j], chrono))
  }

  /** A day lists each of its models exactly once. */
  lemma DailyModelsDistinct(ss: seq<Session>, d: string, chrono: Chrono)
    ensures NoDup(DailyEntry(ss, d, chrono).modelsUsed)
    ensures forall m :: m in DailyEntry(ss, d, chrono).modelsUsed <==> m in Models(OnDay(ss, d, chrono))
  {
    var g := OnDay(ss, d, chrono);
    DedupIntoSpec([], Models(g));
    assert forall m :: m in Elems(Models(g)) <==> m in Models(g);
  }

  lemma {:induction false} OnDayAbsent(ss: seq<Session>, d: string, chrono: Chrono)
    requires d !in DayKeys(ss, chrono)
    ensures OnDay(ss, d, chrono) == []
    decreases |ss|
  {
    if ss != [] {
      assert DayKeys(ss[..|ss| - 1], chrono) == DayKeys(ss, chrono)[..|ss| - 1];
      OnDayAbsent(ss[..|ss| - 1], d, chrono);
      assert DayKey(ss[|ss| - 1], chrono) == DayKeys(ss, chrono)[|ss| - 1];
    }
  }

  ghost predicate DailyStatsFor(ss: seq<Session>, chrono: Chrono, keys: seq<string>, stats: map<string, DailyUsage>) {
    && keys == Dedup(DayKeys(ss, chrono))
    && (forall k :: k in stats <==> k in keys)
    && (forall k :: k in stats ==> stats[k] == DailyEntry(ss, k, chrono))
  }

  /** One more session changes only its own day's entry. */
  lemma DailyEntrySnoc(ss: seq<Session>, s: Session, d: string, chrono: Chrono)
    ensures d != DayKey(s, chrono) ==> DailyEntry(ss + [s], d, chrono) == DailyEntry(ss, d, chrono)
    ensures d == DayKey(s, chrono) ==>
      var e := DailyEntry(ss, d, chrono);
      DailyEntry(ss + [s], d, chrono) ==
        DailyUsage(d, e.totalTokens + (s.tokens.input + s.tokens.output), AddNew(e.modelsUsed, s.model))
  {
    var g := OnDay(ss, d, chrono);
    if d != DayKey(s, chrono) {
      OnDaySnocOther(ss, s, d, chrono);
    } else {
      OnDaySnocSame(ss, s, chrono);
      SumsSnoc(g, s);
      KeysSnoc(g, s, chrono);
      DedupIntoSnoc([], Models(g), s.model);
    }
  }

  lemma OnDaySnocOther(ss: seq<Session>, s: Session, d: string, chrono: Chrono)
    requires d != DayKey(s, chrono)
    ensures OnDay(ss + [s], d, chrono) == OnDay(ss, d, chrono)
  {
    assert (ss + [s])[..|ss|] == ss;
  }

  lemma OnDaySnocSame(ss: seq<Session>, s: Session, chrono: Chrono)
    ensures OnDay(ss + [s], DayKey(s, chrono), chrono) == OnDay(ss, DayKey(s, chrono), chrono) + [s]
  {
    assert (ss + [s])[..|ss|] == ss;
  }

  method AddToDailyStats(ghost ss: seq<Session>, s: Session, chrono: Chrono,
                         keys: seq<string>, stats: map<string, DailyUsage>)
    returns (keys': seq<string>, stats': map<string, DailyUsage>)
    requires DailyStatsFor(ss, chrono, keys, stats)
    ensures DailyStatsFor(ss + [s], chrono, keys', stats')
  {
    var date := DayKey(s, chrono);
    DailyStored(ss, date, chrono, keys, stats);
    var entry := DailyUsage(date, 0, []);
    if date in stats {
      entry := stats[date];
      keys' := keys;
    } else {
      keys' := keys + [date];
    }
    var used := entry.modelsUsed;
    if s.model !in used {
      used := used + [s.model];
    }
    entry := entry.(totalTokens := entry.totalTokens + (s.tokens.input + s.tokens.output), modelsUsed := used);
    DailyEntrySnoc(ss, s, date, chrono);
    assert entry == DailyEntry(ss + [s], date, chrono);
    stats' := stats[date := entry];
    DailyStatsStep(ss, s, chrono, keys, stats);
  }

  /** What the table holds for day `d`: its entry, or an empty entry when the day has
      no session yet. */
  lemma DailyStored(ss: seq<Session>, d: string, chrono: Chrono, keys: seq<string>, stats: map<string, DailyUsage>)
    requires DailyStatsFor(ss, chrono, keys, stats)
    ensures d in stats <==> d in keys
    ensures DailyEntry(ss, d, chrono) == if d in stats then stats[d] else DailyUsage(d, 0, [])
  {
    if d !in stats {
      DedupMember(DayKeys(ss, chrono), d);
      OnDayAbsent(ss, d, chrono);
    }
  }

  /** The per-day table after one more session: its day's entry recomputed and the
      day appended to the keys if new. */
  lemma DailyStatsStep(ss: seq<Session>, s: Session, chrono: Chrono, keys: seq<string>, stats: map<string, DailyUsage>)
    requires DailyStatsFor(ss, chrono, keys, stats)
    ensures var date := DayKey(s, chrono);
      DailyStatsFor(ss + [s], chrono, AddNew(keys, date), stats[date := DailyEntry(ss + [s], date, chrono)])
  {
    var date := DayKey(s, chrono);
    KeysSnoc(ss, s, chrono);
    DedupIntoSnoc([], DayKeys(ss, chrono), date);
    var stats' := stats[date := DailyEntry(ss + [s], date, chrono)];
    forall k | k in stats' && k != date
      ensures stats'[k] == DailyEntry(ss + [s], k, chrono)
    {
      DailyEntrySnoc(ss, s, k, chrono);
    }
  }


  /** Per-project statistics. */

  /** The last component of a path split on `/` and `\`. */
  function ProjectName(path: string): string {
    Last(SplitOn(path, {'/', '\\'}))
  }

  /** A path without separators names itself; otherwise the name follows the last
      separator. */
  lemma ProjectNameOfPlain(path: string)
    requires forall i :: 0 <= i < |path| ==> path[i] != '/' && path[i] != '\\'
    ensures ProjectName(path) == path
  {
    SplitOnWhole(path, {'/', '\\'});
  }

  lemma ProjectNameAfterSeparator(dir: string, sep: char, name: string)
    requires sep == '/' || sep == '\\'
    requires forall i :: 0 <= i < |name| ==> name[i] != '/' && name[i] != '\\'
    ensures ProjectName(dir + [sep] + name) == name
  {
    ProjectNameLast(dir, sep, name);
  }

  lemma {:induction false} ProjectNameLast(dir: string, sep: char, name: string)
    requires sep == '/' || sep == '\\'
    requires forall i :: 0 <= i < |name| ==> name[i] != '/' && name[i] != '\\'
    ensures Last(SplitOn(dir + [sep] + name, {'/', '\\'})) == name
    decreases |dir|
  {
    var seps := {'/', '\\'};
    SplitOnWhole(name, seps);
    if dir == [] {
      SplitOnFirst([], sep, name, seps);
    } else {
      var i := 0;
      while i < |dir| && dir[i] !in seps
        invariant 0 <= i <= |dir|
        invariant forall j :: 0 <= j < i ==> dir[j] !in seps
      {
        i := i + 1;
      }
      if i == |dir| {
        SplitOnFirst(dir, sep, name, seps);
        assert dir + [sep] + name == dir + [sep] + name;
      } else {
        var a := dir[..i];
        var rest := dir[i + 1..] + [sep] + name;
        assert dir + [sep] + name == a + [dir[i]] + rest;
        assert forall j :: 0 <= j < |a| ==> a[j] !in seps;
        SplitOnFirst(a, dir[i], rest, seps);
        ProjectNameLast(dir[i + 1..], sep, name);
        assert dir[i + 1..] + [sep] + name == rest;
      }
    }
  }

  /** `last_used`: the update time formatted, "unknown" when it cannot be. */
  function UsedLabel(s: Session, chrono: Chrono): string {
    chrono.timeLabel(ToI64(s.updatedAt)).GetOr("unknown")
  }

  /** The greatest label over the sessions, the first one seen winning ties. */
  function LatestUsed(g: seq<Session>, chrono: Chrono): string
    decreases |g|
  {
    if g == [] then ""
    else if |g| == 1 then UsedLabel(g[0], chrono)
    else
      var m := LatestUsed(g[..|g| - 1], chrono);
      var l := UsedLabel(g[|g| - 1], chrono);
      if CompareStr(l, m) == Greater then l else m
  }

  /** The project's `last_used` is one of its sessions' labels and no label is greater. */
  lemma {:induction false} LatestUsedIsMax(g: seq<Session>, chrono: Chrono)
    requires |g| > 0
    ensures exists k :: 0 <= k < |g| && LatestUsed(g, chrono) == UsedLabel(g[k], chrono)
    ensures forall k :: 0 <= k < |g| ==> CompareStr(UsedLabel(g[k], chrono), LatestUsed(g, chrono)) != Greater
    decreases |g|
  {
    var r := LatestUsed(g, chrono);
    if |g| == 1 {
      CompareStrEqual(r, r);
    } else {
      var init := g[..|g| - 1];
      LatestUsedIsMax(init, chrono);
      var m := LatestUsed(init, chrono);
      var l := UsedLabel(g[|g| - 1], chrono);
      var k0 :| 0 <= k0 < |init| && m == UsedLabel(init[k0], chrono);
      assert init[k0] == g[k0];
      CompareStrEqual(r, r);
      forall k | 0 <= k < |g|
        ensures CompareStr(UsedLabel(g[k], chrono), r) != Greater
      {
        if k < |g| - 1 {
          assert g[k] == init[k];
          if r == l && CompareStr(UsedLabel(g[k], chrono), r) == Greater {
            CompareStrTransitive(UsedLabel(g[k], chrono), l, m);
          }
        } else if r == m {
          assert CompareStr(l, m) != Greater;
        }
      }
    }
  }

  lemma LatestUsedSnoc(g: seq<Session>, s: Session, chrono: Chrono)
    ensures LatestUsed(g + [s], chrono) ==
      if g == [] || CompareStr(UsedLabel(s, chrono), LatestUsed(g, chrono)) == Greater
      then UsedLabel(s, chrono) else LatestUsed(g, chrono)
  {
    assert (g + [s])[..|g|] == g;
  }

  function AtPath(ss: seq<Session>, p: string): seq<Session>
    decreases |ss|
  {
    if ss == [] then []
    else var s := ss[|ss| - 1]; AtPath(ss[..|ss| - 1], p) + (if s.projectPath == p then [s] else [])
  }

  /** The entry for project path `p`. */
  function ProjectEntry(ss: seq<Session>, p: string, chrono: Chrono): ProjectUsage {
    var g := AtPath(ss, p);
    ProjectUsage(p, ProjectName(p), SumIn(g) + SumOut(g), |g|, LatestUsed(g, chrono))
  }

  function ProjectEntries(ss: seq<Session>, keys: seq<string>, chrono: Chrono): (r: seq<ProjectUsage>)
    ensures |r| == |keys|
    ensures forall j :: 0 <= j < |keys| ==> r[j] == ProjectEntry(ss, keys[j], chrono)
  {
    seq(|keys|, j requires 0 <= j < |keys| => ProjectEntry(ss, keys[j], chrono))
  }

  /** A project has sessions exactly when its path occurs. */
  lemma {:induction false} AtPathEmpty(ss: seq<Session>, p: string)
    ensures AtPath(ss, p) == [] <==> p !in Paths(ss)
    decreases |ss|
  {
    if ss != [] {
      var init := ss[..|ss| - 1];
      assert Paths(ss) == Paths(init) + [ss[|ss| - 1].projectPath];
      AtPathEmpty(init, p);
    }
  }

  ghost predicate ProjectStatsFor(ss: seq<Session>, chrono: Chrono, keys: seq<string>, stats: map<string, ProjectUsage>) {
    && keys == Dedup(Paths(ss))
    && (forall k :: k in stats <==> k in keys)
    && (forall k :: k in stats ==> stats[k] == ProjectEntry(ss, k, chrono))
  }

  /** One more session changes only its own project's entry; its label replaces the
      stored one only when greater. */
  lemma ProjectEntrySnoc(ss: seq<Session>, s: Session, p: string, chrono: Chrono)
    ensures p != s.projectPath ==> ProjectEntry(ss + [s], p, chrono) == ProjectEntry(ss, p, chrono)
    ensures p == s.projectPath ==>
      var e := ProjectEntry(ss, p, chrono);
      var l := UsedLabel(s, chrono);
      ProjectEntry(ss + [s], p, chrono) ==
        ProjectUsage(p, ProjectName(p), e.totalTokens + (s.tokens.input + s.tokens.output), e.sessionCount + 1,
                     if e.sessionCount == 0 || CompareStr(l, e.lastUsed) == Greater then l else e.lastUsed)
  {
    var g := AtPath(ss, p);
    if p != s.projectPath {
      AtPathSnocOther(ss, s, p);
    } else {
      AtPathSnocSame(ss, s);
      SumsSnoc(g, s);
      LatestUsedSnoc(g, s, chrono);
      assert |g + [s]| == |g| + 1;
    }
  }

  lemma AtPathSnocOther(ss: seq<Session>, s: Session, p: string)
    requires p != s.projectPath
    ensures AtPath(ss + [s], p) == AtPath(ss, p)
  {
    assert (ss + [s])[..|ss|] == ss;
  }

  lemma AtPathSnocSame(ss: seq<Session>, s: Session)
    ensures AtPath(ss + [s], s.projectPath) == AtPath(ss, s.projectPath) + [s]
  {
    assert (ss + [s])[..|ss|] == ss;
  }

  method AddToProjectStats(ghost ss: seq<Session>, s: Session, chrono: Chrono,
                           keys: seq<string>, stats: map<string, ProjectUsage>)
    returns (keys': seq<string>, stats': map<string, ProjectUsage>)
    requires ProjectStatsFor(ss, chrono, keys, stats)
    ensures ProjectStatsFor(ss + [s], chrono, keys', stats')
  {
    var path := s.projectPath;
    var lastUsed := UsedLabel(s, chrono);
    ProjectStored(ss, path, chrono, keys, stats);
    var entry := ProjectUsage(path, ProjectName(path), 0, 0, lastUsed);
    if path in stats {
      entry := stats[path];
      keys' := keys;
    } else {
      keys' := keys + [path];
    }
    entry := entry.(totalTokens := entry.totalTokens + (s.tokens.input + s.tokens.output),
                    sessionCount := entry.sessionCount + 1);
    if CompareStr(lastUsed, entry.lastUsed) == Greater {
      entry := entry.(lastUsed := lastUsed);
    }
    ProjectEntrySnoc(ss, s, path, chrono);
    CompareStrEqual(lastUsed, lastUsed);
    assert entry == ProjectEntry(ss + [s], path, chrono);
    stats' := stats[path := entry];
    ProjectStatsStep(ss, s, chrono, keys, stats);
  }

  /** What the table holds for project `p`: its entry, with at least one session, or
      nothing when the project has no session yet. */
  lemma ProjectStored(ss: seq<Session>, p: string, chrono: Chrono, keys: seq<string>, stats: map<string, ProjectUsage>)
    requires ProjectStatsFor(ss, chrono, keys, stats)
    ensures p in stats <==> p in keys
    ensures p in stats ==> stats[p] == ProjectEntry(ss, p, chrono) && stats[p].sessionCount > 0
    ensures p !in stats ==> AtPath(ss, p) == []
  {
    DedupMember(Paths(ss), p);
    AtPathEmpty(ss, p);
  }

  /** The per-project table after one more session: its project's entry recomputed
      and the path appended to the keys if new. */
  lemma ProjectStatsStep(ss: seq<Session>, s: Session, chrono: Chrono, keys: seq<string>, stats: map<string, ProjectUsage>)
    requires ProjectStatsFor(ss, chrono, keys, stats)
    ensures var path := s.projectPath;
      ProjectStatsFor(ss + [s], chrono, AddNew(keys, path), stats[path := ProjectEntry(ss + [s], path, chrono)])
  {
    var path := s.projectPath;
    KeysSnoc(ss, s, chrono);
    DedupIntoSnoc([], Paths(ss), path);
    var stats' := stats[path := ProjectEntry(ss + [s], path, chrono)];
    forall k | k in stats' && k != path
      ensures stats'[k] == ProjectEntry(ss + [s], k, chrono)
    {
      ProjectEntrySnoc(ss, s, k, chrono);
    }
  }

  lemma ModelListed(ss: seq<Session>, keys: seq<string>, stats: map<string, ModelUsage>)
    requires ModelStatsFor(ss, keys, stats)
    ensures forall k :: k in keys ==> k in stats
    ensures Listed(keys, stats) == ModelEntries(ss, keys)
  {
  }

  lemma DailyListed(ss: seq<Session>, chrono: Chrono, keys: seq<string>, stats: map<string, DailyUsage>)
    requires DailyStatsFor(ss, chrono, keys, stats)
    ensures forall k :: k in keys ==> k in stats
    ensures Listed(keys, stats) == DailyEntries(ss, keys, chrono)
  {
  }

  lemma ProjectListed(ss: seq<Session>, chrono: Chrono, keys: seq<string>, stats: map<string, ProjectUsage>)
    requires ProjectStatsFor(ss, chrono, keys, stats)
    ensures forall k :: k in keys ==> k in stats
    ensures Listed(keys, stats) == ProjectEntries(ss, keys, chrono)
  {
  }

  lemma EmptyTables(chrono: Chrono)
    ensures ModelStatsFor([], [], map[])
    ensures DailyStatsFor([], chrono, [], map[])
    ensures ProjectStatsFor([], chrono, [], map[])
  {
    assert Dedup(DayKeys([], chrono)) == [] && Dedup(Paths([])) == [] && Dedup(Models([])) == [];
  }

  /** The loop over the selected sessions: running totals and the three tables. */
  method TallySessions(ss: seq<Session>, chrono: Chrono)
    returns (totalInput: nat, totalOutput: nat, totalCached: nat,
             modelKeys: seq<string>, modelStats: map<string, ModelUsage>,
             dayKeys: seq<string>, dailyStats: map<string, DailyUsage>,
             projectKeys: seq<string>, projectStats: map<string, ProjectUsage>)
    ensures totalInput == SumIn(ss) && totalOutput == SumOut(ss) && totalCached == SumCached(ss)
    ensures ModelStatsFor(ss, modelKeys, modelStats)
    ensures DailyStatsFor(ss, chrono, dayKeys, dailyStats)
    ensures ProjectStatsFor(ss, chrono, projectKeys, projectStats)
  {
    totalInput, totalOutput, totalCached := 0, 0, 0;
    modelKeys, modelStats := [], map[];
    dayKeys, dailyStats := [], map[];
    projectKeys, projectStats := [], map[];
    var i := 0;
    assert ss[..0] == [];
    EmptyTables(chrono);
    while i < |ss|
      invariant 0 <= i <= |ss|
      invariant totalInput == SumIn(ss[..i]) && totalOutput == SumOut(ss[..i]) && totalCached == SumCached(ss[..i])
      invariant ModelStatsFor(ss[..i], modelKeys, modelStats)
      invariant DailyStatsFor(ss[..i], chrono, dayKeys, dailyStats)
      invariant ProjectStatsFor(ss[..i], chrono, projectKeys, projectStats)
    {
      var s := ss[i];
      ghost var done := ss[..i];
      assert ss[..i + 1] == done + [s];
      SumsSnoc(done, s);
      totalInput := totalInput + s.tokens.input;
      totalOutput := totalOutput + s.tokens.output;
      totalCached := totalCached + s.tokens.cached;
      modelKeys, modelStats := AddToModelStats(done, s, modelKeys, modelStats);
      dayKeys, dailyStats := AddToDailyStats(done, s, chrono, dayKeys, dailyStats);
      projectKeys, projectStats := AddToProjectStats(done, s, chrono, projectKeys, projectStats);
      i := i + 1;
    }
    assert ss[..i] == ss;
  }

  /** The statistics over the selected sessions, each group's entries in order of the
      group's first session. */
  method GetCodexUsageStats(all: seq<Session>, startDate: Option<string>, endDate: Option<string>,
                            chrono: Chrono)
    returns (r: Result<UsageStats>)
    ensures r.Err? <==> SelectSessions(all, startDate, endDate, chrono).Err?
    ensures r.Ok? ==>
      var ss := SelectSessions(all, startDate, endDate, chrono).value;
      && r.value.sessions == ss
      && r.value.totalSessions == |ss|
      && r.value.totalInputTokens == SumIn(ss)
      && r.value.totalOutputTokens == SumOut(ss)
      && r.value.totalCachedInputTokens == SumCached(ss)
      && r.value.totalTokens == r.value.totalInputTokens + r.value.totalOutputTokens
      && r.value.byModel == ModelEntries(ss, Dedup(Models(ss)))
      && SessionCountSum(r.value.byModel) == r.value.totalSessions
      && r.value.byDate == DailyEntries(ss, Dedup(DayKeys(ss, chrono)), chrono)
      && r.value.byProject == ProjectEntries(ss, Dedup(Paths(ss)), chrono)
  {
    var selected := SelectSessions(all, startDate, endDate, chrono);
    if selected.Err? {
      return Err(selected.msg);
    }
    var ss := selected.value;
    var totalInput, totalOutput, totalCached, modelKeys, modelStats, dayKeys, dailyStats, projectKeys, projectStats :=
      TallySessions(ss, chrono);
    ModelListed(ss, modelKeys, modelStats);
    DailyListed(ss, chrono, dayKeys, dailyStats);
    ProjectListed(ss, chrono, projectKeys, projectStats);
    var byModel := Listed(modelKeys, modelStats);
    var byDate := Listed(dayKeys, dailyStats);
    var byProject := Listed(projectKeys, projectStats);
    ModelCountsSumToSessions(ss);
    return Ok(UsageStats(totalInput + totalOutput, totalInput, totalOutput, totalCached, |ss|,
                         byModel, byDate, byProject, ss));
  }
}
