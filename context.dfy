/**
 * The context manager: an ordered log of messages, a token estimate of
 * four UTF-8 bytes per token, compression when the usage ratio exceeds 92%,
 * an eight-part structured summary of the log, and retention of the
 * messages whose importance score exceeds 0.7, padded from the back of the
 * log up to five.
 *
 * Importance scores are kept in tenths (0.8 is 8); the ratio of used to
 * maximum tokens is kept as the pair of integers it is computed from.
 */
module Context {
  import opened Wrappers
  import opened Text
  import opened Network

  /** Compression starts when usage exceeds this percentage of `max_tokens`. */
  const CompressionThresholdPercent: nat := 92
  /** Retention keeps messages scoring above this many tenths. */
  const RetainAboveTenths: nat := 7
  /** Retention pads the kept list from the back of the log up to this many messages. */
  const MinRetain: nat := 5
  /** Scores are capped at 1.0 when computed afresh. */
  const ScoreCapTenths: nat := 10
  /** `u32` values lie below this bound; the token estimate is cast to `u32`. */
  const U32: nat := 0x1_0000_0000
  /** The user intent recorded when the log holds no user message. */
  const NoIntent: string := "No clear user intent identified"

  // Keywords the extractors and the score look for.
  const KwDecide: string := "\U{51B3}\U{5B9A}"
  const KwChoose: string := "\U{9009}\U{62E9}"
  const KwResult: string := "\U{7ED3}\U{679C}"
  const KwError: string := "\U{9519}\U{8BEF}"
  const KwProblem: string := "\U{95EE}\U{9898}"
  const KwPending: string := "\U{5F85}\U{89E3}\U{51B3}"
  const KwPlan: string := "\U{8BA1}\U{5212}"
  const KwNextStep: string := "\U{4E0B}\U{4E00}\U{6B65}"
  const KwImportant: string := "\U{91CD}\U{8981}"
  const KwKey: string := "\U{5173}\U{952E}"

  datatype ToolUsageRecord = ToolUsageRecord(toolName: string, usageCount: nat, lastUsed: nat, keyResults: seq<string>)

  /** The eight-part summary produced by one compression. */
  datatype CompressedContext = CompressedContext(
    backgroundContext: string,
    keyDecisions: seq<string>,
    toolUsage: seq<ToolUsageRecord>,
    userIntent: string,
    executionResults: seq<string>,
    errorCases: seq<string>,
    openIssues: seq<string>,
    futurePlans: seq<string>,
    compressedAt: nat,
    originalMessageCount: nat,
    compressedSize: nat)

  /** A quotient `num / den` computed in `f64`. */
  datatype Ratio = Ratio(num: nat, den: nat)

  /**
   * `num as f64 / den as f64 > percent / 100`. A zero denominator gives
   * infinity (above any threshold) for a positive numerator and NaN (never
   * above) for zero.
   */
  predicate Exceeds(r: Ratio, percent: nat) {
    if r.den == 0 then r.num > 0 else 100 * r.num > percent * r.den
  }

  datatype ContextStats = ContextStats(
    totalTokens: nat,
    maxTokens: nat,
    usageRatio: Ratio,
    messageCount: nat,
    compressionCount: nat,
    lastCompression: Option<nat>)

  function Min(a: nat, b: nat): nat {
    if a <= b then a else b
  }

  // ---------------------------------------------------------------------
  // Token estimate
  // ---------------------------------------------------------------------

  /** The summed UTF-8 length of the contents. */
  function TotalBytes(ms: seq<Message>): nat {
    if ms == [] then 0 else TotalBytes(ms[..|ms| - 1]) + Utf8Len(ms[|ms| - 1].content)
  }

  /** `estimate_token_count`: a quarter of the bytes, cast to `u32`. */
  function EstimateTokens(ms: seq<Message>): (t: nat)
    ensures t < U32
    ensures TotalBytes(ms) < 4 * U32 ==> t == TotalBytes(ms) / 4
  {
    (TotalBytes(ms) / 4) % U32
  }

  /** Appending a message adds its bytes to the total. */
  lemma TotalBytesAppend(ms: seq<Message>, m: Message)
    ensures TotalBytes(ms + [m]) == TotalBytes(ms) + Utf8Len(m.content)
  {
    assert (ms + [m])[..|ms|] == ms;
  }

  /** The byte total of a concatenation is the sum of the byte totals. */
  lemma {:induction false} TotalBytesConcat(a: seq<Message>, b: seq<Message>)
    ensures TotalBytes(a + b) == TotalBytes(a) + TotalBytes(b)
    decreases |b|
  {
    if b == [] {
      assert a + b == a;
    } else {
      var b' := b[..|b| - 1];
      assert a + b == (a + b') + [b[|b| - 1]];
      assert b == b' + [b[|b| - 1]];
      TotalBytesAppend(a + b', b[|b| - 1]);
      TotalBytesAppend(b', b[|b| - 1]);
      TotalBytesConcat(a, b');
    }
  }

  // ---------------------------------------------------------------------
  // Importance score
  // ---------------------------------------------------------------------

  /** The role's base score in tenths: system 8, user 6, assistant 4, other 2. */
  function RoleBase(role: string): (b: nat)
    ensures b in {2, 4, 6, 8}
  {
    if role == "system" then 8
    else if role == "user" then 6
    else if role == "assistant" then 4
    else 2
  }

  predicate MentionsError(content: string) {
    Text.Contains(content, KwError) || Text.Contains(content, "error")
  }

  predicate MentionsImportance(content: string) {
    Text.Contains(content, KwImportant) || Text.Contains(content, KwKey)
  }

  /**
   * The uncapped score of `calculate_importance_score`, in tenths: the role
   * base plus 3 for an importance keyword, 2 for an error mention and 1 for
   * content longer than 100 bytes.
   */
  function ImportanceTenths(m: Message): (r: nat)
    ensures 2 <= r <= 14
    ensures r >= RoleBase(m.role)
    ensures m.role == "system" ==> r > RetainAboveTenths
  {
    RoleBase(m.role)
    + (if MentionsImportance(m.content) then 3 else 0)
    + (if MentionsError(m.content) then 2 else 0)
    + (if Utf8Len(m.content) > 100 then 1 else 0)
  }

  /**
   * The source adds the parts as `f64` values, so a sum can land one unit
   * in the last place beside the double nearest its tenth. Scores are
   * encoded as naturals: the double nearest `t` tenths is `Encode(t)`, and a
   * sum just below or just above it is one less or one more.
   */
  function Encode(tenths: nat): (e: nat)
    ensures e / 3 == tenths && e % 3 == 1
  {
    3 * tenths + 1
  }

  /**
   * The rounding of the `f64` sum base + 0.3 + 0.2 + 0.1 (each part only
   * when it applies, added in that order) relative to the double nearest
   * its tenth: -1 below, 0 on it, 1 above.
   */
  function RoundingOffset(base: nat, important: bool, error: bool, long: bool): (d: int)
    ensures -1 <= d <= 1
  {
    match (base, important, error, long)
    case (8, true, _, true) => 1
    case (6, true, _, false) => -1
    case (6, true, false, true) => -1
    case (4, false, true, _) => 1
    case (4, true, true, _) => -1
    case (4, true, false, true) => -1
    case (2, false, false, true) => 1
    case (2, true, true, true) => -1
    case _ => 0
  }

  /**
   * The uncapped score as the source computes it in `f64`, encoded: it lies
   * within one unit of the encoding of its decimal value, so it orders like
   * that value except at the tie with the 0.7 threshold.
   */
  function Score(m: Message): (r: nat)
    ensures r / 3 == ImportanceTenths(m)
    ensures Encode(ImportanceTenths(m)) - 1 <= r <= Encode(ImportanceTenths(m)) + 1
    ensures m.role == "system" ==> r > Encode(RetainAboveTenths)
  {
    Encode(ImportanceTenths(m))
    + RoundingOffset(RoleBase(m.role), MentionsImportance(m.content), MentionsError(m.content), Utf8Len(m.content) > 100)
  }

  /**
   * An assistant message mentioning an error and longer than 100 bytes has
   * the decimal score 0.7, yet its `f64` sum lies just above 0.7, so the
   * retention test keeps it.
   */
  lemma AssistantErrorNoteKept(m: Message)
    requires m.role == "assistant" && !MentionsImportance(m.content)
    requires MentionsError(m.content) && Utf8Len(m.content) > 100
    ensures ImportanceTenths(m) == RetainAboveTenths
    ensures Score(m) > Encode(RetainAboveTenths)
  {
  }

  /** For the same content, a higher role base never gives a lower score. */
  lemma ScoreFollowsRole(content: string, r1: string, r2: string)
    requires RoleBase(r1) <= RoleBase(r2)
    ensures ImportanceTenths(Message(r1, content)) <= ImportanceTenths(Message(r2, content))
    ensures Score(Message(r1, content)) <= Score(Message(r2, content))
  {
  }

  /** The score through the cache, which is keyed by content alone. */
  function ScoreIn(cache: map<string, nat>, m: Message): nat {
    if m.content in cache then cache[m.content] else Score(m)
  }

  /** The cache after scoring `m`: a fresh score is stored uncapped. */
  function Remember(cache: map<string, nat>, m: Message): (c: map<string, nat>)
    ensures m.content in c
    ensures c.Keys == cache.Keys + {m.content}
    ensures forall k :: k in cache ==> k in c && c[k] == cache[k]
  {
    if m.content in cache then cache else cache[m.content := Score(m)]
  }

  // ---------------------------------------------------------------------
  // Retention
  // ---------------------------------------------------------------------

  /** A pass over messages: what was kept and the cache afterwards. */
  datatype Scan = Scan(kept: seq<Message>, cache: map<string, nat>)

  /** The scoring pass of retention: messages scoring above 0.7, in log order. */
  function KeepImportant(ms: seq<Message>, cache: map<string, nat>): Scan
  {
    if ms == [] then Scan([], cache)
    else
      var s := KeepImportant(ms[..|ms| - 1], cache);
      var m := ms[|ms| - 1];
      Scan(s.kept + (if ScoreIn(s.cache, m) > Encode(RetainAboveTenths) then [m] else []), Remember(s.cache, m))
  }

  /** One more message extends the scoring pass by one step. */
  lemma KeepImportantStep(ms: seq<Message>, i: nat, cache: map<string, nat>)
    requires i < |ms|
    ensures var s := KeepImportant(ms[..i], cache);
      KeepImportant(ms[..i + 1], cache)
        == Scan(s.kept + (if ScoreIn(s.cache, ms[i]) > Encode(RetainAboveTenths) then [ms[i]] else []), Remember(s.cache, ms[i]))
  {
    assert ms[..i + 1][..i] == ms[..i];
  }

  /** How many messages the padding loop takes from the back of the log. */
  function Padding(logLength: nat, keptLength: nat): nat {
    if keptLength < MinRetain then Min(MinRetain - keptLength, logLength) else 0
  }

  lemma PopBack(ms: seq<Message>, r: nat, tail: seq<Message>)
    requires 0 < r <= |ms|
    ensures [ms[r - 1]] + (ms[r..] + tail) == ms[r - 1..] + tail
  {
    assert [ms[r - 1]] + ms[r..] == ms[r - 1..];
  }

  /** Retention is the scoring pass preceded by `Padding` messages from the back. */
  lemma RetainAfterPadding(ms: seq<Message>, cache: map<string, nat>, taken: nat)
    requires taken <= |ms| && taken == Padding(|ms|, |KeepImportant(ms, cache).kept|)
    ensures Retain(ms, cache) == Scan(ms[|ms| - taken..] + KeepImportant(ms, cache).kept, KeepImportant(ms, cache).cache)
  {
  }

  /** The padding loop stops after exactly `Padding` steps. */
  lemma PaddingStops(logLength: nat, keptLength: nat, taken: nat)
    requires taken <= logLength
    requires keptLength >= MinRetain ==> taken == 0
    requires keptLength < MinRetain ==> taken <= MinRetain - keptLength
    requires taken == logLength || keptLength + taken >= MinRetain
    ensures Padding(logLength, keptLength) == taken
  {
  }

  /**
   * `retain_important_messages`: the kept messages, preceded by the last
   * messages of the log when fewer than five were kept.
   */
  function Retain(ms: seq<Message>, cache: map<string, nat>): Scan {
    var s := KeepImportant(ms, cache);
    var p := Padding(|ms|, |s.kept|);
    Scan(ms[|ms| - p..] + s.kept, s.cache)
  }

  /** Every kept message comes from the log, and the kept list is no longer than the log. */
  lemma {:induction false} KeepImportantFromLog(ms: seq<Message>, cache: map<string, nat>)
    ensures |KeepImportant(ms, cache).kept| <= |ms|
    ensures forall x :: x in KeepImportant(ms, cache).kept ==> x in ms
  {
    if ms != [] {
      KeepImportantFromLog(ms[..|ms| - 1], cache);
    }
  }

  /**
   * After retention the log holds every message the scoring pass kept, at
   * least min(5, old length) messages, and nothing that was not in the log.
   */
  lemma RetainKeepsImportant(ms: seq<Message>, cache: map<string, nat>)
    ensures var s := KeepImportant(ms, cache);
      forall x :: x in s.kept ==> x in Retain(ms, cache).kept
    ensures |Retain(ms, cache).kept| >= Min(MinRetain, |ms|)
    ensures forall x :: x in Retain(ms, cache).kept ==> x in ms
  {
    KeepImportantFromLog(ms, cache);
  }

  /** The cache agrees with the scores of every message in `ms`, and no content appears with two scores. */
  ghost predicate CacheAgrees(cache: map<string, nat>, ms: seq<Message>) {
    && (forall i :: 0 <= i < |ms| && ms[i].content in cache ==> cache[ms[i].content] == Score(ms[i]))
    && (forall i, j :: 0 <= i < j < |ms| && ms[i].content == ms[j].content ==>
          Score(ms[i]) == Score(ms[j]))
  }

  /** The messages whose own score exceeds 0.7, in log order. */
  function ImportantOnly(ms: seq<Message>): (r: seq<Message>)
    ensures forall x :: x in r <==> x in ms && Score(x) > Encode(RetainAboveTenths)
  {
    if ms == [] then []
    else ImportantOnly(ms[..|ms| - 1]) + (if Score(ms[|ms| - 1]) > Encode(RetainAboveTenths) then [ms[|ms| - 1]] else [])
  }

  /**
   * When the cache cannot mislead (no content is shared by messages with
   * different scores), the scoring pass keeps exactly the messages scoring
   * above 0.7.
   */
  lemma {:induction false} KeepImportantExact(ms: seq<Message>, cache: map<string, nat>)
    requires CacheAgrees(cache, ms)
    ensures KeepImportant(ms, cache).kept == ImportantOnly(ms)
    ensures forall k :: k in KeepImportant(ms, cache).cache ==>
      k in cache || exists i :: 0 <= i < |ms| && ms[i].content == k && KeepImportant(ms, cache).cache[k] == Score(ms[i])
    ensures forall k :: k in cache ==> k in KeepImportant(ms, cache).cache && KeepImportant(ms, cache).cache[k] == cache[k]
  {
    if ms != [] {
      var init := ms[..|ms| - 1];
      var m := ms[|ms| - 1];
      assert forall i :: 0 <= i < |init| ==> init[i] == ms[i];
      KeepImportantExact(init, cache);
      var s := KeepImportant(init, cache);
      assert ScoreIn(s.cache, m) == Score(m) by {
        if m.content in s.cache {
          if m.content !in cache {
            var i :| 0 <= i < |init| && init[i].content == m.content && s.cache[m.content] == Score(init[i]);
          }
        }
      }
      var c' := Remember(s.cache, m);
      forall k | k in c'
        ensures k in cache || exists i :: 0 <= i < |ms| && ms[i].content == k && c'[k] == Score(ms[i])
      {
        if k in s.cache {
          if k !in cache {
            var i :| 0 <= i < |init| && init[i].content == k && s.cache[k] == Score(init[i]);
            assert ms[i].content == k && c'[k] == Score(ms[i]);
          }
        } else {
          assert k == m.content && ms[|ms| - 1] == m;
        }
      }
    }
  }

  /**
   * The cache is keyed by content only: a system message scored after an
   * assistant message with the same content inherits the assistant's score
   * and is not kept.
   */
  lemma CacheShadowsRole()
    ensures var a := Message("assistant", "x");
      var s := Message("system", "x");
      && Score(s) > Encode(RetainAboveTenths)
      && KeepImportant([a, s], map[]).kept == []
  {
    var a := Message("assistant", "x");
    var s := Message("system", "x");
    assert !Text.Contains("x"[1..], KwImportant) && !Text.Contains("x"[1..], KwKey);
    assert !Text.Contains("x"[1..], KwError) && !Text.Contains("x"[1..], "error");
    assert !Text.Contains("x", KwImportant) && !Text.Contains("x", KwKey);
    assert !Text.Contains("x", KwError) && !Text.Contains("x", "error");
    assert Score(a) == 13;
    assert [a, s][..1] == [a];
    assert [a][..0] == [];
    assert KeepImportant([a][..0], map[]) == Scan([], map[]);
    var s0 := KeepImportant([a], map[]);
    assert s0.kept == [];
    assert s0.cache == Remember(map[], a) == map["x" := 13];
    assert ScoreIn(s0.cache, s) == 13;
  }

  /**
   * Padding does not skip messages already kept: a single system message is
   * kept and padded, so retention returns it twice.
   */
  lemma RetainCanDuplicate()
    ensures Retain([Message("system", "x")], map[]).kept == [Message("system", "x"), Message("system", "x")]
  {
    var m := Message("system", "x");
    assert [m][..0] == [];
    assert KeepImportant([m], map[]).kept == [m];
  }

  // ---------------------------------------------------------------------
  // The eight-part structured summary
  // ---------------------------------------------------------------------

  /** The contents of the messages satisfying `p`, in log order. */
  function ContentsWhere(ms: seq<Message>, p: Part): (r: seq<string>)
    ensures |r| <= |ms|
  {
    if ms == [] then []
    else (if Selects(p, ms[0]) then [ms[0].content] else []) + ContentsWhere(ms[1..], p)
  }

  /** An extractor collects the content of every selected message and nothing else. */
  lemma {:induction false} ContentsWhereExact(ms: seq<Message>, p: Part)
    ensures forall c :: c in ContentsWhere(ms, p) ==> exists i :: 0 <= i < |ms| && Selects(p, ms[i]) && ms[i].content == c
    ensures forall i :: 0 <= i < |ms| && Selects(p, ms[i]) ==> ms[i].content in ContentsWhere(ms, p)
  {
    if ms != [] {
      ContentsWhereExact(ms[1..], p);
      assert forall i :: 1 <= i < |ms| ==> ms[i] == ms[1..][i - 1];
      forall c | c in ContentsWhere(ms, p)
        ensures exists i :: 0 <= i < |ms| && Selects(p, ms[i]) && ms[i].content == c
      {
        if c !in ContentsWhere(ms[1..], p) {
          assert Selects(p, ms[0]) && ms[0].content == c;
        } else {
          var i :| 0 <= i < |ms[1..]| && Selects(p, ms[1..][i]) && ms[1..][i].content == c;
          assert ms[i + 1] == ms[1..][i];
        }
      }
    }
  }

  /** The message-selecting parts of the summary. */
  datatype Part = Background | Decisions | ExecutionResults | ErrorCases | OpenIssues | FuturePlans

  /** Which messages each extractor draws from. */
  predicate Selects(p: Part, m: Message) {
    match p
    case Background => IsUserOrSystem(m)
    case Decisions => IsDecision(m)
    case ExecutionResults => IsExecutionResult(m)
    case ErrorCases => IsErrorCase(m)
    case OpenIssues => IsOpenIssue(m)
    case FuturePlans => IsPlan(m)
  }

  predicate IsUserOrSystem(m: Message) { m.role == "user" || m.role == "system" }
  predicate IsDecision(m: Message) {
    m.role == "assistant" && (Text.Contains(m.content, KwDecide) || Text.Contains(m.content, KwChoose))
  }
  predicate IsExecutionResult(m: Message) { m.role == "assistant" && Text.Contains(m.content, KwResult) }
  predicate IsErrorCase(m: Message) { MentionsError(m.content) }
  predicate IsOpenIssue(m: Message) { Text.Contains(m.content, KwProblem) || Text.Contains(m.content, KwPending) }
  predicate IsPlan(m: Message) { Text.Contains(m.content, KwPlan) || Text.Contains(m.content, KwNextStep) }

  /** `extract_background_context`: user and system contents among the first five messages, joined by " | ". */
  function BackgroundParts(ms: seq<Message>): (r: seq<string>)
    ensures |r| <= MinRetain
  {
    ContentsWhere(ms[..Min(5, |ms|)], Background)
  }

  /** The background draws on user and system messages among the first five, and on all of them. */
  lemma BackgroundFromFirstFive(ms: seq<Message>)
    ensures forall c :: c in BackgroundParts(ms) ==>
      exists i :: 0 <= i < |ms| && i < MinRetain && IsUserOrSystem(ms[i]) && ms[i].content == c
    ensures forall i :: 0 <= i < |ms| && i < MinRetain && IsUserOrSystem(ms[i]) ==> ms[i].content in BackgroundParts(ms)
  {
    var head := ms[..Min(5, |ms|)];
    ContentsWhereExact(head, Background);
    assert forall i :: 0 <= i < |head| ==> head[i] == ms[i];
  }

  function BackgroundContext(ms: seq<Message>): string {
    Join(BackgroundParts(ms), " | ")
  }

  /** `extract_user_intent`: the content of the last user message, or a fixed text when there is none. */
  function UserIntent(ms: seq<Message>): string {
    if ms == [] then NoIntent
    else if ms[|ms| - 1].role == "user" then ms[|ms| - 1].content
    else UserIntent(ms[..|ms| - 1])
  }

  /** The user intent is the last user message's content, or the fixed text when no message is from the user. */
  lemma {:induction false} UserIntentIsLastUser(ms: seq<Message>)
    ensures (forall i :: 0 <= i < |ms| ==> ms[i].role != "user") ==> UserIntent(ms) == NoIntent
    ensures (exists i :: 0 <= i < |ms| && ms[i].role == "user") ==>
      exists i :: 0 <= i < |ms| && ms[i].role == "user" && ms[i].content == UserIntent(ms)
        && forall j :: i < j < |ms| ==> ms[j].role != "user"
  {
    if ms != [] && ms[|ms| - 1].role != "user" {
      var init := ms[..|ms| - 1];
      UserIntentIsLastUser(init);
      assert forall i :: 0 <= i < |init| ==> init[i] == ms[i];
    }
  }

  /** `perform_structured_compression`: the eight parts over the whole log. */
  function StructuredCompression(ms: seq<Message>, now: nat): (c: CompressedContext)
    ensures c.originalMessageCount == |ms| && c.compressedAt == now && c.compressedSize == 0
    ensures c.toolUsage == []
    ensures |c.keyDecisions| <= |ms| && |c.executionResults| <= |ms| && |c.errorCases| <= |ms|
    ensures |c.openIssues| <= |ms| && |c.futurePlans| <= |ms|
  {
    CompressedContext(
      BackgroundContext(ms),
      ContentsWhere(ms, Decisions),
      [],
      UserIntent(ms),
      ContentsWhere(ms, ExecutionResults),
      ContentsWhere(ms, ErrorCases),
      ContentsWhere(ms, OpenIssues),
      ContentsWhere(ms, FuturePlans),
      now,
      |ms|,
      0)
  }

  // ---------------------------------------------------------------------
  // The manager
  // ---------------------------------------------------------------------

  /** The statistics describe the log: its length, its token estimate and their ratio to the maximum. */
  predicate Describes(st: ContextStats, ms: seq<Message>) {
    && st.messageCount == |ms|
    && st.totalTokens == EstimateTokens(ms)
    && st.usageRatio == Ratio(st.totalTokens, st.maxTokens)
  }

  class ContextManager {
    var context: seq<Message>
    var history: seq<CompressedContext>
    var maxTokens: nat
    var threshold: nat
    var stats: ContextStats
    var cache: map<string, nat>

    /** The statistics describe the current log, and no more summaries are stored than compressions ran. */
    ghost predicate Valid()
      reads this
    {
      && maxTokens < U32
      && threshold == CompressionThresholdPercent
      && stats.maxTokens == maxTokens
      && Describes(stats, context)
      && |history| <= stats.compressionCount
    }

    /** `ContextManager::new`: an empty log, zero tokens and messages, threshold 92%. */
    constructor (maxTokens: nat)
      requires maxTokens < U32
      ensures Valid()
      ensures this.maxTokens == maxTokens && threshold == CompressionThresholdPercent
      ensures context == [] && history == [] && cache == map[]
      ensures stats == ContextStats(0, maxTokens, Ratio(0, maxTokens), 0, 0, None)
    {
      this.maxTokens := maxTokens;
      context := [];
      history := [];
      threshold := CompressionThresholdPercent;
      stats := ContextStats(0, maxTokens, Ratio(0, maxTokens), 0, 0, None);
      cache := map[];
    }

    /** `should_compress`: the stored usage ratio is strictly above 92%. */
    function ShouldCompress(): (r: bool)
      reads this
      requires Valid()
      ensures maxTokens > 0 ==> (r <==> 100 * EstimateTokens(context) > 92 * maxTokens)
      ensures maxTokens == 0 ==> (r <==> EstimateTokens(context) > 0)
    {
      Exceeds(stats.usageRatio, threshold)
    }

    /** `estimate_token_count` over the current log. */
    function EstimateTokenCount(): (t: nat)
      reads this
      requires Valid()
      ensures t == stats.totalTokens
    {
      EstimateTokens(context)
    }

    /** `update_stats`: message count, token estimate and usage ratio describe the log again. */
    method UpdateStats()
      modifies this`stats
      ensures Describes(stats, context)
      ensures stats.maxTokens == old(stats.maxTokens)
      ensures stats.compressionCount == old(stats.compressionCount)
      ensures stats.lastCompression == old(stats.lastCompression)
    {
      var tokens := EstimateTokens(context);
      stats := stats.(messageCount := |context|, totalTokens := tokens, usageRatio := Ratio(tokens, stats.maxTokens));
    }

    /**
     * `calculate_importance_score`: a cached score is returned as stored
     * (uncapped); a fresh one is stored uncapped and returned capped at 1.0.
     */
    method CalculateImportanceScore(m: Message) returns (score: nat)
      modifies this`cache
      ensures score == if m.content in old(cache) then old(cache)[m.content] else Min(Score(m), Encode(ScoreCapTenths))
      ensures cache == Remember(old(cache), m)
      ensures score > Encode(RetainAboveTenths) <==> ScoreIn(old(cache), m) > Encode(RetainAboveTenths)
    {
      if m.content in cache {
        score := cache[m.content];
      } else {
        var s := Score(m);
        cache := cache[m.content := s];
        score := Min(s, Encode(ScoreCapTenths));
      }
    }

    /** `retain_important_messages`, in place. */
    method RetainImportantMessages()
      modifies this`context, this`cache
      ensures Scan(context, cache) == Retain(old(context), old(cache))
    {
      ghost var log := context;
      ghost var cache0 := cache;
      var important: seq<Message> := [];
      var toCheck := context;
      var i := 0;
      while i < |toCheck|
        invariant 0 <= i <= |toCheck| && toCheck == log && context == log
        invariant Scan(important, cache) == KeepImportant(log[..i], cache0)
      {
        var m := toCheck[i];
        KeepImportantStep(log, i, cache0);
        var score := CalculateImportanceScore(m);
        if score > Encode(RetainAboveTenths) {
          important := important + [m];
        }
        i := i + 1;
      }
      assert log[..|log|] == log;
      ghost var scan := KeepImportant(log, cache0);
      assert important == scan.kept && cache == scan.cache;
      ghost var kept := important;
      // The padding loop pops from the back of the log; `taken` counts the pops.
      var taken := 0;
      while |important| < MinRetain && taken < |toCheck|
        invariant taken <= |log| && cache == scan.cache
        invariant important == log[|log| - taken..] + kept
        invariant |kept| >= MinRetain ==> taken == 0
        invariant |kept| < MinRetain ==> taken <= MinRetain - |kept|
      {
        var m := toCheck[|toCheck| - 1 - taken];
        PopBack(log, |log| - taken, kept);
        important := [m] + important;
        taken := taken + 1;
      }
      PaddingStops(|log|, |kept|, taken);
      RetainAfterPadding(log, cache0, taken);
      context := important;
    }

    /**
     * `compress_context`: summarise the whole log, retain the important
     * messages, count the compression, stamp it, store the summary.
     */
    method CompressContext(now: nat) returns (compressed: CompressedContext)
      requires Valid()
      modifies this
      ensures Valid()
      ensures compressed == StructuredCompression(old(context), now)
      ensures compressed.originalMessageCount == |old(context)|
      ensures Scan(context, cache) == Retain(old(context), old(cache))
      ensures stats.compressionCount == old(stats.compressionCount) + 1
      ensures stats.lastCompression == Some(now)
      ensures history == old(history) + [compressed]
      ensures maxTokens == old(maxTokens)
    {
      compressed := StructuredCompression(context, now);
      RetainImportantMessages();
      ghost var retained := Scan(context, cache);
      var counted := stats.(compressionCount := stats.compressionCount + 1, lastCompression := Some(now));
      assert counted.maxTokens == maxTokens && |history| + 1 <= counted.compressionCount;
      stats := counted;
      history := history + [compressed];
      UpdateStats();
      assert Scan(context, cache) == retained;
    }

    /**
     * `add_message`: append at the back, recompute the statistics, then
     * compress when the new usage ratio exceeds 92%.
     */
    method AddMessage(m: Message, now: nat)
      requires Valid()
      modifies this
      ensures Valid()
      ensures maxTokens == old(maxTokens)
      ensures var appended := old(context) + [m];
        if Exceeds(Ratio(EstimateTokens(appended), maxTokens), CompressionThresholdPercent) then
          && Scan(context, cache) == Retain(appended, old(cache))
          && history == old(history) + [StructuredCompression(appended, now)]
          && stats.compressionCount == old(stats.compressionCount) + 1
          && stats.lastCompression == Some(now)
        else
          && context == appended
          && cache == old(cache)
          && history == old(history)
          && stats.compressionCount == old(stats.compressionCount)
          && stats.lastCompression == old(stats.lastCompression)
    {
      context := context + [m];
      UpdateStats();
      if ShouldCompress() {
        var _ := CompressContext(now);
      }
    }

    /** `clear_compression_history`. */
    method ClearCompressionHistory()
      requires Valid()
      modifies this`history
      ensures Valid() && history == []
    {
      history := [];
    }
  }
}
