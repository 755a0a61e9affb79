/**
 * The player-command parser: command type by the most matching patterns,
 * the first listed action verb, the listed target nouns, an intensity word,
 * an urgency level, a clamped impact prediction, a confidence value and the
 * validation verdict, plus the suggestion list. Regular-expression search is
 * the abstract predicate `search(pattern, text)`.
 */
module CommandParser {
  import opened Wrappers
  import opened Text
  import opened Builtins

  datatype CommandType =
    | CommunityAction | EconomicPolicy | SocialEvent | EducationInitiative | HealthProgram
    | Infrastructure | EmergencyResponse | ResearchProject | Unknown

  /** The patterns of one command type. */
  datatype PatternRow = PatternRow(kind: CommandType, patterns: seq<string>)

  /** The expected change of the four community stats. */
  datatype Impact = Impact(happiness: int, health: int, education: int, economy: int)

  /** Stat-wise sum of two impacts. */
  function Add(a: Impact, b: Impact): Impact
  {
    Impact(a.happiness + b.happiness, a.health + b.health, a.education + b.education, a.economy + b.economy)
  }

  /** The zero impact is neutral for the sum. */
  lemma AddZero(x: Impact)
    ensures Add(Impact(0, 0, 0, 0), x) == x && Add(x, Impact(0, 0, 0, 0)) == x
  {
  }

  /** The sum is associative. */
  lemma AddAssoc(x: Impact, y: Impact, z: Impact)
    ensures Add(x, Add(y, z)) == Add(Add(x, y), z)
  {
  }

  /** The fixed tables of the parser (patterns and action impacts are fields of `CommandParser`, the rest locals). */
  datatype Tables = Tables(patterns: seq<PatternRow>, verbs: seq<string>, nouns: seq<string>,
                           intensityWords: seq<(string, int)>, urgency: seq<(int, seq<string>)>,
                           impacts: seq<(string, Impact)>)

  const CommandPatterns: seq<PatternRow> := [
    PatternRow(CommunityAction, ["组织|举办|开展|发起|启动.*?(活动|聚会|庆祝|节日|比赛)",
                                 "建立|创建|成立.*?(组织|团体|社团|俱乐部)",
                                 "改善|提升|增强.*?(社区|氛围|环境|关系)"]),
    PatternRow(EconomicPolicy, ["(增加|减少|调整).*?(税收|补贴|工资|价格|投资)",
                                "(制定|实施|修改).*?(经济|财政|金融).*?政策",
                                "(开设|关闭|扩大).*?(商店|市场|工厂|企业)"]),
    PatternRow(SocialEvent, ["(举行|召开|组织).*?(会议|大会|集会|论坛)",
                             "(庆祝|纪念|哀悼).*?(节日|纪念日|事件)",
                             "(解决|处理|调解).*?(冲突|纠纷|争议)"]),
    PatternRow(EducationInitiative, ["(建设|改善|升级).*?(学校|教育|培训)",
                                     "(开设|增加|取消).*?(课程|课堂|培训)",
                                     "(提高|改善|加强).*?(教育|学习|知识)"]),
    PatternRow(HealthProgram, ["(建设|改善|升级).*?(医院|诊所|卫生)",
                               "(开展|实施|推广).*?(健康|医疗|卫生).*?计划",
                               "(预防|治疗|控制).*?(疾病|传染病|健康问题)"]),
    PatternRow(Infrastructure, ["(建设|修建|改善).*?(道路|桥梁|建筑|设施)",
                                "(升级|维护|修复).*?(基础设施|公共设施)",
                                "(安装|建立|完善).*?(水电|通信|交通)"]),
    PatternRow(EmergencyResponse, ["(应对|处理|解决).*?(紧急|危机|灾难|事故)",
                                   "(撤离|救援|援助|支持).*?(居民|灾民|受害者)",
                                   "(宣布|进入|解除).*?(紧急状态|戒严|警报)"]),
    PatternRow(ResearchProject, ["(开展|启动|推进).*?(研究|调查|实验|项目)",
                                 "(发明|创新|开发).*?(技术|产品|方法)",
                                 "(探索|发现|研究).*?(科学|知识|真理)"])
  ]

  const ActionImpacts: seq<(string, Impact)> := [
    ("庆祝", Impact(15, 5, 0, -5)), ("节日", Impact(20, 0, 0, 10)), ("聚会", Impact(10, -5, 5, 5)),
    ("建设", Impact(5, 10, 5, -10)), ("教育", Impact(5, 0, 15, -5)), ("医疗", Impact(10, 20, 0, -10)),
    ("投资", Impact(-5, 0, 0, 15)), ("创新", Impact(5, 0, 10, 10)), ("税收", Impact(-10, 0, 0, 10)),
    ("紧急", Impact(-15, -10, 0, -5)), ("危机", Impact(-20, -15, -5, -15)), ("冲突", Impact(-25, -10, -10, -10)),
    ("灾难", Impact(-30, -25, -5, -20)), ("会议", Impact(-5, 0, 5, 0)), ("调查", Impact(0, 0, 10, 0)),
    ("维护", Impact(0, 5, 0, -5))
  ]

  const ActionVerbs: seq<string> := [
    "建设", "建立", "建造", "修建", "组织", "举办", "开展", "发起",
    "启动", "实施", "推行", "执行", "制定", "调整", "改善", "提升",
    "增加", "减少", "取消", "关闭", "开设", "创建", "成立", "解决",
    "处理", "应对", "预防", "治疗", "控制", "维护", "修复", "升级"
  ]

  const TargetNouns: seq<string> := [
    "活动", "聚会", "节日", "庆祝", "比赛", "会议", "学校", "医院",
    "道路", "桥梁", "公园", "市场", "工厂", "住房", "设施", "社区",
    "居民", "政策", "法律", "规则", "计划", "项目", "研究", "投资"
  ]

  /** The intensity words as written in the dictionary literal, duplicate key included. */
  const IntensityLiteral: seq<(string, int)> := [
    ("轻微", 1), ("稍微", 1), ("略微", 1), ("适当", 2), ("一般", 2), ("正常", 2),
    ("大幅", 3), ("显著", 3), ("明显", 3), ("极大", 4), ("巨大", 4), ("彻底", 4),
    ("完全", 5), ("全面", 5), ("彻底", 5)
  ]

  const UrgencyLevels: seq<(int, seq<string>)> := [
    (5, ["紧急", "立即", "马上", "危机", "灾难", "严重"]),
    (4, ["尽快", "急需", "重要", "关键", "迫切"]),
    (3, ["及时", "必要", "应该", "需要"]),
    (2, ["适当", "考虑", "建议", "可以"]),
    (1, ["将来", "以后", "有空", "有时间"])
  ]

  const DefaultAction: string := "执行"

  // ---------------------------------------------------------------------
  // _detect_command_type
  // ---------------------------------------------------------------------

  /** How many of `patterns` the search finds in `text`. */
  function PatternHits(patterns: seq<string>, text: string, search: (string, string) -> bool): (n: nat)
    ensures n <= |patterns|
  {
    if patterns == [] then 0
    else (if search(patterns[0], text) then 1 else 0) + PatternHits(patterns[1..], text, search)
  }

  /** The hits of row `k` of the table. */
  function RowHits(table: seq<PatternRow>, k: nat, text: string, search: (string, string) -> bool): nat
    requires k < |table|
  {
    PatternHits(table[k].patterns, text, search)
  }

  /** The inner loop: `matches` counts the patterns found. */
  method CountMatches(patterns: seq<string>, text: string, search: (string, string) -> bool) returns (matches: nat)
    ensures matches == PatternHits(patterns, text, search)
  {
    matches := 0;
    var i := 0;
    while i < |patterns|
      invariant 0 <= i <= |patterns|
      invariant PatternHits(patterns, text, search) == matches + PatternHits(patterns[i..], text, search)
    {
      assert patterns[i..][1..] == patterns[i + 1..];
      if search(patterns[i], text) {
        matches := matches + 1;
      }
      i := i + 1;
    }
  }

  /**
   * `_detect_command_type`: the type with strictly the most matching patterns,
   * the earliest one on a tie, and `Unknown` when no pattern matches.
   */
  method DetectCommandType(table: seq<PatternRow>, text: string, search: (string, string) -> bool)
    returns (kind: CommandType)
    ensures (forall k :: 0 <= k < |table| ==> RowHits(table, k, text, search) == 0) ==> kind == Unknown
    ensures (exists k :: 0 <= k < |table| && RowHits(table, k, text, search) > 0) ==>
      exists b :: 0 <= b < |table| && kind == table[b].kind && RowHits(table, b, text, search) > 0
        && (forall k :: 0 <= k < |table| ==> RowHits(table, k, text, search) <= RowHits(table, b, text, search))
        && (forall k :: 0 <= k < b ==> RowHits(table, k, text, search) < RowHits(table, b, text, search))
  {
    var maxMatches := 0;
    kind := Unknown;
    var best := 0;
    var i := 0;
    while i < |table|
      invariant 0 <= i <= |table|
      invariant maxMatches == 0 ==> kind == Unknown && forall k :: 0 <= k < i ==> RowHits(table, k, text, search) == 0
      invariant maxMatches > 0 ==>
        best < i && kind == table[best].kind && RowHits(table, best, text, search) == maxMatches
        && (forall k :: 0 <= k < i ==> RowHits(table, k, text, search) <= maxMatches)
        && (forall k :: 0 <= k < best ==> RowHits(table, k, text, search) < maxMatches)
    {
      var matches := CountMatches(table[i].patterns, text, search);
      if matches > maxMatches {
        maxMatches := matches;
        kind := table[i].kind;
        best := i;
      }
      i := i + 1;
    }
  }

  /** The same decision as a function, for the properties of a whole parse. */
  function CommandTypeOf(table: seq<PatternRow>, text: string, search: (string, string) -> bool): CommandType
  {
    TypeFrom(table, 0, text, search, 0, Unknown)
  }

  /** The loop of `_detect_command_type` from row `i` on, with the current maximum and type. */
  function TypeFrom(table: seq<PatternRow>, i: nat, text: string, search: (string, string) -> bool,
                    maxMatches: nat, kind: CommandType): CommandType
    decreases |table| - i
  {
    if i >= |table| then kind
    else if RowHits(table, i, text, search) > maxMatches then
      TypeFrom(table, i + 1, text, search, RowHits(table, i, text, search), table[i].kind)
    else TypeFrom(table, i + 1, text, search, maxMatches, kind)
  }

  /** When no pattern of any row matches, the type is `Unknown`. */
  lemma {:induction false} NoMatchIsUnknown(table: seq<PatternRow>, i: nat, text: string,
                                            search: (string, string) -> bool)
    requires forall k :: i <= k < |table| ==> RowHits(table, k, text, search) == 0
    ensures TypeFrom(table, i, text, search, 0, Unknown) == Unknown
    decreases |table| - i
  {
    if i < |table| {
      NoMatchIsUnknown(table, i + 1, text, search);
    }
  }

  // ---------------------------------------------------------------------
  // _extract_action_and_targets
  // ---------------------------------------------------------------------

  /** The first of `words` that occurs in `text`, or `default`. */
  function FirstPresent(words: seq<string>, text: string, default: string): string
  {
    if words == [] then default
    else if Contains(text, words[0]) then words[0]
    else FirstPresent(words[1..], text, default)
  }

  /** The first listed word present wins; with none present the default is kept. */
  lemma {:induction false} FirstPresentSpec(words: seq<string>, text: string, default: string)
    ensures !ContainsAny(text, words) ==> FirstPresent(words, text, default) == default
    ensures ContainsAny(text, words) ==>
      exists i :: 0 <= i < |words| && FirstPresent(words, text, default) == words[i] && Contains(text, words[i])
        && forall k :: 0 <= k < i ==> !Contains(text, words[k])
  {
    if words != [] {
      var rest := words[1..];
      FirstPresentSpec(rest, text, default);
      if Contains(text, words[0]) {
        assert FirstPresent(words, text, default) == words[0];
      } else {
        if ContainsAny(text, words) {
          var j :| 0 <= j < |words| && Contains(text, words[j]);
          assert Contains(text, rest[j - 1]);
          var i :| 0 <= i < |rest| && FirstPresent(rest, text, default) == rest[i] && Contains(text, rest[i])
                   && forall k :: 0 <= k < i ==> !Contains(text, rest[k]);
          assert forall k :: 0 < k < i + 1 ==> words[k] == rest[k - 1];
          assert words[i + 1] == rest[i];
        } else {
          assert !ContainsAny(text, rest) by {
            forall k | 0 <= k < |rest| ensures !Contains(text, rest[k]) {
              assert rest[k] == words[k + 1];
            }
          }
        }
      }
    }
  }

  /** `_extract_action_and_targets`: the first listed verb present (or "执行") and every listed noun present. */
  method ExtractActionAndTargets(verbs: seq<string>, nouns: seq<string>, text: string)
    returns (action: string, targets: seq<string>)
    ensures action == FirstPresent(verbs, text, DefaultAction)
    ensures targets == Present(nouns, text)
  {
    action := DefaultAction;
    var i := 0;
    while i < |verbs|
      invariant 0 <= i <= |verbs|
      invariant FirstPresent(verbs, text, DefaultAction) == FirstPresent(verbs[i..], text, DefaultAction)
    {
      assert verbs[i..][1..] == verbs[i + 1..];
      if Contains(text, verbs[i]) {
        action := verbs[i];
        break;
      }
      i := i + 1;
    }
    targets := [];
    var j := 0;
    while j < |nouns|
      invariant 0 <= j <= |nouns|
      invariant Present(nouns, text) == targets + Present(nouns[j..], text)
    {
      assert nouns[j..][1..] == nouns[j + 1..];
      var found := if Contains(text, nouns[j]) then [nouns[j]] else [];
      assert Present(nouns[j..], text) == found + Present(nouns[j + 1..], text);
      assert targets + Present(nouns[j..], text) == (targets + found) + Present(nouns[j + 1..], text);
      targets := targets + found;
      j := j + 1;
    }
  }

  // ---------------------------------------------------------------------
  // _extract_parameters (intensity)
  // ---------------------------------------------------------------------

  /** A dictionary literal: every pair assigned in turn, so a repeated key keeps its first place and its last value. */
  function DictLiteral(pairs: seq<(string, int)>, acc: seq<(string, int)>): seq<(string, int)>
  {
    if pairs == [] then acc else DictLiteral(pairs[1..], Assign(acc, pairs[0].0, pairs[0].1))
  }

  /** The intensity dictionary Python builds from the literal: "彻底" keeps the 12th place and the value 5. */
  const IntensityWords: seq<(string, int)> := [
    ("轻微", 1), ("稍微", 1), ("略微", 1), ("适当", 2), ("一般", 2), ("正常", 2),
    ("大幅", 3), ("显著", 3), ("明显", 3), ("极大", 4), ("巨大", 4), ("彻底", 5),
    ("完全", 5), ("全面", 5)
  ]

  /** The keys of `d` are pairwise different. */
  predicate DistinctKeys(d: seq<(string, int)>)
  {
    forall i, j :: 0 <= i < j < |d| ==> d[i].0 != d[j].0
  }

  /** Pairs with fresh, distinct keys are appended in order. */
  lemma {:induction false} DictLiteralFresh(pairs: seq<(string, int)>, acc: seq<(string, int)>)
    requires DistinctKeys(acc + pairs)
    ensures DictLiteral(pairs, acc) == acc + pairs
  {
    if pairs != [] {
      assert forall i :: 0 <= i < |acc| ==> acc[i].0 == (acc + pairs)[i].0;
      assert pairs[0] == (acc + pairs)[|acc|];
      AssignNew(acc, pairs[0].0, pairs[0].1);
      assert acc + [pairs[0]] + pairs[1..] == acc + pairs;
      DictLiteralFresh(pairs[1..], acc + [pairs[0]]);
    }
  }

  /** The first characters of the first fourteen intensity words. */
  const IntensityHeads: string := "轻稍略适一正大显明极巨彻完全"

  /** Those first characters are pairwise different. */
  lemma HeadsDistinct()
    ensures forall i, j :: 0 <= i < j < |IntensityHeads| ==> IntensityHeads[i] != IntensityHeads[j]
  {
    var h := IntensityHeads;
    assert |h| == 14;
    assert forall i :: 0 <= i < 1 ==> h[i] != h[1];
    assert forall i :: 0 <= i < 2 ==> h[i] != h[2];
    assert forall i :: 0 <= i < 3 ==> h[i] != h[3];
    assert forall i :: 0 <= i < 4 ==> h[i] != h[4];
    assert forall i :: 0 <= i < 5 ==> h[i] != h[5];
    assert forall i :: 0 <= i < 6 ==> h[i] != h[6];
    assert forall i :: 0 <= i < 7 ==> h[i] != h[7];
    assert forall i :: 0 <= i < 8 ==> h[i] != h[8];
    assert forall i :: 0 <= i < 9 ==> h[i] != h[9];
    assert forall i :: 0 <= i < 10 ==> h[i] != h[10];
    assert forall i :: 0 <= i < 11 ==> h[i] != h[11];
    assert forall i :: 0 <= i < 12 ==> h[i] != h[12];
    assert forall i :: 0 <= i < 13 ==> h[i] != h[13];
  }

  /** The literal's first fourteen words, which hold every key once. */
  lemma FirstKeysDistinct()
    ensures DistinctKeys(IntensityLiteral[..14])
  {
    var first := IntensityLiteral[..14];
    assert forall i :: 0 <= i < 14 ==> |first[i].0| > 0 && first[i].0[0] == IntensityHeads[i];
    HeadsDistinct();
  }

  /** The literal is its first fourteen words followed by the second "彻底". */
  lemma LiteralEndsWithRepeat()
    ensures IntensityLiteral == IntensityLiteral[..14] + [("彻底", 5)]
  {
  }

  /** Giving the first "彻底" the value 5 yields the dictionary. */
  lemma RepeatReplacesValue()
    ensures IntensityLiteral[..14][11 := ("彻底", 5)] == IntensityWords
  {
  }

  /** The literal evaluates to that dictionary: the repeated "彻底" keeps its place and takes the value 5. */
  lemma IntensityDictionary()
    ensures DictLiteral(IntensityLiteral, []) == IntensityWords
  {
    var first := IntensityLiteral[..14];
    var last := [("彻底", 5)];
    assert [] + first == first;
    FirstKeysDistinct();
    DictLiteralFresh(first, []);
    LiteralEndsWithRepeat();
    DictLiteralSplit(first, last, []);
    assert DictLiteral(last, first) == Assign(first, "彻底", 5);
    assert first[11].0 == "彻底";
    AssignExisting(first, 11, "彻底", 5);
    RepeatReplacesValue();
  }

  /** Evaluating a literal in two parts. */
  lemma {:induction false} DictLiteralSplit(p: seq<(string, int)>, q: seq<(string, int)>, acc: seq<(string, int)>)
    ensures DictLiteral(p + q, acc) == DictLiteral(q, DictLiteral(p, acc))
  {
    if p != [] {
      var a := Assign(acc, p[0].0, p[0].1);
      assert (p + q)[1..] == p[1..] + q && (p + q)[0] == p[0];
      assert DictLiteral(p + q, acc) == DictLiteral(p[1..] + q, a);
      assert DictLiteral(p, acc) == DictLiteral(p[1..], a);
      DictLiteralSplit(p[1..], q, a);
    } else {
      assert p + q == q;
    }
  }

  /** The value of the first word of `table` present in `text`, or `default` (the loop's `for ... else`). */
  function FirstValue(table: seq<(string, int)>, text: string, default: int): int
  {
    if table == [] then default
    else if Contains(text, table[0].0) then table[0].1
    else FirstValue(table[1..], text, default)
  }

  /** `parameters["intensity"]`: the loop with `break` and its `else` default of 2. */
  method ExtractIntensity(table: seq<(string, int)>, text: string) returns (intensity: int)
    ensures intensity == FirstValue(table, text, 2)
  {
    var i := 0;
    while i < |table|
      invariant 0 <= i <= |table|
      invariant FirstValue(table, text, 2) == FirstValue(table[i..], text, 2)
    {
      assert table[i..][1..] == table[i + 1..];
      if Contains(text, table[i].0) {
        return table[i].1;
      }
      i := i + 1;
    }
    intensity := 2;
  }

  /** The intensity is one of the table's values or the default. */
  lemma {:induction false} FirstValueFrom(table: seq<(string, int)>, text: string, default: int)
    ensures FirstValue(table, text, default) == default
         || exists k :: 0 <= k < |table| && FirstValue(table, text, default) == table[k].1 && Contains(text, table[k].0)
  {
    if table != [] && !Contains(text, table[0].0) {
      FirstValueFrom(table[1..], text, default);
      if FirstValue(table, text, default) != default {
        var k :| 0 <= k < |table[1..]| && FirstValue(table[1..], text, default) == table[1..][k].1
                 && Contains(text, table[1..][k].0);
        assert table[k + 1] == table[1..][k];
      }
    }
  }

  /** The intensity parameter is in 1..5; "彻底" alone gives 5. */
  lemma IntensityRange(text: string)
    ensures 1 <= FirstValue(IntensityWords, text, 2) <= 5
    ensures Contains(text, "彻底") && (forall k :: 0 <= k < 11 ==> !Contains(text, IntensityWords[k].0)) ==>
      FirstValue(IntensityWords, text, 2) == 5
  {
    FirstValueFrom(IntensityWords, text, 2);
    if Contains(text, "彻底") && (forall k :: 0 <= k < 11 ==> !Contains(text, IntensityWords[k].0)) {
      assert IntensityWords[11..] == [("彻底", 5), ("完全", 5), ("全面", 5)];
      var k := 0;
      while k < 11
        invariant 0 <= k <= 11
        invariant FirstValue(IntensityWords, text, 2) == FirstValue(IntensityWords[k..], text, 2)
      {
        assert !Contains(text, IntensityWords[k].0);
        assert IntensityWords[k..][1..] == IntensityWords[k + 1..];
        k := k + 1;
      }
    }
  }

  // ---------------------------------------------------------------------
  // _assess_urgency
  // ---------------------------------------------------------------------

  /** The first level (levels listed from 5 down to 1) with a keyword in `text`, or 2. */
  function Urgency(levels: seq<(int, seq<string>)>, text: string): int
  {
    if levels == [] then 2
    else if ContainsAny(text, levels[0].1) then levels[0].0
    else Urgency(levels[1..], text)
  }

  /** Levels strictly descending, each in 1..5. */
  predicate LevelsDescending(levels: seq<(int, seq<string>)>)
  {
    (forall k :: 0 <= k < |levels| ==> 1 <= levels[k].0 <= 5)
    && forall j, k :: 0 <= j < k < |levels| ==> levels[j].0 > levels[k].0
  }

  /** The urgency is the highest level with a keyword present, in 1..5, and 2 when nothing matches. */
  lemma {:induction false} UrgencySpec(levels: seq<(int, seq<string>)>, text: string)
    requires LevelsDescending(levels)
    ensures 1 <= Urgency(levels, text) <= 5
    ensures (forall k :: 0 <= k < |levels| ==> !ContainsAny(text, levels[k].1)) ==> Urgency(levels, text) == 2
    ensures forall k :: 0 <= k < |levels| && ContainsAny(text, levels[k].1) ==> Urgency(levels, text) >= levels[k].0
    ensures (exists k :: 0 <= k < |levels| && ContainsAny(text, levels[k].1)) ==>
      exists k :: 0 <= k < |levels| && ContainsAny(text, levels[k].1) && Urgency(levels, text) == levels[k].0
  {
    if levels != [] {
      var rest := levels[1..];
      assert LevelsDescending(rest);
      UrgencySpec(rest, text);
      if !ContainsAny(text, levels[0].1) {
        assert forall k :: 0 < k < |levels| ==> levels[k] == rest[k - 1];
        if exists k :: 0 <= k < |levels| && ContainsAny(text, levels[k].1) {
          var k :| 0 <= k < |levels| && ContainsAny(text, levels[k].1);
          assert ContainsAny(text, rest[k - 1].1);
        }
      }
    }
  }

  /** The table of the source is such a list. */
  lemma UrgencyLevelsDescending()
    ensures LevelsDescending(UrgencyLevels)
  {
  }

  // ---------------------------------------------------------------------
  // _predict_impact
  // ---------------------------------------------------------------------

  /** `action_keywords[action]`, if present. */
  function Lookup(table: seq<(string, Impact)>, key: string): Option<Impact>
  {
    if table == [] then None
    else if table[0].0 == key then Some(table[0].1)
    else Lookup(table[1..], key)
  }

  /** The sum of the impacts of every keyword present in `text`. */
  function KeywordImpact(table: seq<(string, Impact)>, text: string): Impact
  {
    if table == [] then Impact(0, 0, 0, 0)
    else Add(if Contains(text, table[0].0) then table[0].1 else Impact(0, 0, 0, 0), KeywordImpact(table[1..], text))
  }

  /** The text holds one of the six words that adjust the predicted impact. */
  predicate HasIntensityWord(text: string)
  {
    Contains(text, "大幅") || Contains(text, "显著") || Contains(text, "轻微")
    || Contains(text, "稍微") || Contains(text, "极大") || Contains(text, "巨大")
  }

  /** The intensity factor of `_predict_impact` as a fraction: 1.5, 0.5, 2.0 or 1.0. */
  function ImpactFactor(text: string): (f: (int, int))
    ensures f == (3, 2) || f == (1, 2) || f == (2, 1) || f == (1, 1)
    ensures f == (1, 1) <==> !HasIntensityWord(text)
  {
    if Contains(text, "大幅") || Contains(text, "显著") then (3, 2)
    else if Contains(text, "轻微") || Contains(text, "稍微") then (1, 2)
    else if Contains(text, "极大") || Contains(text, "巨大") then (2, 1)
    else (1, 1)
  }

  /** `max(-50, min(50, int(value * factor)))`. */
  function ScaleStat(value: int, factor: (int, int)): (r: int)
    requires factor.1 > 0
    ensures -50 <= r <= 50
  {
    var x := TruncDiv(value * factor.0, factor.1);
    if x > 50 then 50 else if x < -50 then -50 else x
  }

  function ScaleImpact(base: Impact, factor: (int, int)): Impact
    requires factor.1 > 0
  {
    Impact(ScaleStat(base.happiness, factor), ScaleStat(base.health, factor), ScaleStat(base.education, factor),
           ScaleStat(base.economy, factor))
  }

  /** The base impact: the action's own entry, or the sum over every keyword present. */
  function BaseImpact(table: seq<(string, Impact)>, text: string, action: string): Impact
  {
    match Lookup(table, action)
    case Some(v) => v
    case None => KeywordImpact(table, text)
  }

  /** `_predict_impact`. */
  function PredictedImpact(table: seq<(string, Impact)>, text: string, action: string): Impact
  {
    ScaleImpact(BaseImpact(table, text, action), ImpactFactor(text))
  }

  /** `_predict_impact` with its keyword loop. */
  method PredictImpact(table: seq<(string, Impact)>, text: string, action: string) returns (impact: Impact)
    ensures impact == PredictedImpact(table, text, action)
  {
    var base: Impact;
    var entry := Lookup(table, action);
    if entry.Some? {
      base := entry.value;
    } else {
      base := Impact(0, 0, 0, 0);
      assert table[0..] == table;
      AddZero(KeywordImpact(table, text));
      var i := 0;
      while i < |table|
        invariant 0 <= i <= |table|
        invariant KeywordImpact(table, text) == Add(base, KeywordImpact(table[i..], text))
      {
        assert table[i..][1..] == table[i + 1..];
        var here := if Contains(text, table[i].0) then table[i].1 else Impact(0, 0, 0, 0);
        AddAssoc(base, here, KeywordImpact(table[i + 1..], text));
        base := Add(base, here);
        i := i + 1;
      }
      assert table[i..] == [];
      AddZero(base);
    }
    assert base == BaseImpact(table, text, action);
    impact := ScaleImpact(base, ImpactFactor(text));
  }

  /**
   * Every predicted stat change is in [-50, 50]; an action with its own entry
   * ignores the other keywords, and a neutral text keeps the entry's values.
   */
  lemma PredictedImpactSpec(table: seq<(string, Impact)>, text: string, action: string)
    ensures var i := PredictedImpact(table, text, action);
      -50 <= i.happiness <= 50 && -50 <= i.health <= 50 && -50 <= i.education <= 50 && -50 <= i.economy <= 50
    ensures Lookup(table, action).Some? ==>
      forall other :: ImpactFactor(other) == ImpactFactor(text) ==>
        PredictedImpact(table, other, action) == PredictedImpact(table, text, action)
  {
  }

  /** With no keyword present and no action entry, nothing is predicted. */
  lemma {:induction false} NoKeywordNoImpact(table: seq<(string, Impact)>, text: string)
    requires forall k :: 0 <= k < |table| ==> !Contains(text, table[k].0)
    ensures KeywordImpact(table, text) == Impact(0, 0, 0, 0)
  {
    if table != [] {
      var rest := table[1..];
      assert !Contains(text, table[0].0);
      forall k | 0 <= k < |rest| ensures !Contains(text, rest[k].0) {
        assert rest[k].0 == table[k + 1].0;
      }
      NoKeywordNoImpact(rest, text);
    }
  }

  // ---------------------------------------------------------------------
  // _calculate_confidence and validate_command
  // ---------------------------------------------------------------------

  /** The keys of the impact table, in table order. */
  function Keys(table: seq<(string, Impact)>): (ks: seq<string>)
    ensures |ks| == |table| && forall k :: 0 <= k < |table| ==> ks[k] == table[k].0
  {
    if table == [] then [] else [table[0].0] + Keys(table[1..])
  }

  /** `_calculate_confidence`, with the keyword matches counted over the impact table. */
  function Confidence(text: string, kind: CommandType, action: string, keywordMatches: nat): real
  {
    var c := (if kind != Unknown then 0.3 else 0.0) + (if action != DefaultAction then 0.3 else 0.0)
      + (if |text| > 5 then 0.2 else 0.0)
      + (if keywordMatches > 0 then (if 0.2 < keywordMatches as real * 0.1 then 0.2 else keywordMatches as real * 0.1)
         else 0.0);
    if c < 1.0 then c else 1.0
  }

  /**
   * Confidence is in [0, 1] (the cap is never needed), and it reaches the
   * 0.3 threshold exactly when the type is known, the action is not the
   * default, or a text longer than 5 characters has a keyword.
   */
  lemma ConfidenceSpec(text: string, kind: CommandType, action: string, keywordMatches: nat)
    ensures 0.0 <= Confidence(text, kind, action, keywordMatches) <= 1.0
    ensures Confidence(text, kind, action, keywordMatches) >= 0.3 <==>
      kind != Unknown || action != DefaultAction || (|text| > 5 && keywordMatches > 0)
    ensures kind == Unknown ==>
      (Confidence(text, kind, action, keywordMatches) >= 0.5 <==>
         action != DefaultAction && (|text| > 5 || keywordMatches >= 2))
  {
  }

  /** A parsed command. */
  datatype ParsedCommand = ParsedCommand(originalText: string, commandType: CommandType, action: string,
                                         targets: seq<string>, intensity: int, urgency: int, expectedImpact: Impact,
                                         confidence: real)

  /** The verdict of `validate_command`, by its message. */
  datatype Verdict = Valid | LowConfidence | EmptyCommand | TooLong | UnrecognisedType

  /** `validate_command`: the checks in the order of the source. */
  function Validate(cmd: ParsedCommand): Verdict
  {
    if cmd.confidence < 0.3 then LowConfidence
    else if Strip(cmd.originalText) == [] then EmptyCommand
    else if |cmd.originalText| > 500 then TooLong
    else if cmd.commandType == Unknown && cmd.confidence < 0.5 then UnrecognisedType
    else Valid
  }

  /** A command is valid exactly when it passes every check. */
  lemma ValidateSpec(cmd: ParsedCommand)
    ensures Validate(cmd) == Valid <==>
      cmd.confidence >= 0.3 && Strip(cmd.originalText) != [] && |cmd.originalText| <= 500
      && (cmd.commandType != Unknown || cmd.confidence >= 0.5)
    ensures cmd.confidence < 0.3 ==> Validate(cmd) == LowConfidence
  {
  }

  /** `parse_command` as a function of the stripped text. */
  function Parsed(t: Tables, text: string, search: (string, string) -> bool): ParsedCommand
  {
    var s := Strip(text);
    var kind := CommandTypeOf(t.patterns, s, search);
    var action := FirstPresent(t.verbs, s, DefaultAction);
    ParsedCommand(s, kind, action, Present(t.nouns, s), FirstValue(t.intensityWords, s, 2), Urgency(t.urgency, s),
                  PredictedImpact(t.impacts, s, action), Confidence(s, kind, action, HitCount(Keys(t.impacts), s)))
  }

  /** `parse_command`: strips the text and runs every extractor. */
  method ParseCommand(t: Tables, text: string, search: (string, string) -> bool) returns (cmd: ParsedCommand)
    ensures cmd == Parsed(t, text, search)
  {
    var s := Strip(text);
    var kind := DetectCommandType(t.patterns, s, search);
    TypeAgrees(t.patterns, s, search, kind);
    var action, targets := ExtractActionAndTargets(t.verbs, t.nouns, s);
    var intensity := ExtractIntensity(t.intensityWords, s);
    var impact := PredictImpact(t.impacts, s, action);
    cmd := ParsedCommand(s, kind, action, targets, intensity, Urgency(t.urgency, s), impact,
                         Confidence(s, kind, action, HitCount(Keys(t.impacts), s)));
  }

  /** The loop of `DetectCommandType` and the function agree: both are the first strict maximum. */
  lemma TypeAgrees(table: seq<PatternRow>, text: string, search: (string, string) -> bool, kind: CommandType)
    requires (forall k :: 0 <= k < |table| ==> RowHits(table, k, text, search) == 0) ==> kind == Unknown
    requires (exists k :: 0 <= k < |table| && RowHits(table, k, text, search) > 0) ==>
      exists b :: 0 <= b < |table| && kind == table[b].kind && RowHits(table, b, text, search) > 0
        && (forall k :: 0 <= k < |table| ==> RowHits(table, k, text, search) <= RowHits(table, b, text, search))
        && (forall k :: 0 <= k < b ==> RowHits(table, k, text, search) < RowHits(table, b, text, search))
    ensures kind == CommandTypeOf(table, text, search)
  {
    if forall k :: 0 <= k < |table| ==> RowHits(table, k, text, search) == 0 {
      NoMatchIsUnknown(table, 0, text, search);
    } else {
      var b :| 0 <= b < |table| && kind == table[b].kind && RowHits(table, b, text, search) > 0
        && (forall k :: 0 <= k < |table| ==> RowHits(table, k, text, search) <= RowHits(table, b, text, search))
        && (forall k :: 0 <= k < b ==> RowHits(table, k, text, search) < RowHits(table, b, text, search));
      TypeFromBefore(table, 0, text, search, 0, Unknown, b);
    }
  }

  /**
   * Before the winning row `b` the running maximum stays below its hits; from
   * `b` on the running type is the winner's.
   */
  lemma {:induction false} TypeFromBefore(table: seq<PatternRow>, i: nat, text: string,
                                          search: (string, string) -> bool, maxMatches: nat, kind: CommandType, b: nat)
    requires i <= b < |table| && RowHits(table, b, text, search) > maxMatches
    requires forall k :: 0 <= k < |table| ==> RowHits(table, k, text, search) <= RowHits(table, b, text, search)
    requires forall k :: i <= k < b ==> RowHits(table, k, text, search) < RowHits(table, b, text, search)
    ensures TypeFrom(table, i, text, search, maxMatches, kind) == table[b].kind
    decreases |table| - i
  {
    if i < b {
      var m := if RowHits(table, i, text, search) > maxMatches then RowHits(table, i, text, search) else maxMatches;
      var kd := if RowHits(table, i, text, search) > maxMatches then table[i].kind else kind;
      assert TypeFrom(table, i, text, search, maxMatches, kind) == TypeFrom(table, i + 1, text, search, m, kd);
      TypeFromBefore(table, i + 1, text, search, m, kd, b);
    } else {
      TypeFromAfter(table, b + 1, text, search, RowHits(table, b, text, search), table[b].kind);
    }
  }

  /** Once the maximum is reached, no later row replaces it. */
  lemma {:induction false} TypeFromAfter(table: seq<PatternRow>, i: nat, text: string,
                                         search: (string, string) -> bool, maxMatches: nat, kind: CommandType)
    requires forall k :: i <= k < |table| ==> RowHits(table, k, text, search) <= maxMatches
    ensures TypeFrom(table, i, text, search, maxMatches, kind) == kind
    decreases |table| - i
  {
    if i < |table| {
      TypeFromAfter(table, i + 1, text, search, maxMatches, kind);
    }
  }

  /**
   * A blank command never reaches the "empty command" verdict: when no
   * pattern matches the empty text, its confidence is 0 and it is refused
   * as too unclear first.
   */
  lemma BlankCommandIsLowConfidence(t: Tables, text: string, search: (string, string) -> bool)
    requires Strip(text) == []
    requires forall k :: 0 <= k < |t.patterns| ==> RowHits(t.patterns, k, [], search) == 0
    requires forall k :: 0 <= k < |t.verbs| ==> t.verbs[k] != []
    requires forall k :: 0 <= k < |t.impacts| ==> t.impacts[k].0 != []
    ensures Validate(Parsed(t, text, search)) == LowConfidence
  {
    NoMatchIsUnknown(t.patterns, 0, [], search);
    assert !ContainsAny([], t.verbs) by {
      forall k | 0 <= k < |t.verbs| ensures !Contains([], t.verbs[k]) {
      }
    }
    FirstPresentSpec(t.verbs, [], DefaultAction);
    var ks := Keys(t.impacts);
    assert !ContainsAny([], ks) by {
      forall k | 0 <= k < |ks| ensures !Contains([], ks[k]) {
        assert ks[k] == t.impacts[k].0;
      }
    }
    assert Parsed(t, text, search).confidence == Confidence([], Unknown, DefaultAction, 0);
  }

  // ---------------------------------------------------------------------
  // get_command_suggestions
  // ---------------------------------------------------------------------

  const Suggestions: seq<string> := [
    "组织一次社区聚会活动", "建设新的医疗诊所", "开设职业技能培训课程", "修建连接各区域的道路",
    "举办文化节庆祝活动", "实施环保政策改善环境", "创建青年创业扶持基金", "开展健康体检活动",
    "建立社区图书馆", "组织志愿者清洁活动"
  ]

  /** `any(word in suggestion for word in partial)`: the two strings share a character. */
  predicate SharesChar(suggestion: string, partial: string)
  {
    exists k :: 0 <= k < |partial| && partial[k] in suggestion
  }

  /** The suggestions sharing a character with `partial`, in list order. */
  function Matching(suggestions: seq<string>, partial: string): (r: seq<string>)
    ensures |r| <= |suggestions|
    ensures forall s :: s in r <==> s in suggestions && SharesChar(s, partial)
  {
    if suggestions == [] then []
    else (if SharesChar(suggestions[0], partial) then [suggestions[0]] else []) + Matching(suggestions[1..], partial)
  }

  /** `get_command_suggestions`. */
  function CommandSuggestions(suggestions: seq<string>, partial: string): (r: seq<string>)
    ensures |r| <= 5
    ensures forall s :: s in r ==> s in suggestions
    ensures partial == [] ==> r == SliceTo(suggestions, 5)
    ensures (forall s :: s in suggestions ==> !SharesChar(s, Lower(partial))) ==> r == SliceTo(suggestions, 5)
    ensures partial != [] && (exists s :: s in suggestions && SharesChar(s, Lower(partial))) ==>
      forall s :: s in r ==> SharesChar(s, Lower(partial))
  {
    if partial == [] then SliceTo(suggestions, 5)
    else
      var filtered := Matching(suggestions, Lower(partial));
      if filtered != [] then
        assert filtered[0] in filtered;
        SliceTo(filtered, 5)
      else SliceTo(suggestions, 5)
  }
}
