/**
 * The prompt-template registry: seven named templates, each a system prompt
 * and a user prompt with `str.format` replacement fields, the parameters a
 * caller must supply, and the lookup that checks and formats them.
 *
 * The prose of the templates carries no behaviour and is elided: a template
 * keeps only its replacement fields, its doubled braces, and the single-brace
 * JSON examples, which `str.format` reads as replacement fields whose name is
 * the text up to the first ':' and whose format spec is the rest.
 */
module Prompts {
  import opened Wrappers
  import opened Text

  datatype PromptType = CommandExecution | AgentResponse | CommunityAnalysis | EventGeneration | ChatResponse | SystemAnalysis

  /** The enum's `.value`. */
  function TypeValue(t: PromptType): string
  {
    match t
    case CommandExecution => "command_execution"
    case AgentResponse => "agent_response"
    case CommunityAnalysis => "community_analysis"
    case EventGeneration => "event_generation"
    case ChatResponse => "chat_response"
    case SystemAnalysis => "system_analysis"
  }

  /**
   * One significant part of a template string: a replacement field `{name}`,
   * a doubled brace `{{` or `}}` standing for the brace itself, or a
   * single-brace JSON example, a replacement field `name` with a format spec
   * that no argument accepts.
   */
  datatype Piece = Field(name: string) | Escaped(brace: char) | JsonExample(name: string)

  datatype PromptTemplate = PromptTemplate(
    name: string,
    kind: PromptType,
    system: seq<Piece>,
    user: seq<Piece>,
    parameters: seq<string>,
    description: string)

  /** Why `str.format` gave up: a `KeyError` naming a field, or a `ValueError` about a format spec. */
  datatype FormatError = KeyError(key: string) | BadSpec

  /** The `ValueError`s `get_prompt` and `get_template_info` raise. */
  datatype PromptError =
    | UnknownTemplate(name: string)
    | MissingParameters(names: seq<string>)
    | FormatFailed(key: string)
    | InvalidSpec

  /** What one piece contributes to `str.format(**kwargs)`. */
  function RenderPiece(p: Piece, kwargs: map<string, string>): Result<string, FormatError>
  {
    match p
    case Field(n) => if n in kwargs then Ok(kwargs[n]) else Err(KeyError(n))
    case Escaped(c) => Ok([c])
    case JsonExample(n) => if n in kwargs then Err(BadSpec) else Err(KeyError(n))
  }

  /** `template.format(**kwargs)`: the pieces left to right, stopping at the first that fails. */
  function Format(pieces: seq<Piece>, kwargs: map<string, string>): Result<string, FormatError>
  {
    if pieces == [] then Ok("")
    else
      match RenderPiece(pieces[0], kwargs)
      case Err(e) => Err(e)
      case Ok(head) =>
        match Format(pieces[1..], kwargs)
        case Err(e) => Err(e)
        case Ok(rest) => Ok(head + rest)
  }

  /** Every piece can be rendered: braces always, fields whose name is supplied. */
  predicate Formattable(pieces: seq<Piece>, kwargs: map<string, string>)
  {
    forall i :: 0 <= i < |pieces| ==> RenderPiece(pieces[i], kwargs).Ok?
  }

  /** `str.format` succeeds exactly when every piece renders, so one JSON example means it never does. */
  lemma {:induction false} FormatSpec(pieces: seq<Piece>, kwargs: map<string, string>)
    ensures Format(pieces, kwargs).Ok? <==> Formattable(pieces, kwargs)
    ensures (exists i :: 0 <= i < |pieces| && pieces[i].JsonExample?) ==> Format(pieces, kwargs).Err?
  {
    if pieces != [] {
      FormatSpec(pieces[1..], kwargs);
      assert forall i :: 1 <= i < |pieces| ==> pieces[i] == pieces[1..][i - 1];
      if exists i :: 0 <= i < |pieces| && pieces[i].JsonExample? {
        var i :| 0 <= i < |pieces| && pieces[i].JsonExample?;
        assert RenderPiece(pieces[i], kwargs).Err?;
      }
    }
  }

  /** A failure is the failure of the first piece that does not render. */
  lemma {:induction false} FormatFirstError(pieces: seq<Piece>, kwargs: map<string, string>)
    ensures Format(pieces, kwargs).Err? ==>
      exists i :: 0 <= i < |pieces| && Formattable(pieces[..i], kwargs)
        && RenderPiece(pieces[i], kwargs) == Err(Format(pieces, kwargs).error)
  {
    if pieces != [] && Format(pieces, kwargs).Err? && RenderPiece(pieces[0], kwargs).Ok? {
      FormatFirstError(pieces[1..], kwargs);
      var j :| 0 <= j < |pieces| - 1 && Formattable(pieces[1..][..j], kwargs)
        && RenderPiece(pieces[1..][j], kwargs) == Err(Format(pieces[1..], kwargs).error);
      assert pieces[..j + 1] == [pieces[0]] + pieces[1..][..j];
      assert Formattable(pieces[..j + 1], kwargs);
    } else if pieces != [] && Format(pieces, kwargs).Err? {
      assert Formattable(pieces[..0], kwargs);
    }
  }

  /** The names a template string looks up. */
  function PieceNames(pieces: seq<Piece>): (r: seq<string>)
    ensures forall i :: 0 <= i < |pieces| && !pieces[i].Escaped? ==> pieces[i].name in r
  {
    if pieces == [] then []
    else (if pieces[0].Escaped? then [] else [pieces[0].name]) + PieceNames(pieces[1..])
  }

  /** `kwargs` and `other` supply the same values under every name in `names`. */
  predicate AgreeOn(kwargs: map<string, string>, other: map<string, string>, names: seq<string>)
  {
    forall n :: n in names ==> (n in kwargs <==> n in other) && (n in kwargs ==> kwargs[n] == other[n])
  }

  /** Formatting depends only on the names the template mentions. */
  lemma {:induction false} FormatLocal(pieces: seq<Piece>, kwargs: map<string, string>, other: map<string, string>)
    requires AgreeOn(kwargs, other, PieceNames(pieces))
    ensures Format(pieces, kwargs) == Format(pieces, other)
  {
    if pieces != [] {
      FormatLocal(pieces[1..], kwargs, other);
    }
  }

  /** The template's parameters that `kwargs` does not supply, in declared order. */
  function Missing(parameters: seq<string>, kwargs: map<string, string>): seq<string>
  {
    if parameters == [] then []
    else
      var last := parameters[|parameters| - 1];
      Missing(parameters[..|parameters| - 1], kwargs) + (if last in kwargs then [] else [last])
  }

  /** The missing list names exactly the absent parameters and nothing else. */
  lemma {:induction false} MissingSpec(parameters: seq<string>, kwargs: map<string, string>)
    ensures forall p :: p in Missing(parameters, kwargs) <==> p in parameters && p !in kwargs
    ensures Missing(parameters, kwargs) == [] <==> forall i :: 0 <= i < |parameters| ==> parameters[i] in kwargs
    ensures |Missing(parameters, kwargs)| <= |parameters|
  {
    if parameters != [] {
      var init := parameters[..|parameters| - 1];
      MissingSpec(init, kwargs);
      assert parameters == init + [parameters[|parameters| - 1]];
      if Missing(parameters, kwargs) == [] {
        assert forall i :: 0 <= i < |init| ==> init[i] in kwargs;
        assert forall i :: 0 <= i < |parameters| ==> parameters[i] in kwargs by {
          forall i | 0 <= i < |parameters| ensures parameters[i] in kwargs {
            if i < |init| { assert parameters[i] == init[i]; }
          }
        }
      }
    }
  }

  /** Checking one more parameter appends it to the list exactly when it is absent: the list keeps declared order. */
  lemma MissingAppend(parameters: seq<string>, p: string, kwargs: map<string, string>)
    ensures Missing(parameters + [p], kwargs) == Missing(parameters, kwargs) + (if p in kwargs then [] else [p])
  {
    assert (parameters + [p])[..|parameters|] == parameters;
  }

  /** Loops over the declared parameters, collecting the absent ones. */
  method CollectMissing(parameters: seq<string>, kwargs: map<string, string>) returns (missing: seq<string>)
    ensures missing == Missing(parameters, kwargs)
  {
    missing := [];
    var i := 0;
    while i < |parameters|
      invariant 0 <= i <= |parameters|
      invariant missing == Missing(parameters[..i], kwargs)
    {
      MissingAppend(parameters[..i], parameters[i], kwargs);
      assert parameters[..i + 1] == parameters[..i] + [parameters[i]];
      if parameters[i] !in kwargs {
        missing := missing + [parameters[i]];
      }
      i := i + 1;
    }
    assert parameters[..i] == parameters;
  }

  /** `name in self.templates` followed by `self.templates[name]`. */
  function Lookup(templates: seq<(string, PromptTemplate)>, name: string): Option<PromptTemplate>
  {
    if templates == [] then None
    else if templates[0].0 == name then Some(templates[0].1)
    else Lookup(templates[1..], name)
  }

  /** Lookup finds a listed name's template and nothing for an unlisted name. */
  lemma {:induction false} LookupSpec(templates: seq<(string, PromptTemplate)>, name: string)
    ensures Lookup(templates, name).None? <==> forall i :: 0 <= i < |templates| ==> templates[i].0 != name
    ensures Lookup(templates, name).Some? ==> exists i :: 0 <= i < |templates| && templates[i] == (name, Lookup(templates, name).value)
  {
    if templates != [] && templates[0].0 != name {
      LookupSpec(templates[1..], name);
      assert forall i :: 1 <= i < |templates| ==> templates[i] == templates[1..][i - 1];
      if Lookup(templates, name).Some? {
        var i :| 0 <= i < |templates| - 1 && templates[1..][i] == (name, Lookup(templates, name).value);
        assert templates[i + 1] == (name, Lookup(templates, name).value);
      }
    } else if templates != [] {
      assert templates[0] == (name, Lookup(templates, name).value);
    }
  }

  /** Lookup of the name listed at position `i` when no earlier entry has that name. */
  lemma {:induction false} LookupAt(templates: seq<(string, PromptTemplate)>, i: nat)
    requires i < |templates|
    requires forall j :: 0 <= j < i ==> templates[j].0 != templates[i].0
    ensures Lookup(templates, templates[i].0) == Some(templates[i].1)
  {
    if i > 0 {
      LookupAt(templates[1..], i - 1);
    }
  }

  /** Formats a template with the caller's arguments, mapping `str.format`'s errors to `ValueError`s. */
  function Fill(t: PromptTemplate, kwargs: map<string, string>): Result<(string, string), PromptError>
  {
    var missing := Missing(t.parameters, kwargs);
    if missing != [] then Err(MissingParameters(missing))
    else
      match (Format(t.system, kwargs), Format(t.user, kwargs))
      case (Err(KeyError(k)), _) => Err(FormatFailed(k))
      case (Err(BadSpec), _) => Err(InvalidSpec)
      case (Ok(_), Err(KeyError(k))) => Err(FormatFailed(k))
      case (Ok(_), Err(BadSpec)) => Err(InvalidSpec)
      case (Ok(s), Ok(u)) => Ok((s, u))
  }

  /** `get_prompt(name, **kwargs)`: the `(system, user)` pair, or the `ValueError` it raises. */
  function Prompt(templates: seq<(string, PromptTemplate)>, name: string, kwargs: map<string, string>): Result<(string, string), PromptError>
  {
    match Lookup(templates, name)
    case None => Err(UnknownTemplate(name))
    case Some(t) => Fill(t, kwargs)
  }

  /** `get_prompt`, with its loop collecting the missing parameters. */
  method GetPrompt(templates: seq<(string, PromptTemplate)>, name: string, kwargs: map<string, string>)
    returns (r: Result<(string, string), PromptError>)
    ensures r == Prompt(templates, name, kwargs)
  {
    var found := Lookup(templates, name);
    if found.None? {
      return Err(UnknownTemplate(name));
    }
    var t := found.value;
    var missing := CollectMissing(t.parameters, kwargs);
    if missing != [] {
      return Err(MissingParameters(missing));
    }
    var system := Format(t.system, kwargs);
    if system.Err? {
      return if system.error.KeyError? then Err(FormatFailed(system.error.key)) else Err(InvalidSpec);
    }
    var user := Format(t.user, kwargs);
    if user.Err? {
      return if user.error.KeyError? then Err(FormatFailed(user.error.key)) else Err(InvalidSpec);
    }
    return Ok((system.value, user.value));
  }

  /**
   * The checks come in the source's order: an unknown name first, then the
   * full list of missing parameters, then formatting; success is the pair of
   * formatted prompts built from the same arguments.
   */
  lemma PromptOutcome(templates: seq<(string, PromptTemplate)>, name: string, kwargs: map<string, string>)
    ensures (forall i :: 0 <= i < |templates| ==> templates[i].0 != name) ==> Prompt(templates, name, kwargs) == Err(UnknownTemplate(name))
    ensures Lookup(templates, name).Some? && Missing(Lookup(templates, name).value.parameters, kwargs) != [] ==>
      Prompt(templates, name, kwargs) == Err(MissingParameters(Missing(Lookup(templates, name).value.parameters, kwargs)))
    ensures Prompt(templates, name, kwargs).Ok? <==>
      Lookup(templates, name).Some? && Missing(Lookup(templates, name).value.parameters, kwargs) == []
      && Formattable(Lookup(templates, name).value.system, kwargs) && Formattable(Lookup(templates, name).value.user, kwargs)
    ensures Prompt(templates, name, kwargs).Ok? ==>
      Prompt(templates, name, kwargs).value == (Format(Lookup(templates, name).value.system, kwargs).value, Format(Lookup(templates, name).value.user, kwargs).value)
  {
    LookupSpec(templates, name);
    if Lookup(templates, name).Some? {
      var t := Lookup(templates, name).value;
      FormatSpec(t.system, kwargs);
      FormatSpec(t.user, kwargs);
    }
  }

  /** Every name a template looks up or requires. */
  function Mentioned(t: PromptTemplate): seq<string>
  {
    t.parameters + PieceNames(t.system) + PieceNames(t.user)
  }

  /** Extra arguments the template never mentions change nothing. */
  lemma ExtraArguments(templates: seq<(string, PromptTemplate)>, name: string, kwargs: map<string, string>, extra: map<string, string>)
    requires Lookup(templates, name).Some? ==> forall k :: k in extra ==> k !in Mentioned(Lookup(templates, name).value)
    ensures Prompt(templates, name, kwargs + extra) == Prompt(templates, name, kwargs)
  {
    if Lookup(templates, name).Some? {
      var t := Lookup(templates, name).value;
      var all := kwargs + extra;
      assert AgreeOn(all, kwargs, PieceNames(t.system));
      assert AgreeOn(all, kwargs, PieceNames(t.user));
      FormatLocal(t.system, all, kwargs);
      FormatLocal(t.user, all, kwargs);
      MissingLocal(t.parameters, all, kwargs);
    }
  }

  /** The missing list depends only on which declared parameters are supplied. */
  lemma {:induction false} MissingLocal(parameters: seq<string>, kwargs: map<string, string>, other: map<string, string>)
    requires forall p :: p in parameters ==> (p in kwargs <==> p in other)
    ensures Missing(parameters, kwargs) == Missing(parameters, other)
  {
    if parameters != [] {
      MissingLocal(parameters[..|parameters| - 1], kwargs, other);
    }
  }

  /** A template is usable when it has no JSON example and mentions only declared parameters. */
  predicate WellFormed(t: PromptTemplate)
  {
    (forall i :: 0 <= i < |t.system| ==> t.system[i].Field? ==> t.system[i].name in t.parameters)
    && (forall i :: 0 <= i < |t.user| ==> t.user[i].Field? ==> t.user[i].name in t.parameters)
    && (forall i :: 0 <= i < |t.system| ==> !t.system[i].JsonExample?)
    && (forall i :: 0 <= i < |t.user| ==> !t.user[i].JsonExample?)
  }

  /** A well-formed template formats whenever every declared parameter is supplied. */
  lemma FillWellFormed(t: PromptTemplate, kwargs: map<string, string>)
    requires WellFormed(t)
    requires forall p :: p in t.parameters ==> p in kwargs
    ensures Fill(t, kwargs).Ok?
  {
    MissingSpec(t.parameters, kwargs);
    FormatSpec(t.system, kwargs);
    FormatSpec(t.user, kwargs);
  }

  /** A template with a JSON example in its system prompt never formats, whatever the arguments. */
  lemma FillJsonExample(t: PromptTemplate, kwargs: map<string, string>, i: nat)
    requires i < |t.system| && t.system[i].JsonExample?
    ensures Fill(t, kwargs).Err?
  {
    FormatSpec(t.system, kwargs);
  }

  /** A rendered escape is its single brace, appended to what came before. */
  lemma {:induction false} FormatAppendEscaped(pieces: seq<Piece>, c: char, kwargs: map<string, string>)
    ensures Format(pieces + [Escaped(c)], kwargs) ==
      (if Format(pieces, kwargs).Ok? then Ok(Format(pieces, kwargs).value + [c]) else Format(pieces, kwargs))
  {
    var all := pieces + [Escaped(c)];
    if pieces == [] {
      assert all[0] == Escaped(c) && all[1..] == [];
      assert Format(all, kwargs) == Ok([c] + "");
      assert [c] + "" == "" + [c];
    } else {
      assert all[0] == pieces[0];
      assert all[1..] == pieces[1..] + [Escaped(c)];
      FormatAppendEscaped(pieces[1..], c, kwargs);
      match RenderPiece(pieces[0], kwargs)
      case Err(e) =>
      case Ok(head) =>
        if Format(pieces[1..], kwargs).Ok? {
          assert Format(all, kwargs) == Ok(head + (Format(pieces[1..], kwargs).value + [c]));
          assert head + (Format(pieces[1..], kwargs).value + [c]) == (head + Format(pieces[1..], kwargs).value) + [c];
        }
    }
  }

  /** Two escapes at the end of a template that formats come out as their two braces. */
  lemma FormatEndsEscaped(pieces: seq<Piece>, c: char, d: char, kwargs: map<string, string>)
    requires Format(pieces + [Escaped(c), Escaped(d)], kwargs).Ok?
    ensures var s := Format(pieces + [Escaped(c), Escaped(d)], kwargs).value;
      |s| >= 2 && s[|s| - 2..] == [c, d]
  {
    FormatAppendEscaped(pieces, c, kwargs);
    assert pieces + [Escaped(c), Escaped(d)] == (pieces + [Escaped(c)]) + [Escaped(d)];
    FormatAppendEscaped(pieces + [Escaped(c)], d, kwargs);
  }

  // The templates, in the registry's insertion order. Prose is elided.

  const CommandExecutionTemplate := PromptTemplate(
    "指令执行", CommandExecution,
    [Field("population"), Field("happiness"), Field("health"), Field("education"), Field("economy"),
     JsonExample("\n    \"understanding\"")],
    [Field("command")],
    ["command", "population", "happiness", "health", "education", "economy"],
    "处理玩家输入的指令并模拟执行结果")

  const AgentResponseTemplate := PromptTemplate(
    "AI居民回复", AgentResponse,
    [Field("agent_name"), Field("personality"), Field("occupation"), Field("age"), Field("interests"),
     Field("happiness"), Field("health"), Field("education"), Field("economy"), Field("recent_events")],
    [Field("user_message"), Field("agent_name")],
    ["agent_name", "personality", "occupation", "age", "interests",
     "happiness", "health", "education", "economy", "recent_events", "user_message"],
    "AI居民与玩家聊天时的回复生成")

  /** The body of the conversation prompt up to the doubled braces of its JSON example. */
  const ConversationFields := [
    Field("agent_name"), Field("personality"), Field("occupation"), Field("age"), Field("interests"),
    Field("happiness"), Field("health"), Field("education"), Field("economy"), Field("recent_events"),
    Field("conversation_context"), Field("original_topic")]

  const ConversationTemplate := PromptTemplate(
    "AI居民对话回复", AgentResponse,
    ConversationFields + [Escaped('{'), Escaped('}')],
    [Field("agent_name")],
    ["agent_name", "personality", "occupation", "age", "interests",
     "happiness", "health", "education", "economy", "recent_events",
     "conversation_context", "original_topic", "is_first_speaker"],
    "AI居民参与对话时的自然回复生成")

  const CommunityAnalysisTemplate := PromptTemplate(
    "社群状态分析", CommunityAnalysis,
    [Field("population"), Field("happiness"), Field("happiness_change"), Field("health"), Field("health_change"),
     Field("education"), Field("education_change"), Field("economy"), Field("economy_change"), Field("recent_events"),
     JsonExample("\n    \"overall_assessment\"")],
    [],
    ["population", "happiness", "health", "education", "economy",
     "happiness_change", "health_change", "education_change", "economy_change", "recent_events"],
    "分析社群当前状态和发展趋势")

  const EventGenerationTemplate := PromptTemplate(
    "随机事件生成", EventGeneration,
    [Field("population"), Field("happiness"), Field("health"), Field("education"), Field("economy"),
     Field("event_count"), JsonExample("\n    \"events\"")],
    [Field("event_count")],
    ["population", "happiness", "health", "education", "economy", "event_count"],
    "为社群生成随机事件")

  const ChatResponseTemplate := PromptTemplate(
    "聊天响应", ChatResponse,
    [Field("community_happiness"), Field("community_activity"), Field("recent_events")],
    [Field("user_message")],
    ["user_message", "community_happiness", "community_activity", "recent_events"],
    "AI助手与玩家聊天时的回复生成")

  const SystemAnalysisTemplate := PromptTemplate(
    "系统状态诊断", SystemAnalysis,
    [Field("uptime"), Field("commands_processed"), Field("events_generated"), Field("active_agents"),
     Field("message_count"), Field("avg_response_time"), Field("error_rate"), Field("memory_usage"),
     Field("db_status"), JsonExample("\n    \"system_health\"")],
    [],
    ["uptime", "commands_processed", "events_generated", "active_agents",
     "message_count", "avg_response_time", "error_rate", "memory_usage", "db_status"],
    "系统运行状态诊断和优化建议")

  const Templates: seq<(string, PromptTemplate)> := [
    ("command_execution", CommandExecutionTemplate),
    ("agent_response", AgentResponseTemplate),
    ("agent_conversation_response", ConversationTemplate),
    ("community_analysis", CommunityAnalysisTemplate),
    ("event_generation", EventGenerationTemplate),
    ("chat_response", ChatResponseTemplate),
    ("system_analysis", SystemAnalysisTemplate)]

  /** The four templates with single-brace JSON examples end in a `ValueError` for every argument set. */
  lemma JsonTemplatesFail(kwargs: map<string, string>)
    ensures Prompt(Templates, "command_execution", kwargs).Err?
    ensures Prompt(Templates, "community_analysis", kwargs).Err?
    ensures Prompt(Templates, "event_generation", kwargs).Err?
    ensures Prompt(Templates, "system_analysis", kwargs).Err?
  {
    LookupAt(Templates, 0);
    LookupAt(Templates, 3);
    LookupAt(Templates, 4);
    LookupAt(Templates, 6);
    FillJsonExample(CommandExecutionTemplate, kwargs, 5);
    FillJsonExample(CommunityAnalysisTemplate, kwargs, 10);
    FillJsonExample(EventGenerationTemplate, kwargs, 6);
    FillJsonExample(SystemAnalysisTemplate, kwargs, 9);
  }

  lemma AgentResponseWellFormed()
    ensures WellFormed(AgentResponseTemplate)
  {
  }

  lemma ChatResponseWellFormed()
    ensures WellFormed(ChatResponseTemplate)
  {
  }

  lemma ConversationWellFormed()
    ensures WellFormed(ConversationTemplate)
  {
  }

  /** The chat-reply templates without JSON examples format once every declared parameter is supplied. */
  lemma PlainTemplatesFormat(kwargs: map<string, string>)
    requires forall p :: p in AgentResponseTemplate.parameters ==> p in kwargs
    requires forall p :: p in ChatResponseTemplate.parameters ==> p in kwargs
    ensures Prompt(Templates, "agent_response", kwargs).Ok?
    ensures Prompt(Templates, "chat_response", kwargs).Ok?
  {
    LookupAt(Templates, 1);
    LookupAt(Templates, 5);
    AgentResponseWellFormed();
    ChatResponseWellFormed();
    FillWellFormed(AgentResponseTemplate, kwargs);
    FillWellFormed(ChatResponseTemplate, kwargs);
  }

  /** The conversation template formats once its parameters are supplied, and its doubled braces come out single. */
  lemma ConversationBraces(kwargs: map<string, string>)
    requires forall p :: p in ConversationTemplate.parameters ==> p in kwargs
    ensures Prompt(Templates, "agent_conversation_response", kwargs).Ok?
    ensures var s := Prompt(Templates, "agent_conversation_response", kwargs).value.0;
      |s| >= 2 && s[|s| - 2..] == "{}"
  {
    LookupAt(Templates, 2);
    ConversationWellFormed();
    FillWellFormed(ConversationTemplate, kwargs);
    FormatEndsEscaped(ConversationFields, '{', '}', kwargs);
  }

  /** `list_templates` entry: name, type value, parameters, description. */
  datatype Summary = Summary(name: string, kind: string, parameters: seq<string>, description: string)

  function Summarize(t: PromptTemplate): Summary
  {
    Summary(t.name, TypeValue(t.kind), t.parameters, t.description)
  }

  /** `list_templates()`: one entry per registered template, in registry order. */
  function ListTemplates(templates: seq<(string, PromptTemplate)>): (r: seq<Summary>)
    ensures |r| == |templates|
    ensures forall i :: 0 <= i < |r| ==> r[i] == Summarize(templates[i].1)
  {
    if templates == [] then [] else [Summarize(templates[0].1)] + ListTemplates(templates[1..])
  }

  /** The template string as written, with its prose elided. */
  function Source(pieces: seq<Piece>): string
  {
    if pieces == [] then ""
    else
      (match pieces[0]
       case Field(n) => "{" + n + "}"
       case Escaped(c) => [c, c]
       case JsonExample(n) => "{" + n + ":}")
      + Source(pieces[1..])
  }

  /** `s[:200] + "..." if len(s) > 200 else s`. */
  function Preview(s: string): (r: string)
    ensures |s| <= 200 ==> r == s
    ensures |s| > 200 ==> |r| == 203 && r[..200] == s[..200] && r[200..] == "..."
  {
    if |s| > 200 then s[..200] + "..." else s
  }

  datatype Info = Info(summary: Summary, preview: string)

  /** `get_template_info(name)`: the summary plus a preview of the system prompt, or the `ValueError` for an unknown name. */
  function TemplateInfo(templates: seq<(string, PromptTemplate)>, name: string): (r: Result<Info, PromptError>)
    ensures r.Err? <==> forall i :: 0 <= i < |templates| ==> templates[i].0 != name
    ensures r.Err? ==> r.error == UnknownTemplate(name)
    ensures r.Ok? ==> exists i :: 0 <= i < |templates| && templates[i].0 == name && r.value.summary == Summarize(templates[i].1)
    ensures r.Ok? ==> |r.value.preview| <= 203
  {
    LookupSpec(templates, name);
    match Lookup(templates, name)
    case None => Err(UnknownTemplate(name))
    case Some(t) => Ok(Info(Summarize(t), Preview(Source(t.system))))
  }
}
