/**
 * The intent router: asks the AI what the user wants, then either answers a knowledge
 * question (with nothing yet), or diagnoses an order with the help of the registry's tools.
 */
module Router {
  import opened Wrappers
  import opened Encoding
  import opened Types
  import opened Tools
  import Manager
  import Calculator
  import Constants
  import ZltxOrderDetail

  /**
   * strings.ReplaceAll: every non-overlapping occurrence of pat, scanning left to right,
   * becomes rep; replacing a pattern by itself changes nothing.
   */
  function ReplaceAll(s: string, pat: string, rep: string): (r: string)
    ensures pat != [] && rep == pat ==> r == s
    decreases |s|
  {
    if pat == [] then InsertEverywhere(s, rep)
    else if |s| < |pat| then s
    else if s[..|pat|] == pat then
      assert s == s[..|pat|] + s[|pat|..];
      rep + ReplaceAll(s[|pat|..], pat, rep)
    else
      assert s == [s[0]] + s[1..];
      [s[0]] + ReplaceAll(s[1..], pat, rep)
  }

  /** An empty pattern matches before every character and at the end. */
  function InsertEverywhere(s: string, rep: string): (r: string)
    ensures |r| == |s| + (|s| + 1) * |rep|
  {
    if s == [] then rep else rep + [s[0]] + InsertEverywhere(s[1..], rep)
  }

  /** In r, the i-th character of s comes right after the i-th copy of rep. */
  predicate RepBefore(r: string, s: string, rep: string, i: nat) {
    var k := |rep| + 1;
    i < |s| && i * k + |rep| < |r| && r[i * k..i * k + |rep|] == rep && r[i * k + |rep|] == s[i]
  }

  /**
   * What InsertEverywhere produces: the i-th character of s comes right after the i-th
   * copy of rep, and one more copy ends the text.
   */
  lemma InsertEverywhereContents(s: string, rep: string)
    ensures forall i :: 0 <= i < |s| ==> RepBefore(InsertEverywhere(s, rep), s, rep, i)
    ensures |s| * (|rep| + 1) <= |InsertEverywhere(s, rep)|
    ensures InsertEverywhere(s, rep)[|s| * (|rep| + 1)..] == rep
  {
    forall i | 0 <= i < |s|
      ensures RepBefore(InsertEverywhere(s, rep), s, rep, i)
    {
      InsertEverywhereAt(s, rep, i);
    }
    InsertEverywhereEnd(s, rep);
  }

  lemma {:induction false} InsertEverywhereAt(s: string, rep: string, i: nat)
    requires i < |s|
    ensures RepBefore(InsertEverywhere(s, rep), s, rep, i)
  {
    var r := InsertEverywhere(s, rep);
    var k := |rep| + 1;
    var tail := InsertEverywhere(s[1..], rep);
    assert r == rep + [s[0]] + tail;
    if i > 0 {
      InsertEverywhereAt(s[1..], rep, i - 1);
      assert i * k == (i - 1) * k + k;
      assert r[k..] == tail;
      assert r[i * k..i * k + |rep|] == tail[(i - 1) * k..(i - 1) * k + |rep|];
    }
  }

  lemma {:induction false} InsertEverywhereEnd(s: string, rep: string)
    ensures var r := InsertEverywhere(s, rep); |s| * (|rep| + 1) <= |r| && r[|s| * (|rep| + 1)..] == rep
  {
    if s != [] {
      var k := |rep| + 1;
      var r := InsertEverywhere(s, rep);
      var tail := InsertEverywhere(s[1..], rep);
      InsertEverywhereEnd(s[1..], rep);
      assert r == rep + [s[0]] + tail;
      assert |s| * k == (|s| - 1) * k + k;
      assert r[k..] == tail;
    }
  }

  /** pat occurs in s at position i. */
  predicate OccursAt(s: string, pat: string, i: nat) {
    i + |pat| <= |s| && s[i..i + |pat|] == pat
  }

  /** A text without an occurrence of a non-empty pattern comes back unchanged. */
  lemma {:induction false} ReplaceAllNoOccurrence(s: string, pat: string, rep: string)
    requires pat != []
    requires forall i: nat :: !OccursAt(s, pat, i)
    ensures ReplaceAll(s, pat, rep) == s
    decreases |s|
  {
    if |s| >= |pat| {
      assert !OccursAt(s, pat, 0);
      forall i: nat
        ensures !OccursAt(s[1..], pat, i)
      {
        if i + |pat| <= |s[1..]| {
          assert s[1..][i..i + |pat|] == s[i + 1..i + 1 + |pat|];
          assert !OccursAt(s, pat, i + 1);
        }
      }
      ReplaceAllNoOccurrence(s[1..], pat, rep);
      assert s == [s[0]] + s[1..];
    }
  }

  /** Text before which the pattern cannot start is copied as it is. */
  lemma {:induction false} ReplaceAllSkip(a: string, t: string, pat: string, rep: string)
    requires pat != [] && pat[0] !in a
    ensures ReplaceAll(a + t, pat, rep) == a + ReplaceAll(t, pat, rep)
    decreases |a|
  {
    if a != [] {
      var s := a + t;
      assert a[0] in a;
      assert !OccursAt(s, pat, 0) by {
        if |pat| <= |s| {
          assert s[0..|pat|][0] == s[0] == a[0];
        }
      }
      ReplaceAllStep(s, pat, rep);
      assert s[1..] == a[1..] + t;
      ReplaceAllSkip(a[1..], t, pat, rep);
      assert a == [a[0]] + a[1..];
    } else {
      assert a + t == t;
    }
  }

  /**
   * A first character at which no occurrence starts is copied, and the scan goes on at the
   * next one. With ReplaceAllMatch and the empty text this fixes ReplaceAll for every
   * non-empty pattern.
   */
  lemma ReplaceAllStep(s: string, pat: string, rep: string)
    requires pat != [] && s != [] && !OccursAt(s, pat, 0)
    ensures ReplaceAll(s, pat, rep) == [s[0]] + ReplaceAll(s[1..], pat, rep)
  {
    if |s| >= |pat| {
      assert s[..|pat|] == s[0..0 + |pat|];
    } else {
      assert s == [s[0]] + s[1..];
    }
  }

  /** A `{` that does not start the placeholder is copied, and the placeholder after it is still replaced. */
  lemma BraceBeforePlaceholder(u: string)
    ensures ReplaceAll("{" + Placeholder, Placeholder, u) == "{" + u
  {
    var s := "{" + Placeholder;
    assert !OccursAt(s, Placeholder, 0) by {
      assert s[0..|Placeholder|][1] == '{' != Placeholder[1];
    }
    ReplaceAllStep(s, Placeholder, u);
    assert s[1..] == Placeholder + [];
    ReplaceAllMatch([], Placeholder, u);
    assert u + [] == u;
  }

  /** An occurrence at the front is replaced, and the scan goes on after it. */
  lemma ReplaceAllMatch(t: string, pat: string, rep: string)
    requires pat != []
    ensures ReplaceAll(pat + t, pat, rep) == rep + ReplaceAll(t, pat, rep)
  {
    var s := pat + t;
    assert s[..|pat|] == pat && s[|pat|..] == t;
  }

  /** The marker the intent prompt template holds in place of the user's input. */
  const Placeholder: string := "{user_input}"

  /**
   * The intent prompt template, cut at the placeholder and at the one `{` after it. The
   * further cuts inside the literals carry no meaning: the pieces join to the template
   * verbatim, and short literals keep the proofs that they hold no brace cheap.
   */
  const PromptHead: string := "请分析以下用户输入，判断用户的意图类型。\n\n用户输入："
  const PromptBody: string := PromptIntents + PromptRules + PromptFormat
  const PromptIntents: string :=
    "\n\n意图类型说明：\n"
    + "1. order_diagnosis - " + "订单诊断：用户想要查询、诊断或了解订单相关信息  \n"
    + "2. knowledge_qa - " + "知识问答：用户想要进行一般性问答或获取知识信息\n\n"
  const PromptRules: string :=
    "- 当用户意图不够清晰且不匹配 " + "knowledge_qa 以外意图时，" + "使用knowledge_qa\n"
    + "- 当用户意图非常不清晰时使用 unknown \n\n"
  const PromptFormat: string := "请只返回以下格式的JSON：\n"
  const PromptTail: string :=
    "\n    \"intent\": " + "\"order_diagnosis\" | " + "\"knowledge_qa\" | " + "\"unknown\",\n"
    + "    \"confidence\": " + "0.0-1.0,\n"
    + "    \"reasoning\": " + "\"判断理由\"\n}\n"

  const PromptTemplate: string := PromptHead + Placeholder + PromptBody + "{" + PromptTail

  /** buildIntentPrompt: the template with the user's input in place of its one placeholder. */
  function BuildIntentPrompt(userInput: string): (prompt: string)
    ensures prompt == PromptHead + userInput + PromptBody + "{" + PromptTail
  {
    TemplateFilled(userInput);
    ReplaceAll(PromptTemplate, Placeholder, userInput)
  }

  lemma TemplateFilled(u: string)
    ensures ReplaceAll(PromptTemplate, Placeholder, u) == PromptHead + u + PromptBody + "{" + PromptTail
  {
    HeadHasNoBrace();
    BodyHasNoBrace();
    BraceKept(u);
    FillSingle(PromptHead, PromptBody, PromptTail, u);
  }

  /** A template with the placeholder once, and nothing else that starts one, gets u in its place. */
  lemma FillSingle(head: string, body: string, tail: string, u: string)
    requires '{' !in head && '{' !in body
    requires ReplaceAll("{" + tail, Placeholder, u) == "{" + tail
    ensures ReplaceAll(head + Placeholder + body + "{" + tail, Placeholder, u) == head + u + body + "{" + tail
  {
    var rest := "{" + tail;
    var after := body + rest;
    assert Placeholder[0] == '{';
    assert head + Placeholder + body + "{" + tail == head + (Placeholder + after);
    ReplaceAllSkip(head, Placeholder + after, Placeholder, u);
    ReplaceAllMatch(after, Placeholder, u);
    ReplaceAllSkip(body, rest, Placeholder, u);
    assert ReplaceAll(after, Placeholder, u) == after;
    assert head + (u + after) == head + u + body + "{" + tail;
  }

  /** The template's one `{` does not start a placeholder, and nothing after it does. */
  lemma BraceKept(u: string)
    ensures ReplaceAll("{" + PromptTail, Placeholder, u) == "{" + PromptTail
  {
    var brace := "{" + PromptTail;
    assert brace[1] == '\n';
    assert brace[..|Placeholder|] != Placeholder by {
      assert brace[..|Placeholder|][1] == '\n';
    }
    assert brace[1..] == PromptTail;
    TailHasNoBrace();
    ReplaceAllSkip(PromptTail, [], Placeholder, u);
    assert PromptTail + [] == PromptTail;
  }

  lemma HeadHasNoBrace()
    ensures '{' !in PromptHead
  {
  }

  lemma BodyHasNoBrace()
    ensures '{' !in PromptBody
  {
    IntentsHaveNoBrace();
    RulesHaveNoBrace();
    assert '{' !in PromptFormat;
  }

  lemma IntentsHaveNoBrace()
    ensures '{' !in PromptIntents
  {
  }

  lemma RulesHaveNoBrace()
    ensures '{' !in PromptRules
  {
  }

  lemma TailHasNoBrace()
    ensures '{' !in PromptTail
  {
  }

  /** A placeholder in the user's input is not expanded again. */
  lemma PlaceholderInInputKept()
    ensures BuildIntentPrompt(Placeholder) == PromptHead + Placeholder + PromptBody + "{" + PromptTail
  {
  }

  /** The two messages both AI calls receive: the filled prompt as assistant, the input as user. */
  function IntentMessages(userInput: string): (ms: seq<Message>)
    ensures |ms| == 2
    ensures ms[0] == Message("assistant", BuildIntentPrompt(userInput))
    ensures ms[1] == Message("user", userInput)
  {
    [Message("assistant", BuildIntentPrompt(userInput)), Message("user", userInput)]
  }

  /** The struct the reply text is decoded into: three string fields. */
  const IntentFields: seq<Field> := [Field("intent", GoString), Field("confidence", GoString), Field("reasoning", GoString)]

  /**
   * extractIntent: the `intent` field of the reply text decoded as JSON, or "" when there
   * is no reply, its text is empty or it does not decode. `parse` reads the reply text
   * as a JSON text.
   */
  function ExtractIntent(response: Option<ChatResponse>, parse: string -> Raw): (intent: string)
    ensures response.None? || response.value.message == "" ==> intent == ""
    ensures response.Some? && response.value.message != "" ==>
              var raw := parse(response.value.message);
              if raw.Doc? && FitsStruct(raw.value, IntentFields) then intent == StringField(raw.value, "intent")
              else intent == ""
    ensures intent != "" ==> Member("intent", JStr(intent)) in parse(response.value.message).value.members
  {
    if response.None? || response.value.message == "" then ""
    else
      match DecodeStruct(parse(response.value.message), IntentType, "", IntentFields)
      case Err(_) => ""
      case Ok(j) => StringField(j, "intent")
  }

  /** The anonymous struct extractIntent decodes into, as reflect prints it. */
  const IntentType: string :=
    "struct { Intent string \"json:\\\"intent\\\"\"; Confidence string \"json:\\\"confidence\\\"\"; "
    + "Reasoning string \"json:\\\"reasoning\\\"\" }"

  /** A reply that answers with the format the prompt asks for, a number as confidence, yields no intent. */
  lemma NumericConfidenceYieldsNoIntent(response: ChatResponse, parse: string -> Raw, ms: seq<Member>, k: nat, c: real)
    requires response.message != "" && parse(response.message).Doc? && parse(response.message).value == JObj(ms)
    requires k < |ms| && ms[k] == Member("confidence", JNum(c))
    ensures ExtractIntent(Some(response), parse) == ""
  {
    assert FieldFor(IntentFields, "confidence") == Some(GoString);
    assert Mismatch(IntentFields, ms[k]);
  }

  /** A reply whose three members are all strings yields its intent. */
  lemma StringRepliedIntent(response: ChatResponse, parse: string -> Raw, intent: string, confidence: string, reasoning: string)
    requires response.message != ""
    requires parse(response.message).Doc?
    requires parse(response.message).value
             == JObj([Member("intent", JStr(intent)), Member("confidence", JStr(confidence)), Member("reasoning", JStr(reasoning))])
    ensures ExtractIntent(Some(response), parse) == intent
  {
    var ms := parse(response.message).value.members;
    StringMembersFit(ms);
    LastStringAt(ms, 0);
  }

  /** An object of string members always fits the intent struct, whose fields are all strings. */
  lemma StringMembersFit(ms: seq<Member>)
    requires forall i :: 0 <= i < |ms| ==> ms[i].value.JStr?
    ensures FitsStruct(JObj(ms), IntentFields)
  {
    forall i | 0 <= i < |ms|
      ensures !Mismatch(IntentFields, ms[i])
    {
      var t := FieldFor(IntentFields, ms[i].key);
      assert t.Some? ==> Field(ms[i].key, t.value) in IntentFields;
    }
  }

  /** One call to the AI backend: the messages sent and the tool definitions offered. */
  datatype ChatCall = ChatCall(messages: seq<Message>, tools: seq<ToolDefinition>)

  /**
   * The AI backend. `respond` is the reply to the n-th call given what it is sent; `calls`
   * records every call made.
   */
  class AIClient {
    const respond: (nat, seq<Message>, seq<ToolDefinition>) -> Result<ChatResponse, string>
    var calls: seq<ChatCall>

    constructor (respond: (nat, seq<Message>, seq<ToolDefinition>) -> Result<ChatResponse, string>)
      ensures this.respond == respond && calls == []
    {
      this.respond := respond;
      calls := [];
    }

    /** Chat: records the call and answers with the backend's reply to it. */
    method Chat(messages: seq<Message>, tools: seq<ToolDefinition>) returns (r: Result<ChatResponse, string>)
      modifies this
      ensures calls == old(calls) + [ChatCall(messages, tools)]
      ensures r == respond(|old(calls)|, messages, tools)
    {
      r := respond(|calls|, messages, tools);
      calls := calls + [ChatCall(messages, tools)];
    }
  }

  const UnknownIntentError: string := "意图识别失败，请明确您的需求呢，我可以为您"

  class RouterService {
    const aiClient: AIClient
    const toolManager: Manager.Manager

    constructor (aiClient: AIClient, toolManager: Manager.Manager)
      ensures this.aiClient == aiClient && this.toolManager == toolManager
    {
      this.aiClient := aiClient;
      this.toolManager := toolManager;
    }

    /** results is what ExecuteToolCalls answers for toolCalls, the i-th consuming effects(i). */
    ghost predicate Executes(toolCalls: seq<ToolCall>, results: seq<ToolCall>,
                             pow: (real, real) -> Calculator.Float, effects: nat -> Effects)
      reads toolManager
    {
      |results| == |toolCalls|
      && forall i :: 0 <= i < |toolCalls| ==> results[i] == toolManager.ExecutedCall(toolCalls[i], pow, effects(i))
    }

    /**
     * What handleOrderDiagnosis did, given the AI calls made before it: without the order
     * tool it fails and calls nothing; otherwise it makes one AI call with the messages and
     * every definition, and fails with that call, answers its reply when it asks for no
     * tool, or executes the calls the reply asks for and answers nothing.
     */
    ghost predicate Diagnosed(before: seq<ChatCall>, messages: seq<Message>, pow: (real, real) -> Calculator.Float,
                              effects: nat -> Effects, r: Result<Option<ChatResponse>, string>,
                              executed: Option<seq<ToolCall>>)
      reads this, aiClient, toolManager
    {
      if ZltxOrderDetail.Name !in toolManager.tools then
        aiClient.calls == before && r == Err("order detail tool not found") && executed == None
      else
        && |aiClient.calls| == |before| + 1
        && aiClient.calls[..|before|] == before
        && aiClient.calls[|before|].messages == messages
        && Manager.ListsDefinitions(aiClient.calls[|before|].tools, toolManager.tools)
        && var reply := aiClient.respond(|before|, messages, aiClient.calls[|before|].tools);
           && (reply.Err? ==> r == Err("failed to chat with AI: " + reply.error) && executed == None)
           && (reply.Ok? && reply.value.toolCalls == [] ==> r == Ok(Some(reply.value)) && executed == None)
           && (reply.Ok? && reply.value.toolCalls != [] ==>
                 r == Ok(None) && executed.Some? && Executes(reply.value.toolCalls, executed.value, pow, effects))
    }

    /**
     * Route: the intent call with the two messages and no tools, then by intent: an error
     * for none or an unknown one, nothing for a knowledge question, and the order
     * diagnosis. `executed` is the batch of tool calls run, if any.
     */
    method Route(req: ChatRequest, parse: string -> Raw, pow: (real, real) -> Calculator.Float, effects: nat -> Effects)
      returns (r: Result<Option<ChatResponse>, string>, ghost executed: Option<seq<ToolCall>>)
      requires toolManager.Valid()
      modifies aiClient
      ensures var first := ChatCall(IntentMessages(req.userInput), []);
              var reply := aiClient.respond(|old(aiClient.calls)|, first.messages, []);
              var before := old(aiClient.calls) + [first];
              && (reply.Err? ==> r == Err("AI响应失败: " + reply.error) && aiClient.calls == before && executed == None)
              && (reply.Ok? ==>
                    var intent := ExtractIntent(Some(reply.value), parse);
                    && (intent == "" ==> r == Err("未识别到用户意图") && aiClient.calls == before && executed == None)
                    && (intent == "knowledge_qa" ==> r == Ok(None) && aiClient.calls == before && executed == None)
                    && (intent == "order_diagnosis" ==> Diagnosed(before, first.messages, pow, effects, r, executed))
                    && (intent !in {"", "knowledge_qa", "order_diagnosis"} ==>
                          r == Err(UnknownIntentError) && aiClient.calls == before && executed == None))
    {
      var messages := IntentMessages(req.userInput);
      var intentResponse := aiClient.Chat(messages, []);
      if intentResponse.Err? {
        return Err("AI响应失败: " + intentResponse.error), None;
      }
      var intent := ExtractIntent(Some(intentResponse.value), parse);
      if intent == "" {
        return Err("未识别到用户意图"), None;
      }
      if intent == "order_diagnosis" {
        r, executed := HandleOrderDiagnosis(req, messages, pow, effects);
      } else if intent == "knowledge_qa" {
        r := HandleKnowledgeQA(req, messages);
        executed := None;
      } else {
        r, executed := Err(UnknownIntentError), None;
      }
    }

    /**
     * handleOrderDiagnosis. It first runs the order tool on empty arguments and ignores the
     * outcome; that call fails to decode and sends nothing (ZltxOrderDetail.EmptyArgumentsRejected).
     */
    method HandleOrderDiagnosis(req: ChatRequest, messages: seq<Message>, pow: (real, real) -> Calculator.Float,
                                effects: nat -> Effects)
      returns (r: Result<Option<ChatResponse>, string>, ghost executed: Option<seq<ToolCall>>)
      requires toolManager.Valid()
      modifies aiClient
      ensures Diagnosed(old(aiClient.calls), messages, pow, effects, r, executed)
    {
      var orderDetailTool := toolManager.GetTool(ZltxOrderDetail.Name);
      if orderDetailTool.None? {
        return Err("order detail tool not found"), None;
      }
      var _ := Execute(orderDetailTool.value, Nil, pow, effects(0));
      var toolDefinitions := toolManager.GetToolDefinitions(Constants.Caller(req.caller));
      var response := aiClient.Chat(messages, toolDefinitions);
      if response.Err? {
        return Err("failed to chat with AI: " + response.error), None;
      }
      if |response.value.toolCalls| == 0 {
        return Ok(Some(response.value)), None;
      }
      var toolResults, _ := toolManager.ExecuteToolCalls(response.value.toolCalls, pow, effects);
      return Ok(None), Some(toolResults);
    }

    /** handleKnowledgeQA: answers nothing and calls nothing. */
    method HandleKnowledgeQA(req: ChatRequest, messages: seq<Message>) returns (r: Result<Option<ChatResponse>, string>)
      ensures r == Ok(None)
    {
      return Ok(None);
    }
  }
}
