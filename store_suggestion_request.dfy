/**
 * The form request guarding the store endpoint
 * (app/Http/Requests/StoreSuggestionRequest.php): everyone is authorised,
 * and `prompt` must be `required|string|min:3|max:255`.  The rules are data;
 * `FailedRules` evaluates them the way Laravel's validator does for one field.
 */
module Requests {
  import opened Wrappers
  import opened Json

  datatype Rule = Required | IsString | Min(n: nat) | Max(n: nat)

  /** `authorize()`: every caller may make the request. */
  function Authorize(): (allowed: bool)
    ensures allowed
  {
    true
  }

  /** `rules()`. */
  function Rules(): (rules: map<string, seq<Rule>>)
    ensures rules.Keys == {"prompt"}
  {
    map["prompt" := [Required, IsString, Min(3), Max(255)]]
  }

  /** `messages()`: custom texts, keyed by `field.rule`. */
  function Messages(): (messages: map<string, string>)
    ensures messages.Keys == {"prompt.required", "prompt.string"}
    ensures messages["prompt.required"] == "A topic prompt is required."
    ensures messages["prompt.string"] == "The prompt must be a string."
  {
    map["prompt.required" := "A topic prompt is required.",
        "prompt.string" := "The prompt must be a string."]
  }

  function RuleName(rule: Rule): string {
    match rule
    case Required => "required"
    case IsString => "string"
    case Min(_) => "min"
    case Max(_) => "max"
  }

  /** The custom message for a failed rule, or None when the framework's default text is used. */
  function CustomMessage(field: string, rule: Rule): Option<string> {
    var key := field + "." + RuleName(rule);
    if key in Messages() then Some(Messages()[key]) else None
  }

  /** The characters PHP's `trim` removes. */
  const TrimCharacters: set<char> := {' ', '\t', '\n', '\r', '\U{0000}', '\U{000B}'}

  /** A string that `trim` turns into "". */
  predicate Blank(s: string) {
    forall i :: 0 <= i < |s| ==> s[i] in TrimCharacters
  }

  /** The field's value in the request, None when it is missing. */
  function Field(request: map<string, Json>, name: string): Option<Json> {
    if name in request then Some(request[name]) else None
  }

  /** What `required` accepts: present, not null, not a blank string, not an empty array. */
  predicate Filled(v: Option<Json>) {
    v.Some? &&
    match v.value
    case Null => false
    case String(s) => !Blank(s)
    case List(items) => |items| > 0
    case Object(fields) => |fields| > 0
    case _ => true
  }

  /**
   * The size `min` and `max` measure: the number of characters of a string
   * (or of a scalar's string form), the number of items of an array.
   */
  function Size(v: Json): nat {
    match v
    case String(s) => |s|
    case List(items) => |items|
    case Object(fields) => |fields|
    case _ => |Interpolate(v)|
  }

  /** Whether one rule accepts the value. */
  predicate Accepts(rule: Rule, v: Option<Json>) {
    match rule
    case Required => Filled(v)
    case IsString => v.Some? && v.value.String?
    case Min(n) => v.Some? && Size(v.value) >= n
    case Max(n) => v.Some? && Size(v.value) <= n
  }

  predicate Implicit(rule: Rule) {
    rule == Required
  }

  /**
   * Whether the validator runs the rule at all: a rule other than `required`
   * is skipped for a missing field and for a blank string.
   */
  predicate Runs(rule: Rule, v: Option<Json>) {
    if v.Some? && v.value.String? && Blank(v.value.s) then Implicit(rule)
    else v.Some? || Implicit(rule)
  }

  /**
   * The rules the value fails, in order.  A failed `required` ends the
   * evaluation of the field.
   */
  function FailedRules(rules: seq<Rule>, v: Option<Json>): (failed: seq<Rule>)
    ensures forall r :: r in failed ==> r in rules && Runs(r, v) && !Accepts(r, v)
    ensures |failed| <= |rules|
  {
    if rules == [] then []
    else if Runs(rules[0], v) && !Accepts(rules[0], v) then
      if Implicit(rules[0]) then [rules[0]] else [rules[0]] + FailedRules(rules[1..], v)
    else FailedRules(rules[1..], v)
  }

  /** The request passes validation: no field has a failed rule. */
  predicate Valid(request: map<string, Json>)
    ensures Valid(request) <==> PromptFailures(request) == []
  {
    forall field :: field in Rules() ==> FailedRules(Rules()[field], Field(request, field)) == []
  }

  function PromptFailures(request: map<string, Json>): seq<Rule> {
    FailedRules(Rules()["prompt"], Field(request, "prompt"))
  }

  /** For a filled value, the rules after `required` all run, and each reports what it rejects. */
  lemma FilledTail(v: Option<Json>)
    requires Filled(v)
    ensures FailedRules([IsString, Min(3), Max(255)], v)
         == (if v.value.String? then [] else [IsString])
          + (if Size(v.value) < 3 then [Min(3)] else [])
          + (if Size(v.value) > 255 then [Max(255)] else [])
  {
    assert Runs(IsString, v) && Runs(Min(3), v) && Runs(Max(255), v);
    var tooLong := if Size(v.value) > 255 then [Max(255)] else [];
    var tooShort := if Size(v.value) < 3 then [Min(3)] else [];
    var notString := if v.value.String? then [] else [IsString];
    assert [IsString, Min(3), Max(255)][1..] == [Min(3), Max(255)];
    assert [Min(3), Max(255)][1..] == [Max(255)];
    assert [Max(255)][1..] == [];
    assert FailedRules([Max(255)], v) == tooLong;
    assert FailedRules([Min(3), Max(255)], v) == tooShort + tooLong;
    assert FailedRules([IsString, Min(3), Max(255)], v) == notString + (tooShort + tooLong);
  }

  /**
   * The prompt's failed rules, evaluated: an unfilled prompt fails `required`
   * alone; a filled one fails each of `string`, `min:3`, `max:255` it breaks.
   */
  lemma {:induction false} PromptFailuresAre(request: map<string, Json>)
    ensures var v := Field(request, "prompt");
      PromptFailures(request) ==
      if !Filled(v) then [Required]
      else ((if v.value.String? then [] else [IsString])
        + (if Size(v.value) < 3 then [Min(3)] else [])
        + (if Size(v.value) > 255 then [Max(255)] else []))
  {
    var v := Field(request, "prompt");
    var rules := Rules()["prompt"];
    assert rules == [Required, IsString, Min(3), Max(255)];
    assert rules[1..] == [IsString, Min(3), Max(255)];
    if Filled(v) {
      assert FailedRules(rules, v) == FailedRules(rules[1..], v);
      FilledTail(v);
    }
  }

  /**
   * A request is valid exactly when `prompt` is a string of 3 to 255
   * characters that is not all white space.
   */
  lemma ValidIff(request: map<string, Json>)
    ensures Valid(request) <==>
      "prompt" in request && request["prompt"].String?
      && 3 <= |request["prompt"].s| <= 255 && !Blank(request["prompt"].s)
  {
    PromptFailuresAre(request);
  }

  /** `$request->input('prompt')` once the request has passed validation. */
  function Prompt(request: map<string, Json>): (topic: string)
    requires Valid(request)
    ensures Field(request, "prompt") == Some(String(topic))
    ensures 3 <= |topic| <= 255 && !Blank(topic)
  {
    ValidIff(request);
    request["prompt"].s
  }

  /** A missing prompt fails `required` only, with the custom message. */
  lemma MissingPrompt(request: map<string, Json>)
    requires "prompt" !in request
    ensures PromptFailures(request) == [Required]
    ensures CustomMessage("prompt", Required) == Some("A topic prompt is required.")
  {
    PromptFailuresAre(request);
    assert "prompt" + "." + RuleName(Required) == "prompt.required";
  }

  /** A filled prompt that is not a string fails `string`, with the custom message. */
  lemma NonStringPrompt(request: map<string, Json>)
    requires "prompt" in request && !request["prompt"].String?
    requires Filled(Field(request, "prompt"))
    ensures IsString in PromptFailures(request)
    ensures Required !in PromptFailures(request)
    ensures CustomMessage("prompt", IsString) == Some("The prompt must be a string.")
  {
    PromptFailuresAre(request);
    assert "prompt" + "." + RuleName(IsString) == "prompt.string";
  }

  /** For a string prompt that is not blank only the length can fail, and with no custom message. */
  lemma PromptLength(request: map<string, Json>, s: string)
    requires Field(request, "prompt") == Some(String(s)) && !Blank(s)
    ensures PromptFailures(request) ==
      (if |s| < 3 then [Min(3)] else []) + (if |s| > 255 then [Max(255)] else [])
    ensures CustomMessage("prompt", Min(3)).None? && CustomMessage("prompt", Max(255)).None?
  {
    PromptFailuresAre(request);
    assert "prompt" + "." + RuleName(Min(3)) == "prompt.min";
    assert "prompt" + "." + RuleName(Max(255)) == "prompt.max";
  }

  /** `prompt` is the only field constrained: requests that agree on it are alike. */
  lemma OnlyPromptConstrained(r1: map<string, Json>, r2: map<string, Json>)
    requires Field(r1, "prompt") == Field(r2, "prompt")
    ensures Valid(r1) == Valid(r2)
  {
    assert Valid(r1) <==> PromptFailures(r1) == [];
    assert Valid(r2) <==> PromptFailures(r2) == [];
  }
}
