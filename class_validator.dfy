/** What the validation pipe checks of a request body: each DTO class is a
    list of property rules, each rule a list of constraints, optionally
    skipped when the property is missing. `IsEmail`'s own test is a
    parameter of the model. */
module ClassValidator {
  import opened Wrappers
  import Shared

  /** A value of the parsed JSON body. The contents of arrays and nested
      objects play no part in these rules. */
  datatype JsonValue = JString(str: string) | JNumber(num: int) | JBool(b: bool) | JNull | JArray | JObject

  /** The request body: property names to values; an absent key is
      `undefined`. */
  type JsonObject = map<string, JsonValue>

  /** The address test behind `@IsEmail()`. */
  type EmailCheck = string -> bool

  /** One decorator: `@IsEmail()`, `@IsString()`, `@MinLength(n)`,
      `@IsEnum(...)` with the enumeration's values, `@IsBoolean()`. */
  datatype Constraint = IsEmail | IsString | MinLength(min: nat) | IsEnum(values: seq<string>) | IsBoolean

  /** The decorators on one property; `optional` is `@IsOptional()`. */
  datatype PropertyRule = PropertyRule(name: string, optional: bool, constraints: seq<Constraint>)

  /** A DTO class: the rules of its decorated properties. */
  type DtoRules = seq<PropertyRule>

  /** `@IsEnum(UserRole)`. */
  const IS_ROLE: Constraint := IsEnum(Shared.ROLE_VALUES)

  function Property(body: JsonObject, name: string): Option<JsonValue> {
    if name in body then Some(body[name]) else None
  }

  /** Whether one constraint accepts the property's value; a missing value
      fails every constraint. */
  predicate Holds(c: Constraint, v: Option<JsonValue>, isEmail: EmailCheck) {
    match c
    case IsEmail => v.Some? && v.value.JString? && isEmail(v.value.str)
    case IsString => v.Some? && v.value.JString?
    case MinLength(n) => v.Some? && v.value.JString? && |v.value.str| >= n
    case IsEnum(values) => v.Some? && v.value.JString? && v.value.str in values
    case IsBoolean => v.Some? && v.value.JBool?
  }

  /** `@IsOptional()` skips every other constraint when the value is
      `undefined` or `null`. */
  predicate Skipped(rule: PropertyRule, v: Option<JsonValue>) {
    rule.optional && (v.None? || v == Some(JNull))
  }

  predicate PropertyValid(rule: PropertyRule, body: JsonObject, isEmail: EmailCheck) {
    var v := Property(body, rule.name);
    Skipped(rule, v) || forall c :: c in rule.constraints ==> Holds(c, v, isEmail)
  }

  /** The body passes validation against the class. */
  predicate Valid(rules: DtoRules, body: JsonObject, isEmail: EmailCheck) {
    forall rule :: rule in rules ==> PropertyValid(rule, body, isEmail)
  }

  /** The properties the pipe reports when it rejects the body with a
      400 response, in declaration order: empty exactly when the body is
      valid, and naming every failing property and only failing ones. */
  function FailingProperties(rules: DtoRules, body: JsonObject, isEmail: EmailCheck): (r: seq<string>)
    ensures |r| <= |rules|
    ensures r == [] <==> Valid(rules, body, isEmail)
    ensures forall rule :: rule in rules && !PropertyValid(rule, body, isEmail) ==> rule.name in r
    ensures forall n :: n in r ==>
      exists rule :: rule in rules && rule.name == n && !PropertyValid(rule, body, isEmail)
    decreases |rules|
  {
    if rules == [] then []
    else
      var rest := FailingProperties(rules[1..], body, isEmail);
      assert forall rule :: rule in rules <==> rule == rules[0] || rule in rules[1..];
      if PropertyValid(rules[0], body, isEmail) then rest else [rules[0].name] + rest
  }

  // ---------------------------------------------------------------------
  // Facts about one property, stated without the rule machinery

  predicate Missing(body: JsonObject, key: string) {
    key !in body || body[key] == JNull
  }

  predicate EmailAt(body: JsonObject, key: string, isEmail: EmailCheck) {
    key in body && body[key].JString? && isEmail(body[key].str)
  }

  predicate StringAt(body: JsonObject, key: string, minLength: nat) {
    key in body && body[key].JString? && |body[key].str| >= minLength
  }

  predicate RoleAt(body: JsonObject, key: string) {
    key in body && body[key].JString? && Shared.ParseRole(body[key].str).Some?
  }

  predicate BoolAt(body: JsonObject, key: string) {
    key in body && body[key].JBool?
  }

  // ---------------------------------------------------------------------
  // The rule shapes the DTO files use, each with its meaning

  lemma EmailRule(body: JsonObject, key: string, optional: bool, isEmail: EmailCheck)
    ensures PropertyValid(PropertyRule(key, optional, [IsEmail]), body, isEmail)
        <==> (optional && Missing(body, key)) || EmailAt(body, key, isEmail)
  {
    var rule := PropertyRule(key, optional, [IsEmail]);
    assert IsEmail in rule.constraints;
    assert forall c :: c in rule.constraints <==> c == IsEmail;
  }

  lemma StringRule(body: JsonObject, key: string, optional: bool, isEmail: EmailCheck)
    ensures PropertyValid(PropertyRule(key, optional, [IsString]), body, isEmail)
        <==> (optional && Missing(body, key)) || StringAt(body, key, 0)
  {
    var rule := PropertyRule(key, optional, [IsString]);
    assert IsString in rule.constraints;
    assert forall c :: c in rule.constraints <==> c == IsString;
  }

  lemma MinLengthRule(body: JsonObject, key: string, optional: bool, n: nat, isEmail: EmailCheck)
    ensures PropertyValid(PropertyRule(key, optional, [IsString, MinLength(n)]), body, isEmail)
        <==> (optional && Missing(body, key)) || StringAt(body, key, n)
  {
    var rule := PropertyRule(key, optional, [IsString, MinLength(n)]);
    assert IsString in rule.constraints && MinLength(n) in rule.constraints;
    assert forall c :: c in rule.constraints <==> c == IsString || c == MinLength(n);
  }

  lemma RoleRule(body: JsonObject, key: string, optional: bool, isEmail: EmailCheck)
    ensures PropertyValid(PropertyRule(key, optional, [IS_ROLE]), body, isEmail)
        <==> (optional && Missing(body, key)) || RoleAt(body, key)
  {
    var rule := PropertyRule(key, optional, [IS_ROLE]);
    assert IS_ROLE in rule.constraints;
    assert forall c :: c in rule.constraints <==> c == IS_ROLE;
  }

  lemma BoolRule(body: JsonObject, key: string, optional: bool, isEmail: EmailCheck)
    ensures PropertyValid(PropertyRule(key, optional, [IsBoolean]), body, isEmail)
        <==> (optional && Missing(body, key)) || BoolAt(body, key)
  {
    var rule := PropertyRule(key, optional, [IsBoolean]);
    assert IsBoolean in rule.constraints;
    assert forall c :: c in rule.constraints <==> c == IsBoolean;
  }
}
