// internal/subjects: validation of tokens and patterns, and the subject builder.

module Subjects {
  import opened Common
  import opened GoStrings

  // unicode.IsLetter and unicode.IsDigit. The tables are a parameter; what is fixed is that they agree with ASCII
  // and that no space is a letter or a digit.
  datatype Alphabet = Alphabet(letter: char -> bool, digit: char -> bool)

  predicate AsciiLetter(c: char) {
    'a' <= c <= 'z' || 'A' <= c <= 'Z'
  }

  predicate AsciiDigit(c: char) {
    '0' <= c <= '9'
  }

  ghost predicate SoundAlphabet(a: Alphabet) {
    && (forall c: char :: c < '\U{80}' ==> a.letter(c) == AsciiLetter(c) && a.digit(c) == AsciiDigit(c))
    && (forall c: char :: IsSpace(c) ==> !a.letter(c) && !a.digit(c))
  }

  type Unicode = a: Alphabet | SoundAlphabet(a) witness Alphabet(AsciiLetter, AsciiDigit)

  // Which check turns the input down.
  datatype Problem = Required | Whitespace | Dot | Wildcard | Unsupported | PlaceholderCount | Directive

  // ---- validate.go ----

  predicate TokenChar(u: Unicode, c: char) {
    u.letter(c) || u.digit(c) || c == '_' || c == '-'
  }

  function ValidateToken(u: Unicode, value: string): Option<Problem> {
    if ContainsAny(value, WHITESPACE) then Some(Whitespace)
    else if '.' in value then Some(Dot)
    else if '*' in value || '>' in value then Some(Wildcard)
    else if exists i :: 0 <= i < |value| && !TokenChar(u, value[i]) then Some(Unsupported)
    else None
  }

  // ValidateTarget and ValidateAction
  function ValidateName(u: Unicode, value: string): Option<Problem> {
    if TrimSpace(value) == "" then Some(Required) else ValidateToken(u, value)
  }

  function ValidatePattern(pattern: string, placeholders: nat): Option<Problem> {
    if TrimSpace(pattern) == "" then Some(Required)
    else if ContainsAny(pattern, WHITESPACE) then Some(Whitespace)
    else if '*' in pattern || '>' in pattern then Some(Wildcard)
    else if Count(pattern, "%s") != placeholders then Some(PlaceholderCount)
    else if '%' in ReplaceAll(pattern, "%s", "") then Some(Directive)
    else None
  }

  // ---- subjects.go ----

  datatype Patterns = Patterns(configure: string, action: string, result: string, status: string, health: string)

  const DEFAULT_PATTERNS := Patterns("cmd.configure.%s", "cmd.action.%s.%s", "result.%s", "status.%s", "health.%s")

  predicate ValidPatterns(p: Patterns) {
    && ValidatePattern(p.configure, 1).None?
    && ValidatePattern(p.action, 2).None?
    && ValidatePattern(p.result, 1).None?
    && ValidatePattern(p.status, 1).None?
    && ValidatePattern(p.health, 1).None?
  }

  // A configured pattern is used as it is, a missing one is filled in.
  predicate Fills(configured: string, default_: string, used: string) {
    (configured != "" ==> used == configured) && (configured == "" ==> used == default_)
  }

  predicate FillsIn(cfg: Patterns, p: Patterns) {
    && Fills(cfg.configure, "cmd.configure.%s", p.configure) && Fills(cfg.action, "cmd.action.%s.%s", p.action)
    && Fills(cfg.result, "result.%s", p.result) && Fills(cfg.status, "status.%s", p.status)
    && Fills(cfg.health, "health.%s", p.health)
  }

  // Configured patterns win over defaults, field by field, and the outcome is validated as a whole.
  method PatternsFromConfig(cfg: Patterns) returns (r: Result<Patterns>)
    ensures r.Ok? ==> FillsIn(cfg, r.value) && ValidPatterns(r.value)
    ensures r.Err? ==> r.code == Validation && forall p :: FillsIn(cfg, p) ==> !ValidPatterns(p)
  {
    var p := DEFAULT_PATTERNS;
    if cfg.configure != "" {
      p := p.(configure := cfg.configure);
    }
    if cfg.action != "" {
      p := p.(action := cfg.action);
    }
    if cfg.result != "" {
      p := p.(result := cfg.result);
    }
    if cfg.status != "" {
      p := p.(status := cfg.status);
    }
    if cfg.health != "" {
      p := p.(health := cfg.health);
    }
    r := NewBuilder(p);
  }

  // A builder is its patterns, checked.
  function NewBuilder(patterns: Patterns): Result<Patterns> {
    if ValidatePattern(patterns.configure, 1).Some? then Err(Validation)
    else if ValidatePattern(patterns.action, 2).Some? then Err(Validation)
    else if ValidatePattern(patterns.result, 1).Some? then Err(Validation)
    else if ValidatePattern(patterns.status, 1).Some? then Err(Validation)
    else if ValidatePattern(patterns.health, 1).Some? then Err(Validation)
    else Ok(patterns)
  }

  // ConfigureSubject, ResultSubject, StatusSubject and HealthSubject, by pattern. A format that does not go
  // through is reported as an encoding error, which no valid builder ever does.
  function TargetSubject(u: Unicode, pattern: string, target: string): Result<string> {
    if ValidateName(u, target).Some? then Err(Validation)
    else var s := Sprintf(pattern, [target]); if s.Some? then Ok(s.value) else Err(EncodeFailed)
  }

  function ActionSubject(u: Unicode, pattern: string, target: string, action: string): Result<string> {
    if ValidateName(u, target).Some? then Err(Validation)
    else if ValidateName(u, action).Some? then Err(Validation)
    else var s := Sprintf(pattern, [target, action]); if s.Some? then Ok(s.value) else Err(EncodeFailed)
  }
}
