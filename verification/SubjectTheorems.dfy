// What the builder promises: which patterns and tokens are accepted, what formatting yields, and when subjects
// determine what they were built from.

module SubjectTheorems {
  import opened Common
  import opened GoStrings
  import opened Subjects

  // ---- tokens ----

  ghost predicate IsToken(u: Unicode, s: string) {
    s != "" && forall i | 0 <= i < |s| :: TokenChar(u, s[i])
  }

  lemma TokenIsNotBlank(u: Unicode, s: string)
    requires IsToken(u, s)
    ensures TrimSpace(s) == s
  {
  }

  // None of the characters that mean something to a pattern or to the broker is in a token.
  lemma TokenLacks(u: Unicode, s: string, c: char)
    requires IsToken(u, s) && (c == '%' || c == '*' || c == '>' || c == '.' || c == '|' || c in WHITESPACE)
    ensures c !in s
  {
  }

  // A target or action name is accepted iff it is a non-empty string of letters, digits, '_' and '-'.
  lemma NameAcceptedIffToken(u: Unicode, s: string)
    ensures ValidateName(u, s).None? <==> IsToken(u, s)
  {
    if IsToken(u, s) {
      TokenIsNotBlank(u, s);
    }
  }

  // ---- patterns ----

  // The literals around the placeholders.
  function Pieces(pattern: string): seq<string> {
    Split(pattern, "%s")
  }

  predicate Clean(s: string) {
    !ContainsAny(s, WHITESPACE) && '*' !in s && '>' !in s
  }

  lemma PiecesAreUnique(pattern: string, lits: seq<string>)
    requires lits != [] && Free(lits, '%') && pattern == Join(lits, "%s")
    ensures lits == Pieces(pattern)
  {
    SplitOfJoin(lits, "%s");
  }

  // The count-and-residual test accepts exactly the strings that are n+1 percent-free literals joined by "%s".
  lemma PatternAcceptedIffJoined(pattern: string, n: nat)
    ensures ValidatePattern(pattern, n).None? <==>
              && TrimSpace(pattern) != "" && Clean(pattern)
              && exists lits: seq<string> :: |lits| == n + 1 && Free(lits, '%') && pattern == Join(lits, "%s")
  {
    JoinOfSplit(pattern, "%s");
    RemovedIsParts(pattern, "%s", '%');
    if lits: seq<string> :| |lits| == n + 1 && Free(lits, '%') && pattern == Join(lits, "%s") {
      PiecesAreUnique(pattern, lits);
    }
    if ValidatePattern(pattern, n).None? {
      assert |Pieces(pattern)| == n + 1 && Free(Pieces(pattern), '%') && pattern == Join(Pieces(pattern), "%s");
    }
  }

  // ---- formatting ----

  function Interleave(lits: seq<string>, args: seq<string>): string
    requires |lits| == |args| + 1
  {
    if args == [] then lits[0] else lits[0] + args[0] + Interleave(lits[1..], args[1..])
  }

  lemma {:induction false} SprintfOfLiteral(lit: string, rest: string, args: seq<string>)
    requires '%' !in lit
    ensures Sprintf(lit + rest, args) ==
              if Sprintf(rest, args).Some? then Some(lit + Sprintf(rest, args).value) else None
  {
    if lit == "" {
      assert lit + rest == rest;
      assert Sprintf(rest, args).Some? ==> lit + Sprintf(rest, args).value == Sprintf(rest, args).value;
    } else {
      assert (lit + rest)[0] == lit[0] && (lit + rest)[1..] == lit[1..] + rest;
      SprintfOfLiteral(lit[1..], rest, args);
      assert Sprintf(rest, args).Some? ==>
          [lit[0]] + (lit[1..] + Sprintf(rest, args).value) == lit + Sprintf(rest, args).value;
    }
  }

  lemma {:induction false} SprintfOfJoin(lits: seq<string>, args: seq<string>)
    requires |lits| == |args| + 1 && Free(lits, '%')
    ensures Sprintf(Join(lits, "%s"), args) == Some(Interleave(lits, args))
  {
    if args == [] {
      assert lits[0] + "" == lits[0];
      SprintfOfLiteral(lits[0], "", []);
    } else {
      SprintfOfJoin(lits[1..], args[1..]);
      var rest := Join(lits[1..], "%s");
      var f := "%s" + rest;
      assert Join(lits, "%s") == lits[0] + f;
      assert f[2..] == rest && f[0] == '%' && f[1] == 's';
      SprintfOfLiteral(lits[0], f, args);
      assert lits[0] + (args[0] + Interleave(lits[1..], args[1..])) == Interleave(lits, args);
    }
  }

  // The two tests that subjects and KV keys share.
  predicate WellFormed(pattern: string, placeholders: nat) {
    Count(pattern, "%s") == placeholders && '%' !in ReplaceAll(pattern, "%s", "")
  }

  // With an accepted pattern and the right number of arguments, formatting is the plain interleaving: no directive
  // is unknown, no argument is missing or left over, and arguments are not scanned again.
  lemma AcceptedPatternInterleaves(pattern: string, args: seq<string>)
    requires WellFormed(pattern, |args|)
    ensures |Pieces(pattern)| == |args| + 1
    ensures Sprintf(pattern, args) == Some(Interleave(Pieces(pattern), args))
  {
    JoinOfSplit(pattern, "%s");
    RemovedIsParts(pattern, "%s", '%');
    SprintfOfJoin(Pieces(pattern), args);
  }

  lemma {:induction false} CharOfInterleave(lits: seq<string>, args: seq<string>, c: char)
    requires |lits| == |args| + 1
    ensures c in Interleave(lits, args) <==> !Free(lits, c) || !Free(args, c)
  {
    if args == [] {
      assert lits == [lits[0]];
    } else {
      CharOfInterleave(lits[1..], args[1..], c);
      FreeOfCons(lits[0], lits[1..], c);
      FreeOfCons(args[0], args[1..], c);
      assert lits == [lits[0]] + lits[1..] && args == [args[0]] + args[1..];
    }
  }

  lemma {:induction false} CharOfJoin(lits: seq<string>, sep: string, c: char)
    requires lits != []
    ensures !Free(lits, c) ==> c in Join(lits, sep)
    ensures c !in sep && c in Join(lits, sep) ==> !Free(lits, c)
  {
    if |lits| > 1 {
      FreeOfCons(lits[0], lits[1..], c);
      assert lits == [lits[0]] + lits[1..];
      CharOfJoin(lits[1..], sep, c);
    }
  }

  // A character that no token has and that no directive is made of is in a subject iff it is in the pattern.
  lemma {:induction false} CharIffInPattern(u: Unicode, pattern: string, args: seq<string>, c: char)
    requires WellFormed(pattern, |args|) && forall i | 0 <= i < |args| :: IsToken(u, args[i])
    requires c == '*' || c == '>' || c == '.' || c == '|' || c in WHITESPACE
    ensures Sprintf(pattern, args).Some? && (c in Sprintf(pattern, args).value <==> c in pattern)
  {
    AcceptedPatternInterleaves(pattern, args);
    CharOfInterleave(Pieces(pattern), args, c);
    forall i | 0 <= i < |args| ensures c !in args[i] {
      TokenLacks(u, args[i], c);
    }
    JoinOfSplit(pattern, "%s");
    CharOfJoin(Pieces(pattern), "%s", c);
  }

  // Formatting accepted tokens introduces no percent sign, wildcard or listed whitespace.
  lemma SubjectIsClean(u: Unicode, pattern: string, args: seq<string>, c: char)
    requires ValidatePattern(pattern, |args|).None?
    requires forall i | 0 <= i < |args| :: IsToken(u, args[i])
    requires c == '%' || c == '*' || c == '>' || c in WHITESPACE
    ensures Sprintf(pattern, args).Some? && c !in Sprintf(pattern, args).value
  {
    AcceptedPatternInterleaves(pattern, args);
    CharOfInterleave(Pieces(pattern), args, c);
    forall i | 0 <= i < |args| ensures c !in args[i] {
      TokenLacks(u, args[i], c);
    }
    if !Free(Pieces(pattern), c) {
      JoinOfSplit(pattern, "%s");
      RemovedIsParts(pattern, "%s", '%');
      CharOfJoin(Pieces(pattern), "%s", c);
    }
  }

  // ---- injectivity ----

  // One placeholder: the subject (or key) determines the argument, whatever the argument is.
  lemma OnePlaceholderInjective(pattern: string, a: string, b: string)
    requires WellFormed(pattern, 1)
    requires Sprintf(pattern, [a]) == Sprintf(pattern, [b])
    ensures a == b
  {
    AcceptedPatternInterleaves(pattern, [a]);
    AcceptedPatternInterleaves(pattern, [b]);
    OneArgument(Pieces(pattern), a, b);
  }

  lemma OneArgument(lits: seq<string>, a: string, b: string)
    requires |lits| == 2 && Interleave(lits, [a]) == Interleave(lits, [b])
    ensures a == b
  {
    var (s, k) := (Interleave(lits, [a]), |lits[0]|);
    assert s == lits[0] + a + lits[1] == lits[0] + b + lits[1];
    assert |a| == |b|;
    assert a == s[k..k + |a|] && b == s[k..k + |b|];
  }

  ghost predicate Separates(u: Unicode, lit: string) {
    exists i :: 0 <= i < |lit| && !TokenChar(u, lit[i])
  }

  lemma {:induction false} FirstMark(u: Unicode, lit: string) returns (i: nat)
    requires Separates(u, lit)
    ensures i < |lit| && !TokenChar(u, lit[i]) && forall j | 0 <= j < i :: TokenChar(u, lit[j])
  {
    if !TokenChar(u, lit[0]) {
      i := 0;
    } else {
      var k :| 0 <= k < |lit| && !TokenChar(u, lit[k]);
      assert lit[1..][k - 1] == lit[k];
      i := FirstMark(u, lit[1..]);
      i := i + 1;
      assert forall j | 0 < j < i :: lit[j] == lit[1..][j - 1];
    }
  }

  function Two(lits: seq<string>, t: string, x: string): string
    requires |lits| == 3
  {
    lits[0] + t + lits[1] + x + lits[2]
  }

  lemma TwoIsInterleave(lits: seq<string>, t: string, x: string)
    requires |lits| == 3
    ensures Interleave(lits, [t, x]) == Two(lits, t, x)
  {
    var (l1, a1) := (lits[1..], [t, x][1..]);
    assert a1 == [x] && l1[1..] == [lits[2]];
    assert Interleave(l1, a1) == lits[1] + x + lits[2];
    assert lits[0] + t + (lits[1] + x + lits[2]) == Two(lits, t, x);
  }

  lemma SeparatedIsInjective(u: Unicode, lits: seq<string>, t: string, x: string, t': string, x': string)
    requires |lits| == 3 && Separates(u, lits[1]) && IsToken(u, t) && IsToken(u, t')
    requires Two(lits, t, x) == Two(lits, t', x')
    ensures t == t' && x == x'
  {
    var m := lits[1];
    var i := FirstMark(u, m);
    var (s, k) := (Two(lits, t, x), |lits[0]|);
    var tail := m[i + 1..];
    assert m == m[..i] + [m[i]] + tail;
    assert s[k..] == t + m[..i] + [m[i]] + (tail + x + lits[2]);
    assert s[k..] == t' + m[..i] + [m[i]] + (tail + x' + lits[2]);
    CutUnique(t + m[..i], m[i], tail + x + lits[2], t' + m[..i], m[i], tail + x' + lits[2], c => !TokenChar(u, c));
    assert |t| == |t'| && t == (t + m[..i])[..|t|] && t' == (t' + m[..i])[..|t'|];
    OneArgument([tail, lits[2]], x, x');
  }

  // Two placeholders: subjects are injective in (target, action) iff the literal between the placeholders has a
  // character that no token has.
  lemma TwoPlaceholdersInjectiveIff(u: Unicode, pattern: string)
    requires ValidatePattern(pattern, 2).None?
    ensures |Pieces(pattern)| == 3
    ensures Separates(u, Pieces(pattern)[1]) <==>
              forall t, x, t', x' | IsToken(u, t) && IsToken(u, x) && IsToken(u, t') && IsToken(u, x') ::
                Sprintf(pattern, [t, x]) == Sprintf(pattern, [t', x']) ==> t == t' && x == x'
  {
    AcceptedPatternInterleaves(pattern, ["", ""]);
    var lits := Pieces(pattern);
    if Separates(u, lits[1]) {
      forall t, x, t', x' | IsToken(u, t) && IsToken(u, x) && IsToken(u, t') && IsToken(u, x')
                            && Sprintf(pattern, [t, x]) == Sprintf(pattern, [t', x'])
        ensures t == t' && x == x'
      {
        FormatTwo(pattern, t, x);
        FormatTwo(pattern, t', x');
        SeparatedIsInjective(u, lits, t, x, t', x');
      }
    } else {
      Collision(u, pattern);
    }
  }

  lemma FormatTwo(pattern: string, t: string, x: string)
    requires ValidatePattern(pattern, 2).None?
    ensures |Pieces(pattern)| == 3 && Sprintf(pattern, [t, x]) == Some(Two(Pieces(pattern), t, x))
  {
    AcceptedPatternInterleaves(pattern, [t, x]);
    TwoIsInterleave(Pieces(pattern), t, x);
  }

  // ("a", "a" + m + "a") and ("a" + m + "a", "a") meet when m is made of token characters.
  lemma Collision(u: Unicode, pattern: string)
    requires ValidatePattern(pattern, 2).None?
    ensures |Pieces(pattern)| == 3
    ensures var m := Pieces(pattern)[1];
            && Sprintf(pattern, ["a", "a" + m + "a"]) == Sprintf(pattern, ["a" + m + "a", "a"])
            && (!Separates(u, m) ==> IsToken(u, "a") && IsToken(u, "a" + m + "a"))
  {
    FormatTwo(pattern, "a", "a");
    var lits := Pieces(pattern);
    var m := lits[1];
    FormatTwo(pattern, "a", "a" + m + "a");
    FormatTwo(pattern, "a" + m + "a", "a");
    assert lits[0] + "a" + m + ("a" + m + "a") + lits[2] == lits[0] + ("a" + m + "a") + m + "a" + lits[2];
  }

  // What a builder makes of a target: the token in the gap of the pattern, or a validation error if it is no token.
  lemma TargetSubjectBuilt(u: Unicode, lits: seq<string>, t: string)
    requires |lits| == 2 && Free(lits, '%')
    ensures TargetSubject(u, Join(lits, "%s"), t) ==
              if IsToken(u, t) then Ok(lits[0] + t + lits[1]) else Err(Validation)
  {
    NameAcceptedIffToken(u, t);
    SprintfOfJoin(lits, [t]);
    assert Interleave(lits, [t]) == lits[0] + t + lits[1];
  }

  // And of a target and an action.
  lemma ActionSubjectBuilt(u: Unicode, lits: seq<string>, t: string, a: string)
    requires |lits| == 3 && Free(lits, '%')
    ensures ActionSubject(u, Join(lits, "%s"), t, a) ==
              if IsToken(u, t) && IsToken(u, a) then Ok(lits[0] + t + lits[1] + a + lits[2]) else Err(Validation)
  {
    NameAcceptedIffToken(u, t);
    NameAcceptedIffToken(u, a);
    SprintfOfJoin(lits, [t, a]);
    TwoIsInterleave(lits, t, a);
    assert Two(lits, t, a) == lits[0] + t + lits[1] + a + lits[2];
  }

  // ---- the default patterns ----

  datatype Meaning = Configure(target: string) | Action(target: string, action: string)
                   | ResultOf(target: string) | StatusOf(target: string) | HealthOf(target: string)

  ghost predicate Tokens(u: Unicode, m: Meaning) {
    IsToken(u, m.target) && (m.Action? ==> IsToken(u, m.action))
  }

  function Subject(u: Unicode, p: Patterns, m: Meaning): Result<string> {
    match m
    case Configure(t) => TargetSubject(u, p.configure, t)
    case Action(t, a) => ActionSubject(u, p.action, t, a)
    case ResultOf(t) => TargetSubject(u, p.result, t)
    case StatusOf(t) => TargetSubject(u, p.status, t)
    case HealthOf(t) => TargetSubject(u, p.health, t)
  }

  function DefaultSubject(u: Unicode, m: Meaning): Result<string> {
    Subject(u, DEFAULT_PATTERNS, m)
  }

  function Levels(m: Meaning): seq<string> {
    match m
    case Configure(t) => ["cmd", "configure", t]
    case Action(t, a) => ["cmd", "action", t, a]
    case ResultOf(t) => ["result", t]
    case StatusOf(t) => ["status", t]
    case HealthOf(t) => ["health", t]
  }

  function Text(m: Meaning): string {
    match m
    case Configure(t) => "cmd.configure." + t
    case Action(t, a) => "cmd.action." + t + "." + a
    case ResultOf(t) => "result." + t
    case StatusOf(t) => "status." + t
    case HealthOf(t) => "health." + t
  }

  lemma DefaultsFormat(m: Meaning)
    ensures Sprintf(DEFAULT_PATTERNS.configure, [m.target]) == Some("cmd.configure." + m.target)
    ensures Sprintf(DEFAULT_PATTERNS.result, [m.target]) == Some("result." + m.target)
    ensures Sprintf(DEFAULT_PATTERNS.status, [m.target]) == Some("status." + m.target)
    ensures Sprintf(DEFAULT_PATTERNS.health, [m.target]) == Some("health." + m.target)
    ensures m.Action? ==>
              Sprintf(DEFAULT_PATTERNS.action, [m.target, m.action]) == Some("cmd.action." + m.target + "." + m.action)
  {
    assert "cmd.configure." + "%s" == DEFAULT_PATTERNS.configure;
    assert "result." + "%s" == DEFAULT_PATTERNS.result;
    assert "status." + "%s" == DEFAULT_PATTERNS.status;
    assert "health." + "%s" == DEFAULT_PATTERNS.health;
    OneFormat("cmd.configure.", m.target);
    OneFormat("result.", m.target);
    OneFormat("status.", m.target);
    OneFormat("health.", m.target);
    if m.Action? {
      ActionFormat(m.target, m.action);
    }
  }

  lemma ActionFormat(t: string, a: string)
    ensures Sprintf(DEFAULT_PATTERNS.action, [t, a]) == Some("cmd.action." + t + "." + a)
  {
    var lits := ["cmd.action.", ".", ""];
    assert Join(lits[2..], "%s") == "";
    assert lits[1..][1..] == lits[2..];
    assert Join(lits[1..], "%s") == "." + "%s" + "";
    assert Join(lits, "%s") == DEFAULT_PATTERNS.action;
    SprintfOfJoin(lits, [t, a]);
    TwoIsInterleave(lits, t, a);
    assert Two(lits, t, a) == "cmd.action." + t + "." + a;
  }

  lemma OneFormat(prefix: string, t: string)
    requires '%' !in prefix
    ensures Sprintf(prefix + "%s", [t]) == Some(prefix + t)
  {
    SprintfOfLiteral(prefix, "%s", [t]);
    assert "%s"[2..] == "" && [t][1..] == [];
    assert t + "" == t;
  }

  // Splitting a default subject at its dots gives back its kind and its tokens.
  lemma DefaultSubjectReadsBack(u: Unicode, m: Meaning)
    requires Tokens(u, m)
    ensures DefaultSubject(u, m).Ok? && Split(DefaultSubject(u, m).value, ".") == Levels(m)
  {
    DefaultSubjectText(u, m);
    TokenLacks(u, m.target, '.');
    if m.Action? {
      TokenLacks(u, m.action, '.');
    }
    JoinOfLevels(m);
    LevelsSplit(m);
  }

  lemma DefaultSubjectText(u: Unicode, m: Meaning)
    requires Tokens(u, m)
    ensures DefaultSubject(u, m) == Ok(Text(m))
  {
    NameAcceptedIffToken(u, m.target);
    if m.Action? {
      NameAcceptedIffToken(u, m.action);
    }
    DefaultsFormat(m);
  }

  lemma LevelsSplit(m: Meaning)
    requires '.' !in m.target && (m.Action? ==> '.' !in m.action)
    ensures Split(Join(Levels(m), "."), ".") == Levels(m)
  {
    SplitOfJoin(Levels(m), ".");
  }

  lemma JoinOfLevels(m: Meaning)
    ensures Join(Levels(m), ".") == Text(m)
  {
    var l := Levels(m);
    if m.Action? {
      assert l[1..][1..] == [m.target, m.action] && l[1..][1..][1..] == [m.action];
      assert Join(l[1..][1..], ".") == m.target + "." + m.action;
      assert Join(l[1..], ".") == "action" + "." + (m.target + "." + m.action);
    } else if m.Configure? {
      assert l[1..][1..] == [m.target];
      assert Join(l[1..], ".") == "configure" + "." + m.target;
    } else {
      assert l[1..] == [m.target];
    }
  }

  // So two messages share a default subject only if they are of the same kind and have the same tokens.
  lemma DefaultSubjectsDisjoint(u: Unicode, m: Meaning, n: Meaning)
    requires Tokens(u, m) && Tokens(u, n)
    requires DefaultSubject(u, m) == DefaultSubject(u, n)
    ensures m == n
  {
    DefaultSubjectReadsBack(u, m);
    DefaultSubjectReadsBack(u, n);
    var (l, k) := (Levels(m), Levels(n));
    assert l[0] == k[0] && l[1] == k[1] && l[|l| - 1] == k[|k| - 1];
    assert "configure"[0] == 'c' && "action"[0] == 'a';
    assert "result"[0] == 'r' && "status"[0] == 's' && "health"[0] == 'h' && "cmd"[0] == 'c';
  }
}
