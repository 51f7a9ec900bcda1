/** Subject patterns and the subject builder (internal/subjects). */
module Subjects {
  import opened Common
  import opened Text

  datatype NameError = Required | Whitespace | Dot | Wildcard | Placeholders | Directives | Unsupported

  // ---------- tokens ----------

  function ValidateToken(letters: Alphabet, value: string): Option<NameError> {
    if exists c | c in value :: IsBlank(c) then Some(Whitespace)
    else if '.' in value then Some(Dot)
    else if '*' in value || '>' in value then Some(Wildcard)
    else if exists c | c in value :: !IsTokenChar(letters, c) then Some(Unsupported)
    else None
  }

  function ValidateTarget(letters: Alphabet, target: string): Option<NameError> {
    if TrimSpace(target) == "" then Some(Required) else ValidateToken(letters, target)
  }

  function ValidateAction(letters: Alphabet, action: string): Option<NameError> {
    if TrimSpace(action) == "" then Some(Required) else ValidateToken(letters, action)
  }

  /** The checks of a target name, taken in their order, accept exactly the tokens. */
  lemma TargetsAreTokens(letters: Alphabet, target: string)
    ensures ValidateTarget(letters, target).None? <==> IsToken(letters, target)
    ensures ValidateAction(letters, target) == ValidateTarget(letters, target)
  {
    TrimSpaceEmpty(target);
    if IsToken(letters, target) {
      assert target[0] in target;
      assert forall c | c in target :: !IsSpace(c) && !IsBlank(c) && c != '.' && !IsWildcard(c);
    }
  }

  /** The reason given for refusing a name is true. */
  lemma RefusalIsTrue(letters: Alphabet, target: string)
    requires ValidateTarget(letters, target).Some?
    ensures match ValidateTarget(letters, target).value
            case Required => forall c | c in target :: IsSpace(c)
            case Whitespace => exists c | c in target :: c == ' ' || c == '\t' || c == '\r' || c == '\n'
            case Dot => '.' in target
            case Wildcard => '*' in target || '>' in target
            case Unsupported => exists c | c in target :: !letters(c) && c != '_' && c != '-'
            case _ => false
  {
    TrimSpaceEmpty(target);
  }

  // ---------- patterns ----------

  function ValidatePattern(pattern: string, placeholders: nat): Option<NameError> {
    if TrimSpace(pattern) == "" then Some(Required)
    else if exists c | c in pattern :: IsBlank(c) then Some(Whitespace)
    else if '*' in pattern || '>' in pattern then Some(Wildcard)
    else if Count(pattern, VERB) != placeholders then Some(Placeholders)
    else if '%' in RemoveAll(pattern, VERB) then Some(Directives)
    else None
  }

  predicate CleanText(s: string) {
    forall c | c in s :: !IsBlank(c) && !IsWildcard(c) && c != '%'
  }

  /** n + 1 pieces of literal text, none of which holds white space, a wildcard or a percent sign. */
  ghost predicate CleanLiterals(lits: seq<string>, n: nat) {
    |lits| == n + 1 && forall i | 0 <= i < |lits| :: CleanText(lits[i])
  }

  lemma AcceptedPatternLiterals(pattern: string, n: nat)
    requires ValidatePattern(pattern, n).None?
    ensures CleanLiterals(Literals(pattern), n)
    ensures Weave(Literals(pattern), seq(n, _ => VERB)) == pattern
  {
    var lits := Literals(pattern);
    WeaveLiterals(pattern);
    LiteralsResidual(pattern);
    forall i | 0 <= i < |lits|
      ensures CleanText(lits[i])
    {
      assert Free(lits[i], '%');
      forall c | c in lits[i]
        ensures !IsBlank(c) && !IsWildcard(c) && c != '%'
      {
        WeaveChars(lits, seq(n, _ => VERB), c);
        assert c in pattern;
      }
    }
  }

  /** Acceptance is decomposition: a pattern with n placeholders is accepted iff it is n + 1 clean
      literals with "%s" between them. */
  lemma PatternAcceptance(pattern: string, n: nat)
    requires n > 0
    ensures ValidatePattern(pattern, n).None?
        <==> exists lits :: CleanLiterals(lits, n) && pattern == Weave(lits, seq(n, _ => VERB))
  {
    if ValidatePattern(pattern, n).None? {
      AcceptedPatternLiterals(pattern, n);
    }
    if lits :| CleanLiterals(lits, n) && pattern == Weave(lits, seq(n, _ => VERB)) {
      WovenPatternAccepted(lits, n);
    }
  }

  lemma WovenPatternAccepted(lits: seq<string>, n: nat)
    requires n > 0 && CleanLiterals(lits, n)
    ensures ValidatePattern(Weave(lits, seq(n, _ => VERB)), n).None?
  {
    var verbs := seq(n, _ => VERB);
    var pattern := Weave(lits, verbs);
    assert AllFree(lits, '%') by { assert forall i | 0 <= i < |lits| :: CleanText(lits[i]); }
    LiteralsOfWeave(lits, n);
    WeaveLiterals(pattern);
    LiteralsResidual(pattern);
    forall c | c in pattern
      ensures !IsBlank(c) && !IsWildcard(c)
    {
      WeaveChars(lits, verbs, c);
      if i :| 0 <= i < |lits| && c in lits[i] {
        assert CleanText(lits[i]);
      } else {
        assert c in VERB;
      }
    }
    WeaveChars(lits, verbs, 's');
    assert 's' in verbs[0];
    TrimSpaceEmpty(pattern);
    assert 's' in pattern && !IsSpace('s');
  }

  // ---------- substitution ----------

  ghost predicate Tokens(letters: Alphabet, args: seq<string>) {
    forall i | 0 <= i < |args| :: IsToken(letters, args[i])
  }

  /** For an accepted pattern and as many valid names as it has placeholders, the formatter meets no
      bad, missing or extra verb; the result is the pattern's literals with the names spliced in
      order, and it holds no wildcard, no rejected white space and no percent sign. */
  lemma SubstitutionIsExact(letters: Alphabet, pattern: string, args: seq<string>)
    requires ValidatePattern(pattern, |args|).None? && Tokens(letters, args)
    ensures Literals(pattern) != [] && |Literals(pattern)| == |args| + 1
    ensures Sprintf(pattern, args) == Formatted(Weave(Literals(pattern), args))
    ensures CleanText(Sprintf(pattern, args).text)
  {
    var lits := Literals(pattern);
    AcceptedPatternLiterals(pattern, |args|);
    assert AllFree(lits, '%') by { assert forall i | 0 <= i < |lits| :: CleanText(lits[i]); }
    SprintfIsWeave(pattern, args);
    forall c | c in Weave(lits, args)
      ensures !IsBlank(c) && !IsWildcard(c) && c != '%'
    {
      WeaveChars(lits, args, c);
      if i :| 0 <= i < |lits| && c in lits[i] {
        assert CleanText(lits[i]);
      } else {
        var i :| 0 <= i < |args| && c in args[i];
        assert IsToken(letters, args[i]) && IsTokenChar(letters, c);
      }
    }
  }

  lemma Weave1(a: string, b: string, x: string)
    ensures Weave([a, b], [x]) == a + x + b
  {
    assert [a, b][1..] == [b];
  }

  lemma Weave2(a: string, m: string, b: string, x: string, y: string)
    ensures Weave([a, m, b], [x, y]) == a + x + m + y + b
  {
    assert [a, m, b][1..] == [m, b];
    assert [x, y][1..] == [y];
    Weave1(m, b, y);
    assert a + x + (m + y + b) == a + x + m + y + b;
  }

  lemma CancelAround(a: string, x: string, y: string, b: string)
    requires a + x + b == a + y + b
    ensures x == y
  {
    assert x == (a + x + b)[|a|..|a + x + b| - |b|];
    assert y == (a + y + b)[|a|..|a + y + b| - |b|];
  }

  /** A pattern with one placeholder never maps two targets to one subject. */
  lemma OnePlaceholderInjective(letters: Alphabet, pattern: string, x: string, y: string)
    requires ValidatePattern(pattern, 1).None? && IsToken(letters, x) && IsToken(letters, y)
    requires Sprintf(pattern, [x]) == Sprintf(pattern, [y])
    ensures x == y
  {
    SubstitutionIsExact(letters, pattern, [x]);
    SubstitutionIsExact(letters, pattern, [y]);
    var lits := Literals(pattern);
    assert lits == [lits[0], lits[1]];
    Weave1(lits[0], lits[1], x);
    Weave1(lits[0], lits[1], y);
    CancelAround(lits[0], x, y, lits[1]);
  }

  /** The literal between two placeholders holds a character no name can hold. */
  ghost predicate Separates(letters: Alphabet, middle: string) {
    exists c | c in middle :: !IsTokenChar(letters, c)
  }

  /** Position i holds the first character of w that no name can hold. */
  ghost predicate FirstForeign(letters: Alphabet, w: string, i: nat) {
    i < |w| && !IsTokenChar(letters, w[i]) && forall j | 0 <= j < i :: IsTokenChar(letters, w[j])
  }

  lemma {:induction false} FirstForeignExists(letters: Alphabet, m: string) returns (k: nat)
    requires Separates(letters, m)
    ensures FirstForeign(letters, m, k)
  {
    if !IsTokenChar(letters, m[0]) {
      k := 0;
    } else {
      assert m == [m[0]] + m[1..];
      k := FirstForeignExists(letters, m[1..]);
      assert forall j | 0 < j < k + 1 :: m[j] == m[1..][j - 1];
      k := k + 1;
    }
  }

  lemma ForeignPosition(letters: Alphabet, x: string, m: string, y: string, k: nat)
    requires FirstForeign(letters, m, k)
    requires forall c | c in x :: IsTokenChar(letters, c)
    ensures FirstForeign(letters, x + m + y, |x| + k)
  {
    var w := x + m + y;
    assert w[|x| + k] == m[k];
    assert forall j | 0 <= j < |x| :: w[j] == x[j];
    assert forall j | |x| <= j < |x| + k :: w[j] == m[j - |x|];
  }

  /** Both words have their first foreign character in the separator, so the first names end at the
      same place. */
  lemma SeparatedPairs(letters: Alphabet, m: string, x1: string, y1: string, x2: string, y2: string)
    requires Separates(letters, m)
    requires IsToken(letters, x1) && IsToken(letters, x2)
    requires x1 + m + y1 == x2 + m + y2
    ensures x1 == x2 && y1 == y2
  {
    var k := FirstForeignExists(letters, m);
    ForeignPosition(letters, x1, m, y1, k);
    ForeignPosition(letters, x2, m, y2, k);
    assert |x1| == |x2|;
    assert x1 == (x1 + m + y1)[..|x1|] && y1 == (x1 + m + y1)[|x1| + |m|..];
    assert x2 == (x2 + m + y2)[..|x1|] && y2 == (x2 + m + y2)[|x1| + |m|..];
  }

  ghost predicate InjectivePairs(letters: Alphabet, pattern: string) {
    forall x1, y1, x2, y2 | Tokens(letters, [x1, y1]) && Tokens(letters, [x2, y2])
      && Sprintf(pattern, [x1, y1]) == Sprintf(pattern, [x2, y2]) :: x1 == x2 && y1 == y2
  }

  /** Action subjects tell (target, action) pairs apart exactly when the text between the two
      placeholders holds a character that names cannot hold. Validation does not ask for one. */
  lemma TwoPlaceholdersInjectiveIff(letters: Alphabet, pattern: string)
    requires ValidatePattern(pattern, 2).None?
    ensures |Literals(pattern)| == 3
    ensures InjectivePairs(letters, pattern) <==> Separates(letters, Literals(pattern)[1])
  {
    AcceptedPatternLiterals(pattern, 2);
    if Separates(letters, Literals(pattern)[1]) {
      forall x1, y1, x2, y2 | Tokens(letters, [x1, y1]) && Tokens(letters, [x2, y2])
        && Sprintf(pattern, [x1, y1]) == Sprintf(pattern, [x2, y2])
        ensures x1 == x2 && y1 == y2
      {
        SeparatedPatternInjective(letters, pattern, x1, y1, x2, y2);
      }
    } else {
      CollidingPairs(letters, pattern);
    }
  }

  lemma SeparatedPatternInjective(letters: Alphabet, pattern: string, x1: string, y1: string, x2: string, y2: string)
    requires ValidatePattern(pattern, 2).None?
    requires |Literals(pattern)| == 3 && Separates(letters, Literals(pattern)[1])
    requires Tokens(letters, [x1, y1]) && Tokens(letters, [x2, y2])
    requires Sprintf(pattern, [x1, y1]) == Sprintf(pattern, [x2, y2])
    ensures x1 == x2 && y1 == y2
  {
    PairText(letters, pattern, x1, y1);
    PairText(letters, pattern, x2, y2);
    assert IsToken(letters, [x1, y1][0]) && IsToken(letters, [x2, y2][0]);
    WordPairs(letters, Literals(pattern)[0], Literals(pattern)[1], Literals(pattern)[2], x1, y1, x2, y2);
  }

  lemma WordPairs(letters: Alphabet, a: string, m: string, b: string, x1: string, y1: string, x2: string, y2: string)
    requires Separates(letters, m) && IsToken(letters, x1) && IsToken(letters, x2)
    requires a + x1 + m + y1 + b == a + x2 + m + y2 + b
    ensures x1 == x2 && y1 == y2
  {
    var w1, w2 := x1 + m + y1, x2 + m + y2;
    assert a + x1 + m + y1 + b == a + w1 + b;
    assert a + x2 + m + y2 + b == a + w2 + b;
    CancelAround(a, w1, w2, b);
    SeparatedPairs(letters, m, x1, y1, x2, y2);
  }

  lemma PairText(letters: Alphabet, pattern: string, x: string, y: string)
    requires ValidatePattern(pattern, 2).None? && Tokens(letters, [x, y])
    ensures |Literals(pattern)| == 3
    ensures var lits := Literals(pattern); Sprintf(pattern, [x, y]) == Formatted(lits[0] + x + lits[1] + y + lits[2])
  {
    SubstitutionIsExact(letters, pattern, [x, y]);
    var lits := Literals(pattern);
    assert lits == [lits[0], lits[1], lits[2]];
    Weave2(lits[0], lits[1], lits[2], x, y);
  }

  /** Without a separator m, the pairs ("_", "_m_") and ("_m_", "_") share a subject. */
  lemma CollidingPairs(letters: Alphabet, pattern: string)
    requires ValidatePattern(pattern, 2).None?
    requires |Literals(pattern)| == 3 && !Separates(letters, Literals(pattern)[1])
    ensures !InjectivePairs(letters, pattern)
  {
    var m := Literals(pattern)[1];
    var long := "_" + m + "_";
    assert IsToken(letters, long) && IsToken(letters, "_");
    PairText(letters, pattern, "_", long);
    PairText(letters, pattern, long, "_");
    SameWord(Literals(pattern)[0], m, Literals(pattern)[2]);
    assert Tokens(letters, ["_", long]) && Tokens(letters, [long, "_"]);
    assert |long| > 1;
  }

  lemma SameWord(a: string, m: string, b: string)
    ensures var long := "_" + m + "_"; a + "_" + m + long + b == a + long + m + "_" + b
  {
    var long := "_" + m + "_";
    assert "_" + m + long == long + m + "_";
    assert a + "_" + m + long + b == a + ("_" + m + long) + b;
    assert a + long + m + "_" + b == a + (long + m + "_") + b;
  }

  // ---------- the builder ----------

  datatype Patterns = Patterns(configure: string, action: string, result: string, status: string, health: string)

  const DEFAULTS := Patterns("cmd.configure.%s", "cmd.action.%s.%s", "result.%s", "status.%s", "health.%s")

  function ValidatePatterns(p: Patterns): Option<NameError> {
    if ValidatePattern(p.configure, 1).Some? then ValidatePattern(p.configure, 1)
    else if ValidatePattern(p.action, 2).Some? then ValidatePattern(p.action, 2)
    else if ValidatePattern(p.result, 1).Some? then ValidatePattern(p.result, 1)
    else if ValidatePattern(p.status, 1).Some? then ValidatePattern(p.status, 1)
    else ValidatePattern(p.health, 1)
  }

  function OrDefault(configured: string, default: string): string {
    if configured != "" then configured else default
  }

  function PatternsFromConfig(cfg: Patterns): Result<Patterns, NameError> {
    var p := Patterns(OrDefault(cfg.configure, DEFAULTS.configure), OrDefault(cfg.action, DEFAULTS.action),
                      OrDefault(cfg.result, DEFAULTS.result), OrDefault(cfg.status, DEFAULTS.status),
                      OrDefault(cfg.health, DEFAULTS.health));
    match ValidatePatterns(p)
    case Some(e) => Err(e)
    case None => Ok(p)
  }

  datatype Builder = Builder(patterns: Patterns)

  function NewBuilder(p: Patterns): Result<Builder, NameError> {
    match ValidatePatterns(p)
    case Some(e) => Err(e)
    case None => Ok(Builder(p))
  }

  /** A one-placeholder subject: configure, result, status and health differ only in the pattern. */
  function TargetSubject(letters: Alphabet, pattern: string, target: string): Result<Formatted, NameError> {
    match ValidateTarget(letters, target)
    case Some(e) => Err(e)
    case None => Ok(Sprintf(pattern, [target]))
  }

  function ConfigureSubject(letters: Alphabet, b: Builder, target: string): Result<Formatted, NameError> {
    TargetSubject(letters, b.patterns.configure, target)
  }

  function ResultSubject(letters: Alphabet, b: Builder, target: string): Result<Formatted, NameError> {
    TargetSubject(letters, b.patterns.result, target)
  }

  function StatusSubject(letters: Alphabet, b: Builder, target: string): Result<Formatted, NameError> {
    TargetSubject(letters, b.patterns.status, target)
  }

  function HealthSubject(letters: Alphabet, b: Builder, target: string): Result<Formatted, NameError> {
    TargetSubject(letters, b.patterns.health, target)
  }

  function ActionSubject(letters: Alphabet, b: Builder, target: string, action: string): Result<Formatted, NameError> {
    match ValidateTarget(letters, target)
    case Some(e) => Err(e)
    case None =>
      match ValidateAction(letters, action)
      case Some(e) => Err(e)
      case None => Ok(Sprintf(b.patterns.action, [target, action]))
  }

  /** A subject is made exactly when the names are valid, and then it is well formed and made of those names
      between the literals of that pattern. */
  predicate MadeFor(subject: Result<Formatted, NameError>, valid: bool, pattern: string, names: seq<string>)
    requires |Literals(pattern)| == |names| + 1
  {
    && subject.Ok? == valid
    && (subject.Ok? ==> subject.value == Formatted(Weave(Literals(pattern), names)) && CleanText(subject.value.text))
  }

  lemma TargetSubjectMade(letters: Alphabet, pattern: string, target: string)
    requires ValidatePattern(pattern, 1).None?
    ensures |Literals(pattern)| == 2
    ensures MadeFor(TargetSubject(letters, pattern, target), IsToken(letters, target), pattern, [target])
  {
    AcceptedPatternLiterals(pattern, 1);
    TargetsAreTokens(letters, target);
    if IsToken(letters, target) {
      SubstitutionIsExact(letters, pattern, [target]);
    }
  }

  lemma ActionSubjectMade(letters: Alphabet, b: Builder, target: string, action: string)
    requires ValidatePattern(b.patterns.action, 2).None?
    ensures |Literals(b.patterns.action)| == 3
    ensures MadeFor(ActionSubject(letters, b, target, action), IsToken(letters, target) && IsToken(letters, action),
                    b.patterns.action, [target, action])
  {
    AcceptedPatternLiterals(b.patterns.action, 2);
    TargetsAreTokens(letters, target);
    TargetsAreTokens(letters, action);
    if IsToken(letters, target) && IsToken(letters, action) {
      SubstitutionIsExact(letters, b.patterns.action, [target, action]);
    }
  }

  /** Resolving configuration keeps each pattern that is given, puts the default in the place of each that is
      not, and fails exactly when one of the five is then not acceptable; the defaults are. */
  lemma ResolvedPatterns(cfg: Patterns)
    ensures var p := Patterns(if cfg.configure == "" then "cmd.configure.%s" else cfg.configure,
                              if cfg.action == "" then "cmd.action.%s.%s" else cfg.action,
                              if cfg.result == "" then "result.%s" else cfg.result,
                              if cfg.status == "" then "status.%s" else cfg.status,
                              if cfg.health == "" then "health.%s" else cfg.health);
            && (PatternsFromConfig(cfg) == Ok(p) <==> EachValid(p))
            && (PatternsFromConfig(cfg).Ok? <==> EachValid(p))
            && (NewBuilder(p) == Ok(Builder(p)) <==> EachValid(p))
  {
  }

  predicate EachValid(p: Patterns) {
    && ValidatePattern(p.configure, 1).None? && ValidatePattern(p.action, 2).None?
    && ValidatePattern(p.result, 1).None? && ValidatePattern(p.status, 1).None?
    && ValidatePattern(p.health, 1).None?
  }

  /** Every pattern set resolved from configuration passes the builder's second validation, and each of the
      five builders then makes a subject for exactly the valid names: well formed, with the names between the
      literals of its own pattern. */
  lemma ResolvedBuilderNeverMalforms(letters: Alphabet, cfg: Patterns, target: string, action: string)
    requires PatternsFromConfig(cfg).Ok?
    ensures NewBuilder(PatternsFromConfig(cfg).value).Ok?
    ensures var b, p := NewBuilder(PatternsFromConfig(cfg).value).value, PatternsFromConfig(cfg).value;
            && |Literals(p.configure)| == |Literals(p.result)| == |Literals(p.status)| == |Literals(p.health)| == 2
            && |Literals(p.action)| == 3
            && MadeFor(ConfigureSubject(letters, b, target), IsToken(letters, target), p.configure, [target])
            && MadeFor(ResultSubject(letters, b, target), IsToken(letters, target), p.result, [target])
            && MadeFor(StatusSubject(letters, b, target), IsToken(letters, target), p.status, [target])
            && MadeFor(HealthSubject(letters, b, target), IsToken(letters, target), p.health, [target])
            && MadeFor(ActionSubject(letters, b, target, action), IsToken(letters, target) && IsToken(letters, action),
                       p.action, [target, action])
  {
    ResolvedPatterns(cfg);
    BuilderNeverMalforms(letters, Builder(PatternsFromConfig(cfg).value), target, action);
  }

  lemma BuilderNeverMalforms(letters: Alphabet, b: Builder, target: string, action: string)
    requires EachValid(b.patterns)
    ensures var p := b.patterns;
            && |Literals(p.configure)| == |Literals(p.result)| == |Literals(p.status)| == |Literals(p.health)| == 2
            && |Literals(p.action)| == 3
            && MadeFor(ConfigureSubject(letters, b, target), IsToken(letters, target), p.configure, [target])
            && MadeFor(ResultSubject(letters, b, target), IsToken(letters, target), p.result, [target])
            && MadeFor(StatusSubject(letters, b, target), IsToken(letters, target), p.status, [target])
            && MadeFor(HealthSubject(letters, b, target), IsToken(letters, target), p.health, [target])
            && MadeFor(ActionSubject(letters, b, target, action), IsToken(letters, target) && IsToken(letters, action),
                       p.action, [target, action])
  {
    TargetSubjectMade(letters, b.patterns.configure, target);
    TargetSubjectMade(letters, b.patterns.result, target);
    TargetSubjectMade(letters, b.patterns.status, target);
    TargetSubjectMade(letters, b.patterns.health, target);
    ActionSubjectMade(letters, b, target, action);
  }
}
