/** The desired-config key builder (internal/kv/helpers.go), the key-pattern normalization of the
    session options, and the agreement between the two naming paths of SubmitConfigure. */
module Naming {
  import opened Common
  import opened Text
  import S = Subjects

  datatype KeyError = PatternRequired | PatternWhitespace | PatternPlaceholders | PatternDirectives
                    | Target(reason: S.NameError)

  const DEFAULT_KEY_PATTERN := "desired.%s"

  // ---------- internal/session/options.go ----------

  function ValidateKeyPattern(pattern: string): Option<KeyError> {
    if exists c | c in pattern :: IsBlank(c) then Some(PatternWhitespace)
    else if Count(pattern, VERB) != 1 then Some(PatternPlaceholders)
    else if '%' in RemoveAll(pattern, VERB) then Some(PatternDirectives)
    else None
  }

  function NormalizeKeyPattern(configured: string): Result<string, KeyError> {
    var trimmed := TrimSpace(configured);
    var pattern := if trimmed == "" then DEFAULT_KEY_PATTERN else trimmed;
    match ValidateKeyPattern(pattern)
    case Some(e) => Err(e)
    case None => Ok(pattern)
  }

  // ---------- internal/kv/helpers.go ----------

  function ValidateKvToken(letters: Alphabet, value: string): Option<S.NameError> {
    if TrimSpace(value) == "" then Some(S.Required)
    else if exists c | c in value :: IsBlank(c) then Some(S.Whitespace)
    else if '.' in value then Some(S.Dot)
    else if '*' in value || '>' in value then Some(S.Wildcard)
    else if exists c | c in value :: !IsTokenChar(letters, c) then Some(S.Unsupported)
    else None
  }

  function BuildDesiredConfigKey(letters: Alphabet, pattern: string, target: string): Result<Formatted, KeyError> {
    var trimmed := TrimSpace(pattern);
    if trimmed == "" then Err(PatternRequired)
    else if exists c | c in trimmed :: IsBlank(c) then Err(PatternWhitespace)
    else if Count(trimmed, VERB) != 1 then Err(PatternPlaceholders)
    else if '%' in RemoveAll(trimmed, VERB) then Err(PatternDirectives)
    else
      match ValidateKvToken(letters, target)
      case Some(e) => Err(Target(e))
      case None => Ok(Sprintf(trimmed, [target]))
  }

  // ---------- agreement ----------

  /** A key pattern as normalization hands it on. */
  predicate IsNormal(p: string) {
    TrimSpace(p) == p && p != "" && ValidateKeyPattern(p).None?
  }

  /** Normalization hands on valid, trimmed patterns, its own default included. */
  lemma NormalizedPattern(configured: string)
    requires NormalizeKeyPattern(configured).Ok?
    ensures IsNormal(NormalizeKeyPattern(configured).value)
  {
    TrimSpaceIdempotent(configured);
    assert TrimLeft(DEFAULT_KEY_PATTERN) == DEFAULT_KEY_PATTERN;
    assert DEFAULT_KEY_PATTERN[|DEFAULT_KEY_PATTERN| - 1] == 's';
  }

  /** It is idempotent: it leaves such patterns alone. */
  lemma NormalIsKept(pattern: string)
    requires IsNormal(pattern)
    ensures NormalizeKeyPattern(pattern) == Ok(pattern)
  {
  }

  /** Literal text of a key pattern. */
  predicate KeyText(s: string) {
    forall c | c in s :: c != ' ' && c != '\t' && c != '\r' && c != '\n' && c != '%'
  }

  lemma KeyPatternSplits(pattern: string) returns (a: string, b: string)
    requires ValidateKeyPattern(pattern).None?
    ensures KeyText(a) && KeyText(b) && pattern == a + "%s" + b
  {
    KeyPatternLiterals(pattern);
    WeaveLiterals(pattern);
    var lits := Literals(pattern);
    a, b := lits[0], lits[1];
    assert lits == [a, b] && seq(1, _ => VERB) == [VERB];
    S.Weave1(a, b, VERB);
    assert Free(lits[0], '%') && Free(lits[1], '%');
    assert forall c | c in a || c in b :: c in pattern;
  }

  /** A key pattern is accepted iff it is one placeholder between two pieces of text that hold neither white space
      nor a percent sign; wildcards and dots are allowed. */
  lemma KeyPatternAcceptance(pattern: string)
    ensures ValidateKeyPattern(pattern).None?
        <==> exists a: string, b: string :: KeyText(a) && KeyText(b) && pattern == a + "%s" + b
  {
    if ValidateKeyPattern(pattern).None? {
      var a, b := KeyPatternSplits(pattern);
    }
    if a: string, b: string :| KeyText(a) && KeyText(b) && pattern == a + "%s" + b {
      var lits := [a, b];
      assert seq(1, _ => VERB) == [VERB];
      S.Weave1(a, b, VERB);
      assert AllFree(lits, '%');
      LiteralsOfWeave(lits, 1);
      WeaveLiterals(pattern);
      LiteralsResidual(pattern);
    }
  }

  /** Normalization trims what is configured, puts the default in the place of nothing, and fails exactly for what
      is then no key pattern. */
  lemma NormalizationIs(configured: string)
    ensures var p := if TrimSpace(configured) == "" then "desired.%s" else TrimSpace(configured);
            && (NormalizeKeyPattern(configured) == Ok(p) <==>
                  exists a: string, b: string :: KeyText(a) && KeyText(b) && p == a + "%s" + b)
            && (NormalizeKeyPattern(configured).Ok? ==> NormalizeKeyPattern(configured) == Ok(p))
  {
    KeyPatternAcceptance(if TrimSpace(configured) == "" then "desired.%s" else TrimSpace(configured));
  }

  /** The builder checks the trimmed pattern as the options do, and then the target: it fails for no other
      reason, and for the target only under a valid pattern. */
  lemma KeyBuilderChecks(letters: Alphabet, pattern: string, target: string)
    ensures BuildDesiredConfigKey(letters, pattern, target).Ok? <==>
            ValidateKeyPattern(TrimSpace(pattern)).None? && IsToken(letters, target)
    ensures BuildDesiredConfigKey(letters, pattern, target).Err?
            && BuildDesiredConfigKey(letters, pattern, target).error.Target? <==>
            ValidateKeyPattern(TrimSpace(pattern)).None? && !IsToken(letters, target)
  {
    S.TargetsAreTokens(letters, target);
  }

  lemma KeyPatternLiterals(pattern: string)
    requires ValidateKeyPattern(pattern).None?
    ensures |Literals(pattern)| == 2 && AllFree(Literals(pattern), '%')
  {
    WeaveLiterals(pattern);
    LiteralsResidual(pattern);
  }

  /** After configuration has been normalized, building a key fails for invalid targets and for
      nothing else; a built key is the pattern with the target in place of its placeholder. */
  lemma KeyBuilding(letters: Alphabet, configured: string, target: string)
    requires NormalizeKeyPattern(configured).Ok?
    ensures var p := NormalizeKeyPattern(configured).value;
            && BuildDesiredConfigKey(letters, p, target).Ok? == IsToken(letters, target)
            && |Literals(p)| == 2
            && (IsToken(letters, target) ==>
                 BuildDesiredConfigKey(letters, p, target).value
                   == Formatted(Literals(p)[0] + target + Literals(p)[1]))
  {
    var p := NormalizeKeyPattern(configured).value;
    NormalizedPattern(configured);
    KeyPatternLiterals(p);
    S.TargetsAreTokens(letters, target);
    if IsToken(letters, target) {
      SprintfIsWeave(p, [target]);
      var lits := Literals(p);
      assert lits == [lits[0], lits[1]];
      S.Weave1(lits[0], lits[1], target);
    }
  }

  /** Distinct targets have distinct keys, so a write under one target's key never touches another. */
  lemma KeysAreDistinct(letters: Alphabet, configured: string, t1: string, t2: string)
    requires NormalizeKeyPattern(configured).Ok?
    requires IsToken(letters, t1) && IsToken(letters, t2)
    requires var p := NormalizeKeyPattern(configured).value;
             BuildDesiredConfigKey(letters, p, t1) == BuildDesiredConfigKey(letters, p, t2)
    ensures t1 == t2
  {
    KeyBuilding(letters, configured, t1);
    KeyBuilding(letters, configured, t2);
    var lits := Literals(NormalizeKeyPattern(configured).value);
    S.CancelAround(lits[0], t1, t2, lits[1]);
  }

  /** The two independently written validators give the same verdict for the same reason. */
  lemma ValidatorsAgree(letters: Alphabet, target: string)
    ensures ValidateKvToken(letters, target) == S.ValidateTarget(letters, target)
  {
  }

  /** Once a key has been built for a target its configure subject can be built too, and conversely; and
      both are well formed. */
  lemma NamingCannotFailHalfway(letters: Alphabet, keyPattern: string, subjectPattern: string, target: string)
    requires IsNormal(keyPattern) && S.ValidatePattern(subjectPattern, 1).None?
    ensures var key := BuildDesiredConfigKey(letters, keyPattern, target);
            var subject := S.TargetSubject(letters, subjectPattern, target);
            && key.Ok? == subject.Ok?
            && (key.Ok? ==> key.value.Formatted? && subject.value.Formatted?)
  {
    NormalIsKept(keyPattern);
    KeyBuilding(letters, keyPattern, target);
    S.TargetsAreTokens(letters, target);
    if IsToken(letters, target) {
      S.SubstitutionIsExact(letters, subjectPattern, [target]);
    }
  }
}
