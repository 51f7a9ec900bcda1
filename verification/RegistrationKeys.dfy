/** The conflict key of a subscription registration (internal/registry/registry.go). */
module RegistrationKeys {
  import opened Common
  import opened Text
  import S = Subjects

  const CONFIGURE := "configure"
  const ACTION := "action"
  const RESULT := "result"
  const STATUS := "status"

  predicate IsKind(kind: string) {
    kind == CONFIGURE || kind == ACTION || kind == RESULT || kind == STATUS
  }

  function RegistrationKey(kind: string, subject: string, queueGroup: string): string {
    kind + "|" + TrimSpace(subject) + "|" + TrimSpace(queueGroup)
  }

  /** What a registration is for. Only action registrations carry an action; the others leave it empty. */
  datatype Route = Route(kind: string, target: string, action: string)

  predicate IsRoute(letters: Alphabet, r: Route) {
    && IsKind(r.kind)
    && IsToken(letters, r.target)
    && (if r.kind == ACTION then IsToken(letters, r.action) else r.action == "")
  }

  /** The pattern of a kind that has the target as its only name. */
  function TargetPattern(p: S.Patterns, kind: string): string {
    if kind == CONFIGURE then p.configure else if kind == RESULT then p.result else p.status
  }

  /** The subject the client registers for a route. */
  function SubjectOf(letters: Alphabet, p: S.Patterns, r: Route): Result<Formatted, S.NameError> {
    if r.kind == ACTION then S.ActionSubject(letters, S.Builder(p), r.target, r.action)
    else S.TargetSubject(letters, TargetPattern(p, r.kind), r.target)
  }

  /** The text of that subject, between the outer literals of its pattern. */
  function Middle(p: S.Patterns, r: Route): string
    requires |Literals(p.action)| == 3
  {
    if r.kind == ACTION then r.target + Literals(p.action)[1] + r.action else r.target
  }

  function Outer(p: S.Patterns, kind: string): (string, string)
    requires |Literals(p.action)| == 3 && |Literals(TargetPattern(p, kind))| == 2
  {
    if kind == ACTION then (Literals(p.action)[0], Literals(p.action)[2])
    else (Literals(TargetPattern(p, kind))[0], Literals(TargetPattern(p, kind))[1])
  }

  lemma PatternShapes(p: S.Patterns, kind: string)
    requires S.ValidatePatterns(p).None?
    ensures |Literals(p.action)| == 3 && |Literals(TargetPattern(p, kind))| == 2
  {
    S.AcceptedPatternLiterals(p.action, 2);
    S.AcceptedPatternLiterals(TargetPattern(p, kind), 1);
  }

  lemma ActionText(letters: Alphabet, p: S.Patterns, r: Route)
    requires S.ValidatePattern(p.action, 2).None? && IsRoute(letters, r) && r.kind == ACTION
    ensures |Literals(p.action)| == 3
    ensures SubjectOf(letters, p, r) == Ok(Formatted(Literals(p.action)[0] + Middle(p, r) + Literals(p.action)[2]))
  {
    S.TargetsAreTokens(letters, r.target);
    S.TargetsAreTokens(letters, r.action);
    S.PairText(letters, p.action, r.target, r.action);
    var lits := Literals(p.action);
    assert lits[0] + r.target + lits[1] + r.action + lits[2] == lits[0] + (r.target + lits[1] + r.action) + lits[2];
  }

  lemma TargetText(letters: Alphabet, pattern: string, target: string)
    requires S.ValidatePattern(pattern, 1).None? && IsToken(letters, target)
    ensures |Literals(pattern)| == 2
    ensures S.TargetSubject(letters, pattern, target)
            == Ok(Formatted(Literals(pattern)[0] + target + Literals(pattern)[1]))
  {
    S.TargetsAreTokens(letters, target);
    var lits := Literals(pattern);
    S.SubstitutionIsExact(letters, pattern, [target]);
    assert lits == [lits[0], lits[1]];
    S.Weave1(lits[0], lits[1], target);
  }

  lemma EachPatternValid(p: S.Patterns, kind: string)
    requires S.ValidatePatterns(p).None?
    ensures S.ValidatePattern(p.action, 2).None? && S.ValidatePattern(TargetPattern(p, kind), 1).None?
  {
  }

  /** The text of a kind's own pattern around the names, written out for each of the four kinds. */
  lemma SubjectOfKind(letters: Alphabet, p: S.Patterns, r: Route)
    requires S.ValidatePatterns(p).None? && IsRoute(letters, r)
    ensures |Literals(p.configure)| == |Literals(p.result)| == |Literals(p.status)| == 2 && |Literals(p.action)| == 3
    ensures var subject := SubjectOf(letters, p, r);
      && (r.kind == "configure" ==>
            subject == Ok(Formatted(Literals(p.configure)[0] + r.target + Literals(p.configure)[1])))
      && (r.kind == "result" ==> subject == Ok(Formatted(Literals(p.result)[0] + r.target + Literals(p.result)[1])))
      && (r.kind == "status" ==> subject == Ok(Formatted(Literals(p.status)[0] + r.target + Literals(p.status)[1])))
      && (r.kind == "action" ==>
            subject == Ok(Formatted(Literals(p.action)[0] + (r.target + Literals(p.action)[1] + r.action)
                                    + Literals(p.action)[2])))
  {
    PatternShapes(p, CONFIGURE);
    PatternShapes(p, RESULT);
    PatternShapes(p, STATUS);
    SubjectText(letters, p, r);
  }

  /** The subject is the route's names between the literals of the pattern of its kind. */
  lemma SubjectText(letters: Alphabet, p: S.Patterns, r: Route)
    requires S.ValidatePatterns(p).None? && IsRoute(letters, r)
    ensures |Literals(p.action)| == 3 && |Literals(TargetPattern(p, r.kind))| == 2
    ensures SubjectOf(letters, p, r) == Ok(Formatted(Outer(p, r.kind).0 + Middle(p, r) + Outer(p, r.kind).1))
  {
    PatternShapes(p, r.kind);
    EachPatternValid(p, r.kind);
    if r.kind == ACTION {
      ActionText(letters, p, r);
    } else {
      TargetText(letters, TargetPattern(p, r.kind), r.target);
    }
  }

  // ---------- splitting a key ----------

  function IndexOf(w: string, c: char): nat {
    if w == "" || w[0] == c then 0 else 1 + IndexOf(w[1..], c)
  }

  lemma {:induction false} IndexOfSeparator(x: string, sep: char, y: string)
    requires Free(x, sep)
    ensures IndexOf(x + [sep] + y, sep) == |x|
  {
    if x == "" {
    } else {
      assert x[0] in x && forall c | c in x[1..] :: c in x;
      IndexOfSeparator(x[1..], sep, y);
      assert (x + [sep] + y)[1..] == x[1..] + [sep] + y;
    }
  }

  lemma SplitAt(sep: char, x1: string, y1: string, x2: string, y2: string)
    requires Free(x1, sep) && Free(x2, sep)
    requires x1 + [sep] + y1 == x2 + [sep] + y2
    ensures x1 == x2 && y1 == y2
  {
    var w1, w2 := x1 + [sep] + y1, x2 + [sep] + y2;
    IndexOfSeparator(x1, sep, y1);
    IndexOfSeparator(x2, sep, y2);
    assert x1 == w1[..|x1|] && x2 == w2[..|x1|];
    assert y1 == w1[|x1| + 1..] && y2 == w2[|x1| + 1..];
  }

  lemma KindFirst(k1: string, s1: string, q1: string, k2: string, s2: string, q2: string)
    requires IsKind(k1) && IsKind(k2)
    requires k1 + "|" + s1 + "|" + q1 == k2 + "|" + s2 + "|" + q2
    ensures k1 == k2 && s1 + "|" + q1 == s2 + "|" + q2
  {
    assert k1 + "|" + s1 + "|" + q1 == k1 + "|" + (s1 + "|" + q1);
    assert k2 + "|" + s2 + "|" + q2 == k2 + "|" + (s2 + "|" + q2);
    SplitAt('|', k1, s1 + "|" + q1, k2, s2 + "|" + q2);
  }

  /** The kind is the first part of a key, so registrations of different kinds never conflict. */
  lemma KindOfKey(k1: string, s1: string, q1: string, k2: string, s2: string, q2: string)
    requires IsKind(k1) && IsKind(k2)
    requires RegistrationKey(k1, s1, q1) == RegistrationKey(k2, s2, q2)
    ensures k1 == k2 && TrimSpace(s1) + "|" + TrimSpace(q1) == TrimSpace(s2) + "|" + TrimSpace(q2)
  {
    KindFirst(k1, TrimSpace(s1), TrimSpace(q1), k2, TrimSpace(s2), TrimSpace(q2));
  }

  // ---------- conflicts ----------

  /** The rest of a key tells the name before it from the queue group after it, whatever the literal between
      them and the queue group hold: a name ends at the first character no name can hold. */
  lemma NameThenQueue(letters: Alphabet, right: string, x1: string, q1: string, x2: string, q2: string)
    requires IsToken(letters, x1) && IsToken(letters, x2)
    requires x1 + (right + "|") + q1 == x2 + (right + "|") + q2
    ensures x1 == x2 && q1 == q2
  {
    assert (right + "|")[|right|] == '|' && '|' in right + "|" && !IsTokenChar(letters, '|');
    S.SeparatedPairs(letters, right + "|", x1, q1, x2, q2);
  }

  lemma CancelLeft(left: string, w1: string, w2: string)
    requires left + w1 == left + w2
    ensures w1 == w2
  {
    assert w1 == (left + w1)[|left|..] && w2 == (left + w2)[|left|..];
  }

  lemma TargetsFromKey(letters: Alphabet, left: string, right: string, t1: string, q1: string, t2: string, q2: string)
    requires IsToken(letters, t1) && IsToken(letters, t2)
    requires left + t1 + right + "|" + q1 == left + t2 + right + "|" + q2
    ensures t1 == t2 && q1 == q2
  {
    assert left + t1 + right + "|" + q1 == left + (t1 + (right + "|") + q1);
    assert left + t2 + right + "|" + q2 == left + (t2 + (right + "|") + q2);
    CancelLeft(left, t1 + (right + "|") + q1, t2 + (right + "|") + q2);
    NameThenQueue(letters, right, t1, q1, t2, q2);
  }

  lemma PairsFromKey(letters: Alphabet, left: string, m: string, right: string,
                     t1: string, a1: string, q1: string, t2: string, a2: string, q2: string)
    requires S.Separates(letters, m)
    requires IsToken(letters, t1) && IsToken(letters, t2) && IsToken(letters, a1) && IsToken(letters, a2)
    requires left + (t1 + m + a1) + right + "|" + q1 == left + (t2 + m + a2) + right + "|" + q2
    ensures t1 == t2 && a1 == a2 && q1 == q2
  {
    var y1, y2 := a1 + (right + "|") + q1, a2 + (right + "|") + q2;
    assert left + (t1 + m + a1) + right + "|" + q1 == left + (t1 + m + y1);
    assert left + (t2 + m + a2) + right + "|" + q2 == left + (t2 + m + y2);
    CancelLeft(left, t1 + m + y1, t2 + m + y2);
    S.SeparatedPairs(letters, m, t1, y1, t2, y2);
    NameThenQueue(letters, right, a1, q1, a2, q2);
  }

  lemma NoSpaceInToken(letters: Alphabet, s: string)
    requires IsToken(letters, s)
    ensures !IsSpace(s[0]) && !IsSpace(s[|s| - 1])
  {
    assert s[0] in s && s[|s| - 1] in s;
  }

  /** Trimming a subject trims the outer literals only. */
  lemma TrimmedSubject(letters: Alphabet, p: S.Patterns, r: Route)
    requires |Literals(p.action)| == 3 && |Literals(TargetPattern(p, r.kind))| == 2 && IsRoute(letters, r)
    ensures TrimSpace(Outer(p, r.kind).0 + Middle(p, r) + Outer(p, r.kind).1)
         == TrimLeft(Outer(p, r.kind).0) + Middle(p, r) + TrimRight(Outer(p, r.kind).1)
  {
    NoSpaceInToken(letters, r.target);
    if r.kind == ACTION {
      NoSpaceInToken(letters, r.action);
    }
    TrimAround(Outer(p, r.kind).0, Middle(p, r), Outer(p, r.kind).1);
  }

  /** The action pattern tells targets from actions. */
  ghost predicate ActionsSeparate(letters: Alphabet, p: S.Patterns) {
    |Literals(p.action)| == 3 && S.Separates(letters, Literals(p.action)[1])
  }

  /** Conflict means sameness. Under every accepted set of patterns two registrations get the same key if and
      only if they agree in kind, target, action and queue group up to surrounding white space; for actions
      this takes a pattern that tells targets from actions. Queue groups and literals may hold anything, the
      separator included. */
  lemma ConflictMeansSameness(letters: Alphabet, p: S.Patterns, r1: Route, s1: string, q1: string, r2: Route,
                              s2: string, q2: string)
    requires S.ValidatePatterns(p).None? && IsRoute(letters, r1) && IsRoute(letters, r2)
    requires SubjectOf(letters, p, r1) == Ok(Formatted(s1)) && SubjectOf(letters, p, r2) == Ok(Formatted(s2))
    requires r1.kind == ACTION ==> ActionsSeparate(letters, p)
    ensures RegistrationKey(r1.kind, s1, q1) == RegistrationKey(r2.kind, s2, q2) <==>
            r1 == r2 && TrimSpace(q1) == TrimSpace(q2)
  {
    SubjectText(letters, p, r1);
    SubjectText(letters, p, r2);
    if RegistrationKey(r1.kind, s1, q1) == RegistrationKey(r2.kind, s2, q2) {
      KindOfKey(r1.kind, s1, q1, r2.kind, s2, q2);
      TrimmedSubject(letters, p, r1);
      TrimmedSubject(letters, p, r2);
      RoutesFromKey(letters, p, r1, TrimSpace(q1), r2, TrimSpace(q2));
    }
  }

  lemma RoutesFromKey(letters: Alphabet, p: S.Patterns, r1: Route, q1: string, r2: Route, q2: string)
    requires |Literals(p.action)| == 3 && |Literals(TargetPattern(p, r1.kind))| == 2
    requires IsRoute(letters, r1) && IsRoute(letters, r2) && r1.kind == r2.kind
    requires r1.kind == ACTION ==> ActionsSeparate(letters, p)
    requires var (left, right) := Outer(p, r1.kind);
             TrimLeft(left) + Middle(p, r1) + TrimRight(right) + "|" + q1
                 == TrimLeft(left) + Middle(p, r2) + TrimRight(right) + "|" + q2
    ensures r1 == r2 && q1 == q2
  {
    var (left, right) := Outer(p, r1.kind);
    if r1.kind == ACTION {
      PairsFromKey(letters, TrimLeft(left), Literals(p.action)[1], TrimRight(right), r1.target, r1.action, q1,
          r2.target, r2.action, q2);
    } else {
      TargetsFromKey(letters, TrimLeft(left), TrimRight(right), r1.target, q1, r2.target, q2);
    }
  }

  /** No two different action routes share a subject. */
  ghost predicate ActionsDistinct(letters: Alphabet, p: S.Patterns) {
    forall r1: Route, r2: Route
      | IsRoute(letters, r1) && IsRoute(letters, r2) && r1.kind == ACTION && r2.kind == ACTION
        && SubjectOf(letters, p, r1) == SubjectOf(letters, p, r2) :: r1 == r2
  }

  /** The condition on actions is exact: without it two different action routes share a subject, and so, with
      any queue group, a key. */
  lemma ActionConflictsIff(letters: Alphabet, p: S.Patterns)
    requires S.ValidatePattern(p.action, 2).None?
    ensures ActionsSeparate(letters, p) <==> ActionsDistinct(letters, p)
  {
    S.TwoPlaceholdersInjectiveIff(letters, p.action);
    if ActionsSeparate(letters, p) {
      forall r1: Route, r2: Route
        | IsRoute(letters, r1) && IsRoute(letters, r2) && r1.kind == ACTION && r2.kind == ACTION
          && SubjectOf(letters, p, r1) == SubjectOf(letters, p, r2)
        ensures r1 == r2
      {
        ActionSubjectIs(letters, p, r1);
        ActionSubjectIs(letters, p, r2);
      }
    } else {
      var r1, r2 := CollidingRoutes(letters, p);
      assert !ActionsDistinct(letters, p);
    }
  }

  lemma ActionSubjectIs(letters: Alphabet, p: S.Patterns, r: Route)
    requires IsRoute(letters, r) && r.kind == ACTION
    ensures SubjectOf(letters, p, r) == Ok(Sprintf(p.action, [r.target, r.action]))
    ensures S.Tokens(letters, [r.target, r.action])
  {
    S.TargetsAreTokens(letters, r.target);
    S.TargetsAreTokens(letters, r.action);
  }

  lemma CollidingRoutes(letters: Alphabet, p: S.Patterns) returns (r1: Route, r2: Route)
    requires !S.InjectivePairs(letters, p.action)
    ensures IsRoute(letters, r1) && IsRoute(letters, r2) && r1.kind == ACTION && r2.kind == ACTION && r1 != r2
    ensures SubjectOf(letters, p, r1) == SubjectOf(letters, p, r2)
  {
    var x1, y1, x2, y2 :| S.Tokens(letters, [x1, y1]) && S.Tokens(letters, [x2, y2])
      && Sprintf(p.action, [x1, y1]) == Sprintf(p.action, [x2, y2]) && !(x1 == x2 && y1 == y2);
    assert [x1, y1][0] == x1 && [x1, y1][1] == y1 && [x2, y2][0] == x2 && [x2, y2][1] == y2;
    r1, r2 := Route(ACTION, x1, y1), Route(ACTION, x2, y2);
    ActionSubjectIs(letters, p, r1);
    ActionSubjectIs(letters, p, r2);
  }

  lemma DotSeparates(letters: Alphabet, p: S.Patterns)
    requires |Literals(p.action)| == 3 && Literals(p.action)[1] == "."
    ensures ActionsSeparate(letters, p)
  {
    assert "."[0] == '.' && '.' in "." && !IsTokenChar(letters, '.');
  }

  lemma DefaultActionLiterals(pattern: string)
    requires pattern == S.DEFAULTS.action
    ensures S.ValidatePattern(pattern, 2).None? && Literals(pattern) == ["cmd.action.", ".", ""]
  {
    var lits := ["cmd.action.", ".", ""];
    S.Weave2("cmd.action.", ".", "", VERB, VERB);
    assert seq(2, _ => VERB) == [VERB, VERB];
    assert "cmd.action." + VERB + "." + VERB + "" == pattern;
    assert S.CleanLiterals(lits, 2);
    S.PatternAcceptance(pattern, 2);
    LiteralsOfWeave(lits, 2);
  }

  /** The default action pattern is accepted and tells targets from actions. */
  lemma DefaultActionsSeparate(letters: Alphabet, p: S.Patterns)
    requires p.action == S.DEFAULTS.action
    ensures S.ValidatePattern(p.action, 2).None? && ActionsSeparate(letters, p)
  {
    DefaultActionLiterals(p.action);
    DotSeparates(letters, p);
  }
}
