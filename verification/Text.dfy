/** The string library calls that naming depends on: trimming, searching, and the "%s" formatter. */
module Text {

  const VERB := "%s"

  // ---------- characters ----------

  /** The code points Go's unicode.IsSpace accepts. */
  predicate IsSpace(c: char) {
    var n := c as int;
    || 9 <= n <= 13 || n == 0x20 || n == 0x85 || n == 0xA0 || n == 0x1680
    || 0x2000 <= n <= 0x200A || n == 0x2028 || n == 0x2029 || n == 0x202F || n == 0x205F || n == 0x3000
  }

  /** The four characters the validators reject by name. */
  predicate IsBlank(c: char) {
    c == ' ' || c == '\t' || c == '\r' || c == '\n'
  }

  predicate IsWildcard(c: char) {
    c == '*' || c == '>'
  }

  ghost predicate LetterTable(f: char -> bool) {
    forall c: char :: f(c) ==> !IsSpace(c) && !IsWildcard(c) && c != '.' && c != '%' && c != '|'
  }

  /** The Unicode letter-or-digit table, of which only the excluded characters matter here. */
  type Alphabet = f: char -> bool | LetterTable(f) witness ((c: char) => false)

  predicate IsTokenChar(letters: Alphabet, c: char) {
    letters(c) || c == '_' || c == '-'
  }

  /** What a target or action name may be: one or more token characters. */
  predicate IsToken(letters: Alphabet, s: string) {
    s != "" && forall c | c in s :: IsTokenChar(letters, c)
  }

  // ---------- trimming ----------

  function TrimLeft(s: string): string {
    if s != "" && IsSpace(s[0]) then TrimLeft(s[1..]) else s
  }

  function TrimRight(s: string): string {
    if s != "" && IsSpace(s[|s| - 1]) then TrimRight(s[..|s| - 1]) else s
  }

  function TrimSpace(s: string): string {
    TrimRight(TrimLeft(s))
  }

  /** Trimming leaves the empty string exactly when there is nothing but white space. */
  lemma {:induction false} TrimSpaceEmpty(s: string)
    ensures TrimSpace(s) == "" <==> forall c | c in s :: IsSpace(c)
  {
    if s == "" {
    } else {
      if IsSpace(s[0]) {
        TrimSpaceEmpty(s[1..]);
        assert s == [s[0]] + s[1..];
      } else {
        TrimRightKeepsFirst(s);
      }
    }
  }

  lemma {:induction false} TrimRightKeepsFirst(s: string)
    requires s != "" && !IsSpace(s[0])
    ensures TrimRight(s) != "" && TrimRight(s)[0] == s[0]
  {
    if !IsSpace(s[|s| - 1]) {
    } else {
      TrimRightKeepsFirst(s[..|s| - 1]);
    }
  }

  lemma {:induction false} TrimRightEnd(s: string)
    ensures TrimRight(s) != "" ==> !IsSpace(TrimRight(s)[|TrimRight(s)| - 1])
    ensures TrimRight(s) <= s
  {
    if s != "" && IsSpace(s[|s| - 1]) {
      TrimRightEnd(s[..|s| - 1]);
    }
  }

  lemma {:induction false} TrimLeftStart(s: string)
    ensures TrimLeft(s) != "" ==> !IsSpace(TrimLeft(s)[0])
  {
    if s != "" && IsSpace(s[0]) {
      TrimLeftStart(s[1..]);
    }
  }

  lemma {:induction false} TrimLeftAround(a: string, rest: string)
    requires rest != "" && !IsSpace(rest[0])
    ensures TrimLeft(a + rest) == TrimLeft(a) + rest
  {
    if a == "" {
      assert a + rest == rest;
    } else if IsSpace(a[0]) {
      TrimLeftAround(a[1..], rest);
      assert (a + rest)[1..] == a[1..] + rest;
    }
  }

  lemma {:induction false} TrimRightAround(rest: string, b: string)
    requires rest != "" && !IsSpace(rest[|rest| - 1])
    ensures TrimRight(rest + b) == rest + TrimRight(b)
  {
    if b == "" {
      assert rest + b == rest;
    } else if IsSpace(b[|b| - 1]) {
      TrimRightAround(rest, b[..|b| - 1]);
      assert (rest + b)[..|rest + b| - 1] == rest + b[..|b| - 1];
    }
  }

  /** Trimming reaches no further than a word without space at either end. */
  lemma TrimAround(a: string, word: string, b: string)
    requires word != "" && !IsSpace(word[0]) && !IsSpace(word[|word| - 1])
    ensures TrimSpace(a + word + b) == TrimLeft(a) + word + TrimRight(b)
  {
    assert a + word + b == a + (word + b);
    TrimLeftAround(a, word + b);
    assert TrimLeft(a) + (word + b) == (TrimLeft(a) + word) + b;
    TrimRightAround(TrimLeft(a) + word, b);
  }

  lemma {:induction false} TrimLeftCuts(s: string) returns (a: string)
    ensures s == a + TrimLeft(s) && forall c | c in a :: IsSpace(c)
  {
    if s != "" && IsSpace(s[0]) {
      a := TrimLeftCuts(s[1..]);
      a := [s[0]] + a;
    } else {
      a := "";
    }
  }

  lemma {:induction false} TrimRightCuts(s: string) returns (b: string)
    ensures s == TrimRight(s) + b && forall c | c in b :: IsSpace(c)
  {
    if s != "" && IsSpace(s[|s| - 1]) {
      b := TrimRightCuts(s[..|s| - 1]);
      b := b + [s[|s| - 1]];
    } else {
      b := "";
    }
  }

  /** Trimming cuts white space off both ends, all of it, and nothing else. */
  lemma TrimSpaceIs(s: string, t: string)
    ensures TrimSpace(s) == t <==>
      && (exists a: string, b: string :: s == a + t + b && forall c | c in a + b :: IsSpace(c))
      && (t != "" ==> !IsSpace(t[0]) && !IsSpace(t[|t| - 1]))
  {
    if TrimSpace(s) == t {
      var a := TrimLeftCuts(s);
      var b := TrimRightCuts(TrimLeft(s));
      TrimLeftStart(s);
      TrimRightEnd(TrimLeft(s));
      assert s == a + t + b && forall c | c in a + b :: IsSpace(c);
    }
    if (exists a: string, b: string :: s == a + t + b && forall c | c in a + b :: IsSpace(c))
       && (t != "" ==> !IsSpace(t[0]) && !IsSpace(t[|t| - 1])) {
      var a: string, b: string :| s == a + t + b && forall c | c in a + b :: IsSpace(c);
      if t == "" {
        TrimSpaceEmpty(s);
      } else {
        TrimAround(a, t, b);
        SpaceIsCut(a);
        SpaceIsCut(b);
      }
    }
  }

  lemma {:induction false} SpaceIsCut(s: string)
    requires forall c | c in s :: IsSpace(c)
    ensures TrimLeft(s) == TrimRight(s) == ""
    decreases |s|
  {
    if s != "" {
      assert s[0] in s && s[|s| - 1] in s;
      SpaceIsCut(s[1..]);
      SpaceIsCut(s[..|s| - 1]);
    }
  }

  lemma TrimSpaceIdempotent(s: string)
    ensures TrimSpace(TrimSpace(s)) == TrimSpace(s)
  {
    var left := TrimLeft(s);
    TrimLeftStart(s);
    TrimRightEnd(left);
  }

  // ---------- searching ----------

  function Count(s: string, sub: string): nat
    requires sub != ""
  {
    if |s| < |sub| then 0
    else if s[..|sub|] == sub then 1 + Count(s[|sub|..], sub)
    else Count(s[1..], sub)
  }

  function RemoveAll(s: string, sub: string): string
    requires sub != ""
  {
    if |s| < |sub| then s
    else if s[..|sub|] == sub then RemoveAll(s[|sub|..], sub)
    else [s[0]] + RemoveAll(s[1..], sub)
  }

  // ---------- formatting ----------

  datatype Formatted = Formatted(text: string) | Malformed

  function Prepend(s: string, f: Formatted): Formatted {
    if f.Formatted? then Formatted(s + f.text) else f
  }

  /** A formatter that scans left to right and knows "%s" and "%%"; anything else after a percent
      sign, a missing argument or a left-over argument is malformed. */
  function Sprintf(p: string, args: seq<string>): Formatted {
    if p == "" then (if args == [] then Formatted("") else Malformed)
    else if p[0] != '%' then Prepend([p[0]], Sprintf(p[1..], args))
    else if |p| == 1 then Malformed
    else if p[1] == '%' then Prepend("%", Sprintf(p[2..], args))
    else if p[1] == 's' && args != [] then Prepend(args[0], Sprintf(p[2..], args[1..]))
    else Malformed
  }

  /** The literal text before, between and after the placeholders of a pattern. */
  function Literals(p: string): (lits: seq<string>)
    ensures lits != []
  {
    if p == "" then [""]
    else if |p| >= 2 && p[..2] == VERB then [""] + Literals(p[2..])
    else
      var rest := Literals(p[1..]);
      [[p[0]] + rest[0]] + rest[1..]
  }

  /** Literals with the arguments spliced between them, in order. */
  function Weave(lits: seq<string>, args: seq<string>): string
    requires |lits| == |args| + 1
  {
    if args == [] then lits[0] else lits[0] + args[0] + Weave(lits[1..], args[1..])
  }

  predicate Free(s: string, c: char) {
    c !in s
  }

  ghost predicate AllFree(lits: seq<string>, c: char) {
    forall i | 0 <= i < |lits| :: Free(lits[i], c)
  }

  lemma {:induction false} LiteralsCount(p: string)
    ensures |Literals(p)| == Count(p, VERB) + 1
  {
    if p == "" {
    } else if |p| >= 2 && p[..2] == VERB {
      LiteralsCount(p[2..]);
    } else {
      LiteralsCount(p[1..]);
    }
  }

  lemma {:induction false} LiteralsResidual(p: string)
    ensures AllFree(Literals(p), '%') <==> Free(RemoveAll(p, VERB), '%')
  {
    if p == "" {
    } else if |p| >= 2 && p[..2] == VERB {
      LiteralsResidual(p[2..]);
      AllFreeCons("", Literals(p[2..]), '%');
    } else {
      LiteralsResidual(p[1..]);
      var rest := Literals(p[1..]);
      AllFreeCons(rest[0], rest[1..], '%');
      AllFreeCons([p[0]] + rest[0], rest[1..], '%');
      assert rest == [rest[0]] + rest[1..];
      assert RemoveAll(p, VERB) == [p[0]] + RemoveAll(p[1..], VERB);
    }
  }

  lemma AllFreeCons(head: string, tail: seq<string>, c: char)
    ensures AllFree([head] + tail, c) <==> Free(head, c) && AllFree(tail, c)
  {
    var lits := [head] + tail;
    assert lits[0] == head;
    assert forall i | 0 <= i < |tail| :: lits[i + 1] == tail[i];
  }

  lemma {:induction false} WeaveLiterals(p: string)
    ensures |Literals(p)| == Count(p, VERB) + 1
    ensures Weave(Literals(p), seq(Count(p, VERB), _ => VERB)) == p
  {
    var n := Count(p, VERB);
    LiteralsCount(p);
    if p == "" {
    } else if |p| >= 2 && p[..2] == VERB {
      WeaveLiterals(p[2..]);
      assert seq(n, _ => VERB)[1..] == seq(n - 1, _ => VERB);
      assert p == VERB + p[2..];
    } else {
      WeaveLiterals(p[1..]);
      WeaveCons(p[0], Literals(p[1..]), seq(n, _ => VERB));
    }
  }

  lemma WeaveCons(c: char, lits: seq<string>, args: seq<string>)
    requires |lits| == |args| + 1
    ensures Weave([[c] + lits[0]] + lits[1..], args) == [c] + Weave(lits, args)
  {
    assert ([[c] + lits[0]] + lits[1..])[1..] == lits[1..];
    if args != [] {
      assert [c] + lits[0] + args[0] + Weave(lits[1..], args[1..])
          == [c] + (lits[0] + args[0] + Weave(lits[1..], args[1..]));
    }
  }

  /** On a pattern whose literals hold no percent sign, the formatter is the weave. */
  lemma {:induction false} SprintfIsWeave(p: string, args: seq<string>)
    requires AllFree(Literals(p), '%')
    requires |args| == |Literals(p)| - 1
    ensures Sprintf(p, args) == Formatted(Weave(Literals(p), args))
  {
    var lits := Literals(p);
    if p == "" {
    } else if |p| >= 2 && p[..2] == VERB {
      assert p[0] == '%' && p[1] == 's';
      assert lits[1..] == Literals(p[2..]);
      assert forall i | 0 <= i < |lits| - 1 :: lits[1..][i] == lits[i + 1];
      SprintfIsWeave(p[2..], args[1..]);
    } else {
      var rest := Literals(p[1..]);
      assert lits[0] == [p[0]] + rest[0];
      assert forall i | 1 <= i < |rest| :: rest[i] == lits[i];
      assert p[0] in lits[0] && Free(lits[0], '%');
      assert forall c | c in rest[0] :: c in lits[0];
      assert forall i | 0 <= i < |rest| :: Free(rest[i], '%') by {
        assert forall i | 0 <= i < |lits| :: Free(lits[i], '%');
      }
      SprintfIsWeave(p[1..], args);
      assert lits[1..] == rest[1..];
    }
  }

  /** Splitting undoes weaving with placeholders. */
  lemma {:induction false} LiteralsOfWeave(lits: seq<string>, n: nat)
    requires |lits| == n + 1 && AllFree(lits, '%')
    ensures Literals(Weave(lits, seq(n, _ => VERB))) == lits
    decreases n, |lits[0]|
  {
    var p := Weave(lits, seq(n, _ => VERB));
    if lits[0] == "" {
      if n > 0 {
        assert seq(n, _ => VERB)[1..] == seq(n - 1, _ => VERB);
        assert forall i | 0 <= i < n :: lits[1..][i] == lits[i + 1];
        LiteralsOfWeave(lits[1..], n - 1);
        assert p[2..] == Weave(lits[1..], seq(n - 1, _ => VERB));
        assert p[..2] == VERB;
        assert lits == [""] + lits[1..];
      } else {
        assert lits == [""];
      }
    } else {
      var shorter := lits[0 := lits[0][1..]];
      assert Free(lits[0], '%');
      assert forall i | 1 <= i < |lits| :: shorter[i] == lits[i];
      assert AllFree(shorter, '%') by {
        assert forall i | 0 <= i < |lits| :: Free(lits[i], '%');
      }
      assert shorter[1..] == lits[1..];
      assert lits[0] == [lits[0][0]] + lits[0][1..];
      assert p == [lits[0][0]] + Weave(shorter, seq(n, _ => VERB));
      assert p[1..] == Weave(shorter, seq(n, _ => VERB));
      assert p[0] != '%' by { assert lits[0][0] in lits[0]; }
      LiteralsOfWeave(shorter, n);
      assert lits == [[p[0]] + shorter[0]] + shorter[1..];
    }
  }

  /** Every character of a weave comes from a literal or from an argument. */
  lemma {:induction false} WeaveChars(lits: seq<string>, args: seq<string>, c: char)
    requires |lits| == |args| + 1
    ensures c in Weave(lits, args)
        <==> (exists i | 0 <= i < |lits| :: c in lits[i]) || (exists i | 0 <= i < |args| :: c in args[i])
  {
    if args == [] {
    } else {
      WeaveChars(lits[1..], args[1..], c);
      assert forall i | 0 < i < |lits| :: lits[i] == lits[1..][i - 1];
      assert forall i | 0 < i < |args| :: args[i] == args[1..][i - 1];
      assert forall i | 0 <= i < |lits| - 1 :: lits[1..][i] == lits[i + 1];
      assert forall i | 0 <= i < |args| - 1 :: args[1..][i] == args[i + 1];
    }
  }
}
