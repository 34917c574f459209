/**
  `Event.Custom`: a user-defined analytics event, its closed universe of
  parameter values, and the event-name check that guards its initializer.
 */
module CustomEvent {
  import opened Foundation

  /**
    `Event.Custom.Value`: exactly six variants. Equality is structural and
    variant-aware, so `IntValue(3)` and a `DoubleValue` are never equal.
   */
  datatype Value =
    | StringValue(s: string)
    | DoubleValue(d: Double)
    | IntValue(i: Int64)
    | BoolValue(b: bool)
    | ArrayValue(elements: seq<Value>)
    | DictionaryValue(entries: map<string, Value>)

  /** The error thrown for a rejected event name. */
  datatype InvalidName = InvalidName

  /**
    A custom event. Its parameters map names to OPTIONAL values, so a key may
    be present with no value.
   */
  datatype Custom = Custom(name: string, parameters: map<string, Option<Value>>)

  /** No coercion between the numeric variants. */
  lemma NumericVariantsDiffer(n: Int64, d: Double)
    ensures IntValue(n) != DoubleValue(d)
    ensures ArrayValue([IntValue(n)]) != ArrayValue([DoubleValue(d)])
  {
  }

  // ---------------------------------------------------------------------
  // The name check as the code compiles it.
  // ---------------------------------------------------------------------

  // The compiled pattern begins with a literal slash and then the
  // start-of-input anchor: the slashes and the trailing `gm` of the pattern
  // text are ordinary characters, not delimiters and flags. Every match needs
  // at least these two steps, so the rest of the pattern does not matter.

  /** The pattern's first step: a literal slash at `pos`. */
  predicate SlashAt(name: string, pos: int)
  {
    0 <= pos < |name| && name[pos] == '/'
  }

  /** The pattern's second step, `^` without the multi-line option: it matches at offset 0 only. */
  predicate AnchorAt(pos: int)
  {
    pos == 0
  }

  /** A match beginning at offset `start`: the slash at `start`, then the anchor right after it. */
  predicate PatternMatchesAt(name: string, start: int)
  {
    SlashAt(name, start) && AnchorAt(start + 1)
  }

  /** `isEventNameValid` as written: some match exists anywhere in the name. */
  predicate IsEventNameValidAsWritten(name: string)
  {
    exists start | 0 <= start <= |name| :: PatternMatchesAt(name, start)
  }

  /** The pattern as written matches no name at all. */
  lemma AsWrittenRejectsEveryName(name: string)
    ensures !IsEventNameValidAsWritten(name)
  {
  }

  /** `init(name:parameters:)` guarded by the check as written. */
  function CustomInitAsWritten(name: string, parameters: map<string, Option<Value>> := map[]): (r: Result<Custom, InvalidName>)
    ensures r.Ok? <==> IsEventNameValidAsWritten(name)
  {
    if IsEventNameValidAsWritten(name) then Ok(Custom(name, parameters)) else Err(InvalidName)
  }

  /** With the check as written, every custom event is refused, even one with a documented-valid name. */
  lemma AsWrittenRefusesValidName()
    ensures IsEventNameValid("PostPublished")
    ensures CustomInitAsWritten("PostPublished") == Err(InvalidName)
  {
  }

  // ---------------------------------------------------------------------
  // The documented rule: 1 to 40 characters, only ASCII letters, digits
  // and underscores, an ASCII letter first, and none of the reserved
  // prefixes.
  // ---------------------------------------------------------------------

  const MaxEventNameLength: nat := 40

  const ReservedPrefixes: seq<string> := ["firebase_", "google_", "ga_"]

  predicate IsAsciiLetter(c: char)
  {
    'A' <= c <= 'Z' || 'a' <= c <= 'z'
  }

  predicate IsEventNameCharacter(c: char)
  {
    IsAsciiLetter(c) || '0' <= c <= '9' || c == '_'
  }

  predicate HasReservedPrefix(name: string)
  {
    exists i | 0 <= i < |ReservedPrefixes| :: ReservedPrefixes[i] <= name
  }

  predicate IsEventNameValid(name: string)
  {
    && 0 < |name| <= MaxEventNameLength
    && IsAsciiLetter(name[0])
    && (forall i | 0 <= i < |name| :: IsEventNameCharacter(name[i]))
    && !HasReservedPrefix(name)
  }

  /** A name carrying a reserved prefix is refused, whatever follows the prefix. */
  lemma ReservedPrefixRejected(prefix: string, rest: string)
    requires prefix in ReservedPrefixes
    ensures !IsEventNameValid(prefix + rest)
  {
    var i :| 0 <= i < |ReservedPrefixes| && ReservedPrefixes[i] == prefix;
    assert prefix <= prefix + rest;
  }

  // The same rule read as the anchored pattern
  // `(?!firebase_|google_|ga_)[A-Za-z][A-Za-z0-9_]{0,39}`, matched one
  // character at a time.

  /** `s` begins with the characters of `p`, compared one at a time. */
  predicate StartsWith(s: string, p: string)
    decreases |p|
  {
    |p| == 0 || (0 < |s| && s[0] == p[0] && StartsWith(s[1..], p[1..]))
  }

  /** `[A-Za-z0-9_]{0,budget}` followed by the end of the input. */
  predicate MatchesTail(s: string, budget: nat)
    decreases |s|
  {
    |s| == 0
    || (&& 0 < budget
        && ('A' <= s[0] <= 'Z' || 'a' <= s[0] <= 'z' || '0' <= s[0] <= '9' || s[0] == '_')
        && MatchesTail(s[1..], budget - 1))
  }

  /** The whole name against the anchored pattern, lookahead included. */
  predicate MatchesNamePattern(name: string)
  {
    && !(StartsWith(name, "firebase_") || StartsWith(name, "google_") || StartsWith(name, "ga_"))
    && 0 < |name| && ('A' <= name[0] <= 'Z' || 'a' <= name[0] <= 'z')
    && MatchesTail(name[1..], MaxEventNameLength - 1)
  }

  lemma {:induction false} StartsWithIsPrefix(s: string, p: string)
    ensures StartsWith(s, p) <==> p <= s
    decreases |p|
  {
    if |p| != 0 && 0 < |s| {
      StartsWithIsPrefix(s[1..], p[1..]);
      if p <= s {
        assert p[1..] <= s[1..];
      }
      if p[1..] <= s[1..] && s[0] == p[0] {
        assert p == [p[0]] + p[1..] && s == [s[0]] + s[1..];
      }
    }
  }

  lemma {:induction false} MatchesTailExactly(s: string, budget: nat)
    ensures MatchesTail(s, budget) <==> |s| <= budget && forall i | 0 <= i < |s| :: IsEventNameCharacter(s[i])
    decreases |s|
  {
    if |s| != 0 {
      MatchesTailExactly(s[1..], if budget == 0 then 0 else budget - 1);
      if forall i | 0 <= i < |s| :: IsEventNameCharacter(s[i]) {
        assert forall i | 0 <= i < |s| - 1 :: s[1..][i] == s[i + 1];
      }
      if 0 < budget && MatchesTail(s, budget) {
        forall i | 0 <= i < |s|
          ensures IsEventNameCharacter(s[i])
        {
          if i > 0 { assert s[i] == s[1..][i - 1]; }
        }
      }
    }
  }

  /** The documented rule and the anchored pattern accept exactly the same names. */
  lemma NamePatternAgrees(name: string, parameters: map<string, Option<Value>>)
    ensures IsEventNameValid(name) <==> MatchesNamePattern(name)
    ensures CustomInit(name, parameters).Ok? <==> MatchesNamePattern(name)
  {
    StartsWithIsPrefix(name, "firebase_");
    StartsWithIsPrefix(name, "google_");
    StartsWithIsPrefix(name, "ga_");
    assert HasReservedPrefix(name) <==> ("firebase_" <= name || "google_" <= name || "ga_" <= name) by {
      assert ReservedPrefixes[0] == "firebase_" && ReservedPrefixes[1] == "google_" && ReservedPrefixes[2] == "ga_";
    }
    if 0 < |name| {
      MatchesTailExactly(name[1..], MaxEventNameLength - 1);
      assert forall i | 0 <= i < |name| - 1 :: name[1..][i] == name[i + 1];
      if IsAsciiLetter(name[0]) && forall i | 0 <= i < |name| - 1 :: IsEventNameCharacter(name[1..][i]) {
        forall i | 0 <= i < |name|
          ensures IsEventNameCharacter(name[i])
        {
          if i > 0 { assert name[i] == name[1..][i - 1]; }
        }
      }
    }
  }

  /**
    `init(name:parameters:)` with the documented rule: it throws
    `InvalidName` exactly when the name is refused, and otherwise stores name
    and parameters unchanged. The parameters default to the empty map.
   */
  function CustomInit(name: string, parameters: map<string, Option<Value>> := map[]): (r: Result<Custom, InvalidName>)
    ensures r.Err? <==> !IsEventNameValid(name)
    ensures r.Ok? ==> r.value.name == name && r.value.parameters == parameters
  {
    if IsEventNameValid(name) then Ok(Custom(name, parameters)) else Err(InvalidName)
  }

  /** Two successful initializations agree exactly when their inputs agree. */
  lemma CustomInitInjective(n1: string, p1: map<string, Option<Value>>, n2: string, p2: map<string, Option<Value>>)
    requires CustomInit(n1, p1).Ok? && CustomInit(n2, p2).Ok?
    ensures CustomInit(n1, p1) == CustomInit(n2, p2) <==> n1 == n2 && p1 == p2
  {
  }
}
