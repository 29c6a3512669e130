/**
 The three fixed formats of main.go, each written as a string predicate
 that reads its regular expression left to right, with a lemma that ties it
 to a plain description of the strings the expression matches, and the port
 range.
 */
module Patterns {
  import opened Wrappers
  import opened Text

  const PortMin: int := 1
  const PortMax: int := 65535

  // ---------------------------------------------------------------------
  // Container names: ^[a-z]+(_[a-z]+)*$

  /** A container name: a lower-case letter followed by what SnakeTail accepts. */
  predicate SnakeCase(s: string)
  {
    |s| > 0 && IsLowerLetter(s[0]) && SnakeTail(s[1..])
  }

  /** What may follow a lower-case letter: more letters, or `_` and a letter, and so on. */
  predicate SnakeTail(s: string)
    decreases |s|
  {
    || s == []
    || (IsLowerLetter(s[0]) && SnakeTail(s[1..]))
    || (|s| >= 2 && s[0] == '_' && IsLowerLetter(s[1]) && SnakeTail(s[2..]))
  }

  predicate SnakeChars(s: string)
  {
    forall i :: 0 <= i < |s| ==> IsLowerLetter(s[i]) || s[i] == '_'
  }

  predicate NoDoubleUnderscore(s: string)
  {
    forall i :: 0 <= i < |s| - 1 ==> !(s[i] == '_' && s[i + 1] == '_')
  }

  lemma {:induction false} SnakeTailIff(s: string)
    ensures SnakeTail(s) <==>
              SnakeChars(s) && (|s| > 0 ==> s[|s| - 1] != '_') && NoDoubleUnderscore(s)
    decreases |s|
  {
    if |s| == 0 {
    } else if IsLowerLetter(s[0]) {
      SnakeTailIff(s[1..]);
      assert forall i :: 1 <= i < |s| ==> s[i] == s[1..][i - 1];
    } else if s[0] == '_' && |s| >= 2 && IsLowerLetter(s[1]) {
      SnakeTailIff(s[2..]);
      assert forall i :: 2 <= i < |s| ==> s[i] == s[2..][i - 2];
    } else if s[0] == '_' && |s| >= 2 {
      assert !SnakeChars(s) || !NoDoubleUnderscore(s);
    }
  }

  /**
   A container name is accepted exactly when it is non-empty, has only
   lower-case letters and underscores, neither starts nor ends with an
   underscore, and never has two underscores in a row: so digits, capitals,
   hyphens, and leading, trailing or doubled underscores are all refused.
   */
  lemma SnakeCaseIff(s: string)
    ensures SnakeCase(s) <==>
              && |s| > 0 && SnakeChars(s) && s[0] != '_' && s[|s| - 1] != '_'
              && NoDoubleUnderscore(s)
  {
    if |s| > 0 {
      SnakeTailIff(s[1..]);
      assert forall i :: 1 <= i < |s| ==> s[i] == s[1..][i - 1];
    }
  }

  // ---------------------------------------------------------------------
  // Images: ^registry\.bigbrother\.io/[^:]+:.+$

  const Registry: string := "registry.bigbrother.io/"

  /** The position of the first colon of `s`, if there is one. */
  function IndexOfColon(s: string): Option<nat>
    decreases |s|
  {
    if s == [] then None
    else if s[0] == ':' then Some(0)
    else
      match IndexOfColon(s[1..])
      case None => None
      case Some(i) => Some(i + 1)
  }

  /** IndexOfColon finds the first colon, and finds nothing only when there is none. */
  lemma {:induction false} IndexOfColonFirst(s: string)
    ensures IndexOfColon(s).Some? ==> var i := IndexOfColon(s).value;
              i < |s| && s[i] == ':' && forall k :: 0 <= k < i ==> s[k] != ':'
    ensures IndexOfColon(s).None? ==> forall k :: 0 <= k < |s| ==> s[k] != ':'
    decreases |s|
  {
    if s != [] && s[0] != ':' {
      IndexOfColonFirst(s[1..]);
      assert forall k :: 1 <= k < |s| ==> s[k] == s[1..][k - 1];
    }
  }

  /**
   An image reference: the registry prefix, a non-empty path up to the first
   colon, the colon, and a non-empty tag. In Go's regular expressions `[^:]`
   also matches a line break but `.` does not, so the tag has no line break.
   */
  predicate ImageRef(s: string)
  {
    && HasPrefix(s, Registry)
    && var rest := s[|Registry|..];
       match IndexOfColon(rest)
       case None => false
       case Some(i) => 0 < i && i + 1 < |rest| && forall k :: i < k < |rest| ==> rest[k] != '\n'
  }

  /** `s` is the registry prefix, path `p`, a colon and tag `t`, as the pattern describes. */
  ghost predicate ImageParts(s: string, p: string, t: string)
  {
    && s == Registry + p + ":" + t
    && |p| > 0 && (forall k :: 0 <= k < |p| ==> p[k] != ':')
    && |t| > 0 && (forall k :: 0 <= k < |t| ==> t[k] != '\n')
  }

  /** Every accepted image splits into a path and a tag as the pattern describes. */
  lemma ImageRefHasParts(s: string)
    requires ImageRef(s)
    ensures ImageParts(s, s[|Registry|..][..IndexOfColon(s[|Registry|..]).value],
                          s[|Registry|..][IndexOfColon(s[|Registry|..]).value + 1..])
  {
    var rest := s[|Registry|..];
    IndexOfColonFirst(rest);
    var i := IndexOfColon(rest).value;
    var p, t := rest[..i], rest[i + 1..];
    assert rest == p + ":" + t;
    assert s == Registry + rest;
  }

  /** Every string the pattern describes is accepted. */
  lemma PartsAreImageRef(s: string, p: string, t: string)
    requires ImageParts(s, p, t)
    ensures ImageRef(s)
  {
    var rest := s[|Registry|..];
    assert rest == p + ":" + t;
    assert rest[|p|] == ':';
    assert forall k :: 0 <= k < |p| ==> rest[k] == p[k];
    IndexOfColonFirst(rest);
    assert IndexOfColon(rest) == Some(|p|);
    assert forall k :: |p| < k < |rest| ==> rest[k] == t[k - |p| - 1];
  }

  /** An image is accepted exactly when it is the registry prefix, a path without colons, a colon and a tag. */
  lemma ImageRefIff(s: string)
    ensures ImageRef(s) <==> exists p, t :: ImageParts(s, p, t)
  {
    if ImageRef(s) {
      ImageRefHasParts(s);
    }
    if p, t :| ImageParts(s, p, t) {
      PartsAreImageRef(s, p, t);
    }
  }

  // ---------------------------------------------------------------------
  // Memory quantities: ^[0-9]+(Gi|Mi|Ki)$

  predicate IsMemoryUnit(u: string)
  {
    u == "Gi" || u == "Mi" || u == "Ki"
  }

  /** A memory quantity: digits, then one of the two-letter units. */
  predicate MemoryQuantity(s: string)
  {
    |s| > 2 && AllDigits(s[..|s| - 2]) && IsMemoryUnit(s[|s| - 2..])
  }

  /** `s` is the digits `d` followed by the unit `u`, as the pattern describes. */
  ghost predicate MemoryParts(s: string, d: string, u: string)
  {
    s == d + u && |d| > 0 && AllDigits(d) && IsMemoryUnit(u)
  }

  lemma MemoryQuantityIff(s: string)
    ensures MemoryQuantity(s) <==> exists d, u :: MemoryParts(s, d, u)
  {
    if MemoryQuantity(s) {
      assert s == s[..|s| - 2] + s[|s| - 2..];
      assert MemoryParts(s, s[..|s| - 2], s[|s| - 2..]);
    }
    if d, u :| MemoryParts(s, d, u) {
      assert |u| == 2;
      assert s[..|s| - 2] == d && s[|s| - 2..] == u;
    }
  }
}
