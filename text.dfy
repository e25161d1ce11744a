/** The java.lang.String and java.util.regex operations that the recovery layer applies
    to belief, predicate and planner text, written out over `string` (a `seq<char>`). */
module JavaStrings {

  /** A non-empty sequence is its front followed by its last element. */
  lemma SnocParts<T>(s: seq<T>)
    requires s != []
    ensures s == s[..|s| - 1] + [s[|s| - 1]]
  {
  }

  /** Concatenation regroups freely. */
  lemma AppendAssoc<T>(a: seq<T>, b: seq<T>, c: seq<T>)
    ensures a + b + c == a + (b + c)
  {
  }

  /** A non-empty sequence is its first element followed by the rest. */
  lemma ConsParts<T>(s: seq<T>)
    requires s != []
    ensures s == [s[0]] + s[1..]
  {
  }

  /** The characters `String.trim()` removes from both ends: every code point up to U+0020. */
  predicate IsTrimmable(c: char) { c <= ' ' }

  function TrimStart(s: string): (r: string)
    ensures |r| <= |s| && r == s[|s| - |r|..]
    ensures r == [] || !IsTrimmable(r[0])
    ensures forall i :: 0 <= i < |s| - |r| ==> IsTrimmable(s[i])
  {
    if s != [] && IsTrimmable(s[0]) then TrimStart(s[1..]) else s
  }

  function TrimEnd(s: string): (r: string)
    ensures |r| <= |s| && r == s[..|r|]
    ensures r == [] || !IsTrimmable(r[|r| - 1])
    ensures forall i :: |r| <= i < |s| ==> IsTrimmable(s[i])
  {
    if s != [] && IsTrimmable(s[|s| - 1]) then TrimEnd(s[..|s| - 1]) else s
  }

  /** `String.trim()`: drops the maximal trimmable prefix and suffix. */
  function Trim(s: string): (r: string)
    ensures |r| <= |s|
    ensures r == [] || (!IsTrimmable(r[0]) && !IsTrimmable(r[|r| - 1]))
    ensures forall c :: c in r ==> c in s
  {
    TrimEnd(TrimStart(s))
  }

  /** A string whose ends are not trimmable is left alone by `trim()`. */
  lemma TrimUntrimmed(s: string)
    requires s == [] || (!IsTrimmable(s[0]) && !IsTrimmable(s[|s| - 1]))
    ensures Trim(s) == s
  {
  }

  /** Java's literal `String.replace(target, replacement)` (and `replaceAll` with a pattern
      free of metacharacters): occurrences are replaced left to right, without overlap. */
  function Replace(s: string, target: string, replacement: string): string
    requires target != []
    decreases |s|
  {
    if |s| < |target| then s
    else if s[..|target|] == target then replacement + Replace(s[|target|..], target, replacement)
    else [s[0]] + Replace(s[1..], target, replacement)
  }

  /** Text without the first character of the target is not changed by a replace. */
  lemma {:induction false} ReplaceAbsent(s: string, target: string, replacement: string)
    requires target != []
    requires target[0] !in s
    ensures Replace(s, target, replacement) == s
    decreases |s|
  {
    if |s| >= |target| {
      assert s[..|target|][0] == s[0];
      ReplaceAbsent(s[1..], target, replacement);
    }
  }

  /** Text that cannot start an occurrence of the target passes through a replace unchanged,
      and the rest is processed on its own. */
  lemma {:induction false} ReplaceSkipClean(a: string, target: string, replacement: string, b: string)
    requires target != []
    requires target[0] !in a
    ensures Replace(a + b, target, replacement) == a + Replace(b, target, replacement)
    decreases |a|
  {
    if a != [] {
      var s := a + b;
      assert s[0] == a[0];
      assert s[1..] == a[1..] + b;
      ReplaceSkipClean(a[1..], target, replacement, b);
      if |s| >= |target| {
        assert s[..|target|] != target by { assert s[..|target|][0] == a[0]; }
        calc {
          Replace(s, target, replacement);
          [a[0]] + Replace(a[1..] + b, target, replacement);
          [a[0]] + (a[1..] + Replace(b, target, replacement));
          ([a[0]] + a[1..]) + Replace(b, target, replacement);
          { assert [a[0]] + a[1..] == a; }
          a + Replace(b, target, replacement);
        }
      } else {
        assert Replace(s, target, replacement) == s;
        assert Replace(b, target, replacement) == b;
      }
    } else {
      assert a + b == b;
    }
  }

  /** An occurrence of the target at the start is replaced, and the rest is processed on its own. */
  lemma ReplaceAtStart(target: string, replacement: string, b: string)
    requires target != []
    ensures Replace(target + b, target, replacement) == replacement + Replace(b, target, replacement)
  {
    var s := target + b;
    assert s[..|target|] == target;
    assert s[|target|..] == b;
  }

  /** An occurrence of the target preceded by text that cannot start one is replaced, and the
      rest is processed on its own. */
  lemma ReplaceAfterClean(a: string, target: string, replacement: string, b: string)
    requires target != []
    requires target[0] !in a
    ensures Replace(a + target + b, target, replacement) == a + replacement + Replace(b, target, replacement)
  {
    AppendAssoc(a, target, b);
    ReplaceSkipClean(a, target, replacement, target + b);
    ReplaceAtStart(target, replacement, b);
  }

  /** Text whose head does not start an occurrence of the target, and whose tail cannot contain
      one, is not changed by a replace. */
  lemma ReplaceHeadMismatch(s: string, target: string, replacement: string)
    requires target != [] && s != []
    requires |s| < |target| || s[..|target|] != target
    requires target[0] !in s[1..]
    ensures Replace(s, target, replacement) == s
  {
    ReplaceAbsent(s[1..], target, replacement);
    assert [s[0]] + s[1..] == s;
  }

  /** A replace introduces no character that is in neither the text nor the replacement. */
  lemma {:induction false} ReplaceChars(s: string, target: string, replacement: string)
    requires target != []
    ensures forall c :: c in Replace(s, target, replacement) ==> c in s || c in replacement
    decreases |s|
  {
    if |s| >= |target| {
      if s[..|target|] == target {
        ReplaceChars(s[|target|..], target, replacement);
        assert forall c :: c in s[|target|..] ==> c in s;
      } else {
        ReplaceChars(s[1..], target, replacement);
        assert forall c :: c in s[1..] ==> c in s;
      }
    }
  }

  /** `replaceAll` with a character class and an empty replacement: deletes every character of `cs`. */
  function Remove(s: string, cs: set<char>): (r: string)
    ensures |r| <= |s|
    ensures forall i :: 0 <= i < |r| ==> r[i] !in cs
    ensures forall c :: c in r <==> c in s && c !in cs
  {
    if s == [] then []
    else if s[0] in cs then Remove(s[1..], cs)
    else [s[0]] + Remove(s[1..], cs)
  }

  /** The two provenance annotations the interpreter attaches to a belief. */
  const SelfAnnotation: string := "[source(self)]"
  const PerceptsAnnotation: string := "[source(percepts)]"

  /** `replaceAll("\\[source\\((self|percepts)\\)]", "")`: a single left-to-right pass that
      deletes each annotation found, resuming after it. */
  function StripSource(s: string): (r: string)
    ensures |r| <= |s|
    decreases |s|
  {
    if |s| >= |SelfAnnotation| && s[..|SelfAnnotation|] == SelfAnnotation then
      StripSource(s[|SelfAnnotation|..])
    else if |s| >= |PerceptsAnnotation| && s[..|PerceptsAnnotation|] == PerceptsAnnotation then
      StripSource(s[|PerceptsAnnotation|..])
    else if s == [] then []
    else [s[0]] + StripSource(s[1..])
  }

  /** Text without `[` carries no annotation, and the pass leaves it unchanged. */
  lemma {:induction false} StripSourcePlain(s: string)
    requires '[' !in s
    ensures StripSource(s) == s
    decreases |s|
  {
    if s != [] {
      if |s| >= |SelfAnnotation| { assert s[..|SelfAnnotation|][0] == s[0]; }
      if |s| >= |PerceptsAnnotation| { assert s[..|PerceptsAnnotation|][0] == s[0]; }
      StripSourcePlain(s[1..]);
    }
  }

  /** Java's `String.split(String.valueOf(c))` before trailing empty strings are dropped:
      the text between consecutive separators, including leading and inner empty parts. */
  function RawSplit(s: string, c: char): (parts: seq<string>)
    ensures |parts| >= 1
    ensures forall i :: 0 <= i < |parts| ==> c !in parts[i]
    decreases |s|
  {
    if c !in s then [s]
    else
      var i := FirstIndex(s, c);
      [s[..i]] + RawSplit(s[i + 1..], c)
  }

  function FirstIndex(s: string, c: char): (i: nat)
    requires c in s
    ensures i < |s| && s[i] == c && c !in s[..i]
  {
    if s[0] == c then 0 else 1 + FirstIndex(s[1..], c)
  }

  /** The parts glued back together with the separator. */
  function Join(parts: seq<string>, c: char): string
    requires |parts| >= 1
  {
    if |parts| == 1 then parts[0] else parts[0] + [c] + Join(parts[1..], c)
  }

  /** Splitting and joining again gives back the original text. */
  lemma {:induction false} JoinRawSplit(s: string, c: char)
    ensures Join(RawSplit(s, c), c) == s
    decreases |s|
  {
    if c in s {
      var i := FirstIndex(s, c);
      var rest := RawSplit(s[i + 1..], c);
      JoinRawSplit(s[i + 1..], c);
      assert RawSplit(s, c) == [s[..i]] + rest;
      assert (([s[..i]] + rest)[1..]) == rest;
      assert s == s[..i] + [c] + s[i + 1..];
    }
  }

  /** With no separator in the text, the split is the whole text. */
  lemma RawSplitNoSeparator(s: string, c: char)
    requires c !in s
    ensures RawSplit(s, c) == [s]
  {
  }

  /** The trailing-empty-string removal of `split` with limit zero. */
  function DropTrailingEmpty(parts: seq<string>): (r: seq<string>)
    ensures |r| <= |parts| && r == parts[..|r|]
    ensures forall i :: |r| <= i < |parts| ==> parts[i] == []
    ensures r == [] || r[|r| - 1] != []
  {
    if parts != [] && parts[|parts| - 1] == [] then DropTrailingEmpty(parts[..|parts| - 1]) else parts
  }

  /** Java's `s.split(String.valueOf(c))` for a character that is not a regex metacharacter:
      the text itself when the separator does not occur, otherwise the separated parts with
      trailing empty strings dropped (so `"&".split("&")` is empty). */
  function Split(s: string, c: char): (r: seq<string>)
    ensures forall i :: 0 <= i < |r| ==> c !in r[i]
    ensures c !in s ==> r == [s]
    ensures c in s ==> r == DropTrailingEmpty(RawSplit(s, c))
  {
    if c !in s then [s] else DropTrailingEmpty(RawSplit(s, c))
  }

  predicate IsUpper(c: char) { 'A' <= c <= 'Z' }

  /** `String.toLowerCase()` restricted to ASCII letters. */
  function ToLower(s: string): (r: string)
    ensures |r| == |s|
    ensures forall i :: 0 <= i < |s| ==> r[i] == if IsUpper(s[i]) then (s[i] as int + 32) as char else s[i]
  {
    if s == [] then [] else [if IsUpper(s[0]) then (s[0] as int + 32) as char else s[0]] + ToLower(s[1..])
  }

  /** Lower-case text is its own lower-case form. */
  lemma ToLowerNoUpper(s: string)
    requires forall i :: 0 <= i < |s| ==> !IsUpper(s[i])
    ensures ToLower(s) == s
  {
  }

  /** `String.startsWith`. */
  predicate StartsWith(s: string, prefix: string) {
    |prefix| <= |s| && s[..|prefix|] == prefix
  }
}
