/**
 Job type and queue name validation (src/validation/schemas.ts): the languages of the two regular expressions,
 described without them.
 */
module Names {
  import opened Prelude
  import opened Regex

  predicate IsLower(c: char) {
    'a' <= c <= 'z'
  }

  predicate IsAlnum(c: char) {
    IsLower(c) || '0' <= c <= '9'
  }

  predicate IsSep(c: char) {
    c == '-' || c == '.'
  }

  predicate IsWord(c: char) {
    IsAlnum(c) || c == '_'
  }

  ghost const ALNUM := Class(IsAlnum)

  /** [a-z0-9]*[-.]?[a-z0-9]+ */
  ghost const GROUP := Cat(Star(ALNUM), Cat(Opt(Class(IsSep)), Plus(ALNUM)))

  /** [a-z0-9]([a-z0-9]*[-.]?[a-z0-9]+)* */
  ghost const QUEUE_PATTERN := Cat(ALNUM, Star(GROUP))

  /** [a-z][a-z0-9_]* */
  ghost const SEGMENT := Cat(Class(IsLower), Star(Class(IsWord)))

  /** [a-z][a-z0-9_]*(\.[a-z][a-z0-9_]*)* */
  ghost const JOB_TYPE_PATTERN := Cat(SEGMENT, Star(Cat(Char('.'), SEGMENT)))

  // ---- Queue names ----

  predicate AllowedChars(s: string) {
    forall i | 0 <= i < |s| :: IsAlnum(s[i]) || IsSep(s[i])
  }

  predicate NoAdjacentSeps(s: string) {
    forall i | 0 <= i < |s| - 1 :: !(IsSep(s[i]) && IsSep(s[i + 1]))
  }

  /** Text that can follow an alphanumeric character. */
  predicate IsTail(s: string) {
    AllowedChars(s) && NoAdjacentSeps(s) && (s != "" ==> IsAlnum(Last(s)))
  }

  predicate IsQueueName(s: string) {
    s != "" && IsAlnum(s[0]) && IsTail(s)
  }

  lemma {:induction false} AlnumIsTail(s: string)
    requires Repeats(ALNUM, s)
    ensures IsTail(s)
  {
    ClassRepeats(IsAlnum, s);
  }

  lemma {:induction false} SepThenTail(sep: string, b: string)
    requires |sep| == 1 && IsSep(sep[0]) && IsTail(b) && b != "" && IsAlnum(b[0])
    ensures IsTail(sep + b)
  {
    var s := sep + b;
    assert Last(s) == Last(b) && s[0] == sep[0] && forall i | 1 <= i < |s| :: s[i] == b[i - 1];
  }

  /** Alphanumerics, at most one separator, and at least one alphanumeric. */
  lemma {:induction false} PartsAreTail(a: string, sep: string, b: string)
    requires Repeats(ALNUM, a) && (sep == "" || (|sep| == 1 && IsSep(sep[0]))) && b != "" && Repeats(ALNUM, b)
    ensures IsTail(a + (sep + b)) && a + (sep + b) != ""
  {
    AlnumIsTail(a);
    AlnumIsTail(b);
    ClassRepeats(IsAlnum, b);
    if sep == "" {
      assert sep + b == b;
    } else {
      SepThenTail(sep, b);
    }
    if a == "" {
      assert a + (sep + b) == sep + b;
    } else {
      TailConcat(a, sep + b);
    }
  }

  lemma {:induction false} GroupIsTail(s: string)
    requires Matches(GROUP, s)
    ensures IsTail(s) && s != ""
  {
    var i := SplitCat(Star(ALNUM), Cat(Opt(Class(IsSep)), Plus(ALNUM)), s);
    var t := s[i..];
    var j := SplitCat(Opt(Class(IsSep)), Plus(ALNUM), t);
    assert t[..j] == "" || Matches(Class(IsSep), t[..j]);
    PartsAreTail(s[..i], t[..j], t[j..]);
    assert s == s[..i] + (t[..j] + t[j..]);
  }

  lemma {:induction false} TailConcat(a: string, b: string)
    requires IsTail(a) && IsTail(b) && a != ""
    ensures IsTail(a + b)
  {
    assert b != "" ==> Last(a + b) == Last(b);
  }

  lemma {:induction false} GroupsAreTail(s: string)
    requires Repeats(GROUP, s)
    ensures IsTail(s)
    decreases |s|
  {
    if s != "" {
      var i :| 0 < i <= |s| && Matches(GROUP, s[..i]) && Repeats(GROUP, s[i..]);
      GroupIsTail(s[..i]);
      GroupsAreTail(s[i..]);
      TailConcat(s[..i], s[i..]);
      assert s == s[..i] + s[i..];
    }
  }

  lemma {:induction false} RestIsTail(s: string, n: nat)
    requires IsTail(s) && n <= |s|
    ensures IsTail(s[n..])
  {
    assert n < |s| ==> Last(s[n..]) == Last(s);
  }

  lemma {:induction false} TailIsGroups(s: string)
    requires IsTail(s)
    ensures Repeats(GROUP, s)
    decreases |s|
  {
    if s != "" {
      var n := if IsAlnum(s[0]) then 1 else 2;
      assert n <= |s|;
      RestIsTail(s, n);
      TailIsGroups(s[n..]);
      ShortGroup(s[..n]);
    }
  }

  lemma {:induction false} ShortGroup(s: string)
    requires (|s| == 1 && IsAlnum(s[0])) || (|s| == 2 && IsSep(s[0]) && IsAlnum(s[1]))
    ensures Matches(GROUP, s)
  {
    var j := |s| - 1;
    ClassRepeats(IsAlnum, s[j..]);
    assert s[0..] == s && s[..0] == "";
    assert Matches(Opt(Class(IsSep)), s[..j]) && Matches(Plus(ALNUM), s[j..]);
    assert Matches(Cat(Opt(Class(IsSep)), Plus(ALNUM)), s[0..]);
    assert Matches(Star(ALNUM), s[..0]);
  }

  lemma {:induction false} QueueNameChars(s: string)
    ensures IsQueueName(s) <==>
            && s != "" && s[0] != '.' && s[0] != '-' && s[|s| - 1] != '.' && s[|s| - 1] != '-'
            && (forall c <- s :: 'a' <= c <= 'z' || '0' <= c <= '9' || c == '.' || c == '-')
            && forall i | 0 < i < |s| :: !((s[i - 1] == '.' || s[i - 1] == '-') && (s[i] == '.' || s[i] == '-'))
  {
    assert NoAdjacentSeps(s) <==> forall i | 0 < i < |s| :: !(IsSep(s[i - 1]) && IsSep(s[i])) by {
      if forall i | 0 < i < |s| :: !(IsSep(s[i - 1]) && IsSep(s[i])) {
        forall i | 0 <= i < |s| - 1
          ensures !(IsSep(s[i]) && IsSep(s[i + 1]))
        {
          var j := i + 1;
          assert !(IsSep(s[j - 1]) && IsSep(s[j]));
        }
      }
    }
    assert AllowedChars(s) <==> forall c <- s :: IsAlnum(c) || IsSep(c);
  }

  /** The queue pattern accepts exactly the non-empty strings over [a-z0-9.-] that start and end alphanumeric
      and have no two adjacent separators. */
  lemma {:induction false} QueuePatternLanguage(s: string)
    ensures Matches(QUEUE_PATTERN, s) <==> IsQueueName(s)
    ensures IsQueueName(s) <==>
            && s != "" && s[0] != '.' && s[0] != '-' && s[|s| - 1] != '.' && s[|s| - 1] != '-'
            && (forall c <- s :: 'a' <= c <= 'z' || '0' <= c <= '9' || c == '.' || c == '-')
            && forall i | 0 < i < |s| :: !((s[i - 1] == '.' || s[i - 1] == '-') && (s[i] == '.' || s[i] == '-'))
  {
    QueueNameChars(s);
    if Matches(QUEUE_PATTERN, s) {
      var i :| 0 <= i <= |s| && Matches(ALNUM, s[..i]) && Matches(Star(GROUP), s[i..]);
      GroupsAreTail(s[i..]);
      assert IsTail(s[..i]) && i == 1;
      TailConcat(s[..i], s[i..]);
      assert s == s[..i] + s[i..];
    }
    if IsQueueName(s) {
      RestIsTail(s, 1);
      TailIsGroups(s[1..]);
      assert Matches(ALNUM, s[..1]) && Matches(Star(GROUP), s[1..]);
    }
  }

  // ---- Job types ----

  function FirstDot(s: string): (i: nat)
    ensures i <= |s| && (i < |s| ==> s[i] == '.') && forall j | 0 <= j < i :: s[j] != '.'
  {
    if s == "" || s[0] == '.' then 0 else 1 + FirstDot(s[1..])
  }

  /** type.split('.'). */
  function Segments(s: string): seq<string>
    decreases |s|
  {
    var i := FirstDot(s);
    if i == |s| then [s] else [s[..i]] + Segments(s[i + 1..])
  }

  predicate IsSegment(s: string) {
    s != "" && IsLower(s[0]) && forall i | 0 <= i < |s| :: IsWord(s[i])
  }

  predicate IsJobType(s: string) {
    forall segment <- Segments(s) :: IsSegment(segment)
  }

  lemma {:induction false} SegmentLanguage(s: string)
    ensures Matches(SEGMENT, s) <==> IsSegment(s)
  {
    if Matches(SEGMENT, s) {
      var i :| 0 <= i <= |s| && Matches(Class(IsLower), s[..i]) && Matches(Star(Class(IsWord)), s[i..]);
      ClassRepeats(IsWord, s[i..]);
      assert i == 1 && s[..1][0] == s[0] && forall j | 1 <= j < |s| :: s[j] == s[1..][j - 1];
    }
    if IsSegment(s) {
      ClassRepeats(IsWord, s[1..]);
      assert Matches(Class(IsLower), s[..1]) && Matches(Star(Class(IsWord)), s[1..]);
    }
  }

  ghost const DOTTED := Cat(Char('.'), SEGMENT)

  /** A first segment followed by dotted ones is a dot-split list of segments. */
  lemma {:induction false} SegmentsLanguage(s: string, n: nat)
    requires n <= |s| && IsSegment(s[..n])
    ensures Repeats(DOTTED, s[n..]) ==> IsJobType(s)
    decreases |s| - n
  {
    var t := s[n..];
    if t == "" {
      FirstDotAt(s, n);
      assert s[..n] == s;
    } else if Repeats(DOTTED, t) {
      var i :| 0 < i <= |t| && Matches(DOTTED, t[..i]) && Repeats(DOTTED, t[i..]);
      DottedIsSegment(t[..i]);
      assert t[..i][1..] == s[n + 1..][..i - 1] && t[i..] == s[n + 1..][i - 1..] && t[0] == t[..i][0] == s[n];
      SegmentsLanguage(s[n + 1..], i - 1);
      FirstDotAt(s, n);
    }
  }

  lemma {:induction false} FirstDotAt(s: string, n: nat)
    requires n <= |s| && IsSegment(s[..n]) && (n < |s| ==> s[n] == '.')
    ensures FirstDot(s) == n
  {
    assert forall j | 0 <= j < n :: s[j] == s[..n][j];
  }

  lemma {:induction false} DottedIsSegment(s: string)
    ensures Matches(DOTTED, s) <==> s != "" && s[0] == '.' && IsSegment(s[1..])
  {
    if Matches(DOTTED, s) {
      var i :| 0 <= i <= |s| && Matches(Char('.'), s[..i]) && Matches(SEGMENT, s[i..]);
      SegmentLanguage(s[i..]);
      assert s[..i][0] == s[0];
    }
    if s != "" && s[0] == '.' && IsSegment(s[1..]) {
      SegmentLanguage(s[1..]);
      assert Matches(Char('.'), s[..1]) && Matches(SEGMENT, s[1..]);
    }
  }

  lemma {:induction false} FirstSegment(s: string)
    requires IsJobType(s)
    ensures IsSegment(s[..FirstDot(s)]) && (FirstDot(s) < |s| ==> IsJobType(s[FirstDot(s) + 1..]))
  {
    var i := FirstDot(s);
    if i == |s| {
      assert Segments(s)[0] == s == s[..i];
    } else {
      var rest := Segments(s[i + 1..]);
      assert Segments(s) == [s[..i]] + rest;
      assert Segments(s)[0] == s[..i] && forall k | 0 <= k < |rest| :: rest[k] == Segments(s)[k + 1];
    }
  }

  lemma {:induction false} JobTypeMatches(s: string)
    requires IsJobType(s)
    ensures IsSegment(s[..FirstDot(s)]) && Repeats(DOTTED, s[FirstDot(s)..])
    decreases |s|
  {
    var i := FirstDot(s);
    FirstSegment(s);
    if i < |s| {
      var rest, t := s[i + 1..], s[i..];
      JobTypeMatches(rest);
      var n := FirstDot(rest) + 1;
      assert t[..n][1..] == rest[..n - 1] && t[n..] == rest[n - 1..];
      DottedIsSegment(t[..n]);
    }
  }

  /** The job type pattern accepts exactly the strings whose dot-split segments all match [a-z][a-z0-9_]*. */
  lemma {:induction false} JobTypePatternLanguage(s: string)
    ensures Matches(JOB_TYPE_PATTERN, s) <==> IsJobType(s)
    ensures IsJobType(s) <==>
            forall segment <- Segments(s) ::
              segment != "" && 'a' <= segment[0] <= 'z'
              && forall c <- segment :: 'a' <= c <= 'z' || '0' <= c <= '9' || c == '_'
  {
    forall segment: string
      ensures IsSegment(segment) <==>
              segment != "" && 'a' <= segment[0] <= 'z'
              && forall c <- segment :: 'a' <= c <= 'z' || '0' <= c <= '9' || c == '_'
    {
      assert (forall i | 0 <= i < |segment| :: IsWord(segment[i])) <==> forall c <- segment :: IsWord(c);
    }
    if Matches(JOB_TYPE_PATTERN, s) {
      var i :| 0 <= i <= |s| && Matches(SEGMENT, s[..i]) && Matches(Star(DOTTED), s[i..]);
      SegmentLanguage(s[..i]);
      SegmentsLanguage(s, i);
    }
    if IsJobType(s) {
      JobTypeMatches(s);
      SegmentLanguage(s[..FirstDot(s)]);
      assert Matches(SEGMENT, s[..FirstDot(s)]) && Matches(Star(DOTTED), s[FirstDot(s)..]);
    }
  }

  // ---- The validators ----

  datatype ValidationError = Required | TooLong | Malformed

  ghost function ValidateJobType(s: string): Option<ValidationError> {
    if s == "" then Some(Required)
    else if !Matches(JOB_TYPE_PATTERN, s) then Some(Malformed)
    else None
  }

  ghost function ValidateQueueName(s: string): Option<ValidationError> {
    if s == "" then Some(Required)
    else if |s| > 128 then Some(TooLong)
    else if !Matches(QUEUE_PATTERN, s) then Some(Malformed)
    else None
  }

  /** Which names pass. */
  lemma {:induction false} ValidNames(s: string)
    ensures ValidateJobType(s) == None <==> IsJobType(s)
    ensures ValidateQueueName(s) == None <==> |s| <= 128 && IsQueueName(s)
    ensures ValidateQueueName(s) == Some(Required) <==> s == ""
    ensures ValidateJobType(s) == Some(Required) <==> s == ""
    ensures ValidateQueueName(s) == Some(TooLong) <==> |s| > 128
  {
    JobTypePatternLanguage(s);
    QueuePatternLanguage(s);
    if s == "" {
      assert Segments(s) == [s] && s in Segments(s);
    }
  }
}
