/** Regular expressions, by the strings they match and what their groups capture. */
module Regex {
  import opened Prelude

  datatype Re =
    | Class(member: char -> bool)
    | Cat(first: Re, second: Re)
    | Opt(re: Re)
    | Plus(re: Re)
    | Star(re: Re)
    | Group(re: Re)

  function Char(c: char): Re {
    Class((x: char) => x == c)
  }

  /** `r` matches the whole of `s`. */
  ghost predicate Matches(r: Re, s: string)
    decreases r, |s|, 0
  {
    match r
    case Class(member) => |s| == 1 && member(s[0])
    case Cat(a, b) => exists i | 0 <= i <= |s| :: Matches(a, s[..i]) && Matches(b, s[i..])
    case Opt(a) => s == "" || Matches(a, s)
    case Plus(a) => s != "" && Repeats(a, s)
    case Star(a) => Repeats(a, s)
    case Group(a) => Matches(a, s)
  }

  /** `s` is a sequence of non-empty matches of `r`. */
  ghost predicate Repeats(r: Re, s: string)
    decreases r, |s|, 1
  {
    s == "" || exists i | 0 < i <= |s| :: Matches(r, s[..i]) && Repeats(r, s[i..])
  }

  lemma {:induction false} ClassRepeats(member: char -> bool, s: string)
    ensures Repeats(Class(member), s) <==> forall i | 0 <= i < |s| :: member(s[i])
  {
    if s != "" {
      ClassRepeats(member, s[1..]);
      assert s[..1] == [s[0]];
      if Repeats(Class(member), s) {
        var i :| 0 < i <= |s| && Matches(Class(member), s[..i]) && Repeats(Class(member), s[i..]);
        assert i == 1 && forall j | 1 <= j < |s| :: s[j] == s[1..][j - 1];
      }
      if forall i | 0 <= i < |s| :: member(s[i]) {
        assert Matches(Class(member), s[..1]) && Repeats(Class(member), s[1..]);
      }
    }
  }

  lemma {:induction false} SplitCat(a: Re, b: Re, s: string) returns (i: nat)
    requires Matches(Cat(a, b), s)
    ensures i <= |s| && Matches(a, s[..i]) && Matches(b, s[i..])
  {
    i :| 0 <= i <= |s| && Matches(a, s[..i]) && Matches(b, s[i..]);
  }

  // ---- Captures ----

  /** The number of groups; none of the patterns here repeats a group or has a group inside a group. */
  function GroupCount(r: Re): nat {
    match r
    case Class(_) => 0
    case Cat(a, b) => GroupCount(a) + GroupCount(b)
    case Opt(a) => GroupCount(a)
    case Plus(_) => 0
    case Star(_) => 0
    case Group(_) => 1
  }

  type Captured = seq<Option<string>>

  function NoCaptures(n: nat): Captured {
    seq(n, i => None)
  }

  /** `r` matches the whole of `s` in a way in which its groups capture `caps`. */
  ghost predicate Captures(r: Re, s: string, caps: Captured) {
    match r
    case Class(_) => Matches(r, s) && caps == []
    case Cat(a, b) =>
      && |caps| == GroupCount(a) + GroupCount(b)
      && exists i | 0 <= i <= |s| ::
           Captures(a, s[..i], caps[..GroupCount(a)]) && Captures(b, s[i..], caps[GroupCount(a)..])
    case Opt(a) => (s == "" && caps == NoCaptures(GroupCount(a))) || Captures(a, s, caps)
    case Plus(_) => Matches(r, s) && caps == []
    case Star(_) => Matches(r, s) && caps == []
    case Group(a) => Matches(a, s) && caps == [Some(s)]
  }

  lemma {:induction false} CapturesCat(a: Re, b: Re, s: string, t: string, caps: Captured, more: Captured)
    requires Captures(a, s, caps) && Captures(b, t, more) && |caps| == GroupCount(a) && |more| == GroupCount(b)
    ensures Captures(Cat(a, b), s + t, caps + more)
  {
    var whole, all := s + t, caps + more;
    assert whole[..|s|] == s && whole[|s|..] == t;
    assert all[..GroupCount(a)] == caps && all[GroupCount(a)..] == more;
  }

  lemma {:induction false} SplitCaptures(a: Re, b: Re, s: string, caps: Captured)
    returns (i: nat, some: Captured, more: Captured)
    requires Captures(Cat(a, b), s, caps)
    ensures i <= |s| && caps == some + more && |some| == GroupCount(a) && |more| == GroupCount(b)
    ensures Captures(a, s[..i], some) && Captures(b, s[i..], more) && s == s[..i] + s[i..]
  {
    i :| 0 <= i <= |s| && Captures(a, s[..i], caps[..GroupCount(a)]) && Captures(b, s[i..], caps[GroupCount(a)..]);
    some, more := caps[..GroupCount(a)], caps[GroupCount(a)..];
  }

  /** A match captures something, and only matches do. */
  lemma {:induction false} MatchesIffCaptures(r: Re, s: string)
    ensures Matches(r, s) <==> exists caps :: Captures(r, s, caps)
  {
    if Matches(r, s) {
      var caps := SomeCaptures(r, s);
      assert Captures(r, s, caps);
    }
    if exists caps :: Captures(r, s, caps) {
      var caps :| Captures(r, s, caps);
      CapturesMatch(r, s, caps);
    }
  }

  lemma {:induction false} CapturesMatch(r: Re, s: string, caps: Captured)
    requires Captures(r, s, caps)
    ensures Matches(r, s)
  {
    match r {
      case Cat(a, b) =>
        var i, some, more := SplitCaptures(a, b, s, caps);
        CapturesMatch(a, s[..i], some);
        CapturesMatch(b, s[i..], more);
      case Opt(a) =>
        if Captures(a, s, caps) {
          CapturesMatch(a, s, caps);
        }
      case _ =>
    }
  }

  lemma {:induction false} SomeCaptures(r: Re, s: string) returns (caps: Captured)
    requires Matches(r, s)
    ensures Captures(r, s, caps) && |caps| == GroupCount(r)
  {
    match r {
      case Cat(a, b) =>
        var i := SplitCat(a, b, s);
        var some := SomeCaptures(a, s[..i]);
        var more := SomeCaptures(b, s[i..]);
        CapturesCat(a, b, s[..i], s[i..], some, more);
        assert s == s[..i] + s[i..];
        caps := some + more;
      case Opt(a) =>
        if Matches(a, s) {
          caps := SomeCaptures(a, s);
        } else {
          caps := NoCaptures(GroupCount(a));
        }
      case Group(_) =>
        caps := [Some(s)];
      case _ =>
        caps := [];
    }
  }

  // ---- Groups do not matter to what matches ----

  /** The pattern with its groups written as non-capturing ones. */
  function Ungrouped(r: Re): Re {
    match r
    case Class(_) => r
    case Cat(a, b) => Cat(Ungrouped(a), Ungrouped(b))
    case Opt(a) => Opt(Ungrouped(a))
    case Plus(a) => Plus(Ungrouped(a))
    case Star(a) => Star(Ungrouped(a))
    case Group(a) => Ungrouped(a)
  }

  lemma {:induction false} UngroupedMatches(r: Re, s: string)
    ensures Matches(Ungrouped(r), s) <==> Matches(r, s)
    decreases r, |s|, 0
  {
    match r {
      case Class(_) =>
      case Cat(a, b) =>
        forall i | 0 <= i <= |s|
          ensures Matches(Ungrouped(a), s[..i]) <==> Matches(a, s[..i])
          ensures Matches(Ungrouped(b), s[i..]) <==> Matches(b, s[i..])
        {
          UngroupedMatches(a, s[..i]);
          UngroupedMatches(b, s[i..]);
        }
      case Opt(a) =>
        UngroupedMatches(a, s);
      case Plus(a) =>
        UngroupedRepeats(a, s);
      case Star(a) =>
        UngroupedRepeats(a, s);
      case Group(a) =>
        UngroupedMatches(a, s);
    }
  }

  lemma {:induction false} UngroupedRepeats(r: Re, s: string)
    ensures Repeats(Ungrouped(r), s) <==> Repeats(r, s)
    decreases r, |s|, 1
  {
    forall i | 0 < i <= |s|
      ensures Matches(Ungrouped(r), s[..i]) <==> Matches(r, s[..i])
      ensures Repeats(Ungrouped(r), s[i..]) <==> Repeats(r, s[i..])
    {
      UngroupedMatches(r, s[..i]);
      UngroupedRepeats(r, s[i..]);
    }
  }
}
