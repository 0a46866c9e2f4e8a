// Strings as the source uses them: trimming, splitting into lines, searching.
module Text {

  // The white space that trim() removes.
  predicate IsSpace(c: char) {
    || c == ' ' || '\t' <= c <= '\r' || c == '\U{A0}' || c == '\U{1680}'
    || '\U{2000}' <= c <= '\U{200A}' || c == '\U{2028}' || c == '\U{2029}'
    || c == '\U{202F}' || c == '\U{205F}' || c == '\U{3000}' || c == '\U{FEFF}'
  }

  // The text trims to the empty string.
  predicate Blank(s: string) {
    forall i :: 0 <= i < |s| ==> IsSpace(s[i])
  }

  function TrimEnd(s: string): string {
    if s != "" && IsSpace(s[|s| - 1]) then TrimEnd(s[..|s| - 1]) else s
  }

  function TrimStart(s: string): string {
    if s != "" && IsSpace(s[0]) then TrimStart(s[1..]) else s
  }

  function Trim(s: string): string {
    TrimStart(TrimEnd(s))
  }

  predicate EndsSolid(s: string) {
    s == "" || !IsSpace(s[|s| - 1])
  }

  predicate StartsSolid(s: string) {
    s == "" || !IsSpace(s[0])
  }

  lemma {:induction false} TrimEndIsPrefix(s: string)
    ensures TrimEnd(s) <= s && EndsSolid(TrimEnd(s))
    ensures TrimEnd(s) == "" <==> Blank(s)
  {
    if s != "" && IsSpace(s[|s| - 1]) {
      TrimEndIsPrefix(s[..|s| - 1]);
      if Blank(s[..|s| - 1]) {
        forall i | 0 <= i < |s| ensures IsSpace(s[i]) {
          if i < |s| - 1 { assert s[..|s| - 1][i] == s[i]; }
        }
      }
    }
  }

  lemma {:induction false} TrimStartIsSuffix(s: string)
    ensures |TrimStart(s)| <= |s| && TrimStart(s) == s[|s| - |TrimStart(s)|..] && StartsSolid(TrimStart(s))
    ensures TrimStart(s) == "" <==> Blank(s)
    ensures EndsSolid(s) ==> EndsSolid(TrimStart(s))
  {
    if s != "" && IsSpace(s[0]) {
      TrimStartIsSuffix(s[1..]);
      if Blank(s[1..]) {
        forall i | 0 <= i < |s| ensures IsSpace(s[i]) {
          if i > 0 { assert s[1..][i - 1] == s[i]; }
        }
      }
    }
  }

  lemma TrimIsSolid(s: string)
    ensures StartsSolid(Trim(s)) && EndsSolid(Trim(s))
    ensures Trim(s) == "" <==> Blank(s)
  {
    TrimEndIsPrefix(s);
    TrimStartIsSuffix(TrimEnd(s));
  }

  lemma TrimSolid(s: string)
    requires StartsSolid(s) && EndsSolid(s)
    ensures Trim(s) == s
  {
  }

  // --- lines ----------------------------------------------------------------

  function SplitAt(s: string, sep: char): (parts: seq<string>)
    ensures |parts| >= 1
  {
    if s == "" then [""]
    else
      var rest := SplitAt(s[1..], sep);
      if s[0] == sep then [""] + rest else [[s[0]] + rest[0]] + rest[1..]
  }

  function Join(parts: seq<string>, sep: char): string {
    if parts == [] then ""
    else if |parts| == 1 then parts[0]
    else parts[0] + [sep] + Join(parts[1..], sep)
  }

  lemma {:induction false} SplitNone(s: string, sep: char)
    requires sep !in s
    ensures SplitAt(s, sep) == [s]
  {
    if s != "" {
      SplitNone(s[1..], sep);
      assert [s[0]] + s[1..] == s;
    }
  }

  // Splitting distributes over the separator.
  lemma {:induction false} SplitAcross(a: string, b: string, sep: char)
    ensures SplitAt(a + [sep] + b, sep) == SplitAt(a, sep) + SplitAt(b, sep)
  {
    if a == "" {
      assert a + [sep] + b == [sep] + b;
      assert ([sep] + b)[1..] == b;
    } else {
      assert (a + [sep] + b)[1..] == a[1..] + [sep] + b;
      SplitAcross(a[1..], b, sep);
    }
  }

  lemma SplitOnce(a: string, b: string, sep: char)
    requires sep !in a
    ensures SplitAt(a + [sep] + b, sep) == [a] + SplitAt(b, sep)
  {
    SplitAcross(a, b, sep);
    SplitNone(a, sep);
  }

  lemma {:induction false} JoinSplit(s: string, sep: char)
    ensures Join(SplitAt(s, sep), sep) == s
    ensures forall i :: 0 <= i < |SplitAt(s, sep)| ==> sep !in SplitAt(s, sep)[i]
  {
    if s != "" {
      var rest := SplitAt(s[1..], sep);
      JoinSplit(s[1..], sep);
      var parts := SplitAt(s, sep);
      if s[0] == sep {
        assert parts[1..] == rest;
        assert "" + [sep] + s[1..] == s;
      } else {
        assert parts[1..] == rest[1..];
        assert [s[0]] + s[1..] == s;
        if |rest| > 1 {
          assert rest[0] + [sep] + Join(rest[1..], sep) == s[1..];
          assert ([s[0]] + rest[0]) + [sep] + Join(rest[1..], sep) == [s[0]] + (rest[0] + [sep] + Join(rest[1..], sep));
        }
      }
    }
  }

  lemma {:induction false} SplitJoin(parts: seq<string>, sep: char)
    requires parts != [] && forall i :: 0 <= i < |parts| ==> sep !in parts[i]
    ensures SplitAt(Join(parts, sep), sep) == parts
  {
    SplitNone(parts[0], sep);
    if |parts| > 1 {
      SplitJoin(parts[1..], sep);
      SplitAcross(parts[0], Join(parts[1..], sep), sep);
      assert parts == [parts[0]] + parts[1..];
    }
  }

  lemma {:induction false} JoinConcat(a: seq<string>, b: seq<string>, sep: char)
    requires a != [] && b != []
    ensures Join(a + b, sep) == Join(a, sep) + [sep] + Join(b, sep)
  {
    if |a| == 1 {
      assert (a + b)[1..] == b;
    } else {
      assert (a + b)[1..] == a[1..] + b;
      JoinConcat(a[1..], b, sep);
      assert a[0] + [sep] + (Join(a[1..], sep) + [sep] + Join(b, sep))
          == (a[0] + [sep] + Join(a[1..], sep)) + [sep] + Join(b, sep);
    }
  }

  // --- searching ------------------------------------------------------------

  predicate IsAt(s: string, t: string, i: nat) {
    i + |t| <= |s| && s[i..i + |t|] == t
  }

  predicate Occurs(s: string, t: string) {
    exists i: nat :: i <= |s| && IsAt(s, t, i)
  }

  function IndexFrom(s: string, t: string, from: nat): int
    decreases |s| - from
  {
    if from > |s| then -1
    else if IsAt(s, t, from) then from
    else IndexFrom(s, t, from + 1)
  }

  // The first occurrence at or after `from`, or -1.
  lemma {:induction false} IndexFromFirst(s: string, t: string, from: nat)
    ensures var i := IndexFrom(s, t, from);
      && (i == -1 || (from <= i <= |s| && IsAt(s, t, i)))
      && forall j: nat :: from <= j < (if i == -1 then |s| + 1 else i) ==> !IsAt(s, t, j)
    decreases |s| - from
  {
    if from <= |s| && !IsAt(s, t, from) { IndexFromFirst(s, t, from + 1); }
  }

  lemma IndexIs(s: string, t: string, from: nat, i: nat)
    requires from <= i <= |s| && IsAt(s, t, i)
    requires forall j: nat :: from <= j < i ==> !IsAt(s, t, j)
    ensures IndexFrom(s, t, from) == i
  {
    IndexFromFirst(s, t, from);
  }

  // A text cut out of a larger one brings its own occurrences along.
  lemma IsAtWithin(before: string, s: string, after: string, t: string, i: nat)
    requires i <= |s| && IsAt(s, t, i)
    ensures IsAt(before + s + after, t, |before| + i)
  {
    var whole := before + s + after;
    assert whole[|before| + i..|before| + i + |t|] == s[i..i + |t|];
  }

  lemma OccursWithin(before: string, s: string, after: string, t: string)
    requires Occurs(s, t)
    ensures Occurs(before + s + after, t)
  {
    var i: nat :| i <= |s| && IsAt(s, t, i);
    IsAtWithin(before, s, after, t, i);
  }

  // A character that t does not have keeps occurrences to one of its sides.
  lemma OccursAround(a: string, c: char, b: string, t: string)
    requires c !in t && Occurs(a + [c] + b, t)
    ensures Occurs(a, t) || Occurs(b, t)
  {
    var s := a + [c] + b;
    var i: nat :| i <= |s| && IsAt(s, t, i);
    assert s[|a|] == c;
    assert forall k :: i <= k < i + |t| ==> s[k] == t[k - i];
    if i + |t| <= |a| {
      assert a[i..i + |t|] == s[i..i + |t|];
      assert IsAt(a, t, i);
    } else {
      assert b[i - |a| - 1..i - |a| - 1 + |t|] == s[i..i + |t|];
      assert IsAt(b, t, i - |a| - 1);
    }
  }

  // --- lines, read off the text itself --------------------------------------

  // No line of the text ends in white space.
  predicate RightTrimmed(s: string) {
    forall i :: 0 <= i < |s| && IsSpace(s[i]) && s[i] != '\n' ==> i + 1 < |s| && s[i + 1] != '\n'
  }

  predicate AllEndSolid(lines: seq<string>) {
    forall i :: 0 <= i < |lines| ==> EndsSolid(lines[i])
  }

  lemma SplitCons(s: string)
    requires s != ""
    ensures var rest := SplitAt(s[1..], '\n');
      SplitAt(s, '\n') == if s[0] == '\n' then [""] + rest else [[s[0]] + rest[0]] + rest[1..]
    ensures SplitAt(s, '\n')[0] == "" <==> s[0] == '\n'
  {
  }

  lemma {:induction false} RightTrimmedLines(s: string)
    ensures RightTrimmed(s) <==> AllEndSolid(SplitAt(s, '\n'))
    ensures SplitAt(s, '\n')[0] == "" <==> s == "" || s[0] == '\n'
  {
    if s != "" {
      var tail := s[1..];
      var rest := SplitAt(tail, '\n');
      RightTrimmedLines(tail);
      SplitCons(s);
      var parts := SplitAt(s, '\n');
      assert AllEndSolid(parts) <==> EndsSolid(parts[0]) && AllEndSolid(parts[1..]) by {
        assert parts == [parts[0]] + parts[1..];
      }
      assert AllEndSolid(rest) <==> EndsSolid(rest[0]) && AllEndSolid(rest[1..]) by {
        assert rest == [rest[0]] + rest[1..];
      }
      RightTrimmedCons(s);
      if s[0] == '\n' {
        assert parts[1..] == rest;
      } else {
        assert parts[1..] == rest[1..];
      }
    }
  }

  lemma RightTrimmedCons(s: string)
    requires s != ""
    ensures RightTrimmed(s) <==>
      && RightTrimmed(s[1..])
      && (IsSpace(s[0]) && s[0] != '\n' ==> |s| > 1 && s[1] != '\n')
  {
  }

  ghost predicate SomeStarts(lines: seq<string>, p: string) {
    exists i :: 0 <= i < |lines| && p <= lines[i]
  }

  lemma {:induction false} FirstLineStarts(s: string, p: string)
    requires '\n' !in p
    ensures p <= SplitAt(s, '\n')[0] <==> p <= s
  {
    if s != "" && p != "" && s[0] != '\n' {
      FirstLineStarts(s[1..], p[1..]);
      var first := [s[0]] + SplitAt(s[1..], '\n')[0];
      assert p <= first <==> p[0] == s[0] && p[1..] <= first[1..];
      assert p <= s <==> p[0] == s[0] && p[1..] <= s[1..];
    }
  }

  // A later line starts with p exactly when a line break is followed by p.
  lemma {:induction false} LinesStarting(s: string, p: string)
    requires p != "" && '\n' !in p
    ensures SomeStarts(SplitAt(s, '\n')[1..], p) <==> Occurs(s, ['\n'] + p)
  {
    if s != "" {
      var tail := s[1..];
      var rest := SplitAt(tail, '\n');
      LinesStarting(tail, p);
      FirstLineStarts(tail, p);
      OccursCons(s, ['\n'] + p);
      var parts := SplitAt(s, '\n');
      if s[0] == '\n' {
        assert parts[1..] == rest;
        assert rest == [rest[0]] + rest[1..];
        StartsCons(rest[0], rest[1..], p);
        assert IsAt(s, ['\n'] + p, 0) <==> p <= tail by { BreakThen(s, p); }
      } else {
        assert parts[1..] == rest[1..];
      }
    }
  }

  lemma StartsCons(first: string, others: seq<string>, p: string)
    ensures SomeStarts([first] + others, p) <==> p <= first || SomeStarts(others, p)
  {
    var all := [first] + others;
    if p <= first { assert p <= all[0]; }
    if SomeStarts(others, p) {
      var i :| 0 <= i < |others| && p <= others[i];
      assert p <= all[i + 1];
    }
  }

  lemma BreakThen(s: string, p: string)
    requires s != "" && s[0] == '\n'
    ensures IsAt(s, ['\n'] + p, 0) <==> p <= s[1..]
  {
  }

  lemma OccursCons(s: string, t: string)
    requires s != ""
    ensures Occurs(s, t) <==> IsAt(s, t, 0) || Occurs(s[1..], t)
  {
    if Occurs(s, t) && !IsAt(s, t, 0) {
      var i: nat :| i <= |s| && IsAt(s, t, i);
      assert s[1..][i - 1..i - 1 + |t|] == s[i..i + |t|];
      assert IsAt(s[1..], t, i - 1);
    }
    if Occurs(s[1..], t) {
      assert [s[0]] + s[1..] + "" == s;
      OccursWithin([s[0]], s[1..], "", t);
    }
  }

  // Joining around one part, for that part or for another in its place.
  lemma {:induction false} JoinAround(parts: seq<string>, k: nat, other: string, sep: char)
    returns (before: string, after: string)
    requires k < |parts|
    ensures Join(parts, sep) == before + parts[k] + after
    ensures Join(parts[k := other], sep) == before + other + after
  {
    var changed := parts[k := other];
    if k == 0 {
      assert changed[1..] == parts[1..];
      before := "";
      after := if |parts| == 1 then "" else [sep] + Join(parts[1..], sep);
      assert parts[0] + [sep] + Join(parts[1..], sep) == parts[0] + ([sep] + Join(parts[1..], sep));
      assert other + [sep] + Join(parts[1..], sep) == other + ([sep] + Join(parts[1..], sep));
    } else {
      assert changed[1..] == parts[1..][k - 1 := other];
      var inner;
      inner, after := JoinAround(parts[1..], k - 1, other, sep);
      before := parts[0] + [sep] + inner;
      Shift(parts[0], sep, inner, parts[k], after);
      Shift(parts[0], sep, inner, other, after);
    }
  }

  lemma Shift(a: string, sep: char, b: string, c: string, d: string)
    ensures a + [sep] + (b + c + d) == (a + [sep] + b) + c + d
  {
  }

  lemma {:induction false} TrimStartStops(a: string, c: char, b: string)
    requires !IsSpace(c)
    ensures |TrimStart(a + [c] + b)| >= 1 + |b|
  {
    if a != "" {
      assert (a + [c] + b)[1..] == a[1..] + [c] + b;
      TrimStartStops(a[1..], c, b);
    }
  }
}
