/** The JavaScript string operations the client relies on: truthiness,
    template-literal interpolation, `startsWith`, `includes` and `split`. */
module Text {
  import opened Wrappers

  /** A string that may be null or undefined is truthy exactly when it is
      present and non-empty. */
  predicate Truthy(s: Option<string>)
  {
    s.Some? && s.value != ""
  }

  /** What `${s}` prints: the string itself, or "undefined" when it is absent. */
  function Interpolate(s: Option<string>): string
  {
    if s.Some? then s.value else "undefined"
  }

  /** `s.startsWith(prefix)`. */
  predicate StartsWith(s: string, prefix: string)
  {
    prefix <= s
  }

  /** `s.includes(sub)`: `sub` starts at some position of `s`. */
  predicate Includes(s: string, sub: string)
    decreases |s|
  {
    sub <= s || (|s| > 0 && Includes(s[1..], sub))
  }

  /** An occurrence at any offset is found by `Includes`. */
  lemma {:induction false} IncludesAt(s: string, sub: string, i: nat)
    requires i <= |s| && sub <= s[i..]
    ensures Includes(s, sub)
  {
    if i > 0 {
      assert s[1..][i - 1..] == s[i..];
      IncludesAt(s[1..], sub, i - 1);
    }
  }

  /** The second of four concatenated strings is included in their concatenation. */
  lemma IncludesSecond(first: string, second: string, third: string, fourth: string)
    ensures Includes(first + second + third + fourth, second)
  {
    var s := first + second + third + fourth;
    assert s[|first|..] == second + third + fourth;
    IncludesAt(s, second, |first|);
  }

  /** Every occurrence of `sub` found by `Includes` starts at some offset. */
  lemma {:induction false} IncludesOffset(s: string, sub: string)
    requires Includes(s, sub)
    ensures exists i :: 0 <= i <= |s| && sub <= s[i..]
  {
    if sub <= s {
      assert s[0..] == s;
    } else {
      IncludesOffset(s[1..], sub);
      var i :| 0 <= i <= |s[1..]| && sub <= s[1..][i..];
      assert s[1..][i..] == s[i + 1..];
    }
  }

  /** A non-empty string can only be included where its first character occurs. */
  lemma {:induction false} IncludesFirstChar(s: string, sub: string)
    requires |sub| > 0 && Includes(s, sub)
    ensures sub[0] in s
  {
    if sub <= s {
      assert s[0] == sub[0];
    } else {
      IncludesFirstChar(s[1..], sub);
      assert s[1..][0] in s[1..];
    }
  }

  /** The pieces of `s` rejoined with `sep`: the inverse of `Split`. */
  function Join(pieces: seq<string>, sep: char): string
  {
    if |pieces| == 0 then ""
    else if |pieces| == 1 then pieces[0]
    else pieces[0] + [sep] + Join(pieces[1..], sep)
  }

  /** `s.split(sep)` for a one-character separator: the maximal runs between
      occurrences of `sep`. The empty string splits into one empty piece. */
  function Split(s: string, sep: char): (pieces: seq<string>)
    ensures |pieces| >= 1
    ensures (|pieces| > 1) <==> sep in s
    ensures forall i :: 0 <= i < |pieces| ==> sep !in pieces[i]
    decreases |s|
  {
    if |s| == 0 then [""]
    else if s[0] == sep then
      assert s == [sep] + s[1..];
      [""] + Split(s[1..], sep)
    else
      var rest := Split(s[1..], sep);
      assert s == [s[0]] + s[1..];
      assert sep in s <==> sep in s[1..];
      [[s[0]] + rest[0]] + rest[1..]
  }

  /** Rejoining the pieces with the separator gives back the string. */
  lemma {:induction false} JoinSplit(s: string, sep: char)
    ensures Join(Split(s, sep), sep) == s
    decreases |s|
  {
    if |s| > 0 {
      var rest := Split(s[1..], sep);
      JoinSplit(s[1..], sep);
      if s[0] == sep {
        assert Split(s, sep) == [""] + rest;
        assert ([""] + rest)[1..] == rest;
        assert s == [sep] + s[1..];
      } else {
        var pieces := [[s[0]] + rest[0]] + rest[1..];
        assert Split(s, sep) == pieces;
        assert s == [s[0]] + s[1..];
        if |rest| > 1 {
          assert pieces[1..] == rest[1..];
          assert Join(rest, sep) == rest[0] + [sep] + Join(rest[1..], sep);
        }
      }
    }
  }

  /** A leading run without separators becomes the head of the first piece. */
  lemma {:induction false} SplitAfterPlain(a: string, b: string, sep: char)
    requires sep !in a
    ensures Split(a + b, sep) == [a + Split(b, sep)[0]] + Split(b, sep)[1..]
  {
    if a == [] {
      var pieces := Split(b, sep);
      assert a + b == b && a + pieces[0] == pieces[0];
      assert pieces == [pieces[0]] + pieces[1..];
    } else {
      var s := a + b;
      assert s[0] == a[0] && s[0] != sep;
      assert s[1..] == a[1..] + b;
      SplitAfterPlain(a[1..], b, sep);
      var rest := Split(s[1..], sep);
      assert Split(s, sep) == [[s[0]] + rest[0]] + rest[1..];
      assert rest[0] == a[1..] + Split(b, sep)[0];
      assert rest[1..] == Split(b, sep)[1..];
      assert [a[0]] + (a[1..] + Split(b, sep)[0]) == a + Split(b, sep)[0];
    }
  }

  /** A leading separator closes an empty first piece. */
  lemma SplitAtSep(rest: string, sep: char)
    ensures Split([sep] + rest, sep) == [""] + Split(rest, sep)
  {
  }

  /** Splitting what `Join` built gives back the pieces: the other half of the
      round trip whose first half is `Split`'s last postcondition. */
  lemma {:induction false} SplitJoin(pieces: seq<string>, sep: char)
    requires |pieces| >= 1
    requires forall i :: 0 <= i < |pieces| ==> sep !in pieces[i]
    ensures Split(Join(pieces, sep), sep) == pieces
  {
    var head := pieces[0];
    if |pieces| == 1 {
      SplitAfterPlain(head, "", sep);
      assert head + "" == head;
    } else {
      var others := pieces[1..];
      forall i | 0 <= i < |others| ensures sep !in others[i] {
        assert others[i] == pieces[i + 1];
      }
      var tail := Join(others, sep);
      SplitJoin(others, sep);
      assert Join(pieces, sep) == head + ([sep] + tail);
      SplitAfterPlain(head, [sep] + tail, sep);
      SplitAtSep(tail, sep);
      var after := Split([sep] + tail, sep);
      assert after[0] == "" && after[1..] == others;
      assert head + after[0] == head;
      assert pieces == [head] + others;
    }
  }
}
