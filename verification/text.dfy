/** String operations of Python's `str` used by the model: `join`, `split` and `strip`. */
module Text {

  /** `sep.join(parts)`. */
  function Join(parts: seq<string>, sep: string): string
    decreases |parts|
  {
    if |parts| == 0 then ""
    else if |parts| == 1 then parts[0]
    else parts[0] + sep + Join(parts[1..], sep)
  }

  /** `s.split(c)` for a one-character separator: never empty, and no piece holds `c`. */
  function Split(s: string, c: char): (r: seq<string>)
    ensures |r| >= 1
    ensures forall i :: 0 <= i < |r| ==> c !in r[i]
    ensures |r| == 1 <==> c !in s
    decreases |s|
  {
    if |s| == 0 then [""]
    else
      var rest := Split(s[1..], c);
      if s[0] == c then [""] + rest
      else [[s[0]] + rest[0]] + rest[1..]
  }

  lemma {:induction false} SplitNoSeparator(s: string, c: char)
    requires c !in s
    ensures Split(s, c) == [s]
    decreases |s|
  {
    if |s| > 0 {
      SplitNoSeparator(s[1..], c);
      assert [s[0]] + s[1..] == s;
    }
  }

  lemma {:induction false} SplitAfterPiece(a: string, c: char, b: string)
    requires c !in a
    ensures Split(a + [c] + b, c) == [a] + Split(b, c)
    decreases |a|
  {
    var s := a + [c] + b;
    if |a| == 0 {
      assert s == [c] + b;
      assert s[1..] == b;
    } else {
      assert s[0] == a[0] && s[1..] == a[1..] + [c] + b;
      SplitAfterPiece(a[1..], c, b);
      SplitHead(s, c);
      var rest := Split(s[1..], c);
      assert rest[0] == a[1..] && rest[1..] == Split(b, c);
      assert [a[0]] + a[1..] == a;
    }
  }

  /** One step of `Split`: the first character either ends the first piece or joins it. */
  lemma SplitHead(s: string, c: char)
    requires |s| > 0
    ensures s[0] == c ==> Split(s, c) == [""] + Split(s[1..], c)
    ensures s[0] != c ==> Split(s, c) == [[s[0]] + Split(s[1..], c)[0]] + Split(s[1..], c)[1..]
  {
  }

  /** Splitting a join on the same separator gives back the pieces when none holds it. */
  lemma {:induction false} SplitJoin(parts: seq<string>, c: char)
    requires |parts| > 0
    requires forall i :: 0 <= i < |parts| ==> c !in parts[i]
    ensures Split(Join(parts, [c]), c) == parts
    decreases |parts|
  {
    if |parts| == 1 {
      SplitNoSeparator(parts[0], c);
    } else {
      SplitAfterPiece(parts[0], c, Join(parts[1..], [c]));
      SplitJoin(parts[1..], c);
      assert [parts[0]] + parts[1..] == parts;
    }
  }

  /** Joining the pieces of a split on the same separator gives back the string. */
  lemma {:induction false} JoinSplit(s: string, c: char)
    ensures Join(Split(s, c), [c]) == s
    decreases |s|
  {
    if |s| > 0 {
      var rest := Split(s[1..], c);
      JoinSplit(s[1..], c);
      SplitHead(s, c);
      if s[0] == c {
        assert Join([""] + rest, [c]) == "" + [c] + Join(rest, [c]);
      } else {
        var r := [[s[0]] + rest[0]] + rest[1..];
        if |rest| == 1 {
          assert Join(r, [c]) == [s[0]] + rest[0];
        } else {
          assert r[1..] == rest[1..];
          assert Join(rest, [c]) == rest[0] + [c] + Join(rest[1..], [c]);
        }
      }
    }
  }

  /** A join contains a character only if a piece or the separator does. */
  lemma {:induction false} JoinAvoids(parts: seq<string>, sep: string, c: char)
    requires c !in sep
    requires forall i :: 0 <= i < |parts| ==> c !in parts[i]
    ensures c !in Join(parts, sep)
    decreases |parts|
  {
    if |parts| > 1 {
      JoinAvoids(parts[1..], sep, c);
    }
  }

  /** A join starts with its first piece. */
  lemma JoinStartsWithFirst(parts: seq<string>, sep: string)
    requires |parts| > 0
    ensures |parts[0]| <= |Join(parts, sep)|
    ensures Join(parts, sep)[..|parts[0]|] == parts[0]
  {
    if |parts| > 1 {
      var j := Join(parts, sep);
      assert j == parts[0] + (sep + Join(parts[1..], sep));
    }
  }

  /** The characters `str.isspace()` accepts, the ones `str.strip()` removes. */
  predicate IsSpace(c: char)
  {
    || ('\t' <= c <= '\r')
    || ('\U{1C}' <= c <= '\U{1F}')
    || c == ' ' || c == '\U{85}' || c == '\U{A0}' || c == '\U{1680}'
    || ('\U{2000}' <= c <= '\U{200A}')
    || c == '\U{2028}' || c == '\U{2029}' || c == '\U{202F}' || c == '\U{205F}' || c == '\U{3000}'
  }

  /** `s.lstrip()`: drops the leading white space, and only that. */
  function TrimStart(s: string): (r: string)
    ensures |r| <= |s| && r == s[|s| - |r|..]
    ensures forall i :: 0 <= i < |s| - |r| ==> IsSpace(s[i])
    ensures |r| > 0 ==> !IsSpace(r[0])
    decreases |s|
  {
    if |s| > 0 && IsSpace(s[0]) then TrimStart(s[1..]) else s
  }

  /** `s.rstrip()`: drops the trailing white space, and only that. */
  function TrimEnd(s: string): (r: string)
    ensures |r| <= |s| && r == s[..|r|]
    ensures forall i :: |r| <= i < |s| ==> IsSpace(s[i])
    ensures |r| > 0 ==> !IsSpace(r[|r| - 1])
    decreases |s|
  {
    if |s| > 0 && IsSpace(s[|s| - 1]) then TrimEnd(s[..|s| - 1]) else s
  }

  /** The length of the white space that `s` starts with. */
  function LeadingSpace(s: string): (n: nat)
    ensures n <= |s|
    ensures forall i :: 0 <= i < n ==> IsSpace(s[i])
    ensures n < |s| ==> !IsSpace(s[n])
  {
    var t := TrimStart(s);
    assert |t| > 0 ==> t[0] == s[|s| - |t|];
    |s| - |t|
  }

  /** `s.strip()`: white space removed at both ends; empty exactly when `s` is blank. */
  function Trim(s: string): (r: string)
    ensures |r| <= |s|
    ensures |r| > 0 ==> !IsSpace(r[0]) && !IsSpace(r[|r| - 1])
    ensures |r| == 0 <==> forall i :: 0 <= i < |s| ==> IsSpace(s[i])
  {
    TrimBlank(s);
    TrimEnd(TrimStart(s))
  }

  /**
   * What stripping keeps: the stretch of `s` that begins right after its
   * leading white space and is followed by nothing but white space.
   */
  lemma TrimKeepsMiddle(s: string)
    ensures var n := LeadingSpace(s);
      && n + |Trim(s)| <= |s|
      && Trim(s) == s[n..n + |Trim(s)|]
      && (forall i :: n + |Trim(s)| <= i < |s| ==> IsSpace(s[i]))
  {
    TrimIsSlice(s);
    TrimLeavesSpaceAfter(s);
  }

  /** The stripped text is the slice of `s` that starts after its leading white space. */
  lemma TrimIsSlice(s: string)
    ensures LeadingSpace(s) + |Trim(s)| <= |s|
    ensures Trim(s) == s[LeadingSpace(s)..LeadingSpace(s) + |Trim(s)|]
  {
    var t := TrimStart(s);
    var n := |s| - |t|;
    assert LeadingSpace(s) == n;
    var r := TrimEnd(t);
    assert Trim(s) == r;
    assert t == s[n..];
    assert r == t[..|r|];
    PrefixOfSuffix(s, n, r);
  }

  /** Only white space follows the stripped text in `s`. */
  lemma TrimLeavesSpaceAfter(s: string)
    ensures forall i :: LeadingSpace(s) + |Trim(s)| <= i < |s| ==> IsSpace(s[i])
  {
    var t := TrimStart(s);
    var n := |s| - |t|;
    assert LeadingSpace(s) == n;
    assert Trim(s) == TrimEnd(t);
    forall i | n + |TrimEnd(t)| <= i < |s|
      ensures IsSpace(s[i])
    {
      assert s[i] == t[i - n];
    }
  }

  /** Stripping leaves nothing exactly when the string is all white space. */
  lemma TrimBlank(s: string)
    ensures |TrimEnd(TrimStart(s))| == 0 <==> forall i :: 0 <= i < |s| ==> IsSpace(s[i])
  {
    var t := TrimStart(s);
    if |t| > 0 {
      assert t[0] == s[|s| - |t|];
    }
  }

  /** A prefix of the suffix from `n` is the slice that starts at `n`. */
  lemma PrefixOfSuffix<T>(s: seq<T>, n: nat, r: seq<T>)
    requires n <= |s| && |r| <= |s| - n && r == s[n..][..|r|]
    ensures r == s[n..n + |r|]
  {
  }

  /** A string that starts with white space is changed by trimming. */
  lemma LeadingSpaceTrimmed(s: string)
    requires |s| > 0 && IsSpace(s[0])
    ensures Trim(s) != s
  {
  }

  /** Stripping twice is stripping once. */
  lemma TrimIdempotent(s: string)
    ensures Trim(Trim(s)) == Trim(s)
  {
    var t := Trim(s);
    if |t| > 0 {
      assert TrimStart(t) == t;
      assert TrimEnd(t) == t;
    }
  }
}
