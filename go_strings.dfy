/**
 * Go's strings.Split(s, "/"): the pieces of s around every "/". A string with
 * k slashes has k + 1 pieces, so the empty string has one, the empty piece.
 * Join is the partner that glues the pieces back with "/".
 */
module GoStrings {

  const Slash: char := '/'

  /** The number of slashes in s. */
  function Slashes(s: string): nat
    decreases |s|
  {
    if s == [] then 0 else (if s[0] == Slash then 1 else 0) + Slashes(s[1..])
  }

  /** strings.Split(s, "/"). */
  function Split(s: string): (parts: seq<string>)
    ensures |parts| == Slashes(s) + 1
    ensures forall i :: 0 <= i < |parts| ==> Slash !in parts[i]
    decreases |s|
  {
    if s == [] then [[]]
    else
      var rest := Split(s[1..]);
      if s[0] == Slash then [[]] + rest
      else [[s[0]] + rest[0]] + rest[1..]
  }

  /** strings.Join(parts, "/"). */
  function Join(parts: seq<string>): string
    requires |parts| > 0
    decreases |parts|
  {
    if |parts| == 1 then parts[0] else parts[0] + [Slash] + Join(parts[1..])
  }

  /** Joining the pieces gives the string back. */
  lemma {:induction false} JoinSplit(s: string)
    ensures Join(Split(s)) == s
    decreases |s|
  {
    if s != [] {
      var rest := Split(s[1..]);
      JoinSplit(s[1..]);
      if s[0] != Slash {
        var parts := Split(s);
        assert parts[1..] == rest[1..];
        if |rest| > 1 {
          assert rest == [rest[0]] + rest[1..];
          assert Join(rest) == rest[0] + [Slash] + Join(rest[1..]);
        }
        assert s == [s[0]] + s[1..];
      } else {
        assert s == [Slash] + s[1..];
      }
    }
  }

  /** Splitting a string that starts with a slash-free prefix a. */
  lemma {:induction false} SplitPrefix(a: string, s: string)
    requires Slash !in a
    ensures Split(a + s) == [a + Split(s)[0]] + Split(s)[1..]
    decreases |a|
  {
    if a != [] {
      var u := a + s;
      assert u[0] == a[0] && u[0] != Slash;
      assert u[1..] == a[1..] + s;
      SplitPrefix(a[1..], s);
      var rest := Split(u[1..]);
      assert Split(u) == [[u[0]] + rest[0]] + rest[1..];
      assert rest[0] == a[1..] + Split(s)[0] && rest[1..] == Split(s)[1..];
      assert [a[0]] + (a[1..] + Split(s)[0]) == a + Split(s)[0];
    } else {
      assert a + s == s && a + Split(s)[0] == Split(s)[0];
      assert Split(s) == [Split(s)[0]] + Split(s)[1..];
    }
  }

  /** Splitting undoes joining slash-free pieces: Split is the unique way to
      cut a string into slash-free pieces. */
  lemma {:induction false} SplitJoin(parts: seq<string>)
    requires |parts| > 0
    requires forall i :: 0 <= i < |parts| ==> Slash !in parts[i]
    ensures Split(Join(parts)) == parts
    decreases |parts|
  {
    if |parts| == 1 {
      SplitPrefix(parts[0], []);
      assert parts[0] + [] == parts[0];
    } else {
      var j := Join(parts[1..]);
      SplitJoin(parts[1..]);
      SplitPrefix(parts[0], [Slash] + j);
      assert ([Slash] + j)[1..] == j;
      assert parts[0] + [Slash] + j == parts[0] + ([Slash] + j);
      assert parts[0] + [] == parts[0];
      assert parts == [parts[0]] + parts[1..];
    }
  }

  /** A string with a slash cuts as t + "/" + second + rest, where t and second
      are free of slashes and rest is empty or starts with the next slash. */
  ghost predicate Cuts(s: string, t: string, second: string, rest: string) {
    s == t + [Slash] + second + rest && Slash !in t && Slash !in second &&
    (rest == [] || rest[0] == Slash)
  }

  /** The first two pieces of Split are the cut's type and second segment. */
  lemma SplitOfCut(s: string, t: string, second: string, rest: string)
    requires Cuts(s, t, second, rest)
    ensures |Split(s)| >= 2 && Split(s)[0] == t && Split(s)[1] == second
  {
    var tail := if rest == [] then [] else Split(rest[1..]);
    var parts := [t, second] + tail;
    forall i | 0 <= i < |parts| ensures Slash !in parts[i] {
      if i >= 2 { assert parts[i] == tail[i - 2]; }
    }
    assert Join(parts) == s by {
      assert parts[1..] == [second] + tail;
      if rest == [] {
        assert Join(parts[1..]) == second;
      } else {
        JoinSplit(rest[1..]);
        assert rest == [Slash] + rest[1..];
        assert parts[1..][1..] == tail;
        assert Join(parts[1..]) == second + [Slash] + Join(tail);
      }
    }
    SplitJoin(parts);
  }

  /** Any cut of s gives the first two pieces of Split. */
  lemma SplitOfAnyCut(s: string)
    ensures forall t, second, rest | Cuts(s, t, second, rest) ::
      |Split(s)| >= 2 && Split(s)[0] == t && Split(s)[1] == second
  {
    forall t, second, rest | Cuts(s, t, second, rest)
      ensures |Split(s)| >= 2 && Split(s)[0] == t && Split(s)[1] == second
    {
      SplitOfCut(s, t, second, rest);
    }
  }

  /** The first two pieces of a join, and what follows them. */
  lemma JoinFirstTwo(parts: seq<string>)
    requires |parts| >= 2
    ensures Join(parts) == parts[0] + [Slash] + parts[1] +
      (if |parts| == 2 then [] else [Slash] + Join(parts[2..]))
  {
  }

  /** Split has two pieces or more exactly when s has a slash, and then s has a
      cut (by SplitOfCut, only one). */
  lemma CutOfSplit(s: string)
    ensures |Split(s)| >= 2 <==> Slash in s
    ensures Slash in s ==> exists rest :: Cuts(s, Split(s)[0], Split(s)[1], rest)
  {
    var parts := Split(s);
    JoinSplit(s);
    if |parts| == 1 {
      assert s == parts[0];
    } else {
      JoinFirstTwo(parts);
      var rest := if |parts| == 2 then [] else [Slash] + Join(parts[2..]);
      assert s == parts[0] + [Slash] + parts[1] + rest;
      assert s[|parts[0]|] == Slash;
      assert Cuts(s, parts[0], parts[1], rest);
    }
  }
}
