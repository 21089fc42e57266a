/** String handling of the command line: the logical-name filter applied to the
    requested resource name and Python's `str.split` used on `-subnet`. */
module Text {

  /** An ASCII letter or digit. */
  predicate IsAlnum(c: char) {
    ('a' <= c <= 'z') || ('A' <= c <= 'Z') || ('0' <= c <= '9')
  }

  predicate AllAlnum(s: string) {
    forall i :: 0 <= i < |s| ==> IsAlnum(s[i])
  }

  /** `''.join(c for c in s if c.isalnum())`: the logical name made from a requested name. */
  function Sanitise(s: string): (r: string)
    ensures AllAlnum(r)
    ensures |r| <= |s|
  {
    if s == [] then []
    else (if IsAlnum(s[0]) then [s[0]] else []) + Sanitise(s[1..])
  }

  /** `r` is `s` with some characters deleted, the rest in their order. */
  predicate IsSubsequence(r: string, s: string)
    decreases |s|
  {
    if r == [] then true
    else if s == [] then false
    else if r[0] == s[0] then IsSubsequence(r[1..], s[1..])
    else IsSubsequence(r, s[1..])
  }

  /** The logical name keeps the requested name's characters in their order. */
  lemma {:induction false} SanitiseIsSubsequence(s: string)
    ensures IsSubsequence(Sanitise(s), s)
  {
    if s != [] {
      SanitiseIsSubsequence(s[1..]);
      if IsAlnum(s[0]) {
        assert Sanitise(s) == [s[0]] + Sanitise(s[1..]);
        assert Sanitise(s)[1..] == Sanitise(s[1..]);
      } else {
        assert Sanitise(s) == Sanitise(s[1..]);
      }
    }
  }

  /** Exactly the alphanumeric characters survive, each as often as in the request,
      and nothing else does. */
  lemma {:induction false} SanitiseKeepsAlnum(s: string, c: char)
    ensures multiset(Sanitise(s))[c] == if IsAlnum(c) then multiset(s)[c] else 0
  {
    if s != [] {
      SanitiseKeepsAlnum(s[1..], c);
      assert s == [s[0]] + s[1..];
      assert multiset(s) == multiset([s[0]]) + multiset(s[1..]);
    }
  }

  /** The name is left as requested exactly when it was already all alphanumeric;
      otherwise the source logs the "has been adjusted" warning. */
  lemma {:induction false} SanitiseUnchangedIff(s: string)
    ensures Sanitise(s) == s <==> AllAlnum(s)
  {
    if s != [] {
      SanitiseUnchangedIff(s[1..]);
      if AllAlnum(s) {
        assert AllAlnum(s[1..]) by {
          forall i | 0 <= i < |s[1..]| ensures IsAlnum(s[1..][i]) {
            assert s[1..][i] == s[i + 1];
          }
        }
        assert s == [s[0]] + s[1..];
      }
    }
  }

  /** Sanitising a logical name again gives the same name. */
  lemma SanitiseIdempotent(s: string)
    ensures Sanitise(Sanitise(s)) == Sanitise(s)
  {
    SanitiseUnchangedIff(Sanitise(s));
  }

  /** Python's `s.split(sep)`: the pieces between separators, empty pieces
      included; never an empty list. */
  function Split(s: string, sep: char): (r: seq<string>)
    ensures |r| >= 1
    ensures forall i :: 0 <= i < |r| ==> sep !in r[i]
  {
    if s == [] then [""]
    else
      var rest := Split(s[1..], sep);
      if s[0] == sep then [""] + rest
      else [[s[0]] + rest[0]] + rest[1..]
  }

  /** `sep.join(pieces)`. */
  function JoinWith(pieces: seq<string>, sep: char): string
  {
    if pieces == [] then ""
    else if |pieces| == 1 then pieces[0]
    else pieces[0] + [sep] + JoinWith(pieces[1..], sep)
  }

  /** Joining the pieces with the separator gives back the string that was split. */
  lemma {:induction false} JoinSplit(s: string, sep: char)
    ensures JoinWith(Split(s, sep), sep) == s
  {
    if s != [] {
      var rest := Split(s[1..], sep);
      JoinSplit(s[1..], sep);
      if s[0] == sep {
        assert ([""] + rest)[1..] == rest;
      } else {
        var r := [[s[0]] + rest[0]] + rest[1..];
        assert r[1..] == rest[1..];
        assert s == [s[0]] + s[1..];
      }
    }
  }

  lemma {:induction false} SplitSeparated(t: string, u: string, sep: char)
    requires sep !in t
    ensures Split(t + [sep] + u, sep) == [t] + Split(u, sep)
  {
    if t == [] {
      assert (t + [sep] + u)[1..] == u;
    } else {
      assert (t + [sep] + u)[1..] == t[1..] + [sep] + u;
      SplitSeparated(t[1..], u, sep);
      assert [t[0]] + t[1..] == t;
    }
  }

  lemma {:induction false} SplitPiece(t: string, sep: char)
    requires sep !in t
    ensures Split(t, sep) == [t]
  {
    if t != [] {
      SplitPiece(t[1..], sep);
      assert [t[0]] + t[1..] == t;
    }
  }

  /** Splitting a join of separator-free pieces gives back the pieces. */
  lemma {:induction false} SplitJoin(pieces: seq<string>, sep: char)
    requires |pieces| >= 1
    requires forall i :: 0 <= i < |pieces| ==> sep !in pieces[i]
    ensures Split(JoinWith(pieces, sep), sep) == pieces
  {
    if |pieces| == 1 {
      SplitPiece(pieces[0], sep);
    } else {
      SplitJoin(pieces[1..], sep);
      SplitSeparated(pieces[0], JoinWith(pieces[1..], sep), sep);
      assert [pieces[0]] + pieces[1..] == pieces;
    }
  }
}
