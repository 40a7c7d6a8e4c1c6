/** The "quick and dirty" hostname test of `dnsResolve`: the argument is split with glib's
    `g_strsplit_set` on a fixed set of URL metacharacters, and more than one piece marks it
    as something other than a bare host name. */
module Hostname {

  /** The delimiter set passed to `g_strsplit_set` by `dnsresolve`. Note that neither `/`
      nor `.` is in it, and of the white-space characters only the blank. */
  const Delimiters: set<char> :=
    {':', '%', '?', '!', ',', ';', '@', '\\', '\'', '*', '|', '<', '>', '{', '}',
     '[', ']', '(', ')', '+', '=', '$', '&', '~', '#', ' ', '\"'}

  predicate HasDelimiter(s: string)
  {
    exists i :: 0 <= i < |s| && s[i] in Delimiters
  }

  function DelimiterCount(s: string): nat
  {
    if s == [] then 0 else (if s[0] in Delimiters then 1 else 0) + DelimiterCount(s[1..])
  }

  /** `s` with every delimiter removed. */
  function Strip(s: string): string
  {
    if s == [] then [] else (if s[0] in Delimiters then [] else [s[0]]) + Strip(s[1..])
  }

  function Concat(pieces: seq<string>): string
  {
    if pieces == [] then [] else pieces[0] + Concat(pieces[1..])
  }

  /** The pieces of a non-empty string: every delimiter ends one piece and starts the
      next, so adjacent delimiters yield empty pieces. */
  function Pieces(s: string): (r: seq<string>)
    ensures |r| == DelimiterCount(s) + 1
    ensures forall i :: 0 <= i < |r| ==> !HasDelimiter(r[i])
  {
    if s == [] then [[]]
    else
      var rest := Pieces(s[1..]);
      if s[0] in Delimiters then [[]] + rest
      else
        assert !HasDelimiter([s[0]] + rest[0]) by {
          assert !HasDelimiter(rest[0]);
          forall i | 0 <= i < |[s[0]] + rest[0]|
            ensures ([s[0]] + rest[0])[i] !in Delimiters
          {
            if i > 0 { assert ([s[0]] + rest[0])[i] == rest[0][i - 1]; }
          }
        }
        [[s[0]] + rest[0]] + rest[1..]
  }

  /** `g_strsplit_set(s, Delimiters, -1)`: no token limit, and no pieces at all for the
      empty string. */
  function SplitSet(s: string): (r: seq<string>)
    ensures s == [] ==> r == []
    ensures s != [] ==> |r| == DelimiterCount(s) + 1
  {
    if s == [] then [] else Pieces(s)
  }

  /** The guard of `dnsresolve`: more than one piece means a bad host name. */
  predicate IsBadHostname(host: string)
  {
    |SplitSet(host)| > 1
  }

  lemma {:induction false} DelimiterCountPositive(s: string)
    ensures DelimiterCount(s) > 0 <==> HasDelimiter(s)
  {
    if s != [] {
      DelimiterCountPositive(s[1..]);
      if HasDelimiter(s[1..]) {
        var i :| 0 <= i < |s[1..]| && s[1..][i] in Delimiters;
        assert s[i + 1] in Delimiters;
      }
      if HasDelimiter(s) && s[0] !in Delimiters {
        var i :| 0 <= i < |s| && s[i] in Delimiters;
        assert s[1..][i - 1] in Delimiters;
      }
    }
  }

  /** The guard rejects a name exactly when one of its characters is a delimiter. */
  lemma BadHostnameIff(host: string)
    ensures IsBadHostname(host) <==> HasDelimiter(host)
  {
    DelimiterCountPositive(host);
  }

  /** Nothing but the delimiters is lost in the split: the pieces put back together are
      the input without its delimiters. */
  lemma {:induction false} PiecesConcat(s: string)
    ensures Concat(Pieces(s)) == Strip(s)
  {
    if s != [] {
      PiecesConcat(s[1..]);
      var rest := Pieces(s[1..]);
      if s[0] in Delimiters {
        assert Pieces(s)[1..] == rest;
      } else {
        var r := Pieces(s);
        assert r[1..] == rest[1..];
        assert Concat(rest) == rest[0] + Concat(rest[1..]);
        assert Concat(r) == ([s[0]] + rest[0]) + Concat(rest[1..]);
      }
    }
  }

  /** A name without delimiters is a single piece, itself. */
  lemma {:induction false} SplitWithoutDelimiter(s: string)
    requires s != [] && !HasDelimiter(s)
    ensures SplitSet(s) == [s]
  {
    if |s| > 1 {
      assert !HasDelimiter(s[1..]) by {
        forall i | 0 <= i < |s[1..]| ensures s[1..][i] !in Delimiters {
          assert s[1..][i] == s[i + 1];
        }
      }
      SplitWithoutDelimiter(s[1..]);
      assert [s[0]] + s[1..] == s;
    } else {
      assert s[0] !in Delimiters;
      var rest := Pieces(s[1..]);
      assert s[1..] == [] && rest == [[]];
      assert [s[0]] + rest[0] == [s[0]] == s;
      assert SplitSet(s) == Pieces(s) == [[s[0]] + rest[0]] + rest[1..];
    }
  }

  /** A full URL is rejected (it holds `:` and `?`). */
  lemma UrlRejected()
    ensures IsBadHostname("http://example.com/x?y=1")
  {
  }

  /** A bare host name is accepted. */
  lemma HostnameAccepted()
    ensures !IsBadHostname("example.com")
  {
    var h := "example.com";
    assert forall c :: c in h ==> c !in Delimiters;
    assert !HasDelimiter(h) by {
      forall i | 0 <= i < |h| ensures h[i] !in Delimiters {
        assert h[i] in h;
      }
    }
    BadHostnameIff(h);
  }

  /** A host name followed by a path is accepted as well, since `/` is not a delimiter. */
  lemma PathAccepted()
    ensures !IsBadHostname("example.com/x")
  {
    var h := "example.com/x";
    assert forall c :: c in h ==> c !in Delimiters;
    assert !HasDelimiter(h) by {
      forall i | 0 <= i < |h| ensures h[i] !in Delimiters {
        assert h[i] in h;
      }
    }
    BadHostnameIff(h);
  }
}
