/** src/utils/getToken.ts: the bearer token of a request, which `body.token` overrides. */
module Tokens {
  import opened Wrappers
  import opened Http

  const BearerPrefix := "Bearer "

  /** `s.split(" ")`: the pieces between single spaces, empty pieces included. */
  function Split(s: string): (r: seq<string>)
    ensures |r| >= 1
    ensures forall i :: 0 <= i < |r| ==> ' ' !in r[i]
  {
    if s == [] then [""]
    else if s[0] == ' ' then [""] + Split(s[1..])
    else
      var rest := Split(s[1..]);
      [[s[0]] + rest[0]] + rest[1..]
  }

  /** `pieces.join(" ")`. */
  function JoinWithSpace(pieces: seq<string>): string
    requires |pieces| >= 1
  {
    if |pieces| == 1 then pieces[0] else pieces[0] + " " + JoinWithSpace(pieces[1..])
  }

  /** Joining the pieces again gives back the string that was split. */
  lemma {:induction false} JoinSplit(s: string)
    ensures JoinWithSpace(Split(s)) == s
  {
    if s != [] {
      JoinSplit(s[1..]);
      var rest := Split(s[1..]);
      if s[0] == ' ' {
        assert Split(s) == [""] + rest;
        assert JoinWithSpace(Split(s)) == "" + " " + JoinWithSpace(rest);
      } else if |rest| == 1 {
        assert JoinWithSpace(Split(s)) == [s[0]] + rest[0];
      } else {
        assert JoinWithSpace(rest) == rest[0] + " " + JoinWithSpace(rest[1..]);
        assert Split(s)[1..] == rest[1..];
        assert JoinWithSpace(Split(s)) == ([s[0]] + rest[0]) + " " + JoinWithSpace(rest[1..]);
      }
    }
  }

  /** A word without spaces followed by a space splits off as the first piece. */
  lemma {:induction false} SplitAfterWord(word: string, tail: string)
    requires ' ' !in word
    ensures Split(word + " " + tail) == [word] + Split(tail)
  {
    if word == [] {
      assert word + " " + tail == [' '] + tail;
    } else {
      var s := word + " " + tail;
      assert s[1..] == word[1..] + " " + tail;
      SplitAfterWord(word[1..], tail);
      assert [s[0]] + word[1..] == word;
    }
  }

  /** A word without spaces splits into itself alone. */
  lemma {:induction false} SplitWord(word: string)
    requires ' ' !in word
    ensures Split(word) == [word]
  {
    if word != [] {
      SplitWord(word[1..]);
      assert [word[0]] + word[1..] == word;
    }
  }

  /** Splitting pieces that hold no space, once joined, gives the pieces back. */
  lemma {:induction false} SplitJoin(pieces: seq<string>)
    requires |pieces| >= 1
    requires forall i :: 0 <= i < |pieces| ==> ' ' !in pieces[i]
    ensures Split(JoinWithSpace(pieces)) == pieces
  {
    if |pieces| == 1 {
      SplitWord(pieces[0]);
    } else {
      SplitJoin(pieces[1..]);
      SplitAfterWord(pieces[0], JoinWithSpace(pieces[1..]));
      assert pieces == [pieces[0]] + pieces[1..];
    }
  }

  /** The first piece is the text up to the first space, or all of it when there is none. */
  lemma {:induction false} FirstPieceIsFirstWord(s: string)
    ensures Split(s)[0] <= s
    ensures |Split(s)[0]| == |s| || s[|Split(s)[0]|] == ' '
  {
    if s != [] && s[0] != ' ' {
      FirstPieceIsFirstWord(s[1..]);
    }
  }

  /**
   * `authHeader && authHeader.startsWith("Bearer ")`, case-sensitive: the
   * header is present and its first seven characters are "Bearer ".
   */
  predicate IsBearer(authorization: Option<string>)
    ensures IsBearer(authorization) <==>
      authorization.Some? && |authorization.value| >= 7 && authorization.value[..7] == "Bearer "
  {
    authorization.Some? && BearerPrefix <= authorization.value
  }

  /** `authHeader.split(" ")[1]` for a header that starts with "Bearer ". */
  function HeaderToken(header: string): (t: string)
    requires BearerPrefix <= header
    ensures t == Split(header[|BearerPrefix|..])[0]
  {
    var rest := header[|BearerPrefix|..];
    assert header == "Bearer" + " " + rest;
    SplitAfterWord("Bearer", rest);
    Split(header)[1]
  }

  /** `getToken(req)`; None stands for `null`. */
  function GetToken(authorization: Option<string>, bodyToken: Option<string>): (r: Option<string>)
    ensures Truthy(bodyToken) ==> r == bodyToken
    ensures !Truthy(bodyToken) && IsBearer(authorization) ==> r == Some(Split(authorization.value[|BearerPrefix|..])[0])
    ensures r.None? <==> !Truthy(bodyToken) && !IsBearer(authorization)
  {
    var fromHeader := if IsBearer(authorization) then Some(HeaderToken(authorization.value)) else None;
    if Truthy(bodyToken) then bodyToken else fromHeader
  }

  /**
   * The header token is the first space-separated word after "Bearer ":
   * it holds no space, begins the rest of the header, and ends at a space
   * or at the end.
   */
  lemma BearerTokenIsFirstWord(rest: string, bodyToken: Option<string>)
    requires !Truthy(bodyToken)
    ensures var t := GetToken(Some(BearerPrefix + rest), bodyToken);
      && t.Some?
      && ' ' !in t.value
      && t.value <= rest
      && (|t.value| == |rest| || rest[|t.value|] == ' ')
  {
    assert (BearerPrefix + rest)[|BearerPrefix|..] == rest;
    FirstPieceIsFirstWord(rest);
  }

  /** "Bearer a b" gives "a". */
  lemma TwoWordHeader()
    ensures GetToken(Some("Bearer a b"), None) == Some("a")
  {
    assert "Bearer a b"[|BearerPrefix|..] == "a" + " " + "b";
    SplitAfterWord("a", "b");
  }

  /** "Bearer " gives the empty string, which is a token but not a truthy one. */
  lemma EmptyBearerHeader()
    ensures GetToken(Some("Bearer "), None) == Some("")
  {
    assert "Bearer "[|BearerPrefix|..] == "";
  }

  /** The prefix test is case-sensitive: "bearer x" is not a bearer header. */
  lemma LowerCaseBearerIsIgnored()
    ensures GetToken(Some("bearer x"), None) == None
  {
    assert "bearer x"[0] != BearerPrefix[0];
  }

  /** An empty `body.token` is falsy, so it leaves the header token in place. */
  lemma EmptyBodyTokenDoesNotOverride(authorization: Option<string>)
    ensures GetToken(authorization, Some("")) == GetToken(authorization, None)
  {
  }
}
