/** The read side of `document.cookie`: the `getCookie` helper, which scans a
    `name=value; name=value` string (the cookie-string shape of section 4.2.1 of
    RFC 6265) for the first pair with a given name. */
module CookieString {
  import opened Wrappers

  /** The one character `getCookie` splits the cookie string on. */
  const Separator: char := ';'

  /** The pieces put back together, one separator between neighbours. */
  function Join(pieces: seq<string>): string
    requires |pieces| >= 1
    decreases |pieces|
  {
    if |pieces| == 1 then pieces[0] else pieces[0] + [Separator] + Join(pieces[1..])
  }

  /** No piece holds a separator, as every piece `Split` returns. */
  predicate SeparatorFree(pieces: seq<string>) {
    forall i :: 0 <= i < |pieces| ==> Separator !in pieces[i]
  }

  /** `s.split(';')`: the maximal runs between separators, so an empty string
      gives one empty piece and a string of k separators gives k + 1 pieces. */
  function Split(s: string): (pieces: seq<string>)
    ensures |pieces| >= 1
    ensures SeparatorFree(pieces)
    ensures Join(pieces) == s
    decreases |s|
  {
    if s == [] then [[]]
    else
      var rest := Split(s[1..]);
      if s[0] == Separator then
        assert ([[]] + rest)[1..] == rest;
        [[]] + rest
      else
        var pieces := [[s[0]] + rest[0]] + rest[1..];
        assert pieces[1..] == rest[1..];
        pieces
  }

  /** A separator-free prefix lands in the first piece. */
  lemma {:induction false} SplitPrefix(x: string, s: string)
    requires Separator !in x
    ensures Split(x + s) == [x + Split(s)[0]] + Split(s)[1..]
    decreases |x|
  {
    if x == [] {
      assert x + s == s;
      assert Split(s) == [Split(s)[0]] + Split(s)[1..];
      assert x + Split(s)[0] == Split(s)[0];
    } else {
      assert (x + s)[1..] == x[1..] + s;
      SplitPrefix(x[1..], s);
      assert [x[0]] + (x[1..] + Split(s)[0]) == x + Split(s)[0];
    }
  }

  /** `Split` undoes `Join` on separator-free pieces, so the two are inverse. */
  lemma {:induction false} SplitJoin(pieces: seq<string>)
    requires |pieces| >= 1 && SeparatorFree(pieces)
    ensures Split(Join(pieces)) == pieces
    decreases |pieces|
  {
    if |pieces| == 1 {
      SplitPrefix(pieces[0], []);
      assert pieces[0] + [] == pieces[0];
    } else {
      var tail := Join(pieces[1..]);
      SplitJoin(pieces[1..]);
      assert Split([Separator] + tail) == [[]] + Split(tail) by {
        assert ([Separator] + tail)[1..] == tail;
      }
      SplitPrefix(pieces[0], [Separator] + tail);
      assert pieces[0] + [Separator] + tail == pieces[0] + ([Separator] + tail);
      assert pieces[0] + [] == pieces[0];
      assert pieces == [pieces[0]] + pieces[1..];
    }
  }

  /** The `while (c.charAt(0) === ' ')` loop: drops the leading blanks (and only
      blanks, not other white space) of one piece. */
  function TrimLeadingSpaces(c: string): string
    decreases |c|
  {
    if c != [] && c[0] == ' ' then TrimLeadingSpaces(c[1..]) else c
  }

  /** Trimming keeps a suffix of the piece, drops only blanks, and stops at the
      first character that is not a blank. */
  lemma {:induction false} TrimDropsBlanks(c: string)
    ensures var t := TrimLeadingSpaces(c);
            |t| <= |c| && t == c[|c| - |t|..] &&
            (forall i :: 0 <= i < |c| - |t| ==> c[i] == ' ') &&
            (t == [] || t[0] != ' ')
    decreases |c|
  {
    if c != [] && c[0] == ' ' {
      TrimDropsBlanks(c[1..]);
      var t := TrimLeadingSpaces(c);
      assert t == TrimLeadingSpaces(c[1..]);
      assert forall i :: 1 <= i < |c| - |t| ==> c[i] == c[1..][i - 1];
    }
  }

  /** `c.indexOf(name + "=") === 0` on the trimmed piece: the index of the first
      occurrence is 0 exactly when `name=` is a prefix. */
  predicate Matches(piece: string, name: string) {
    name + "=" <= TrimLeadingSpaces(piece)
  }

  /** `c.substring(nameEQ.length, c.length)`: what follows `name=`. */
  function ValueOf(piece: string, name: string): string
    requires Matches(piece, name)
  {
    TrimLeadingSpaces(piece)[|name| + 1..]
  }

  /** No piece matches `name`. */
  predicate NoMatch(pieces: seq<string>, name: string) {
    forall i :: 0 <= i < |pieces| ==> !Matches(pieces[i], name)
  }

  /** The index of the first piece whose trimmed form starts with `name=`,
      or the number of pieces when there is none. */
  function FirstMatchIndex(pieces: seq<string>, name: string): (k: nat)
    ensures k <= |pieces|
    ensures forall j :: 0 <= j < k ==> !Matches(pieces[j], name)
    ensures k < |pieces| ==> Matches(pieces[k], name)
    decreases |pieces|
  {
    if pieces == [] || Matches(pieces[0], name) then 0
    else
      var rest := pieces[1..];
      var k := FirstMatchIndex(rest, name);
      assert forall j :: 1 <= j <= k ==> pieces[j] == rest[j - 1];
      1 + k
  }

  /** The `for` loop of `getCookie`: the value of the first matching piece,
      or nothing when no piece matches. */
  function FirstValue(pieces: seq<string>, name: string): (r: Option<string>)
    ensures r.None? <==> NoMatch(pieces, name)
    ensures var k := FirstMatchIndex(pieces, name);
            r == if k == |pieces| then None else Some(ValueOf(pieces[k], name))
    decreases |pieces|
  {
    if pieces == [] then None
    else if Matches(pieces[0], name) then Some(ValueOf(pieces[0], name))
    else FirstValue(pieces[1..], name)
  }

  /** `getCookie(name)` over the cookie string: `None` stands for `null`. */
  function GetCookie(cookie: string, name: string): (r: Option<string>)
    ensures r.None? <==> NoMatch(Split(cookie), name)
    ensures var pieces := Split(cookie);
            var k := FirstMatchIndex(pieces, name);
            r == if k == |pieces| then None else Some(ValueOf(pieces[k], name))
  {
    var pieces := Split(cookie);
    FirstValue(pieces, name)
  }
}
