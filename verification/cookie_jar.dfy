/** The browser's cookie store as far as the consent controller touches it:
    `setCookie` writes a pair with an expiry still ahead, the reset writes one
    already expired, and reading `document.cookie` yields every live pair in
    the `name=value; name=value` form that `GetCookie` parses. */
module CookieJar {
  import opened Wrappers
  import opened CookieString

  datatype Cookie = Cookie(name: string, value: string)

  /** A name the store keeps: non-empty (section 5.2 of RFC 6265 drops a
      nameless pair), with no blank in front, no `;` and no `=`. */
  predicate ValidName(name: string) {
    name != [] && name[0] != ' ' && Separator !in name && '=' !in name
  }

  /** A value never holds the `;` that ends a pair. */
  predicate ValidValue(value: string) {
    Separator !in value
  }

  predicate ValidJar(jar: seq<Cookie>) {
    forall i :: 0 <= i < |jar| ==> ValidName(jar[i].name) && ValidValue(jar[i].value)
  }

  /** The value of the oldest cookie called `name`, if any. */
  function Lookup(jar: seq<Cookie>, name: string): (r: Option<string>)
    ensures r.None? <==> forall i :: 0 <= i < |jar| ==> jar[i].name != name
    decreases |jar|
  {
    if jar == [] then None
    else if jar[0].name == name then Some(jar[0].value)
    else Lookup(jar[1..], name)
  }

  /** Writing `name=value` with an expiry still ahead. Following section 5.3 of
      RFC 6265, a cookie of the same name is replaced in place (it keeps its
      creation time, hence its place in `document.cookie`); otherwise the new
      cookie goes last. */
  function Store(jar: seq<Cookie>, name: string, value: string): (r: seq<Cookie>)
    ensures Lookup(r, name) == Some(value)
    ensures forall other :: other != name ==> Lookup(r, other) == Lookup(jar, other)
    ensures ValidJar(jar) && ValidName(name) && ValidValue(value) ==> ValidJar(r)
    decreases |jar|
  {
    if jar == [] then [Cookie(name, value)]
    else if jar[0].name == name then [Cookie(name, value)] + jar[1..]
    else [jar[0]] + Store(jar[1..], name, value)
  }

  /** Writing `name=` with an expiry in the past: every cookie of that name
      goes away and the rest stay in order. */
  function Evict(jar: seq<Cookie>, name: string): (r: seq<Cookie>)
    ensures Lookup(r, name) == None
    ensures forall other :: other != name ==> Lookup(r, other) == Lookup(jar, other)
    ensures ValidJar(jar) ==> ValidJar(r)
    decreases |jar|
  {
    if jar == [] then []
    else if jar[0].name == name then Evict(jar[1..], name)
    else [jar[0]] + Evict(jar[1..], name)
  }

  /** One cookie as `document.cookie` shows it. */
  function Pair(c: Cookie): string {
    c.name + "=" + c.value
  }

  /** The pieces `Split` finds in `document.cookie`: each pair after the first
      keeps the blank of the `"; "` that precedes it. */
  function Pieces(jar: seq<Cookie>, lead: string): (pieces: seq<string>)
    ensures |pieces| == |jar|
    decreases |jar|
  {
    if jar == [] then [] else [lead + Pair(jar[0])] + Pieces(jar[1..], " ")
  }

  /** Reading `document.cookie`: the pairs in creation order joined by `"; "`
      (section 5.4 of RFC 6265), or the empty string when there are none. */
  function Serialize(jar: seq<Cookie>): string {
    if jar == [] then "" else Join(Pieces(jar, ""))
  }

  /** The blank a piece may carry in front of a valid pair is all that
      trimming removes. */
  lemma TrimPair(c: Cookie, lead: string)
    requires ValidName(c.name)
    requires lead == "" || lead == " "
    ensures TrimLeadingSpaces(lead + Pair(c)) == Pair(c)
  {
    var t := Pair(c);
    assert t[0] == c.name[0];
    assert TrimLeadingSpaces(t) == t;
    if lead == " " {
      assert (lead + t)[1..] == t;
    }
  }

  /** `a=` starts `b=rest` only when `a` is `b`, for names without `=`. */
  lemma PrefixNames(a: string, b: string, rest: string)
    requires '=' !in a && '=' !in b
    requires a + "=" <= b + "=" + rest
    ensures a == b
  {
    var t := b + "=" + rest;
    assert t[|a|] == '=';
    assert forall j :: 0 <= j < |a| ==> t[j] == a[j];
    assert t[|b|] == '=';
    assert forall j :: 0 <= j < |b| ==> t[j] == b[j];
    assert |a| == |b|;
    assert a == t[..|a|];
  }

  /** For a valid pair, the trimmed piece matches exactly its own name and
      yields exactly its own value. */
  lemma PairMatches(c: Cookie, lead: string, name: string)
    requires ValidName(c.name) && '=' !in name
    requires lead == "" || lead == " "
    ensures Matches(lead + Pair(c), name) <==> name == c.name
    ensures name == c.name ==> ValueOf(lead + Pair(c), name) == c.value
  {
    TrimPair(c, lead);
    if name + "=" <= Pair(c) {
      PrefixNames(name, c.name, c.value);
    }
  }

  /** No piece of a valid jar holds a separator. */
  lemma {:induction false} PiecesSeparatorFree(jar: seq<Cookie>, lead: string)
    requires ValidJar(jar) && Separator !in lead
    ensures SeparatorFree(Pieces(jar, lead))
    decreases |jar|
  {
    if jar != [] {
      PiecesSeparatorFree(jar[1..], " ");
      var p := Pieces(jar, lead);
      assert p[0] == lead + jar[0].name + "=" + jar[0].value;
      assert Separator !in p[0];
      assert p[1..] == Pieces(jar[1..], " ");
    }
  }

  /** Scanning the pieces finds the same cookie `Lookup` does. */
  lemma {:induction false} FirstValueOfPieces(jar: seq<Cookie>, lead: string, name: string)
    requires ValidJar(jar) && '=' !in name
    requires lead == "" || lead == " "
    ensures FirstValue(Pieces(jar, lead), name) == Lookup(jar, name)
    decreases |jar|
  {
    if jar != [] {
      PairMatches(jar[0], lead, name);
      var p := Pieces(jar, lead);
      assert p[1..] == Pieces(jar[1..], " ");
      if jar[0].name != name {
        FirstValueOfPieces(jar[1..], " ", name);
      }
    }
  }

  /** `getCookie` over what `document.cookie` shows reads back exactly what the
      store holds, for any name without `=`. */
  lemma ReadBack(jar: seq<Cookie>, name: string)
    requires ValidJar(jar) && '=' !in name
    ensures GetCookie(Serialize(jar), name) == Lookup(jar, name)
  {
    if jar == [] {
      assert Split("") == [""];
      assert !Matches("", name);
    } else {
      PiecesSeparatorFree(jar, "");
      SplitJoin(Pieces(jar, ""));
      FirstValueOfPieces(jar, "", name);
    }
  }
}
