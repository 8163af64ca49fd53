/** String scanning shared by the chain-id dispatch and the widget-state format. */
module Text {
  import opened Wrappers

  /** The longest prefix of `s` that does not contain `c`: the first field of `s.split(c)`. */
  function TakeUntil(s: string, c: char): (r: string)
    ensures |r| <= |s| && r == s[..|r|]
    ensures c !in r
    ensures |r| < |s| ==> s[|r|] == c
  {
    if s == [] then []
    else if s[0] == c then []
    else [s[0]] + TakeUntil(s[1..], c)
  }

  /** Splitting `a + [c] + b` at the first `c` gives back `a` when `a` has no `c`. */
  lemma {:induction false} TakeUntilSeparated(a: string, c: char, b: string)
    requires c !in a
    ensures TakeUntil(a + [c] + b, c) == a
  {
    if a != [] {
      assert (a + [c] + b)[1..] == a[1..] + [c] + b;
      TakeUntilSeparated(a[1..], c, b);
    }
  }

  // PrefixSplit, Reassociate and PrependToFour are sequence facts used only as proof hints:
  // calling them keeps the solver from searching for the concatenations on its own.

  lemma {:induction false} PrefixSplit(s: string, p: string)
    requires p <= s
    ensures s == p + s[|p|..]
  {
  }

  lemma {:induction false} Reassociate(s: string, a: string, b: string, c: string, d: string)
    requires s == a + (b + (c + d))
    ensures s == a + b + c + d
  {
  }

  lemma {:induction false} PrependToFour(w: string, p: string, s: string, a: string, b: string, c: string, d: string)
    requires w == p + s && s == a + b + c + d
    ensures w == p + a + b + c + d
  {
  }

  /** A field that runs up to the first double quote and is followed by exactly `sfx`. */
  function ParseLast(s: string, sfx: string): Option<string> {
    var field := TakeUntil(s, '"');
    if s[|field|..] == sfx then Some(field) else None
  }

  /** A field up to the first double quote, then `m`, then a last field and `sfx`. */
  function ParseTwo(s: string, m: string, sfx: string): Option<(string, string)> {
    var first := TakeUntil(s, '"');
    var afterFirst := s[|first|..];
    if !(m <= afterFirst) then None
    else
      match ParseLast(afterFirst[|m|..], sfx)
      case None => None
      case Some(second) => Some((first, second))
  }

  /** Reads the two fields back out of `p + first + m + second + sfx`, each field ending at
      its first double quote. */
  function ParseFields(w: string, p: string, m: string, sfx: string): Option<(string, string)> {
    if p <= w then ParseTwo(w[|p|..], m, sfx) else None
  }

  lemma {:induction false} ParseLastRoundTrip(field: string, sfx: string)
    requires sfx != [] && sfx[0] == '"' && '"' !in field
    ensures ParseLast(field + sfx, sfx) == Some(field)
  {
    assert field + sfx == field + ['"'] + sfx[1..];
    TakeUntilSeparated(field, '"', sfx[1..]);
  }

  lemma {:induction false} ParseLastSound(s: string, sfx: string)
    requires ParseLast(s, sfx).Some?
    ensures s == ParseLast(s, sfx).value + sfx && '"' !in ParseLast(s, sfx).value
  {
    PrefixSplit(s, TakeUntil(s, '"'));
  }

  lemma {:induction false} ParseTwoRoundTrip(first: string, m: string, second: string, sfx: string)
    requires m != [] && m[0] == '"' && sfx != [] && sfx[0] == '"'
    requires '"' !in first && '"' !in second
    ensures ParseTwo(first + m + second + sfx, m, sfx) == Some((first, second))
  {
    var s := first + m + second + sfx;
    assert s == first + ['"'] + (m[1..] + second + sfx);
    TakeUntilSeparated(first, '"', m[1..] + second + sfx);
    var afterFirst := s[|first|..];
    assert afterFirst == m + (second + sfx);
    assert afterFirst[|m|..] == second + sfx;
    ParseLastRoundTrip(second, sfx);
  }

  lemma {:induction false} ParseTwoSound(s: string, m: string, sfx: string)
    requires ParseTwo(s, m, sfx).Some?
    ensures var r := ParseTwo(s, m, sfx).value;
      s == r.0 + m + r.1 + sfx && '"' !in r.0 && '"' !in r.1
  {
    var first := TakeUntil(s, '"');
    var afterFirst := s[|first|..];
    PrefixSplit(s, first);
    var rest := afterFirst[|m|..];
    PrefixSplit(afterFirst, m);
    ParseLastSound(rest, sfx);
    var second := ParseLast(rest, sfx).value;
    assert ParseTwo(s, m, sfx) == Some((first, second));
    Reassociate(s, first, m, second, sfx);
  }

  /** Fields without double quotes are read back exactly. */
  lemma {:induction false} FieldsRoundTrip(p: string, m: string, sfx: string, first: string, second: string)
    requires m != [] && m[0] == '"' && sfx != [] && sfx[0] == '"'
    requires '"' !in first && '"' !in second
    ensures ParseFields(p + first + m + second + sfx, p, m, sfx) == Some((first, second))
  {
    var w := p + first + m + second + sfx;
    assert w == p + (first + m + second + sfx);
    assert w[|p|..] == first + m + second + sfx;
    ParseTwoRoundTrip(first, m, second, sfx);
  }

  /** Whatever ParseFields accepts is put together from what it returns. */
  lemma {:induction false} FieldsSound(w: string, p: string, m: string, sfx: string)
    requires ParseFields(w, p, m, sfx).Some?
    ensures var r := ParseFields(w, p, m, sfx).value;
      w == p + r.0 + m + r.1 + sfx && '"' !in r.0 && '"' !in r.1
  {
    var rest := w[|p|..];
    PrefixSplit(w, p);
    ParseTwoSound(rest, m, sfx);
    var r := ParseTwo(rest, m, sfx).value;
    assert ParseFields(w, p, m, sfx) == Some(r);
    PrependToFour(w, p, rest, r.0, m, r.1, sfx);
  }
}
