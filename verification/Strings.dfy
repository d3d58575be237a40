/** str.strip, startswith and removeprefix. */
module Strings {
  import opened Rows

  predicate IsSpace(c: char) {
    c in {' ', '\t', '\n', '\r'} || (c as int) in {0x0B, 0x0C, 0x1C, 0x1D, 0x1E, 0x1F, 0x85, 0xA0, 0x1680,
      0x2028, 0x2029, 0x202F, 0x205F, 0x3000} || 0x2000 <= c as int <= 0x200A
  }

  function StripLeft(s: string): string {
    if s != "" && IsSpace(s[0]) then StripLeft(s[1..]) else s
  }

  function StripRight(s: string): string {
    if s != "" && IsSpace(s[|s| - 1]) then StripRight(s[..|s| - 1]) else s
  }

  function Strip(s: string): string {
    StripRight(StripLeft(s))
  }

  predicate AllSpace(s: string) {
    forall i :: 0 <= i < |s| ==> IsSpace(s[i])
  }

  lemma {:induction false} StripLeftSplits(s: string)
    ensures exists l :: AllSpace(l) && s == l + StripLeft(s)
    ensures StripLeft(s) != "" ==> !IsSpace(StripLeft(s)[0])
  {
    if s != "" && IsSpace(s[0]) {
      StripLeftSplits(s[1..]);
      var l :| AllSpace(l) && s[1..] == l + StripLeft(s[1..]);
      assert AllSpace([s[0]] + l) && s == ([s[0]] + l) + StripLeft(s);
    } else {
      assert AllSpace("") && s == "" + StripLeft(s);
    }
  }

  lemma {:induction false} StripRightSplits(s: string)
    ensures exists r :: AllSpace(r) && s == StripRight(s) + r
    ensures StripRight(s) != "" ==> !IsSpace(Last(StripRight(s))) && StripRight(s)[0] == s[0]
  {
    if s != "" && IsSpace(s[|s| - 1]) {
      var s' := s[..|s| - 1];
      StripRightSplits(s');
      var r :| AllSpace(r) && s' == StripRight(s') + r;
      assert AllSpace(r + [s[|s| - 1]]) && s == StripRight(s) + (r + [s[|s| - 1]]);
    } else {
      assert AllSpace("") && s == StripRight(s) + "";
    }
  }

  /** Stripping removes white space at both ends, all of it, and nothing else. */
  lemma StripTrims(s: string)
    ensures exists l, r :: AllSpace(l) && AllSpace(r) && s == (l + Strip(s)) + r
    ensures Strip(s) != "" ==> !IsSpace(Strip(s)[0]) && !IsSpace(Last(Strip(s)))
  {
    StripLeftSplits(s);
    StripRightSplits(StripLeft(s));
    var l :| AllSpace(l) && s == l + StripLeft(s);
    var r :| AllSpace(r) && StripLeft(s) == Strip(s) + r;
    assert s == (l + Strip(s)) + r;
  }

  /** A string that neither begins nor ends with white space is its own strip. */
  lemma StripKeeps(s: string)
    requires s != "" ==> !IsSpace(s[0]) && !IsSpace(Last(s))
    ensures Strip(s) == s
  {
  }

  /** White space, code point by code point. */
  lemma WhiteSpace(c: char)
    ensures c as int < 128 ==> (IsSpace(c) <==> 9 <= c as int <= 13 || 28 <= c as int <= 32)
    ensures c as int >= 128 ==>
      (IsSpace(c) <==> c as int in {133, 160, 5760, 8232, 8233, 8239, 8287, 12288} || 8192 <= c as int <= 8202)
  {
  }

  lemma {:induction false} StripLeftPadded(l: string, s: string)
    requires AllSpace(l) && (s != "" ==> !IsSpace(s[0]))
    ensures StripLeft(l + s) == s
  {
    if l == "" {
      assert l + s == s;
    } else {
      assert (l + s)[1..] == l[1..] + s;
      StripLeftPadded(l[1..], s);
    }
  }

  lemma {:induction false} StripRightPadded(s: string, r: string)
    requires AllSpace(r) && (s != "" ==> !IsSpace(Last(s)))
    ensures StripRight(s + r) == s
  {
    if r == "" {
      assert s + r == s;
    } else {
      assert (s + r)[..|s + r| - 1] == s + r[..|r| - 1];
      StripRightPadded(s, r[..|r| - 1]);
    }
  }

  /** Any padding is stripped, and the rest is left. */
  lemma StripPadded(l: string, s: string, r: string)
    requires AllSpace(l) && AllSpace(r) && s != "" && !IsSpace(s[0]) && !IsSpace(Last(s))
    ensures Strip((l + s) + r) == s
  {
    assert (l + s) + r == l + (s + r);
    StripLeftPadded(l, s + r);
    StripRightPadded(s, r);
  }

  /** Padding around a prefix and around what follows it. */
  lemma StripPrefixed(l: string, prefix: string, m: string, s: string, r: string)
    requires AllSpace(l) && AllSpace(m) && AllSpace(r)
    requires prefix != "" && !IsSpace(prefix[0]) && s != "" && !IsSpace(s[0]) && !IsSpace(Last(s))
    ensures var name := (prefix + m) + s;
      && Strip((l + name) + r) == name == Strip(name)
      && prefix <= name && Strip(name[|prefix|..]) == s
  {
    var name := (prefix + m) + s;
    assert name[0] == prefix[0] && Last(name) == Last(s);
    StripPadded(l, name, r);
    StripKeeps(name);
    assert name[|prefix|..] == (m + s) + "";
    StripPadded(m, s, "");
  }

  lemma StripsToNothing(s: string)
    ensures Strip(s) == "" <==> AllSpace(s)
  {
    if Strip(s) == "" {
      StripTrims(s);
      var l, r :| AllSpace(l) && AllSpace(r) && s == (l + Strip(s)) + r;
      assert s == l + r;
    } else if AllSpace(s) {
      assert s + "" == s;
      StripLeftPadded(s, "");
    }
  }

  lemma StripIdempotent(s: string)
    ensures Strip(Strip(s)) == Strip(s)
  {
    StripTrims(s);
    StripKeeps(Strip(s));
  }

  predicate StartsWith(s: string, prefix: string) {
    prefix <= s
  }

  function RemovePrefix(s: string, prefix: string): string {
    if StartsWith(s, prefix) then s[|prefix|..] else s
  }
}
