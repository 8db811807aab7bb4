/** `_normalize_phone`: canonicalises a caller's phone number to the German
    international form `+49…`. */
module Phone {
  import opened Types

  const CountryPrefix := "+49"

  /** Python's `str.startswith`. */
  predicate StartsWith(s: string, prefix: string) {
    |prefix| <= |s| && s[..|prefix|] == prefix
  }

  /** The characters Python's `str.isspace` accepts, which `str.strip` removes. */
  predicate IsSpace(c: char) {
    || c == ' ' || c == '\t' || c == '\n' || c == '\r'
    || c == '\U{B}' || c == '\U{C}'
    || ('\U{1C}' <= c <= '\U{1F}')
    || c == '\U{85}' || c == '\U{A0}' || c == '\U{1680}'
    || ('\U{2000}' <= c <= '\U{200A}')
    || c == '\U{2028}' || c == '\U{2029}' || c == '\U{202F}' || c == '\U{205F}' || c == '\U{3000}'
  }

  /** `s.lstrip()`: drops whitespace from the front. */
  function TrimStart(s: string): string {
    if s != [] && IsSpace(s[0]) then TrimStart(s[1..]) else s
  }

  /** `s.rstrip()`: drops whitespace from the back. */
  function TrimEnd(s: string): string {
    if s != [] && IsSpace(s[|s| - 1]) then TrimEnd(s[..|s| - 1]) else s
  }

  /** `s.replace(c, "")`. */
  function Remove(s: string, c: char): string {
    if s == [] then [] else (if s[0] == c then [] else [s[0]]) + Remove(s[1..], c)
  }

  /** `lstrip` keeps the longest suffix that does not start with whitespace. */
  lemma {:induction false} TrimStartSpec(s: string)
    ensures var r := TrimStart(s);
      && |r| <= |s| && r == s[|s| - |r|..]
      && (forall k :: 0 <= k < |s| - |r| ==> IsSpace(s[k]))
      && (r == [] || !IsSpace(r[0]))
  {
    if s != [] && IsSpace(s[0]) {
      var t := s[1..];
      TrimStartSpec(t);
      var r := TrimStart(t);
      assert TrimStart(s) == r;
      assert t[|t| - |r|..] == s[|s| - |r|..];
      forall k | 0 <= k < |s| - |r|
        ensures IsSpace(s[k])
      {
        if k > 0 {
          assert s[k] == t[k - 1];
        }
      }
    }
  }

  /** `rstrip` keeps the longest prefix that does not end with whitespace. */
  lemma {:induction false} TrimEndSpec(s: string)
    ensures var r := TrimEnd(s);
      && |r| <= |s| && r == s[..|r|]
      && (forall k :: |r| <= k < |s| ==> IsSpace(s[k]))
      && (r == [] || !IsSpace(r[|r| - 1]))
  {
    if s != [] && IsSpace(s[|s| - 1]) {
      var t := s[..|s| - 1];
      TrimEndSpec(t);
      var r := TrimEnd(t);
      assert TrimEnd(s) == r;
      assert t[..|r|] == s[..|r|];
      forall k | |r| <= k < |s|
        ensures IsSpace(s[k])
      {
        if k < |t| {
          assert s[k] == t[k];
        }
      }
    }
  }

  /** `replace(c, "")` leaves no `c`, adds no character, and changes nothing
      in a string without `c`. */
  lemma {:induction false} RemoveSpec(s: string, c: char)
    ensures c !in Remove(s, c)
    ensures forall x :: x in Remove(s, c) ==> x in s
    ensures c !in s ==> Remove(s, c) == s
  {
    if s != [] {
      RemoveSpec(s[1..], c);
    }
  }

  /** `s.strip()`: `s` with the whitespace at both ends dropped; it adds no
      character, and it is the identity on a string that has no whitespace
      at either end already. */
  function Strip(s: string): (r: string)
    ensures r == [] || (!IsSpace(r[0]) && !IsSpace(r[|r| - 1]))
    ensures forall c :: c in r ==> c in s
    ensures (s == [] || (!IsSpace(s[0]) && !IsSpace(s[|s| - 1]))) ==> r == s
  {
    var t := TrimStart(s);
    TrimStartSpec(s);
    var r := TrimEnd(t);
    TrimEndSpec(t);
    assert forall c :: c in r ==> c in s by {
      forall c | c in r
        ensures c in s
      {
        var k :| 0 <= k < |r| && r[k] == c;
        assert t[k] == c;
        assert s[|s| - |t| + k] == c;
      }
    }
    assert s == [] || (!IsSpace(s[0]) && !IsSpace(s[|s| - 1])) ==> t == s && r == s;
    r
  }

  /** The `digits` of the source: stripped, with every space and dash removed. */
  function Clean(s: string): (r: string)
    ensures ' ' !in r && '-' !in r
    ensures forall x :: x in r ==> x in Strip(s)
  {
    var t := Remove(Strip(s), ' ');
    RemoveSpec(Strip(s), ' ');
    RemoveSpec(t, '-');
    Remove(t, '-')
  }

  /** Prefixing of the cleaned digits: a `+49` number is kept; otherwise one
      leading `0` gives way to `+49`, and any other number is prefixed whole.
      No character except that one `0` is dropped. */
  function Prefixed(d: string): (r: string)
    ensures StartsWith(r, CountryPrefix)
    ensures StartsWith(d, CountryPrefix) ==> r == d
    ensures !StartsWith(d, CountryPrefix) && !StartsWith(d, "0") ==> r == CountryPrefix + d
    ensures StartsWith(d, "0") && !StartsWith(d[1..], CountryPrefix) ==> r == CountryPrefix + d[1..]
    ensures StartsWith(d, "0") && StartsWith(d[1..], CountryPrefix) ==> r == d[1..]
    ensures forall c :: c in r ==> c in d || c in CountryPrefix
  {
    if StartsWith(d, CountryPrefix) then assert d[0] == '+'; d
    else
      var rest := if StartsWith(d, "0") then d[1..] else d;
      if StartsWith(rest, CountryPrefix) then rest else CountryPrefix + rest
  }

  /** `_normalize_phone`: None and "" come back unchanged; any other input
      becomes a `+49` number without spaces or dashes. */
  function Normalize(phone: Option<string>): (r: Option<string>)
    ensures phone.None? || phone.value == "" ==> r == phone
    ensures phone.Some? && phone.value != "" ==>
              && r.Some?
              && StartsWith(r.value, CountryPrefix)
              && ' ' !in r.value && '-' !in r.value
              && r.value == Prefixed(Clean(phone.value))
  {
    if phone.None? || phone.value == "" then phone
    else Some(Prefixed(Clean(phone.value)))
  }

  /** Removal commutes with concatenation. */
  lemma {:induction false} RemoveAppend(a: string, b: string, c: char)
    ensures Remove(a + b, c) == Remove(a, c) + Remove(b, c)
  {
    if a != [] {
      var head := if a[0] == c then [] else [a[0]];
      assert (a + b)[0] == a[0] && (a + b)[1..] == a[1..] + b;
      assert Remove(a + b, c) == head + Remove(a[1..] + b, c);
      RemoveAppend(a[1..], b, c);
      assert Remove(a, c) == head + Remove(a[1..], c);
    } else {
      assert a + b == b;
    }
  }

  /** Removing `c` from a string made only of `c` leaves nothing. */
  lemma {:induction false} RemoveAll(s: string, c: char)
    requires forall k :: 0 <= k < |s| ==> s[k] == c
    ensures Remove(s, c) == []
  {
    if s != [] {
      RemoveAll(s[1..], c);
    }
  }

  /** Spaces in front disappear when the spaces are removed. */
  lemma DropLeadingSpaces(s: string, n: nat)
    requires n <= |s|
    requires forall k :: 0 <= k < n ==> s[k] == ' '
    ensures Remove(s, ' ') == Remove(s[n..], ' ')
  {
    assert s == s[..n] + s[n..];
    RemoveAll(s[..n], ' ');
    RemoveAppend(s[..n], s[n..], ' ');
  }

  /** Spaces at the back disappear when the spaces are removed. */
  lemma DropTrailingSpaces(s: string, n: nat)
    requires n <= |s|
    requires forall k :: n <= k < |s| ==> s[k] == ' '
    ensures Remove(s, ' ') == Remove(s[..n], ' ')
  {
    assert s == s[..n] + s[n..];
    RemoveAll(s[n..], ' ');
    RemoveAppend(s[..n], s[n..], ' ');
  }

  /** When plain spaces are the only whitespace in `p`, `strip` drops nothing
      that removing the spaces would keep. */
  lemma StripThenRemoveSpaces(p: string)
    requires forall k :: 0 <= k < |p| ==> p[k] == ' ' || !IsSpace(p[k])
    ensures Remove(Strip(p), ' ') == Remove(p, ' ')
  {
    var t := TrimStart(p);
    TrimStartSpec(p);
    var u := TrimEnd(t);
    TrimEndSpec(t);
    assert Strip(p) == u;
    DropLeadingSpaces(p, |p| - |t|);
    forall k | |u| <= k < |t|
      ensures t[k] == ' '
    {
      assert t[k] == p[|p| - |t| + k];
    }
    DropTrailingSpaces(t, |u|);
  }

  /** A `+49` number with no whitespace and no dash is left as it is. */
  lemma CanonicalIsFixed(r: string)
    requires StartsWith(r, CountryPrefix)
    requires forall c :: c in r ==> !IsSpace(c) && c != '-'
    ensures Normalize(Some(r)) == Some(r)
  {
    assert !IsSpace(r[0]) && !IsSpace(r[|r| - 1]);
    assert Strip(r) == r;
    RemoveSpec(r, ' ');
    RemoveSpec(r, '-');
  }

  /** A number made of anything but whitespace other than plain spaces (digits,
      `+`, spaces and dashes, say) is a fixed point after one normalisation. */
  lemma NormalizeIdempotent(p: string)
    requires forall k :: 0 <= k < |p| ==> p[k] == ' ' || !IsSpace(p[k])
    ensures Normalize(Normalize(Some(p))) == Normalize(Some(p))
  {
    if p != "" {
      var d := Clean(p);
      forall c | c in d
        ensures !IsSpace(c) && c != '-'
      {
        assert c in p;
        var k :| 0 <= k < |p| && p[k] == c;
      }
      var r := Prefixed(d);
      forall c | c in r
        ensures !IsSpace(c) && c != '-'
      {
        if c !in d {
          assert c == '+' || c == '4' || c == '9';
        }
      }
      CanonicalIsFixed(r);
    }
  }

  /** Trailing whitespace hidden behind a dash survives the first pass and
      is stripped by the second: `_normalize_phone` is not idempotent on
      every string. */
  lemma TabBeforeDashNotIdempotent()
    ensures Normalize(Some("1\t-")) == Some("+491\t")
    ensures Normalize(Some("+491\t")) == Some("+491")
  {
    DashHidesTab();
    SecondPassStripsTab();
  }

  lemma DashHidesTab()
    ensures Normalize(Some("1\t-")) == Some("+491\t")
  {
    assert Strip("1\t-") == "1\t-" by {}
    assert Remove("1\t-", ' ') == "1\t-" by {}
    assert Remove("1\t-", '-') == "1\t" by {}
    assert Prefixed("1\t") == "+491\t" by {}
  }

  lemma SecondPassStripsTab()
    ensures Normalize(Some("+491\t")) == Some("+491")
  {
    assert Strip("+491\t") == "+491" by {}
    assert Remove("+491", ' ') == "+491" by {}
    assert Remove("+491", '-') == "+491" by {}
  }

  predicate IsDigit(c: char) { '0' <= c <= '9' }

  /** A national number such as "0176 1234567" (digits, spaces and dashes,
      starting with `0`, trailing spaces allowed): the `0` gives way to `+49`
      and every digit is kept, in order. */
  lemma NationalNumber(p: string)
    requires |p| > 0 && p[0] == '0'
    requires forall k :: 0 <= k < |p| ==> IsDigit(p[k]) || p[k] == ' ' || p[k] == '-'
    ensures Normalize(Some(p)) == Some(CountryPrefix + Remove(Remove(p, ' '), '-')[1..])
  {
    forall k | 0 <= k < |p|
      ensures p[k] == ' ' || !IsSpace(p[k])
    {
    }
    StripThenRemoveSpaces(p);
    var t := Remove(p, ' ');
    var d := Remove(t, '-');
    assert Clean(p) == d;
    RemoveKeepsHead(p, ' ');
    RemoveKeepsHead(t, '-');
    forall k | 0 <= k < |p|
      ensures p[k] != '+'
    {
    }
    RemoveSpec(p, ' ');
    RemoveSpec(t, '-');
    assert '+' !in d;
    assert !StartsWith(d[1..], CountryPrefix) by {
      assert |d| > 1 ==> d[1..][0] == d[1];
    }
    assert Prefixed(d) == CountryPrefix + d[1..];
  }

  /** Removing a character keeps a first character that differs from it. */
  lemma RemoveKeepsHead(s: string, c: char)
    requires |s| > 0 && s[0] != c
    ensures |Remove(s, c)| > 0 && Remove(s, c)[0] == s[0]
  {
    assert Remove(s, c) == [s[0]] + Remove(s[1..], c);
  }

}
