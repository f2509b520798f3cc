/** Trimming and lower-casing of ASCII text, as both services normalise logins and emails. */
module Text {
  function IsSpace(c: char): bool { c == ' ' || 9 <= c as int <= 13 }

  function LowerChar(c: char): (d: char)
    ensures IsSpace(d) <==> IsSpace(c)
    ensures d == '@' <==> c == '@'
  {
    if 'A' <= c <= 'Z' then (c as int + 32) as char else c
  }

  function Lower(s: string): (r: string)
    ensures |r| == |s| && forall i :: 0 <= i < |s| ==> r[i] == LowerChar(s[i])
  {
    seq(|s|, i requires 0 <= i < |s| => LowerChar(s[i]))
  }

  predicate Trimmed(s: string) {
    s == "" || (!IsSpace(s[0]) && !IsSpace(s[|s| - 1]))
  }

  function TrimLeft(s: string): (r: string)
    ensures r == "" || !IsSpace(r[0])
    ensures s == "" || IsSpace(s[0]) || r == s
    ensures '@' in r <==> '@' in s
  {
    if s != "" && IsSpace(s[0]) then assert s == [s[0]] + s[1..]; TrimLeft(s[1..]) else s
  }

  function TrimRight(s: string): (r: string)
    ensures r == "" || !IsSpace(r[|r| - 1])
    ensures s == "" || IsSpace(s[|s| - 1]) || r == s
    ensures |r| <= |s| && r == s[..|r|]
    ensures '@' in r <==> '@' in s
  {
    if s != "" && IsSpace(s[|s| - 1]) then assert s == s[..|s| - 1] + [s[|s| - 1]]; TrimRight(s[..|s| - 1]) else s
  }

  function Trim(s: string): (r: string)
    ensures Trimmed(r) && (Trimmed(s) ==> r == s)
    ensures '@' in r <==> '@' in s
  {
    TrimRight(TrimLeft(s))
  }

  function Normalize(s: string): (r: string)
    ensures Normalized(r)
  {
    LowerKeepsShape(Trim(s));
    LowerTwice(Trim(s));
    Lower(Trim(s))
  }

  predicate Normalized(s: string) { Trimmed(s) && Lower(s) == s }

  lemma LowerKeepsShape(s: string)
    ensures Trimmed(Lower(s)) <==> Trimmed(s)
    ensures '@' in Lower(s) <==> '@' in s
  {
    if i :| 0 <= i < |s| && s[i] == '@' { assert Lower(s)[i] == '@'; }
    if i :| 0 <= i < |s| && Lower(s)[i] == '@' { assert s[i] == '@'; }
  }

  lemma LowerTwice(s: string)
    ensures Lower(Lower(s)) == Lower(s)
  {
  }

  // The stored texts are exactly the fixed points of normalising.
  lemma NormalizedIffFixed(s: string)
    ensures Normalized(s) <==> Normalize(s) == s
  {
  }

  lemma NormalizeTrimmed(s: string)
    ensures Normalize(Trim(s)) == Normalize(s)
    ensures '@' in Normalize(s) <==> '@' in s
    ensures Normalize(s) == "" <==> Trim(s) == ""
  {
    LowerKeepsShape(Trim(s));
  }

  // A normalised text with a fixed lower-case frame around it is normalised.
  lemma NormalizedFrame(prefix: string, s: string, suffix: string)
    requires Normalized(s) && Normalized(prefix) && Normalized(suffix) && prefix != "" && (s + suffix != "")
    ensures Normalized(prefix + s + suffix)
  {
    var t := prefix + s + suffix;
    forall i | 0 <= i < |t| ensures LowerChar(t[i]) == t[i] {
      if i < |prefix| {
        assert Lower(prefix)[i] == prefix[i];
      } else if i < |prefix| + |s| {
        assert Lower(s)[i - |prefix|] == s[i - |prefix|];
      } else {
        assert Lower(suffix)[i - |prefix| - |s|] == suffix[i - |prefix| - |s|];
      }
    }
  }

  // ---- What normalising identifies ----

  // Tab, line feed, vertical tab, form feed, carriage return and space.
  predicate Blanks(s: string) { forall i :: 0 <= i < |s| ==> s[i] as int in {9, 10, 11, 12, 13, 32} }

  // The same character, or the two cases of one ASCII letter.
  predicate SameLetter(c: char, d: char) {
    c == d || ('A' <= c <= 'Z' && d as int - c as int == 32) || ('A' <= d <= 'Z' && c as int - d as int == 32)
  }

  predicate SameLetters(s: string, t: string) {
    |s| == |t| && forall i :: 0 <= i < |s| ==> SameLetter(s[i], t[i])
  }

  lemma LowerIff(s: string, t: string)
    ensures Lower(s) == Lower(t) <==> SameLetters(s, t)
  {
    if SameLetters(s, t) {
      assert forall i :: 0 <= i < |s| ==> Lower(s)[i] == Lower(t)[i];
    }
    if Lower(s) == Lower(t) {
      forall i | 0 <= i < |s| ensures SameLetter(s[i], t[i]) { assert Lower(s)[i] == Lower(t)[i]; }
    }
  }

  lemma {:induction false} TrimLeftSkips(l: string, s: string)
    requires Blanks(l)
    ensures TrimLeft(l + s) == TrimLeft(s)
  {
    if l == "" {
      assert l + s == s;
    } else {
      assert (l + s)[1..] == l[1..] + s;
      TrimLeftSkips(l[1..], s);
    }
  }

  lemma {:induction false} TrimRightSkips(s: string, r: string)
    requires Blanks(r)
    ensures TrimRight(s + r) == TrimRight(s)
  {
    if r == "" {
      assert s + r == s;
    } else {
      assert (s + r)[..|s + r| - 1] == s + r[..|r| - 1];
      TrimRightSkips(s, r[..|r| - 1]);
    }
  }

  lemma {:induction false} TrimLeftSplits(s: string) returns (l: string)
    ensures Blanks(l) && s == l + TrimLeft(s)
  {
    l := "";
    if s != "" && IsSpace(s[0]) {
      l := TrimLeftSplits(s[1..]);
      l := [s[0]] + l;
    }
  }

  lemma {:induction false} TrimRightSplits(s: string) returns (r: string)
    ensures Blanks(r) && s == TrimRight(s) + r
  {
    r := "";
    if s != "" && IsSpace(s[|s| - 1]) {
      r := TrimRightSplits(s[..|s| - 1]);
      r := r + [s[|s| - 1]];
    }
  }

  lemma TrimmedPad(t: string, r: string)
    requires Blanks(r) && Trim(t) == t
    ensures TrimRight(TrimLeft(t + r)) == t
  {
    if t == "" {
      assert t + r == r == r + "";
      TrimLeftSkips(r, "");
    } else {
      assert Trimmed(t) && (t + r)[0] == t[0];
      TrimRightSkips(t, r);
    }
  }

  lemma TrimPadded(l: string, t: string, r: string)
    requires Blanks(l) && Blanks(r) && Trim(t) == t
    ensures Trim(l + t + r) == t
  {
    assert l + t + r == l + (t + r);
    TrimLeftSkips(l, t + r);
    TrimmedPad(t, r);
  }

  lemma TrimSplits(s: string) returns (l: string, r: string)
    ensures Blanks(l) && Blanks(r) && s == l + Trim(s) + r
  {
    l := TrimLeftSplits(s);
    r := TrimRightSplits(TrimLeft(s));
    hide TrimLeft, TrimRight, Blanks;
    assert s == l + (Trim(s) + r) == l + Trim(s) + r;
  }

  // Trimming takes all blanks off both ends and nothing else.
  lemma TrimIff(s: string, t: string)
    ensures Trim(s) == t <==> exists l, r :: Blanks(l) && Blanks(r) && s == l + t + r && Trim(t) == t
  {
    hide TrimLeft, TrimRight, Blanks;
    if Trim(s) == t {
      var l, r := TrimSplits(s);
      TrimTwice(s);
    }
    if l, r :| Blanks(l) && Blanks(r) && s == l + t + r && Trim(t) == t {
      TrimPadded(l, t, r);
    }
  }

  lemma TrimTwice(s: string)
    ensures Trim(Trim(s)) == Trim(s)
  {
    hide TrimLeft, TrimRight;
  }

  // Two texts normalise alike exactly if they are the same up to blanks around and case.
  lemma NormalizeIff(s: string, t: string)
    ensures Normalize(s) == Normalize(t) <==> SameLetters(Trim(s), Trim(t))
  {
    LowerIff(Trim(s), Trim(t));
  }

  // So any spelling of a text, in any case and with any blanks around it, normalises like it.
  lemma SpellingsNormalizeAlike(l: string, v: string, r: string, s: string)
    requires Blanks(l) && Blanks(r) && SameLetters(v, Trim(s))
    ensures Normalize(l + v + r) == Normalize(s)
  {
    assert Trimmed(v);
    TrimPadded(l, v, r);
    NormalizeIff(l + v + r, s);
  }
}
