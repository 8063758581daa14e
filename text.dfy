/** String helpers with the meaning Python gives them: `str.strip()` and `in`/`str.contains`. */
module Text {

  /** The ASCII whitespace characters that `str.strip()` removes. */
  predicate IsSpace(c: char)
  {
    c == ' ' || c == '\t' || c == '\n' || c == '\r' || c == '\U{B}' || c == '\U{C}'
  }

  predicate AllSpace(s: string)
  {
    forall k :: 0 <= k < |s| ==> IsSpace(s[k])
  }

  function TrimStart(s: string): string
  {
    if |s| > 0 && IsSpace(s[0]) then TrimStart(s[1..]) else s
  }

  function TrimEnd(s: string): string
  {
    if |s| > 0 && IsSpace(s[|s| - 1]) then TrimEnd(s[..|s| - 1]) else s
  }

  /** `str.strip()`: `s` without its leading and trailing whitespace. */
  function Strip(s: string): string
  {
    TrimEnd(TrimStart(s))
  }

  /** `TrimStart` drops a run of `n` leading whitespace characters and stops at a non-space. */
  lemma {:induction false} TrimStartShape(s: string)
    ensures var r := TrimStart(s); var n := |s| - |r|;
      && 0 <= n <= |s| && r == s[n..] && AllSpace(s[..n])
      && (r == [] || !IsSpace(r[0]))
  {
    if |s| > 0 && IsSpace(s[0]) {
      var tail := s[1..];
      TrimStartShape(tail);
      var r := TrimStart(tail);
      var n := |tail| - |r|;
      assert tail[n..] == s[n + 1..];
      forall k | 0 <= k < n + 1 ensures IsSpace(s[k]) {
        if k > 0 {
          assert s[k] == tail[..n][k - 1];
        }
      }
      assert AllSpace(s[..n + 1]);
    } else {
      assert s[0..] == s;
    }
  }

  /** `TrimEnd` drops a run of trailing whitespace and stops at a non-space. */
  lemma {:induction false} TrimEndShape(s: string)
    ensures var r := TrimEnd(s);
      && |r| <= |s| && r == s[..|r|] && AllSpace(s[|r|..])
      && (r == [] || !IsSpace(r[|r| - 1]))
  {
    if |s| > 0 && IsSpace(s[|s| - 1]) {
      var init := s[..|s| - 1];
      TrimEndShape(init);
      var r := TrimEnd(init);
      assert init[..|r|] == s[..|r|];
      forall k | |r| <= k < |s| ensures IsSpace(s[k]) {
        if k < |s| - 1 {
          assert s[k] == init[|r|..][k - |r|];
        }
      }
      assert forall k :: 0 <= k < |s[|r|..]| ==> s[|r|..][k] == s[|r| + k];
    } else {
      assert s[..|s|] == s;
    }
  }

  /** `Strip` removes exactly a run of whitespace at each end and nothing else. */
  lemma StripShape(s: string)
    ensures var r := Strip(s);
      (r == [] || (!IsSpace(r[0]) && !IsSpace(r[|r| - 1])))
      && exists i, j :: 0 <= i <= j <= |s| && r == s[i..j] && AllSpace(s[..i]) && AllSpace(s[j..])
  {
    var t := TrimStart(s);
    TrimStartShape(s);
    var i := |s| - |t|;
    var r := TrimEnd(t);
    TrimEndShape(t);
    var j := i + |r|;
    assert r == s[i..j];
    assert s[j..] == t[|r|..];
    assert r != [] ==> r[0] == t[0];
  }

  /** A string that neither starts nor ends with whitespace is left alone by `Strip`. */
  lemma StripUnpadded(s: string)
    requires s != [] && !IsSpace(s[0]) && !IsSpace(s[|s| - 1])
    ensures Strip(s) == s
  {
  }

  /** `sub in s`: `sub` occurs somewhere in `s` as a contiguous substring. */
  predicate Contains(s: string, sub: string)
  {
    exists i :: 0 <= i <= |s| && sub <= s[i..]
  }

  lemma ContainsInside(a: string, sub: string, b: string)
    ensures Contains(a + sub + b, sub)
  {
    assert (a + sub + b)[|a|..] == sub + b;
  }

  /** A string that lacks the first character of `sub` cannot contain it. */
  lemma MissingFirstCharNotContained(s: string, sub: string)
    requires sub != [] && sub[0] !in s
    ensures !Contains(s, sub)
  {
    forall i | 0 <= i <= |s| ensures !(sub <= s[i..]) {
      if i < |s| {
        assert s[i..][0] == s[i];
      }
    }
  }
}
