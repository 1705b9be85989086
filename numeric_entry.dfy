/**
 * The numeric-entry filter of the cost input screens: a keystroke is kept
 * only when the whole text matches `^-?\d*\.?\d*$` (or is one of the three
 * partial entries '', '-', '.', which the pattern already admits).
 */
module NumericEntry {
  import opened JsNumber

  /** The pattern `^-?\d*\.?\d*$`, read left to right as the regular expression does. */
  predicate MatchesNumericPattern(s: string)
  {
    var body := if |s| > 0 && s[0] == '-' then s[1..] else s;
    var whole := DigitPrefix(body);
    var rest := body[|whole|..];
    rest == [] || (rest[0] == '.' && AllDigits(rest[1..]))
  }

  /** The test of `handleNumericChange`: the three partial entries, or the pattern. */
  predicate AcceptsEntry(value: string)
  {
    value == "" || value == "-" || value == "." || MatchesNumericPattern(value)
  }

  /** Character-level description of the accepted texts. */
  ghost predicate WellFormedEntry(s: string)
  {
    (forall i :: 0 <= i < |s| ==> IsDigit(s[i]) || s[i] == '.' || (s[i] == '-' && i == 0))
    && (forall i, j :: 0 <= i < j < |s| ==> !(s[i] == '.' && s[j] == '.'))
  }

  /** The three explicit partial entries add nothing to what the pattern accepts. */
  lemma AcceptsEntryIsPattern(value: string)
    ensures AcceptsEntry(value) <==> MatchesNumericPattern(value)
  {
    if value == "-" {
      assert value[1..] == [];
    } else if value == "." {
      assert DigitPrefix(value) == [];
      assert value[0..] == value;
      assert value[1..] == [];
    }
  }

  /** A text passes the filter exactly when it is an optional leading '-', digits and at most one '.'. */
  lemma PatternCharacterisation(s: string)
    ensures MatchesNumericPattern(s) <==> WellFormedEntry(s)
  {
    if MatchesNumericPattern(s) {
      PatternIsWellFormed(s);
    }
    if WellFormedEntry(s) {
      WellFormedMatchesPattern(s);
    }
  }

  lemma PatternIsWellFormed(s: string)
    requires MatchesNumericPattern(s)
    ensures WellFormedEntry(s)
  {
    var off := if |s| > 0 && s[0] == '-' then 1 else 0;
    var body := s[off..];
    var whole := DigitPrefix(body);
    var rest := body[|whole|..];
    forall i | 0 <= i < |s|
      ensures IsDigit(s[i]) || s[i] == '.' || (s[i] == '-' && i == 0)
    {
      if i >= off {
        var k := i - off;
        assert s[i] == body[k];
        if k < |whole| {
          assert IsDigit(whole[k]);
        } else if k > |whole| {
          assert rest[1..][k - |whole| - 1] == body[k];
        }
      }
    }
    forall i, j | 0 <= i < j < |s|
      ensures !(s[i] == '.' && s[j] == '.')
    {
      if s[i] == '.' {
        assert i >= off;
        assert i - off >= |whole|;
        assert rest[1..][j - off - |whole| - 1] == s[j];
      }
    }
  }

  lemma WellFormedMatchesPattern(s: string)
    requires WellFormedEntry(s)
    ensures MatchesNumericPattern(s)
  {
    var off := if |s| > 0 && s[0] == '-' then 1 else 0;
    var body := s[off..];
    var whole := DigitPrefix(body);
    var rest := body[|whole|..];
    if rest != [] {
      assert rest[0] == body[|whole|] == s[off + |whole|];
      assert !IsDigit(body[|whole|]);
      assert rest[0] == '.';
      forall k | 0 <= k < |rest| - 1
        ensures IsDigit(rest[1..][k])
      {
        assert rest[1..][k] == s[off + |whole| + 1 + k];
      }
    }
  }

  /** Every prefix of an accepted entry is accepted, so the text can be typed one key at a time. */
  lemma PrefixClosed(s: string, k: nat)
    requires k <= |s|
    requires AcceptsEntry(s)
    ensures AcceptsEntry(s[..k])
  {
    AcceptsEntryIsPattern(s);
    PatternCharacterisation(s);
    PatternCharacterisation(s[..k]);
    AcceptsEntryIsPattern(s[..k]);
  }

  /** An accepted entry parses to NaN exactly when it contains no digit ('', '-', '.', '-.'). */
  lemma AcceptedParsesUnlessDigitless(s: string)
    requires AcceptsEntry(s)
    ensures ParseFloat(s).None? <==> (forall i :: 0 <= i < |s| ==> !IsDigit(s[i]))
  {
    AcceptsEntryIsPattern(s);
    PatternCharacterisation(s);
    var (negative, rest) := SplitSign(s);
    var off := |s| - |rest|;
    assert rest == s[off..];
    var whole := DigitPrefix(rest);
    var tail := rest[|whole|..];
    var frac := if |tail| > 0 && tail[0] == '.' then DigitPrefix(tail[1..]) else [];
    if ParseFloat(s).None? {
      forall i | 0 <= i < |s| ensures !IsDigit(s[i]) {
        if i >= off {
          assert rest[i - off] == s[i];
        }
      }
    } else {
      if |whole| > 0 {
        assert s[off] == rest[0] == whole[0];
        assert IsDigit(s[off]);
      } else {
        assert |frac| > 0;
        assert tail[1..][0] == s[off + 1];
        assert IsDigit(s[off + 1]);
      }
    }
  }
}
