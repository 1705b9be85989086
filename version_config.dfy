/**
 * Version comparison and the update-check interval
 * (frontend/src/utils/versionConfig.js).
 *
 * A version string loses one leading 'v', is split on '.', and each
 * segment is read with `Number`; a missing or NaN segment counts as 0.
 * The comparison walks the segments up to the longer of the two lists and
 * returns at the first difference.
 */
module VersionConfig {
  import opened JsNumber

  const APP_VERSION: string := "1.0.6"

  /** 24 hours, in milliseconds. */
  const CHECK_INTERVAL: int := 86400000

  // ---------------------------------------------------------------------------
  // Splitting and normalising
  // ---------------------------------------------------------------------------

  /** `s.split(sep)`: the pieces between separators; always at least one. */
  function SplitOn(s: string, sep: char): (parts: seq<string>)
    ensures |parts| >= 1
    ensures forall i :: 0 <= i < |parts| ==> sep !in parts[i]
  {
    if s == [] then [[]]
    else
      var rest := SplitOn(s[1..], sep);
      if s[0] == sep then [[]] + rest else [[s[0]] + rest[0]] + rest[1..]
  }

  /** `parts.join(sep)`. */
  function JoinWith(parts: seq<string>, sep: char): string
    requires |parts| >= 1
  {
    if |parts| == 1 then parts[0] else parts[0] + [sep] + JoinWith(parts[1..], sep)
  }

  /** Splitting and joining again gives back the text. */
  lemma {:induction false} JoinSplit(s: string, sep: char)
    ensures JoinWith(SplitOn(s, sep), sep) == s
  {
    if s != [] {
      JoinSplit(s[1..], sep);
      var rest := SplitOn(s[1..], sep);
      if s[0] != sep {
        if |rest| == 1 {
        } else {
          assert ([[s[0]] + rest[0]] + rest[1..])[1..] == rest[1..];
        }
      }
    }
  }

  /** `v.replace(/^v/, '')`: one leading 'v' is dropped. */
  function StripV(v: string): string
  {
    if |v| > 0 && v[0] == 'v' then v[1..] else v
  }

  /** `normalize`: the segments read with `Number`, NaN as None. */
  function Normalize(v: string): (parts: seq<Option<real>>)
    ensures |parts| >= 1
  {
    var pieces := SplitOn(StripV(v), '.');
    seq(|pieces|, i requires 0 <= i < |pieces| => NumberOfString(pieces[i]))
  }

  /** `parts[i] || 0`: past the end, NaN and 0 all count as 0. */
  function Segment(parts: seq<Option<real>>, i: nat): real
  {
    if i < |parts| then OrDefault(parts[i], 0.0) else 0.0
  }

  // ---------------------------------------------------------------------------
  // The ordering on segment lists
  // ---------------------------------------------------------------------------

  function Head0(a: seq<Option<real>>): real
  {
    if a == [] then 0.0 else OrDefault(a[0], 0.0)
  }

  function Tail(a: seq<Option<real>>): seq<Option<real>>
  {
    if a == [] then [] else a[1..]
  }

  /** Lexicographic comparison of segment lists, the shorter one padded with zeros. */
  function Cmp(a: seq<Option<real>>, b: seq<Option<real>>): (c: int)
    ensures c == -1 || c == 0 || c == 1
    decreases |a| + |b|
  {
    if a == [] && b == [] then 0
    else if Head0(a) > Head0(b) then 1
    else if Head0(a) < Head0(b) then -1
    else Cmp(Tail(a), Tail(b))
  }

  function Drop(a: seq<Option<real>>, i: nat): seq<Option<real>>
  {
    if i <= |a| then a[i..] else []
  }

  lemma DropStep(a: seq<Option<real>>, i: nat)
    ensures Head0(Drop(a, i)) == Segment(a, i)
    ensures Tail(Drop(a, i)) == Drop(a, i + 1)
  {
  }

  /**
   * `compareVersions`: 1 if `v1` is newer, -1 if older, 0 if equal. The
   * loop runs to the longer segment list and stops at the first difference.
   */
  method CompareVersions(v1: string, v2: string) returns (r: int)
    ensures r == Cmp(Normalize(v1), Normalize(v2))
    ensures r == -1 || r == 0 || r == 1
  {
    var parts1 := Normalize(v1);
    var parts2 := Normalize(v2);
    r := CompareSegments(parts1, parts2);
  }

  /** The loop of `compareVersions` over the two segment lists. */
  method CompareSegments(parts1: seq<Option<real>>, parts2: seq<Option<real>>) returns (r: int)
    ensures r == Cmp(parts1, parts2)
  {
    var n := if |parts1| >= |parts2| then |parts1| else |parts2|;
    for i := 0 to n
      invariant Cmp(parts1, parts2) == Cmp(Drop(parts1, i), Drop(parts2, i))
    {
      var num1 := if i < |parts1| then OrDefault(parts1[i], 0.0) else 0.0;
      var num2 := if i < |parts2| then OrDefault(parts2[i], 0.0) else 0.0;
      DropStep(parts1, i);
      DropStep(parts2, i);
      assert !(Drop(parts1, i) == [] && Drop(parts2, i) == []);
      if num1 > num2 {
        return 1;
      }
      if num1 < num2 {
        return -1;
      }
    }
    assert Drop(parts1, n) == [] && Drop(parts2, n) == [];
    return 0;
  }

  /** Every version equals itself. */
  lemma {:induction false} CmpReflexive(a: seq<Option<real>>)
    ensures Cmp(a, a) == 0
    decreases |a|
  {
    if a != [] {
      CmpReflexive(Tail(a));
    }
  }

  /** Swapping the arguments negates the answer. */
  lemma {:induction false} CmpAntisymmetric(a: seq<Option<real>>, b: seq<Option<real>>)
    ensures Cmp(a, b) == -Cmp(b, a)
    decreases |a| + |b|
  {
    if !(a == [] && b == []) && Head0(a) == Head0(b) {
      CmpAntisymmetric(Tail(a), Tail(b));
    }
  }

  /** Newer-than is transitive. */
  lemma {:induction false} CmpTransitive(a: seq<Option<real>>, b: seq<Option<real>>, c: seq<Option<real>>)
    requires Cmp(a, b) == 1 && Cmp(b, c) == 1
    ensures Cmp(a, c) == 1
    decreases |a| + |b| + |c|
  {
    if Head0(a) == Head0(b) && Head0(b) == Head0(c) {
      assert !(a == [] && c == []) by {
        if a == [] && c == [] {
          assert Head0(b) == 0.0;
          CmpAntisymmetric(b, []);
        }
      }
      CmpTransitive(Tail(a), Tail(b), Tail(c));
    }
  }

  /** Only segment values matter: lists that agree on every padded segment compare alike with everything. */
  lemma {:induction false} CmpBySegments(a: seq<Option<real>>, a2: seq<Option<real>>, b: seq<Option<real>>)
    requires forall i: nat :: Segment(a, i) == Segment(a2, i)
    ensures Cmp(a, b) == Cmp(a2, b)
    decreases |a| + |a2| + |b|
  {
    assert Head0(a) == Segment(a, 0) && Head0(a2) == Segment(a2, 0);
    forall i: nat ensures Segment(Tail(a), i) == Segment(Tail(a2), i) {
      assert Segment(Tail(a), i) == Segment(a, i + 1);
      assert Segment(Tail(a2), i) == Segment(a2, i + 1);
    }
    if a == [] && b == [] && a2 != [] {
      if Head0(a2) == 0.0 {
        CmpBySegments([], Tail(a2), []);
      }
    } else if a2 == [] && b == [] && a != [] {
      if Head0(a) == 0.0 {
        CmpBySegments(Tail(a), [], []);
      }
    } else if !(a == [] && b == []) && !(a2 == [] && b == []) && Head0(a) == Head0(b) {
      CmpBySegments(Tail(a), Tail(a2), Tail(b));
    }
  }

  /** Missing trailing segments count as 0: appending a zero segment changes nothing. */
  lemma TrailingZeroSegment(a: seq<Option<real>>, b: seq<Option<real>>)
    ensures Cmp(a + [Some(0.0)], b) == Cmp(a, b)
    ensures Cmp(a + [None], b) == Cmp(a, b)
  {
    forall i: nat ensures Segment(a + [Some(0.0)], i) == Segment(a, i) {
    }
    forall i: nat ensures Segment(a + [None], i) == Segment(a, i) {
    }
    CmpBySegments(a + [Some(0.0)], a, b);
    CmpBySegments(a + [None], a, b);
  }

  // ---------------------------------------------------------------------------
  // Properties of version strings
  // ---------------------------------------------------------------------------

  /** A single leading 'v' is ignored. */
  lemma LeadingVIgnored(s: string)
    requires s == [] || s[0] != 'v'
    ensures Normalize("v" + s) == Normalize(s)
  {
    assert ("v" + s)[1..] == s;
  }

  /** A segment that is not a number reads as NaN and so counts as 0. */
  lemma NonNumericSegmentIsZero(piece: string)
    requires piece != [] && !WholeDecimal(piece)
    ensures NumberOfString(piece) == None
    ensures Segment([NumberOfString(piece)], 0) == 0.0
  {
  }

  lemma NormalizeDigits(v: string, pieces: seq<string>)
    requires SplitOn(StripV(v), '.') == pieces
    requires forall i :: 0 <= i < |pieces| ==> pieces[i] != [] && AllDigits(pieces[i])
    ensures Normalize(v) == seq(|pieces|, i requires 0 <= i < |pieces| => Some(DigitsValue(pieces[i]) as real))
  {
    forall i | 0 <= i < |pieces| ensures NumberOfString(pieces[i]) == Some(DigitsValue(pieces[i]) as real) {
      NumberOfDigits(pieces[i]);
    }
  }

  /** Splitting text without a '.' gives the text itself. */
  lemma {:induction false} SplitWithoutSeparator(s: string, sep: char)
    requires sep !in s
    ensures SplitOn(s, sep) == [s]
  {
    if s != [] {
      SplitWithoutSeparator(s[1..], sep);
      assert [s[0]] + s[1..] == s;
    }
  }

  /** Splitting `a.b`, where `a` has no '.', gives `a` followed by the pieces of `b`. */
  lemma {:induction false} SplitAtFirst(a: string, b: string, sep: char)
    requires sep !in a
    ensures SplitOn(a + [sep] + b, sep) == [a] + SplitOn(b, sep)
  {
    if a == [] {
      assert ([sep] + b)[1..] == b;
    } else {
      assert (a + [sep] + b)[1..] == a[1..] + [sep] + b;
      SplitAtFirst(a[1..], b, sep);
      assert [a[0]] + a[1..] == a;
    }
  }

  lemma SplitExample(a: string, b: string)
    requires '.' !in a
    ensures SplitOn(a + "." + b, '.') == [a] + SplitOn(b, '.')
  {
    SplitAtFirst(a, b, '.');
  }

  /** Digit text holds no '.'. */
  lemma DigitsHaveNoPoint(a: string)
    requires AllDigits(a)
    ensures '.' !in a
  {
  }

  /** A version `a.b` of two digit segments normalises to their two values. */
  lemma NormalizeTwoSegments(v: string, a: string, b: string)
    requires a != [] && AllDigits(a) && b != [] && AllDigits(b)
    requires StripV(v) == a + "." + b
    ensures Normalize(v) == [Some(DigitsValue(a) as real), Some(DigitsValue(b) as real)]
  {
    DigitsHaveNoPoint(a);
    DigitsHaveNoPoint(b);
    SplitExample(a, b);
    SplitWithoutSeparator(b, '.');
    NormalizeDigits(v, [a, b]);
  }

  /** Splitting `s.t`, where `t` has no separator, gives the pieces of `s` followed by `t`. */
  lemma {:induction false} SplitAtLast(s: string, t: string, sep: char)
    requires sep !in t
    ensures SplitOn(s + [sep] + t, sep) == SplitOn(s, sep) + [t]
  {
    if s == [] {
      assert [] + [sep] + t == [sep] + t;
      assert ([sep] + t)[1..] == t;
      SplitWithoutSeparator(t, sep);
    } else {
      assert (s + [sep] + t)[1..] == s[1..] + [sep] + t;
      SplitAtLast(s[1..], t, sep);
      var pieces := SplitOn(s[1..], sep);
      var rest := SplitOn(s[1..] + [sep] + t, sep);
      assert rest == pieces + [t];
      if s[0] != sep {
        assert rest[0] == pieces[0];
        assert rest[1..] == pieces[1..] + [t];
      }
    }
  }

  /** Appending a ".0" segment to a version never changes how it compares. */
  lemma ZeroSuffixIgnored(x: string, y: string)
    ensures Cmp(Normalize(x + ".0"), Normalize(y)) == Cmp(Normalize(x), Normalize(y))
  {
    NormalizeZeroSuffix(x);
    TrailingZeroSegment(Normalize(x), Normalize(y));
  }

  /** Appending ".0" appends a 0 segment. */
  lemma NormalizeZeroSuffix(x: string)
    ensures Normalize(x + ".0") == Normalize(x) + [Some(0.0)]
  {
    var pieces := SplitOn(StripV(x), '.');
    SplitZeroSuffix(x);
    NumberOfDigits("0");
    var n := Normalize(x + ".0");
    var m := Normalize(x);
    forall i | 0 <= i < |n| ensures n[i] == (m + [Some(0.0)])[i] {
      if i < |m| {
        assert n[i] == NumberOfString(pieces[i]);
      }
    }
  }

  /** The pieces of `x.0` are those of `x` and "0". */
  lemma SplitZeroSuffix(x: string)
    ensures SplitOn(StripV(x + ".0"), '.') == SplitOn(StripV(x), '.') + ["0"]
  {
    assert StripV(x + ".0") == StripV(x) + ['.'] + "0" by {
      if |x| > 0 && x[0] == 'v' {
        assert (x + ".0")[1..] == x[1..] + ".0";
      }
    }
    SplitAtLast(StripV(x), "0", '.');
  }

  /** Segments compare as numbers, not text: `p.q` is newer than `p.r` when q's value exceeds r's. */
  lemma SegmentsCompareAsNumbers(p: string, q: string, r: string)
    requires p != [] && AllDigits(p) && q != [] && AllDigits(q) && r != [] && AllDigits(r)
    requires DigitsValue(q) > DigitsValue(r)
    ensures Cmp(Normalize(p + "." + q), Normalize(p + "." + r)) == 1
  {
    assert IsDigit(p[0]);
    assert (p + "." + q)[0] == p[0] && (p + "." + r)[0] == p[0];
    NormalizeTwoSegments(p + "." + q, p, q);
    NormalizeTwoSegments(p + "." + r, p, r);
    var a := [Some(DigitsValue(p) as real), Some(DigitsValue(q) as real)];
    var b := [Some(DigitsValue(p) as real), Some(DigitsValue(r) as real)];
    assert Cmp(a, b) == 1 by {
      assert Tail(a) == [Some(DigitsValue(q) as real)] && Tail(b) == [Some(DigitsValue(r) as real)];
    }
  }

  // ---------------------------------------------------------------------------
  // The check interval
  // ---------------------------------------------------------------------------

  /**
   * The decision of `shouldCheckForUpdates`, with the stored last-check
   * text and the current time as parameters: a missing or empty record
   * means a check is due; otherwise the stored time is read with
   * `parseInt` and a check is due once a full interval has passed (a NaN
   * time makes the difference NaN, and the comparison false).
   */
  function ShouldCheckForUpdates(lastCheck: Option<string>, now: int): (due: bool)
    ensures lastCheck == None || lastCheck == Some("") ==> due
  {
    match lastCheck
    case None => true
    case Some(text) =>
      if text == "" then true
      else
        match ParseInt(text)
        case None => false
        case Some(last) => now - last >= CHECK_INTERVAL
  }

  /** Once a check is due it stays due: waiting longer never withdraws it. */
  lemma DueStaysDue(lastCheck: Option<string>, now: int, later: int)
    requires ShouldCheckForUpdates(lastCheck, now) && now <= later
    ensures ShouldCheckForUpdates(lastCheck, later)
  {
  }

  /** A stored time that does not parse never makes a check due. */
  lemma UnparsableTimeNeverDue(text: string, now: int)
    requires text != "" && ParseInt(text) == None
    ensures !ShouldCheckForUpdates(Some(text), now)
  {
  }

  /** After `updateLastCheckTime` stores `now`, the next check is due exactly one interval later. */
  lemma DueOneIntervalAfterRecording(now: nat, later: int)
    ensures ShouldCheckForUpdates(Some(NatToString(now)), later) <==> later >= now + CHECK_INTERVAL
  {
    ParseIntNatToString(now);
  }
}
