/**
 * `DataProcessor._validate_date_formats.is_valid_date_format`: a date cell is
 * kept when, once stripped of surrounding white space, it matches none of
 * three rejected patterns and one of three accepted ones.
 */
module DateFormat {
  import opened JsonData

  /** The characters Python's `str.isspace` accepts, which `str.strip()` removes. */
  predicate IsSpace(c: char) {
    ('\t' <= c <= '\r') || ('\U{1C}' <= c <= ' ') || c == '\U{85}' || c == '\U{A0}' || c == '\U{1680}'
    || ('\U{2000}' <= c <= '\U{200A}') || c == '\U{2028}' || c == '\U{2029}' || c == '\U{202F}'
    || c == '\U{205F}' || c == '\U{3000}'
  }

  /** The number of leading white-space characters. */
  function LeadingSpace(s: string): (n: nat)
    ensures n <= |s|
    ensures forall i :: 0 <= i < n ==> IsSpace(s[i])
    ensures n < |s| ==> !IsSpace(s[n])
  {
    if |s| == 0 || !IsSpace(s[0]) then 0 else 1 + LeadingSpace(s[1..])
  }

  /** The number of trailing white-space characters. */
  function TrailingSpace(s: string): (n: nat)
    ensures n <= |s|
    ensures forall i :: |s| - n <= i < |s| ==> IsSpace(s[i])
    ensures n < |s| ==> !IsSpace(s[|s| - n - 1])
  {
    if |s| == 0 || !IsSpace(s[|s| - 1]) then 0 else 1 + TrailingSpace(s[..|s| - 1])
  }

  /**
   * `str.strip()`: the slice of `s` left after removing white space at both
   * ends; it neither starts nor ends with white space.
   */
  function Strip(s: string): (r: string)
    ensures |r| > 0 ==> !IsSpace(r[0]) && !IsSpace(r[|r| - 1])
    ensures exists i, j :: 0 <= i <= j <= |s| && r == s[i..j]
                           && (forall k :: 0 <= k < i ==> IsSpace(s[k]))
                           && (forall k :: j <= k < |s| ==> IsSpace(s[k]))
    ensures |r| <= |s|
  {
    var i := LeadingSpace(s);
    var front := s[i..];
    var r := front[..|front| - TrailingSpace(front)];
    var j := i + |r|;
    assert r == s[i..j];
    assert forall k :: j <= k < |s| ==> s[k] == front[k - i];
    r
  }

  /** `\d`, on ASCII digits. */
  predicate IsDigit(c: char) {
    '0' <= c <= '9'
  }

  /** One element of the patterns: `\d`, an optional `\d`, `\d*`, or a literal character. */
  datatype Piece = Digit | OptDigit | DigitStar | Lit(c: char)

  /** `re.match` of an anchored pattern (`^...$`) against the whole string. */
  predicate Matches(p: seq<Piece>, s: string)
    decreases |p|, |s|
  {
    if |p| == 0 then |s| == 0
    else match p[0]
      case Lit(c) => |s| > 0 && s[0] == c && Matches(p[1..], s[1..])
      case Digit => |s| > 0 && IsDigit(s[0]) && Matches(p[1..], s[1..])
      case OptDigit => Matches(p[1..], s) || (|s| > 0 && IsDigit(s[0]) && Matches(p[1..], s[1..]))
      case DigitStar => Matches(p[1..], s) || (|s| > 0 && IsDigit(s[0]) && Matches(p, s[1..]))
  }

  /** `\d{n}`. */
  function Digits(n: nat): (p: seq<Piece>)
    ensures |p| == n && forall i :: 0 <= i < n ==> p[i] == Digit
  {
    seq(n, _ => Digit)
  }

  /** `\d{1,2}`. */
  const OneOrTwo: seq<Piece> := [Digit, OptDigit]

  /** `^\d{1,2}/\d{1,2}/\d{4}$`, `^\d{1,2}-\d{1,2}-\d{4}$` and `^\d{4}/\d{1,2}/\d{1,2}$`. */
  function RejectedPatterns(): seq<seq<Piece>> {
    [OneOrTwo + [Lit('/')] + OneOrTwo + [Lit('/')] + Digits(4),
     OneOrTwo + [Lit('-')] + OneOrTwo + [Lit('-')] + Digits(4),
     Digits(4) + [Lit('/')] + OneOrTwo + [Lit('/')] + OneOrTwo]
  }

  /** `\d{4}-\d{2}-\d{2}`. */
  function DatePattern(): seq<Piece> {
    Digits(4) + [Lit('-')] + Digits(2) + [Lit('-')] + Digits(2)
  }

  /** `\d{2}:\d{2}:\d{2}`. */
  function TimePattern(): seq<Piece> {
    Digits(2) + [Lit(':')] + Digits(2) + [Lit(':')] + Digits(2)
  }

  /** The date, the date and time, and the date and time with a fraction of a second. */
  function AcceptedPatterns(): seq<seq<Piece>> {
    [DatePattern(),
     DatePattern() + [Lit('T')] + TimePattern(),
     DatePattern() + [Lit('T')] + TimePattern() + [Lit('.'), Digit, DigitStar]]
  }

  /** Some pattern of the list matches `s`. */
  predicate AnyMatches(ps: seq<seq<Piece>>, s: string) {
    exists i :: 0 <= i < |ps| && Matches(ps[i], s)
  }

  /**
   * `is_valid_date_format`. `None` is rejected outright; the string form of a
   * number, a boolean, a list or a dict never has a date's shape.
   */
  predicate IsValidDateFormat(v: Json) {
    match v
    case JString(raw) =>
      raw != "" && var s := Strip(raw);
      !AnyMatches(RejectedPatterns(), s) && AnyMatches(AcceptedPatterns(), s)
    case _ => false
  }

  // A direct description of the accepted strings, in the terms of RFC 3339.

  /** Every character of `s[i..j]` is a digit. */
  predicate DigitsIn(s: string, i: nat, j: nat)
    requires i <= j <= |s|
  {
    forall k :: i <= k < j ==> IsDigit(s[k])
  }

  /** `full-date` of section 5.6 of RFC 3339 by shape: `4DIGIT "-" 2DIGIT "-" 2DIGIT`. */
  predicate FullDate(s: string) {
    |s| == 10 && DigitsIn(s, 0, 4) && s[4] == '-' && DigitsIn(s, 5, 7) && s[7] == '-' && DigitsIn(s, 8, 10)
  }

  /** `partial-time` of section 5.6 of RFC 3339 by shape: `2DIGIT ":" 2DIGIT ":" 2DIGIT [time-secfrac]`. */
  predicate PartialTime(s: string) {
    |s| >= 8 && DigitsIn(s, 0, 2) && s[2] == ':' && DigitsIn(s, 3, 5) && s[5] == ':' && DigitsIn(s, 6, 8)
    && (|s| == 8 || (|s| >= 10 && s[8] == '.' && DigitsIn(s, 9, |s|)))
  }

  /** A `full-date`, or a `full-date` and a `partial-time` joined by `T`, with no offset. */
  predicate Rfc3339Local(s: string) {
    FullDate(s) || (|s| >= 11 && FullDate(s[..10]) && s[10] == 'T' && PartialTime(s[11..]))
  }

  /** A pattern of digits and literals only matches the strings of its length that fit it piece by piece. */
  predicate Fixed(p: seq<Piece>) {
    forall i :: 0 <= i < |p| ==> p[i] == Digit || p[i].Lit?
  }

  predicate Fits(q: Piece, c: char) {
    match q
    case Digit => IsDigit(c)
    case Lit(l) => c == l
    case _ => false
  }

  lemma {:induction false} FixedPrefix(p: seq<Piece>, rest: seq<Piece>, s: string)
    requires Fixed(p)
    ensures Matches(p + rest, s) <==>
              |s| >= |p| && (forall i :: 0 <= i < |p| ==> Fits(p[i], s[i])) && Matches(rest, s[|p|..])
  {
    if |p| > 0 {
      assert (p + rest)[1..] == p[1..] + rest;
      if |s| > 0 {
        FixedPrefix(p[1..], rest, s[1..]);
        if |s| >= |p| {
          assert s[1..][|p| - 1..] == s[|p|..];
        }
        if |s| >= |p| && (forall i :: 0 <= i < |p| ==> Fits(p[i], s[i])) {
          assert forall i :: 0 <= i < |p| - 1 ==> Fits(p[1..][i], s[1..][i]) by {
            forall i | 0 <= i < |p| - 1 ensures Fits(p[1..][i], s[1..][i]) {
              assert Fits(p[i + 1], s[i + 1]);
            }
          }
        }
      }
    } else {
      assert p + rest == rest;
    }
  }

  /** `\d*` matches exactly the all-digit strings. */
  lemma {:induction false} StarMatches(s: string)
    ensures Matches([DigitStar], s) <==> DigitsIn(s, 0, |s|)
  {
    var star: seq<Piece> := [DigitStar];
    assert star[0] == DigitStar && star[1..] == [];
    if |s| > 0 {
      StarMatches(s[1..]);
      if DigitsIn(s, 0, |s|) {
        assert DigitsIn(s[1..], 0, |s| - 1) by {
          forall k | 0 <= k < |s| - 1 ensures IsDigit(s[1..][k]) {
            assert IsDigit(s[k + 1]);
          }
        }
      }
      if Matches(star, s) {
        assert !Matches(star[1..], s);
        assert IsDigit(s[0]) && Matches(star, s[1..]);
        assert forall k :: 1 <= k < |s| ==> s[k] == s[1..][k - 1];
      }
    }
  }

  /**
   * The accepted patterns hold exactly the local date-times of RFC 3339 by
   * shape: a date, or a date and a time with an optional fraction of a
   * second.
   */
  lemma AcceptedShape(s: string)
    ensures AnyMatches(AcceptedPatterns(), s) <==> Rfc3339Local(s)
  {
    var ps := AcceptedPatterns();
    DateOnly(s);
    DateTimeOnly(s);
    DateTimeFraction(s);
    LocalShapes(s);
    if AnyMatches(ps, s) {
      var i :| 0 <= i < |ps| && Matches(ps[i], s);
      assert i == 0 || i == 1 || i == 2;
    } else {
      assert !Matches(ps[0], s) && !Matches(ps[1], s) && !Matches(ps[2], s);
    }
  }

  /** `Rfc3339Local` as the three shapes of the accepted patterns. */
  lemma LocalShapes(s: string)
    ensures Rfc3339Local(s) <==>
              FullDate(s) || (DateTimeHead(s) && |s| == 19)
              || (DateTimeHead(s) && |s| >= 21 && s[19] == '.' && DigitsIn(s, 20, |s|))
  {
    if |s| >= 19 {
      var t := s[11..];
      assert forall k :: 0 <= k < |t| ==> t[k] == s[11 + k];
      assert forall k :: 0 <= k < 8 ==> s[11..19][k] == s[11 + k];
      assert PartialTimeHead(s[11..19]) <==> DigitsIn(t, 0, 2) && t[2] == ':' && DigitsIn(t, 3, 5)
                                              && t[5] == ':' && DigitsIn(t, 6, 8);
      if |s| >= 20 {
        assert DigitsIn(t, 9, |t|) <==> DigitsIn(s, 20, |s|);
      }
    }
  }

  /** The first accepted pattern: a bare date. */
  lemma DateOnly(s: string)
    ensures Matches(DatePattern(), s) <==> FullDate(s)
  {
    var date := DatePattern();
    assert Fixed(date);
    FixedPrefix(date, [], s);
    assert date + [] == date;
    if |s| >= 10 {
      DateFits(s);
      if |s| == 10 {
        assert s[..10] == s;
      }
    }
  }

  /** The shared prefix of the two date-time patterns. */
  predicate DateTimeHead(s: string) {
    |s| >= 19 && FullDate(s[..10]) && s[10] == 'T' && PartialTimeHead(s[11..19])
  }

  /** The second accepted pattern: a date and a time to the second. */
  lemma DateTimeOnly(s: string)
    ensures Matches(DatePattern() + [Lit('T')] + TimePattern(), s) <==> DateTimeHead(s) && |s| == 19
  {
    var dt := DatePattern() + [Lit('T')] + TimePattern();
    assert Fixed(dt);
    FixedPrefix(dt, [], s);
    assert dt + [] == dt;
    if |s| >= 19 {
      TimeFits(s);
    }
  }

  /** The third accepted pattern: a date and a time with a fraction of a second. */
  lemma DateTimeFraction(s: string)
    ensures Matches(DatePattern() + [Lit('T')] + TimePattern() + [Lit('.'), Digit, DigitStar], s) <==>
              DateTimeHead(s) && |s| >= 21 && s[19] == '.' && DigitsIn(s, 20, |s|)
  {
    var dt := DatePattern() + [Lit('T')] + TimePattern();
    assert Fixed(dt);
    FixedPrefix(dt, [Lit('.'), Digit, DigitStar], s);
    if |s| >= 19 {
      TimeFits(s);
      var tail := s[19..];
      FixedPrefix([Lit('.'), Digit], [DigitStar], tail);
      assert [Lit('.'), Digit] + [DigitStar] == [Lit('.'), Digit, DigitStar];
      if |tail| >= 2 {
        StarMatches(tail[2..]);
        assert DigitsIn(tail[2..], 0, |tail| - 2) <==> DigitsIn(s, 21, |s|) by {
          assert forall k :: 0 <= k < |tail| - 2 ==> tail[2..][k] == s[21 + k];
        }
      }
    }
  }

  lemma DateFits(s: string)
    requires |s| >= 10
    ensures (forall i :: 0 <= i < 10 ==> Fits(DatePattern()[i], s[i])) <==> FullDate(s[..10])
  {
    DatePatternPieces();
  }

  lemma TimeFits(s: string)
    requires |s| >= 19
    ensures var p := DatePattern() + [Lit('T')] + TimePattern();
            (forall i :: 0 <= i < 19 ==> Fits(p[i], s[i]))
            <==> FullDate(s[..10]) && s[10] == 'T' && PartialTimeHead(s[11..19])
  {
    TimePatternPieces();
    var p := DatePattern() + [Lit('T')] + TimePattern();
    DateFits(s);
    assert forall i :: 0 <= i < 10 ==> p[i] == DatePattern()[i];
    assert p[10] == Lit('T');
    var u := s[11..19];
    assert forall i :: 11 <= i < 19 ==> p[i] == TimePattern()[i - 11] && u[i - 11] == s[i];
    assert (forall i :: 11 <= i < 19 ==> Fits(p[i], s[i])) <==> PartialTimeHead(u);
    assert (forall i :: 0 <= i < 19 ==> Fits(p[i], s[i])) <==>
             (forall i :: 0 <= i < 10 ==> Fits(p[i], s[i])) && Fits(p[10], s[10])
             && (forall i :: 11 <= i < 19 ==> Fits(p[i], s[i]));
  }

  lemma DatePatternPieces()
    ensures DatePattern() == [Digit, Digit, Digit, Digit, Lit('-'), Digit, Digit, Lit('-'), Digit, Digit]
  {
    assert Digits(4) == [Digit, Digit, Digit, Digit];
    assert Digits(2) == [Digit, Digit];
  }

  lemma TimePatternPieces()
    ensures TimePattern() == [Digit, Digit, Lit(':'), Digit, Digit, Lit(':'), Digit, Digit]
  {
    assert Digits(2) == [Digit, Digit];
  }

  predicate PartialTimeHead(s: string) {
    |s| == 8 && DigitsIn(s, 0, 2) && s[2] == ':' && DigitsIn(s, 3, 5) && s[5] == ':' && DigitsIn(s, 6, 8)
  }

  /** No string of an accepted shape matches a rejected pattern, so only the accepted patterns decide. */
  lemma RejectedNeverAccepted(s: string)
    requires Rfc3339Local(s)
    ensures !AnyMatches(RejectedPatterns(), s)
  {
    var ps := RejectedPatterns();
    assert '/' !in s[..10];
    forall i | 0 <= i < 3 ensures !Matches(ps[i], s) {
      if i == 1 {
        DashShape(s);
      } else {
        SlashShape(ps[i], s);
      }
    }
  }

  lemma DashShape(s: string)
    ensures Matches(RejectedPatterns()[1], s) && |s| > 2 ==> s[1] == '-' || s[2] == '-'
  {
    var p := RejectedPatterns()[1];
    assert p[0] == Digit && p[1] == OptDigit && p[2] == Lit('-');
    assert p[1..][0] == OptDigit && p[2..][0] == Lit('-');
    assert p[1..][1..] == p[2..];
    if Matches(p, s) && |s| > 2 {
      assert Matches(p[1..], s[1..]);
      assert s[1..][1..] == s[2..];
      if Matches(p[2..], s[1..]) {
        assert s[1..][0] == '-';
      } else {
        assert Matches(p[2..], s[2..]);
      }
    }
  }

  lemma SlashShape(p: seq<Piece>, s: string)
    requires p == RejectedPatterns()[0] || p == RejectedPatterns()[2]
    ensures Matches(p, s) ==> '/' in s
  {
    SlashIn(p, s);
  }

  /** A pattern with a literal `/` among digit pieces only matches strings holding a `/`. */
  lemma {:induction false} SlashIn(p: seq<Piece>, s: string)
    requires Lit('/') in p
    ensures Matches(p, s) ==> '/' in s
    decreases |p|, |s|
  {
    if Matches(p, s) {
      match p[0]
      case Lit(c) =>
        if c != '/' {
          SlashIn(p[1..], s[1..]);
          assert s == [s[0]] + s[1..];
        }
      case Digit =>
        SlashIn(p[1..], s[1..]);
        assert s == [s[0]] + s[1..];
      case OptDigit =>
        if Matches(p[1..], s) {
          SlashIn(p[1..], s);
        } else {
          SlashIn(p[1..], s[1..]);
          assert s == [s[0]] + s[1..];
        }
      case DigitStar =>
        if Matches(p[1..], s) {
          SlashIn(p[1..], s);
        } else {
          SlashIn(p, s[1..]);
          assert s == [s[0]] + s[1..];
        }
    }
  }

  /**
   * `is_valid_date_format` accepts exactly the strings whose stripped form
   * is an RFC 3339 local date or date-time by shape; `None`, numbers,
   * booleans and the empty string are rejected.
   */
  lemma ValidDateFormatMeaning(v: Json)
    ensures IsValidDateFormat(v) <==> v.JString? && Rfc3339Local(Strip(v.s))
  {
    if v.JString? {
      var s := Strip(v.s);
      AcceptedShape(s);
      if Rfc3339Local(s) {
        RejectedNeverAccepted(s);
        assert |v.s| >= |s| > 0;
      }
      assert IsValidDateFormat(v) <==> v.s != "" && !AnyMatches(RejectedPatterns(), s) && AnyMatches(AcceptedPatterns(), s);
    }
  }
}
