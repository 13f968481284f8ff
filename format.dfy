/**
 * The shared display formatters: a "time ago" phrase from a millisecond
 * difference, and the capitalised badge texts for roles and statuses.
 */
module Format {
  import opened Wrappers
  import opened Text
  import opened AuthStore

  // ---------------------------------------------------------------------
  // relative time

  const Minute: int := 60000
  const Hour: int := 3600000
  const Day: int := 86400000
  const Week: int := 604800000
  const Month: int := 2592000000
  const Year: int := 31536000000

  /** `${count} ${unit}${count > 1 ? 's' : ''} ago`. */
  function Phrase(count: nat, unit: string): string {
    NatToString(count) + " " + unit + (if count > 1 then "s" else "") + " ago"
  }

  /**
   * `formatRelativeTime(date)` at the instant `now` (milliseconds): `date`
   * is the date's time value, `None` for an invalid date, whose `NaN`
   * difference fails every comparison. `Math.floor` of a quotient by a
   * positive divisor is the integer division.
   */
  function FormatRelativeTime(now: int, date: Option<int>): string {
    if date.None? then "Just now"
    else
      var diff := now - date.value;
      var seconds := diff / 1000;
      var minutes := seconds / 60;
      var hours := minutes / 60;
      var days := hours / 24;
      var weeks := days / 7;
      var months := days / 30;
      var years := days / 365;
      if years > 0 then Phrase(years, "year")
      else if months > 0 then Phrase(months, "month")
      else if weeks > 0 then Phrase(weeks, "week")
      else if days > 0 then Phrase(days, "day")
      else if hours > 0 then Phrase(hours, "hour")
      else if minutes > 0 then Phrase(minutes, "minute")
      else "Just now"
  }

  /** A positive multiple of a positive number is at least that number. */
  lemma MulAtLeast(m: int, d: int)
    requires m > 0 && d >= 1
    ensures m * d >= m
  {
  }

  /** The quotient is the unique `q` with `a == m * q + r` and `0 <= r < m`. */
  lemma DivUnique(a: int, m: int, q: int, r: int)
    requires m > 0 && 0 <= r < m && a == m * q + r
    ensures a / m == q
  {
    var q' := a / m;
    var r' := a % m;
    assert m * q' + r' == a;
    assert m * (q - q') == m * q - m * q';
    if q > q' {
      MulAtLeast(m, q - q');
    } else if q < q' {
      MulAtLeast(m, q' - q);
    }
  }

  /** Multiplication distributes over addition. */
  lemma Distribute(b: int, x: int, y: int)
    ensures b * (x + y) == b * x + b * y
  {
  }

  /** Multiplication is associative. */
  lemma Associate(b: int, c: int, q: int)
    ensures b * (c * q) == (b * c) * q
  {
  }

  /** Multiplying by a positive number keeps the order. */
  lemma MulMonotone(b: int, x: int, y: int)
    requires b > 0 && x <= y
    ensures b * x <= b * y
  {
    Distribute(b, x, y - x);
    if y - x > 0 {
      MulAtLeast(b, y - x);
    }
  }

  /** Flooring twice is flooring once by the product. */
  lemma DivDiv(a: int, b: int, c: int)
    requires b > 0 && c > 0
    ensures a / b / c == a / (b * c)
  {
    var q := a / b;
    var r := a % b;
    var q2 := q / c;
    var r2 := q % c;
    assert a == b * q + r;
    assert q == c * q2 + r2;
    Distribute(b, c * q2, r2);
    Associate(b, c, q2);
    assert a == (b * c) * q2 + (b * r2 + r);
    MulMonotone(b, r2, c - 1);
    Distribute(b, c, -1);
    assert b * r2 + r < b * c;
    assert b * c > 0 by { MulAtLeast(b, c); }
    DivUnique(a, b * c, q2, b * r2 + r);
  }

  /** A quotient by a positive divisor is positive exactly when the dividend reaches the divisor. */
  lemma DivPositive(a: int, m: int)
    requires m > 0
    ensures a / m > 0 <==> a >= m
  {
    var q := a / m;
    assert m * q + a % m == a;
    if q > 0 {
      MulAtLeast(m, q);
    }
  }

  /** The chained floors give the elapsed time divided directly by each unit. */
  lemma Counts(diff: int)
    ensures diff / 1000 / 60 == diff / Minute
    ensures diff / 1000 / 60 / 60 == diff / Hour
    ensures diff / 1000 / 60 / 60 / 24 == diff / Day
    ensures diff / 1000 / 60 / 60 / 24 / 7 == diff / Week
    ensures diff / 1000 / 60 / 60 / 24 / 30 == diff / Month
    ensures diff / 1000 / 60 / 60 / 24 / 365 == diff / Year
  {
    DivDiv(diff, 1000, 60);
    DivDiv(diff, Minute, 60);
    DivDiv(diff, Hour, 24);
    DivDiv(diff, Day, 7);
    DivDiv(diff, Day, 30);
    DivDiv(diff, Day, 365);
  }

  /** The unit is the largest one the elapsed time reaches, counted in whole units. */
  lemma RelativeTimeUnits(now: int, t: int)
    ensures var diff := now - t; var r := FormatRelativeTime(now, Some(t));
      (diff >= Year ==> r == Phrase(diff / Year, "year"))
      && (Month <= diff < Year ==> r == Phrase(diff / Month, "month"))
      && (Week <= diff < Month ==> r == Phrase(diff / Week, "week"))
      && (Day <= diff < Week ==> r == Phrase(diff / Day, "day"))
      && (Hour <= diff < Day ==> r == Phrase(diff / Hour, "hour"))
      && (Minute <= diff < Hour ==> r == Phrase(diff / Minute, "minute"))
      && (diff < Minute ==> r == "Just now")
  {
    var diff := now - t;
    Counts(diff);
    DivPositive(diff, Year);
    DivPositive(diff, Month);
    DivPositive(diff, Week);
    DivPositive(diff, Day);
    DivPositive(diff, Hour);
    DivPositive(diff, Minute);
  }

  /** A phrase never reads "Just now": it starts with a digit. */
  lemma PhraseIsNotJustNow(count: nat, unit: string)
    ensures Phrase(count, unit) != "Just now"
  {
    assert IsDigit(Phrase(count, unit)[0]);
  }

  /** "Just now" exactly for an invalid date or less than a minute elapsed, including a date in the future. */
  lemma JustNowIff(now: int, date: Option<int>)
    ensures FormatRelativeTime(now, date) == "Just now" <==> date.None? || now - date.value < Minute
  {
    if date.Some? {
      var diff := now - date.value;
      RelativeTimeUnits(now, date.value);
      if diff >= Year {
        DivPositive(diff, Year);
        PhraseIsNotJustNow(diff / Year, "year");
      } else if diff >= Month {
        DivPositive(diff, Month);
        PhraseIsNotJustNow(diff / Month, "month");
      } else if diff >= Week {
        DivPositive(diff, Week);
        PhraseIsNotJustNow(diff / Week, "week");
      } else if diff >= Day {
        DivPositive(diff, Day);
        PhraseIsNotJustNow(diff / Day, "day");
      } else if diff >= Hour {
        DivPositive(diff, Hour);
        PhraseIsNotJustNow(diff / Hour, "hour");
      } else if diff >= Minute {
        DivPositive(diff, Minute);
        PhraseIsNotJustNow(diff / Minute, "minute");
      }
    }
  }

  /** The plural "s" appears exactly for a count above one. */
  lemma PhrasePlural(count: nat, unit: string)
    requires unit != [] && unit[|unit| - 1] != 's'
    ensures EndsWith(Phrase(count, unit), "s ago") <==> count > 1
  {
    var pre := NatToString(count) + " " + unit;
    var p := Phrase(count, unit);
    if count > 1 {
      assert p == pre + "s ago";
      assert p[|p| - 5..] == "s ago";
    } else {
      assert p == pre + " ago";
      assert p[|p| - 5..] == [pre[|pre| - 1]] + " ago";
      assert pre[|pre| - 1] == unit[|unit| - 1];
      assert p[|p| - 5] != "s ago"[0];
    }
  }

  // ---------------------------------------------------------------------
  // capitalisation

  /** `str.charAt(0).toUpperCase() + str.slice(1).toLowerCase()`, on ASCII letters. */
  function Capitalize(s: string): string {
    if s == "" then "" else [UpperChar(s[0])] + Lower(s[1..])
  }

  /** The first character upper-cased, every other one lower-cased, nothing added or dropped. */
  lemma CapitalizeChars(s: string)
    ensures |Capitalize(s)| == |s|
    ensures s != "" ==> Capitalize(s)[0] == UpperChar(s[0])
    ensures forall k :: 1 <= k < |s| ==> Capitalize(s)[k] == LowerChar(s[k])
  {
    if s != "" {
      var t := Lower(s[1..]);
      assert Capitalize(s) == [UpperChar(s[0])] + t;
      forall k | 1 <= k < |s|
        ensures Capitalize(s)[k] == LowerChar(s[k])
      {
        assert Capitalize(s)[k] == t[k - 1];
        assert s[1..][k - 1] == s[k];
      }
    }
  }

  /** Capitalising twice is capitalising once. */
  lemma CapitalizeIdempotent(s: string)
    ensures Capitalize(Capitalize(s)) == Capitalize(s)
  {
    if s != "" {
      var c := Capitalize(s);
      assert c[1..] == Lower(s[1..]);
      LowerIdempotent(s[1..]);
    }
  }

  /** The case of the input does not matter. */
  lemma CapitalizeIgnoresCase(s: string)
    ensures Capitalize(Lower(s)) == Capitalize(s)
  {
    if s != "" {
      assert Lower(s)[1..] == Lower(s[1..]);
      LowerIdempotent(s[1..]);
    }
  }

  /** `formatRole(role)`. */
  function FormatRole(role: string): string {
    Capitalize(role)
  }

  /** `formatStatus(status)`. */
  function FormatStatus(status: string): string {
    Capitalize(status)
  }

  /** The role names as the API spells them. */
  function RoleName(r: UserRole): string {
    match r
    case OWNER => "OWNER"
    case ADMIN => "ADMIN"
    case STAFF => "STAFF"
    case VIEWER => "VIEWER"
  }

  /** The status names as the API spells them. */
  function StatusName(s: UserStatus): string {
    match s
    case ACTIVE => "ACTIVE"
    case INACTIVE => "INACTIVE"
    case SUSPENDED => "SUSPENDED"
  }

  /** Capitalising a word whose tail is already known in lower case. */
  lemma CapitalizeWord(s: string, tail: string)
    requires s != "" && Lower(s[1..]) == tail
    ensures Capitalize(s) == [UpperChar(s[0])] + tail
  {
  }

  /** The badge texts of the four roles. */
  lemma RoleBadges()
    ensures FormatRole(RoleName(OWNER)) == "Owner" && FormatRole(RoleName(UserRole.ADMIN)) == "Admin"
    ensures FormatRole(RoleName(STAFF)) == "Staff" && FormatRole(RoleName(VIEWER)) == "Viewer"
  {
    assert Lower("WNER") == "wner";
    assert Lower("DMIN") == "dmin";
    assert Lower("TAFF") == "taff";
    assert Lower("IEWER") == "iewer";
    CapitalizeWord("OWNER", "wner");
    CapitalizeWord("ADMIN", "dmin");
    CapitalizeWord("STAFF", "taff");
    CapitalizeWord("VIEWER", "iewer");
  }

  /** The badge texts of the three statuses. */
  lemma StatusBadges()
    ensures FormatStatus(StatusName(ACTIVE)) == "Active" && FormatStatus(StatusName(INACTIVE)) == "Inactive"
    ensures FormatStatus(StatusName(SUSPENDED)) == "Suspended"
  {
    assert Lower("CTIVE") == "ctive";
    assert Lower("NACTIVE") == "nactive";
    assert Lower("USPENDED") == "uspended";
    CapitalizeWord("ACTIVE", "ctive");
    CapitalizeWord("INACTIVE", "nactive");
    CapitalizeWord("SUSPENDED", "uspended");
  }
}
